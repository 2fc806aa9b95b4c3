/** The control-point editor as pure transitions on one channel's curve and
    the selection index. The selection uses the editor's integer sentinels:
    -1 is "nothing selected" and -2 is "suppressed", set after a delete or a
    reset so that the same drag does not immediately insert a node. */
module Editing {
  import opened Numeric
  import opened Curves

  const NoSelection: int := -1
  const Suppressed: int := -2

  /** Inset of the drawing area, in pixels, on every side. */
  const Inset: int := 1
  /** A node is hit when the pointer is within this distance of it. */
  const SelectRadius: real := 0.04
  /** Scroll step applied to the selected node's y. */
  const ScrollStep: real := 0.001

  datatype Edit = Edit(curve: Curve, selected: int)

  /** A selection index is a sentinel or one of the 20 slots. It is not kept
      below the count: a tab switch changes channel without clearing it. */
  predicate ValidEdit(e: Edit)
  {
    WellFormed(e.curve) && Suppressed <= e.selected < MaxNodes
  }

  /** Pointer position after the inset is removed and it is clamped to the
      area, and the same position normalised to [0, 1] with y pointing up. */
  datatype Pointer = Pointer(mouseX: real, mouseY: real, mx: real, my: real)

  function MapPointer(ex: real, ey: real, allocWidth: int, allocHeight: int): (p: Pointer)
    requires allocWidth > 2 * Inset && allocHeight > 2 * Inset
    ensures 0.0 <= p.mx <= 1.0 && 0.0 <= p.my <= 1.0
    ensures 0.0 <= p.mouseX <= (allocWidth - 2 * Inset) as real
    ensures 0.0 <= p.mouseY <= (allocHeight - 2 * Inset) as real
    ensures ex - Inset as real <= 0.0 ==> p.mouseX == 0.0 && p.mx == 0.0
    ensures ey - Inset as real <= 0.0 ==> p.mouseY == 0.0 && p.my == 1.0
    ensures ex - Inset as real >= (allocWidth - 2 * Inset) as real ==> p.mx == 1.0
    ensures ey - Inset as real >= (allocHeight - 2 * Inset) as real ==> p.my == 0.0
    ensures 0.0 <= ex - Inset as real <= (allocWidth - 2 * Inset) as real ==> p.mouseX == ex - Inset as real
    ensures 0.0 <= ey - Inset as real <= (allocHeight - 2 * Inset) as real ==> p.mouseY == ey - Inset as real
    ensures ex - Inset as real >= (allocWidth - 2 * Inset) as real ==> p.mouseX == (allocWidth - 2 * Inset) as real
    ensures ey - Inset as real >= (allocHeight - 2 * Inset) as real ==> p.mouseY == (allocHeight - 2 * Inset) as real
  {
    var width := (allocWidth - 2 * Inset) as real;
    var height := (allocHeight - 2 * Inset) as real;
    var mouseX := ClampReal(ex - Inset as real, 0.0, width);
    var mouseY := ClampReal(ey - Inset as real, 0.0, height);
    UnitRatio(mouseX, width);
    UnitRatio(mouseY, height);
    Pointer(mouseX, mouseY, mouseX / width, 1.0 - mouseY / height)
  }

  /** The normalised position scales back to the clamped pixel position:
      mx by the width, and 1 - my by the height (y grows downwards on screen). */
  lemma MapPointerScalesBack(ex: real, ey: real, allocWidth: int, allocHeight: int)
    requires allocWidth > 2 * Inset && allocHeight > 2 * Inset
    ensures var p := MapPointer(ex, ey, allocWidth, allocHeight);
            && p.mx * (allocWidth - 2 * Inset) as real == p.mouseX
            && (1.0 - p.my) * (allocHeight - 2 * Inset) as real == p.mouseY
  {
  }

  /** Squared distance of a node from the pointer: never negative, zero at
      the node itself, and no smaller than the squared gap along either axis. */
  function SquaredDistance(n: Node, mx: real, my: real): (r: real)
    ensures r >= 0.0
    ensures n.x == mx && n.y == my ==> r == 0.0
    ensures (mx - n.x) * (mx - n.x) <= r && (my - n.y) * (my - n.y) <= r
  {
    (my - n.y) * (my - n.y) + (mx - n.x) * (mx - n.x)
  }

  /** The nearest node strictly inside the selection radius, the earliest one
      on ties, or -1 when no node is that close. */
  function HitTest(s: seq<Node>, mx: real, my: real): (r: int)
    ensures -1 <= r < |s|
    ensures r == NoSelection <==>
              forall j :: 0 <= j < |s| ==> SquaredDistance(s[j], mx, my) >= SelectRadius * SelectRadius
    ensures r >= 0 ==> SquaredDistance(s[r], mx, my) < SelectRadius * SelectRadius
    ensures r >= 0 ==> forall j :: 0 <= j < |s| ==> SquaredDistance(s[r], mx, my) <= SquaredDistance(s[j], mx, my)
    ensures r >= 0 ==> forall j :: 0 <= j < r ==> SquaredDistance(s[r], mx, my) < SquaredDistance(s[j], mx, my)
    decreases |s|
  {
    if |s| == 0 then NoSelection
    else
      var init := s[..|s| - 1];
      var r := HitTest(init, mx, my);
      var bound := if r == NoSelection then SelectRadius * SelectRadius else SquaredDistance(s[r], mx, my);
      assert forall j :: 0 <= j < |init| ==> init[j] == s[j];
      if SquaredDistance(s[|s| - 1], mx, my) < bound then |s| - 1 else r
  }

  /** Where a new node at `mx` goes: before the first node whose x exceeds
      `mx`, or after the last node. */
  function InsertPos(s: seq<Node>, mx: real): (k: int)
    ensures 0 <= k <= |s|
    ensures forall j :: 0 <= j < k ==> s[j].x <= mx
    ensures k < |s| ==> s[k].x > mx
  {
    if |s| == 0 then 0
    else if s[0].x > mx then 0
    else 1 + InsertPos(s[1..], mx)
  }

  /** The two properties of `InsertPos` determine it. */
  lemma InsertPosUnique(s: seq<Node>, mx: real, k: int)
    requires 0 <= k <= |s|
    requires forall j :: 0 <= j < k ==> s[j].x <= mx
    requires k < |s| ==> s[k].x > mx
    ensures k == InsertPos(s, mx)
  {
  }

  /** Writing slot `s` of a row leaves the live nodes on either side as they were. */
  lemma WriteKeepsOthers(row: seq<Node>, n: int, s: int, q: Node)
    requires 0 <= s < |row| && 0 <= n <= |row|
    ensures s < n ==> row[s := q][..s] == row[..n][..s]
    ensures s < n ==> row[s := q][s + 1..n] == row[..n][s + 1..]
  {
    if s < n {
      assert row[..n][s + 1..] == row[s + 1..n];
    }
  }

  /** Dragging the selected node to `q`: it moves there, and if the curve has
      more than two nodes and `q` is not strictly between its neighbours'
      x, the node is removed and the selection is suppressed. */
  function DragMove(e: Edit, q: Node): (r: Edit)
    requires ValidEdit(e) && e.selected >= 0
    ensures ValidEdit(r) && r.curve.kind == e.curve.kind
    ensures r.selected == e.selected || r.selected == Suppressed
    ensures r.selected == e.selected ==>
              r.curve.count == e.curve.count && r.curve.row == e.curve.row[e.selected := q]
    ensures r.selected == Suppressed ==>
              e.curve.count > 2 && r.curve.count == e.curve.count - 1
    ensures r.selected == Suppressed && e.selected < e.curve.count ==>
              Live(r.curve) == Live(e.curve)[..e.selected] + Live(e.curve)[e.selected + 1..]
    ensures r.selected == Suppressed && e.selected >= e.curve.count ==>
              Live(r.curve) == Live(e.curve)[..e.curve.count - 1]
    ensures e.curve.count > 2 && e.selected < e.curve.count ==>
              (r.selected == Suppressed <==>
                 (e.selected > 0 && Live(e.curve)[e.selected - 1].x >= q.x) ||
                 (e.selected < e.curve.count - 1 && Live(e.curve)[e.selected + 1].x <= q.x))
  {
    var n := e.curve.count;
    var s := e.selected;
    var row := e.curve.row[s := q];
    if n > 2 && ((s > 0 && row[s - 1].x >= q.x) || (s < n - 1 && row[s + 1].x <= q.x)) then
      var removed := RemoveNode(row, n, s);
      assert s < n ==> removed[..n - 1] == row[..s] + row[s + 1..n];
      WriteKeepsOthers(e.curve.row, n, s, q);
      Edit(Curve(removed, n - 1, e.curve.kind), Suppressed)
    else
      Edit(Curve(row, n, e.curve.kind), s)
  }

  /** Dragging with nothing selected inserts `q` at its sorted position and
      selects the new node. */
  function DragInsert(e: Edit, q: Node): (r: Edit)
    requires ValidEdit(e) && e.curve.count < MaxNodes
    ensures ValidEdit(r) && r.curve.kind == e.curve.kind
    ensures r.curve.count == e.curve.count + 1
    ensures r.selected == InsertPos(Live(e.curve), q.x)
    ensures Live(r.curve) == Live(e.curve)[..r.selected] + [q] + Live(e.curve)[r.selected..]
    ensures Live(r.curve)[r.selected] == q
  {
    var n := e.curve.count;
    var k := InsertPos(Live(e.curve), q.x);
    var row := InsertNode(e.curve.row, n, k, q);
    assert row[..n + 1] == e.curve.row[..k] + [q] + e.curve.row[k..n];
    assert e.curve.row[..k] == Live(e.curve)[..k] && e.curve.row[k..n] == Live(e.curve)[k..];
    Edit(Curve(row, n + 1, e.curve.kind), k)
  }

  /** Pointer motion with the primary button held. */
  function Drag(e: Edit, q: Node): (r: Edit)
    requires ValidEdit(e)
    ensures ValidEdit(r) && r.curve.kind == e.curve.kind
    ensures e.curve.count - 1 <= r.curve.count <= e.curve.count + 1
    ensures e.selected == Suppressed ==> r == e
    ensures e.selected < 0 && e.curve.count == MaxNodes ==> r == e
    ensures e.selected == NoSelection && e.curve.count < MaxNodes ==> r == DragInsert(e, q)
    ensures e.selected >= 0 ==> r == DragMove(e, q)
  {
    if e.selected >= 0 then DragMove(e, q)
    else if e.curve.count < MaxNodes && e.selected >= NoSelection then DragInsert(e, q)
    else e
  }

  /** Pointer motion without the primary button: select by hit test. */
  function Hover(e: Edit, mx: real, my: real): (r: Edit)
    requires ValidEdit(e)
    ensures ValidEdit(r) && r.curve == e.curve
    ensures r.selected == HitTest(Live(e.curve), mx, my)
    ensures 0 <= r.selected ==> r.selected < e.curve.count
  {
    e.(selected := HitTest(Live(e.curve), mx, my))
  }

  /** One pointer-motion event. `locked` is "autoscale is on and the active
      channel is a or b": then nothing changes, not even the selection. */
  function Motion(e: Edit, locked: bool, button1: bool, mx: real, my: real): (r: Edit)
    requires ValidEdit(e)
    ensures ValidEdit(r) && r.curve.kind == e.curve.kind
    ensures locked ==> r == e
    ensures !locked && button1 ==> r == Drag(e, Node(mx, my))
    ensures !locked && !button1 ==> r == Hover(e, mx, my)
  {
    if locked then e
    else if button1 then Drag(e, Node(mx, my))
    else Hover(e, mx, my)
  }

  /** Double-click: copy the factory curve's count, type and live nodes into
      the channel and suppress the selection; a no-op when `locked`. */
  function Reset(e: Edit, factory: Curve, locked: bool): (r: Edit)
    requires ValidEdit(e) && WellFormed(factory)
    ensures ValidEdit(r)
    ensures locked ==> r == e
    ensures !locked ==> r.selected == Suppressed && r.curve.kind == factory.kind
    ensures !locked ==> r.curve.count == factory.count && Live(r.curve) == Live(factory)
    ensures !locked ==> r.curve.row[factory.count..] == e.curve.row[factory.count..]
  {
    if locked then e
    else
      var row := factory.row[..factory.count] + e.curve.row[factory.count..];
      assert row[..factory.count] == factory.row[..factory.count];
      Edit(Curve(row, factory.count, factory.kind), Suppressed)
  }

  datatype ScrollDirection = Up | Down | Left | Right

  /** The scroll nudge of one y value, kept within [0, 1]. */
  function Nudge(y: real, dir: ScrollDirection): (r: real)
    ensures 0.0 <= y <= 1.0 ==> 0.0 <= r <= 1.0
    ensures dir == Up ==> y <= r <= y + ScrollStep || (y > 1.0 && r == 1.0)
    ensures dir == Down ==> y - ScrollStep <= r <= y || (y < 0.0 && r == 0.0)
    ensures dir == Up && y + ScrollStep <= 1.0 ==> r == y + ScrollStep
    ensures dir == Down && y - ScrollStep >= 0.0 ==> r == y - ScrollStep
    ensures dir == Up && y + ScrollStep >= 1.0 ==> r == 1.0
    ensures dir == Down && y - ScrollStep <= 0.0 ==> r == 0.0
    ensures dir != Up && dir != Down ==> r == y
  {
    match dir
    case Up => MinReal(1.0, y + ScrollStep)
    case Down => MaxReal(0.0, y - ScrollStep)
    case _ => y
  }

  /** The nudge exactly as the scroll handler writes it: the upward step is
      bounded below by 0 and the downward step above by 1. */
  function NudgeAsWritten(y: real, dir: ScrollDirection): (r: real)
    ensures dir == Up && y >= -ScrollStep ==> r == y + ScrollStep
    ensures dir == Down && y <= 1.0 + ScrollStep ==> r == y - ScrollStep
    ensures dir == Up && y < -ScrollStep ==> r == 0.0
    ensures dir == Down && y > 1.0 + ScrollStep ==> r == 1.0
    ensures dir != Up && dir != Down ==> r == y
  {
    match dir
    case Up => MaxReal(0.0, y + ScrollStep)
    case Down => MinReal(1.0, y - ScrollStep)
    case _ => y
  }

  /** As written, scrolling up at the top edge or down at the bottom edge
      leaves [0, 1]; the bounded nudge stays at the edge. */
  lemma NudgeAsWrittenLeavesUnitRange()
    ensures NudgeAsWritten(1.0, Up) > 1.0 && Nudge(1.0, Up) == 1.0
    ensures NudgeAsWritten(0.0, Down) < 0.0 && Nudge(0.0, Down) == 0.0
  {
  }

  /** As written, two downward scrolls from 0 reach -0.002, and the next
      upward scroll is floored back to 0: a jump of two steps, not one. */
  lemma NudgeAsWrittenJumpsBack()
    ensures NudgeAsWritten(NudgeAsWritten(0.0, Down), Down) == -2.0 * ScrollStep
    ensures NudgeAsWritten(-2.0 * ScrollStep, Up) == 0.0
  {
  }

  /** Scroll: nudge the selected node's y; nothing else changes, and nothing
      at all when `locked` or when no node is selected. */
  function Scroll(e: Edit, locked: bool, dir: ScrollDirection): (r: Edit)
    requires ValidEdit(e)
    ensures ValidEdit(r)
    ensures r.selected == e.selected && r.curve.count == e.curve.count && r.curve.kind == e.curve.kind
    ensures locked || e.selected < 0 ==> r == e
    ensures forall i :: 0 <= i < MaxNodes && i != e.selected ==> r.curve.row[i] == e.curve.row[i]
    ensures !locked && e.selected >= 0 ==>
              r.curve.row[e.selected] ==
                Node(e.curve.row[e.selected].x, Nudge(e.curve.row[e.selected].y, dir))
  {
    if locked || e.selected < 0 then e
    else
      var s := e.selected;
      var n := e.curve.row[s];
      e.(curve := e.curve.(row := e.curve.row[s := Node(n.x, Nudge(n.y, dir))]))
  }

  predicate YInUnitRange(s: seq<Node>)
  {
    forall i :: 0 <= i < |s| ==> 0.0 <= s[i].y <= 1.0
  }

  /** Scrolling keeps every live y within [0, 1] when it was before. */
  lemma ScrollKeepsYInUnitRange(e: Edit, locked: bool, dir: ScrollDirection)
    requires ValidEdit(e) && YInUnitRange(Live(e.curve))
    ensures YInUnitRange(Live(Scroll(e, locked, dir).curve))
  {
    var r := Scroll(e, locked, dir);
    forall i | 0 <= i < r.curve.count
      ensures 0.0 <= Live(r.curve)[i].y <= 1.0
    {
      assert Live(e.curve)[i] == e.curve.row[i];
    }
  }

  /** With more than two nodes, a drag that moves (or removes) a node keeps a
      strictly increasing curve strictly increasing. */
  lemma DragMoveKeepsStrictOrder(e: Edit, q: Node)
    requires ValidEdit(e) && e.selected >= 0 && e.curve.count > 2
    requires StrictlyIncreasingX(Live(e.curve))
    ensures StrictlyIncreasingX(Live(DragMove(e, q).curve))
  {
    var r := DragMove(e, q);
    var s, n := e.selected, e.curve.count;
    if r.selected == Suppressed {
      if s < n {
        RemoveKeepsStrictlyIncreasing(Live(e.curve), s);
      }
    } else if s < n {
      assert Live(r.curve) == Live(e.curve)[s := q];
      MoveKeepsStrictlyIncreasing(Live(e.curve), s, q);
    } else {
      assert Live(r.curve) == Live(e.curve);
    }
  }

  /** With exactly two nodes no node is ever removed, so a drag can carry a
      node past its neighbour. */
  lemma DragMoveTwoNodesCanReorder()
    ensures var e := Edit(Curve([Origin, Node(1.0, 1.0)] + Zeros(18), 2, MonotoneHermite), 0);
            StrictlyIncreasingX(Live(e.curve)) &&
            !StrictlyIncreasingX(Live(DragMove(e, Node(1.0, 0.5)).curve))
  {
    var e := Edit(Curve([Origin, Node(1.0, 1.0)] + Zeros(18), 2, MonotoneHermite), 0);
    var r := DragMove(e, Node(1.0, 0.5));
    assert Live(r.curve)[0] == Node(1.0, 0.5) && Live(r.curve)[1] == Node(1.0, 1.0);
  }

  /** A drag that inserts keeps a non-decreasing curve non-decreasing, and a
      strictly increasing one strictly increasing unless a node already has
      the pointer's x. */
  lemma DragInsertKeepsOrder(e: Edit, q: Node)
    requires ValidEdit(e) && e.curve.count < MaxNodes
    ensures NonDecreasingX(Live(e.curve)) ==> NonDecreasingX(Live(DragInsert(e, q).curve))
    ensures StrictlyIncreasingX(Live(e.curve)) &&
            (forall j :: 0 <= j < e.curve.count ==> Live(e.curve)[j].x != q.x) ==>
              StrictlyIncreasingX(Live(DragInsert(e, q).curve))
  {
    var s := Live(e.curve);
    var k := InsertPos(s, q.x);
    if NonDecreasingX(s) {
      InsertKeepsNonDecreasing(s, k, q);
    }
    if StrictlyIncreasingX(s) && forall j :: 0 <= j < |s| ==> s[j].x != q.x {
      InsertKeepsStrictlyIncreasing(s, k, q);
    }
  }

  /** While the selection is suppressed, a drag changes nothing until a hover
      clears the suppression (to a node index or to -1). */
  lemma SuppressionBlocksDrag(e: Edit, q: Node, mx: real, my: real)
    requires ValidEdit(e) && e.selected == Suppressed
    ensures Motion(e, false, true, q.x, q.y) == e
    ensures Motion(e, false, false, mx, my).selected != Suppressed
  {
  }

  /** Any pointer motion keeps a strictly increasing curve strictly
      increasing, except for a drag on a two-node curve and an insertion at
      an x some node already has. */
  lemma MotionKeepsStrictOrder(e: Edit, locked: bool, button1: bool, mx: real, my: real)
    requires ValidEdit(e) && StrictlyIncreasingX(Live(e.curve))
    requires e.selected >= 0 ==> e.curve.count > 2
    requires e.selected == NoSelection ==>
               forall j :: 0 <= j < e.curve.count ==> Live(e.curve)[j].x != mx
    ensures StrictlyIncreasingX(Live(Motion(e, locked, button1, mx, my).curve))
  {
    if !locked && button1 {
      if e.selected >= 0 {
        DragMoveKeepsStrictOrder(e, Node(mx, my));
      } else if e.selected == NoSelection && e.curve.count < MaxNodes {
        DragInsertKeepsOrder(e, Node(mx, my));
      }
    }
  }

  /** Dragging with nothing selected on a three-node curve, between the first
      two nodes, gives four nodes with the new one at index 1. */
  lemma InsertBetweenFirstTwoNodes()
    ensures var e := Edit(Curve([Origin, Node(0.5, 0.5), Node(1.0, 1.0)] + Zeros(17), 3, MonotoneHermite),
                          NoSelection);
            var r := Motion(e, false, true, 0.25, 0.7);
            r.curve.count == 4 && r.selected == 1 &&
            Live(r.curve) == [Origin, Node(0.25, 0.7), Node(0.5, 0.5), Node(1.0, 1.0)]
  {
    var e := Edit(Curve([Origin, Node(0.5, 0.5), Node(1.0, 1.0)] + Zeros(17), 3, MonotoneHermite),
                  NoSelection);
    var s := Live(e.curve);
    assert s == [Origin, Node(0.5, 0.5), Node(1.0, 1.0)];
    InsertPosUnique(s, 0.25, 1);
  }
}
