/** The curve editor's event handlers: pointer motion (hit test, drag to move
    or delete, drag to insert), double-click reset and scroll. Each handler
    updates the parameter record in place and is specified by the matching
    transition of module Editing. */
module Editor {
  import opened Numeric
  import opened Curves
  import opened Editing
  import opened ToneParams

  class ToneCurveEditor {
    /** The parameters being edited and the factory defaults reset copies. */
    const p: Params
    const factory: Params
    /** The active channel tab. */
    const channel: int
    var selected: int
    var mouseX: real
    var mouseY: real

    ghost predicate Valid()
      reads this`selected, p, p.nodes, factory, factory.nodes
    {
      && p.Valid() && factory.Valid() && 0 <= channel < Channels
      && Suppressed <= selected < MaxNodes
      && p.nodes != factory.nodes && p.types != factory.types
      && (forall c, c' :: 0 <= c < Channels && 0 <= c' < Channels ==> p.tonecurve[c] != factory.tonecurve[c'])
    }

    /** The active channel's curve and the selection. */
    ghost function State(): (e: Edit)
      requires Valid()
      reads this`selected, p, p.nodes, p.types, p.tonecurve[channel], factory, factory.nodes
      ensures ValidEdit(e)
    {
      Edit(p.CurveOf(channel), selected)
    }

    /** With autoscale on, the a and b curves are not edited; the L curve
        never is locked. */
    predicate Locked(): (r: bool)
      reads p
      ensures channel == ChL ==> !r
      ensures p.autoscaleAb == 0 ==> !r
      ensures p.autoscaleAb != 0 && channel != ChL ==> r
    {
      p.autoscaleAb != 0 && channel != ChL
    }

    /** The editor as set up for a channel: nothing selected, pointer outside. */
    constructor (p: Params, factory: Params, channel: int)
      requires p.Valid() && factory.Valid() && 0 <= channel < Channels
      requires p.nodes != factory.nodes && p.types != factory.types
      requires forall c, c' :: 0 <= c < Channels && 0 <= c' < Channels ==> p.tonecurve[c] != factory.tonecurve[c']
      ensures Valid() && this.p == p && this.factory == factory && this.channel == channel
      ensures selected == NoSelection && mouseX == -1.0 && mouseY == -1.0
    {
      this.p := p;
      this.factory := factory;
      this.channel := channel;
      selected := NoSelection;
      mouseX, mouseY := -1.0, -1.0;
    }

    /** The hit-test loop: the index of the nearest live node within the
        selection radius, or -1. */
    method NearestNode(mx: real, my: real) returns (nearest: int)
      requires Valid()
      ensures nearest == HitTest(Live(State().curve), mx, my)
    {
      var tonecurve := p.tonecurve[channel];
      var nodes := p.nodes[channel];
      var min := SelectRadius;
      min := min * min;
      nearest := NoSelection;
      var k := 0;
      while k < nodes
        invariant 0 <= k <= nodes
        invariant nearest == HitTest(tonecurve[..k], mx, my)
        invariant min == if nearest == NoSelection then SelectRadius * SelectRadius
                         else SquaredDistance(tonecurve[nearest], mx, my)
      {
        var dist := SquaredDistance(tonecurve[k], mx, my);
        assert tonecurve[..k + 1][..k] == tonecurve[..k];
        if dist < min {
          min := dist;
          nearest := k;
        }
        k := k + 1;
      }
    }

    /** The search for the insertion slot: the first live node whose x
        exceeds `mx`, or the count when there is none. */
    method InsertPosition(mx: real) returns (k: int)
      requires Valid()
      ensures k == InsertPos(Live(State().curve), mx)
    {
      var tonecurve := p.tonecurve[channel];
      var nodes := p.nodes[channel];
      k := NoSelection;
      if tonecurve[0].x > mx {
        k := 0;
      } else {
        var j := 1;
        while j < nodes
          invariant 1 <= j <= nodes
          invariant k == NoSelection
          invariant forall i :: 0 <= i < j ==> tonecurve[i].x <= mx
        {
          if tonecurve[j].x > mx {
            k := j;
            break;
          }
          j := j + 1;
        }
      }
      if k == NoSelection {
        k := nodes;
      }
      InsertPosUnique(Live(State().curve), mx, k);
    }

    /** Move the selected node to `q`, removing it instead when that breaks
        the order of a curve with more than two nodes. */
    method DragSelected(q: Node)
      requires Valid() && selected >= 0
      modifies this`selected, p.tonecurve[channel], p.nodes
      ensures Valid()
      ensures State() == DragMove(old(State()), q)
      ensures forall c :: 0 <= c < Channels && c != channel ==> p.nodes[c] == old(p.nodes[c])
    {
      ghost var e := State();
      var ch := channel;
      var tonecurve := p.tonecurve[ch];
      var nodes := p.nodes[ch];
      tonecurve[selected] := q;
      ghost var row := tonecurve[..];
      assert row == e.curve.row[selected := q];
      if nodes > 2 && ((selected > 0 && tonecurve[selected - 1].x >= q.x) ||
                       (selected < nodes - 1 && tonecurve[selected + 1].x <= q.x))
      {
        RemoveAt(tonecurve, nodes, selected);
        assert DragMove(e, q) == Edit(Curve(RemoveNode(row, nodes, e.selected), nodes - 1, e.curve.kind), Suppressed);
        selected := Suppressed;
        p.nodes[ch] := nodes - 1;
      } else {
        assert DragMove(e, q) == Edit(Curve(row, nodes, e.curve.kind), e.selected);
      }
    }

    /** Insert `q` at its sorted slot, shifting the later nodes up, and
        select it. */
    method InsertAtPointer(q: Node)
      requires Valid() && selected == NoSelection && p.nodes[channel] < MaxNodes
      modifies this`selected, p.tonecurve[channel], p.nodes
      ensures Valid()
      ensures State() == DragInsert(old(State()), q)
      ensures forall c :: 0 <= c < Channels && c != channel ==> p.nodes[c] == old(p.nodes[c])
    {
      var ch := channel;
      var tonecurve := p.tonecurve[ch];
      var nodes := p.nodes[ch];
      selected := InsertPosition(q.x);
      InsertAt(tonecurve, nodes, selected, q);
      p.nodes[ch] := nodes + 1;
    }

    /** Pointer motion over the curve area. `ex`, `ey` are the event's pixel
        coordinates, `allocWidth`, `allocHeight` the area's allocation. */
    method MotionNotify(ex: real, ey: real, allocWidth: int, allocHeight: int, button1: bool)
      requires Valid() && (!Locked() ==> allocWidth > 2 * Inset && allocHeight > 2 * Inset)
      modifies this`selected, this`mouseX, this`mouseY, p.tonecurve[channel], p.nodes
      ensures Valid()
      ensures Locked() ==> State() == old(State()) && mouseX == old(mouseX) && mouseY == old(mouseY)
      ensures !Locked() ==>
                var ptr := MapPointer(ex, ey, allocWidth, allocHeight);
                && State() == Motion(old(State()), false, button1, ptr.mx, ptr.my)
                && mouseX == ptr.mouseX && mouseY == ptr.mouseY
      ensures forall c :: 0 <= c < Channels && c != channel ==> p.nodes[c] == old(p.nodes[c])
    {
      if p.autoscaleAb != 0 && channel != ChL {
        return;
      }
      ghost var e := State();
      var ptr := MapPointer(ex, ey, allocWidth, allocHeight);
      mouseX, mouseY := ptr.mouseX, ptr.mouseY;
      var q := Node(ptr.mx, ptr.my);
      if button1 {
        assert Motion(e, false, true, ptr.mx, ptr.my) == Drag(e, q);
        DragAt(q);
      } else {
        assert Motion(e, false, false, ptr.mx, ptr.my) == Hover(e, ptr.mx, ptr.my);
        HoverAt(ptr.mx, ptr.my);
      }
    }

    /** Pointer motion without button 1: select the node under the pointer. */
    method HoverAt(mx: real, my: real)
      requires Valid()
      modifies this`selected
      ensures Valid()
      ensures State() == Hover(old(State()), mx, my)
    {
      selected := NearestNode(mx, my);
    }

    /** Pointer motion with button 1 held: move the selected node, or
        insert one when nothing is selected and the curve is not full. */
    method DragAt(q: Node)
      requires Valid()
      modifies this`selected, p.tonecurve[channel], p.nodes
      ensures Valid()
      ensures State() == Drag(old(State()), q)
      ensures forall c :: 0 <= c < Channels && c != channel ==> p.nodes[c] == old(p.nodes[c])
    {
      if selected >= 0 {
        DragSelected(q);
      } else if p.nodes[channel] < MaxNodes && selected >= NoSelection {
        InsertAtPointer(q);
      }
    }

    /** A button press on the curve area: a double click of button 1 resets
        the active curve to the factory curve (unless locked) and is handled;
        every other press is passed on. */
    method ButtonPress(button: int, doubleClick: bool) returns (handled: bool)
      requires Valid()
      modifies this`selected, p.tonecurve[channel], p.nodes, p.types
      ensures Valid()
      ensures handled == (button == 1 && doubleClick)
      ensures handled ==> State() == Reset(old(State()), factory.CurveOf(channel), Locked())
      ensures !handled ==> State() == old(State())
      ensures forall c :: 0 <= c < Channels && c != channel ==>
                p.nodes[c] == old(p.nodes[c]) && p.types[c] == old(p.types[c])
    {
      if button == 1 && doubleClick {
        if !(p.autoscaleAb != 0 && channel != ChL) {
          ResetChannel();
        }
        return true;
      }
      return false;
    }

    /** Copy the factory count, type and live nodes of the active channel and
        suppress the selection. */
    method ResetChannel()
      requires Valid()
      modifies this`selected, p.tonecurve[channel], p.nodes, p.types
      ensures Valid()
      ensures State() == Reset(old(State()), factory.CurveOf(channel), false)
      ensures forall c :: 0 <= c < Channels && c != channel ==>
                p.nodes[c] == old(p.nodes[c]) && p.types[c] == old(p.types[c])
    {
      var ch := channel;
      var d := factory;
      p.nodes[ch] := d.nodes[ch];
      p.types[ch] := d.types[ch];
      CopyNodes(d.tonecurve[ch], p.tonecurve[ch], d.nodes[ch]);
      selected := Suppressed;
    }

    /** A scroll over the curve area nudges the selected node's y. */
    method Scrolled(dir: ScrollDirection)
      requires Valid()
      modifies p.tonecurve[channel]
      ensures Valid()
      ensures State() == Scroll(old(State()), Locked(), dir)
    {
      if p.autoscaleAb != 0 && channel != ChL {
        return;
      }
      if selected >= 0 {
        var tonecurve := p.tonecurve[channel];
        var node := tonecurve[selected];
        if dir == Up {
          tonecurve[selected] := node.(y := MinReal(1.0, node.y + ScrollStep));
        }
        if dir == Down {
          tonecurve[selected] := node.(y := MaxReal(0.0, node.y - ScrollStep));
        }
      }
    }
  }

  /** The reset loop: copy the first `n` slots of `src` into `dst`. */
  method CopyNodes(src: array<Node>, dst: array<Node>, n: int)
    requires src != dst && 0 <= n <= src.Length == dst.Length
    modifies dst
    ensures dst[..] == src[..n] + old(dst[..])[n..]
  {
    var k := 0;
    while k < n
      invariant 0 <= k <= n
      invariant forall j :: 0 <= j < k ==> dst[j] == src[j]
      invariant forall j :: k <= j < dst.Length ==> dst[j] == old(dst[j])
    {
      dst[k] := src[k];
      k := k + 1;
    }
    assert dst[..] == src[..n] + old(dst[..])[n..];
  }

  /** The delete loop: nodes k+1..n-1 move down one slot over node k. */
  method RemoveAt(tonecurve: array<Node>, n: int, k: int)
    requires tonecurve.Length == MaxNodes && 1 <= n <= MaxNodes && 0 <= k < MaxNodes
    modifies tonecurve
    ensures tonecurve[..] == RemoveNode(old(tonecurve[..]), n, k)
  {
    ghost var row := tonecurve[..];
    var i := k;
    while i < n - 1
      invariant k <= i < MaxNodes
      invariant k < n - 1 ==> i <= n - 1
      invariant k >= n - 1 ==> i == k
      invariant forall j :: k <= j < i ==> tonecurve[j] == row[j + 1]
      invariant forall j :: 0 <= j < MaxNodes && !(k <= j < i) ==> tonecurve[j] == row[j]
    {
      tonecurve[i] := tonecurve[i + 1];
      i := i + 1;
    }
  }

  /** The insert loop: nodes k..n-1 move up one slot and q is written at k. */
  method InsertAt(tonecurve: array<Node>, n: int, k: int, q: Node)
    requires tonecurve.Length == MaxNodes && 0 <= k <= n < MaxNodes
    modifies tonecurve
    ensures tonecurve[..] == InsertNode(old(tonecurve[..]), n, k, q)
  {
    ghost var row := tonecurve[..];
    var i := n;
    while i > k
      invariant k <= i <= n
      invariant forall j :: i < j <= n ==> tonecurve[j] == row[j - 1]
      invariant forall j :: 0 <= j < MaxNodes && !(i < j <= n) ==> tonecurve[j] == row[j]
    {
      tonecurve[i] := tonecurve[i - 1];
      i := i - 1;
    }
    tonecurve[k] := q;
  }
}
