/** One channel's control points: the fixed 20-slot node row of the parameter
    record, the live prefix of it, and the two in-place shifts the editor uses
    to insert and remove a node. */
module Curves {

  /** Capacity of a channel's node row (`nodes < 20` in the editor). */
  const MaxNodes: int := 20
  /** The L, a and b channels of the Lab parameter record. */
  const Channels: int := 3
  const ChL: int := 0
  const ChA: int := 1
  const ChB: int := 2

  datatype Node = Node(x: real, y: real)

  /** The interpolation families of the curve sampler. */
  datatype CurveType = CubicSpline | CatmullRom | MonotoneHermite

  /** One channel as the parameter record stores it: all 20 slots of the row,
      the node count and the spline type. Slots at and beyond `count` are dead. */
  datatype Curve = Curve(row: seq<Node>, count: int, kind: CurveType)

  const Origin: Node := Node(0.0, 0.0)

  predicate WellFormed(c: Curve)
  {
    |c.row| == MaxNodes && 2 <= c.count <= MaxNodes
  }

  /** The nodes the curve actually passes through. */
  function Live(c: Curve): seq<Node>
    requires WellFormed(c)
  {
    c.row[..c.count]
  }

  predicate NonDecreasingX(s: seq<Node>)
  {
    forall i, j :: 0 <= i < j < |s| ==> s[i].x <= s[j].x
  }

  predicate StrictlyIncreasingX(s: seq<Node>)
  {
    forall i, j :: 0 <= i < j < |s| ==> s[i].x < s[j].x
  }

  /** `n` nodes at the origin: what a zero-initialised row holds. */
  function Zeros(n: nat): (r: seq<Node>)
    ensures |r| == n && forall i :: 0 <= i < n ==> r[i] == Origin
  {
    seq(n, _ => Origin)
  }

  /** The effect of shifting slots `k..n-1` up by one (the loop that runs
      `i` from `n` down to `k + 1`) and then storing `q` at slot `k`. */
  function InsertNode(row: seq<Node>, n: int, k: int, q: Node): (r: seq<Node>)
    requires |row| == MaxNodes && 0 <= k <= n < MaxNodes
    ensures |r| == MaxNodes
    ensures r[..n + 1] == row[..k] + [q] + row[k..n]
    ensures r[n + 1..] == row[n + 1..]
  {
    var r := seq(MaxNodes, i requires 0 <= i < MaxNodes =>
                   if i == k then q else if k < i <= n then row[i - 1] else row[i]);
    assert r[..n + 1] == row[..k] + [q] + row[k..n] by {
      forall i | 0 <= i < n + 1
        ensures r[i] == (row[..k] + [q] + row[k..n])[i]
      {
        if i < k {
        } else if i == k {
        } else {
          assert (row[..k] + [q] + row[k..n])[i] == row[k..n][i - k - 1];
        }
      }
    }
    r
  }

  /** The effect of the loop that copies slot `i + 1` into slot `i` for
      `i` from `k` up to `n - 2`. Slot `n - 1` keeps its old value. */
  function RemoveNode(row: seq<Node>, n: int, k: int): (r: seq<Node>)
    requires |row| == MaxNodes && 1 <= n <= MaxNodes && 0 <= k < MaxNodes
    ensures |r| == MaxNodes
    ensures k < n ==> r[..n - 1] == row[..k] + row[k + 1..n]
    ensures n - 1 <= k ==> r == row
    ensures r[n - 1..] == row[n - 1..]
  {
    var r := seq(MaxNodes, i requires 0 <= i < MaxNodes =>
                   if k <= i < n - 1 then row[i + 1] else row[i]);
    assert k < n ==> r[..n - 1] == row[..k] + row[k + 1..n] by {
      if k < n {
        forall i | 0 <= i < n - 1
          ensures r[i] == (row[..k] + row[k + 1..n])[i]
        {
          if i >= k {
            assert (row[..k] + row[k + 1..n])[i] == row[k + 1..n][i - k];
          }
        }
      }
    }
    r
  }

  /** Inserting `q` in front of the first node whose x exceeds `q.x` keeps a
      non-decreasing list non-decreasing. */
  lemma InsertKeepsNonDecreasing(s: seq<Node>, k: int, q: Node)
    requires NonDecreasingX(s) && 0 <= k <= |s|
    requires forall j :: 0 <= j < k ==> s[j].x <= q.x
    requires k < |s| ==> q.x < s[k].x
    ensures NonDecreasingX(s[..k] + [q] + s[k..])
  {
    var t := s[..k] + [q] + s[k..];
    forall i, j | 0 <= i < j < |t|
      ensures t[i].x <= t[j].x
    {
      if j < k {
        assert t[i] == s[i] && t[j] == s[j];
      } else if j == k {
        assert t[i] == s[i];
      } else if i < k {
        assert t[i] == s[i] && t[j] == s[j - 1];
      } else if i == k {
        assert t[j] == s[j - 1] && s[k].x <= s[j - 1].x;
      } else {
        assert t[i] == s[i - 1] && t[j] == s[j - 1];
      }
    }
  }

  /** The same insertion keeps a strictly increasing list strictly increasing
      when no node already sits at `q.x`. */
  lemma InsertKeepsStrictlyIncreasing(s: seq<Node>, k: int, q: Node)
    requires StrictlyIncreasingX(s) && 0 <= k <= |s|
    requires forall j :: 0 <= j < k ==> s[j].x <= q.x
    requires k < |s| ==> q.x < s[k].x
    requires forall j :: 0 <= j < |s| ==> s[j].x != q.x
    ensures StrictlyIncreasingX(s[..k] + [q] + s[k..])
  {
    var t := s[..k] + [q] + s[k..];
    forall i, j | 0 <= i < j < |t|
      ensures t[i].x < t[j].x
    {
      if j < k {
        assert t[i] == s[i] && t[j] == s[j];
      } else if j == k {
        assert t[i] == s[i] && s[i].x != q.x;
      } else if i < k {
        assert t[i] == s[i] && t[j] == s[j - 1];
      } else if i == k {
        assert t[j] == s[j - 1] && s[k].x <= s[j - 1].x;
      } else {
        assert t[i] == s[i - 1] && t[j] == s[j - 1];
      }
    }
  }

  /** Removing a node keeps a strictly increasing list strictly increasing. */
  lemma RemoveKeepsStrictlyIncreasing(s: seq<Node>, k: int)
    requires StrictlyIncreasingX(s) && 0 <= k < |s|
    ensures StrictlyIncreasingX(s[..k] + s[k + 1..])
  {
    var t := s[..k] + s[k + 1..];
    forall i, j | 0 <= i < j < |t|
      ensures t[i].x < t[j].x
    {
      if j < k {
        assert t[i] == s[i] && t[j] == s[j];
      } else if i < k {
        assert t[i] == s[i] && t[j] == s[j + 1];
      } else {
        assert t[i] == s[i + 1] && t[j] == s[j + 1];
      }
    }
  }

  /** Moving node `k` to a position strictly between its neighbours keeps a
      strictly increasing list strictly increasing. */
  lemma MoveKeepsStrictlyIncreasing(s: seq<Node>, k: int, q: Node)
    requires StrictlyIncreasingX(s) && 0 <= k < |s|
    requires k > 0 ==> s[k - 1].x < q.x
    requires k < |s| - 1 ==> q.x < s[k + 1].x
    ensures StrictlyIncreasingX(s[k := q])
  {
    var t := s[k := q];
    forall i, j | 0 <= i < j < |t|
      ensures t[i].x < t[j].x
    {
      if i == k {
        assert s[k + 1].x <= s[j].x;
      } else if j == k {
        assert s[i].x <= s[k - 1].x;
      }
    }
  }
}
