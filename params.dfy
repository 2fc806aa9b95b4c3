/** The tone curve's parameter record (version 3) and its migration from the
    version-1 layout. */
module ToneParams {
  import opened Curves

  /** The version of the record this module reads and writes. */
  const CurrentVersion: int := 3

  /** The version-3 parameter record: per channel a 20-slot node row, a node
      count and a spline type, plus the autoscale flag and the preset id.
      The rows, counts and types are fixed-size buffers updated in place. */
  class Params {
    const tonecurve: seq<array<Node>>
    const nodes: array<int>
    const types: array<CurveType>
    var autoscaleAb: int
    var preset: int

    /** The buffers have the record's fixed sizes and the rows are distinct. */
    ghost predicate Shaped()
      reads this
    {
      && |tonecurve| == Channels && nodes.Length == Channels && types.Length == Channels
      && (forall c :: 0 <= c < Channels ==> tonecurve[c].Length == MaxNodes)
      && (forall c, c' :: 0 <= c < c' < Channels ==> tonecurve[c] != tonecurve[c'])
    }

    /** Every channel has between 2 and 20 nodes. */
    ghost predicate Valid()
      reads this, nodes
    {
      Shaped() && forall c :: 0 <= c < Channels ==> 2 <= nodes[c] <= MaxNodes
    }

    ghost function CurveOf(ch: int): (c: Curve)
      requires Valid() && 0 <= ch < Channels
      reads this, nodes, types, tonecurve[ch]
      ensures WellFormed(c)
    {
      Curve(tonecurve[ch][..], nodes[ch], types[ch])
    }

    /** The record as module initialisation fills it. */
    constructor Defaults()
      ensures Shaped() && Valid() && fresh(nodes) && fresh(types)
      ensures forall c :: 0 <= c < Channels ==> fresh(tonecurve[c])
      ensures IsDefault()
    {
      var rowL := new Node[MaxNodes];
      var rowA := new Node[MaxNodes];
      var rowB := new Node[MaxNodes];
      tonecurve := [rowL, rowA, rowB];
      nodes := new int[Channels];
      types := new CurveType[Channels];
      new;
      LoadDefaults();
    }

    ghost predicate IsDefault()
      reads this, nodes, types, tonecurve
      requires Shaped()
    {
      && (forall c :: 0 <= c < Channels ==> tonecurve[c][..] == DefaultRow(c))
      && nodes[..] == [DefaultCount(ChL), DefaultCount(ChA), DefaultCount(ChB)]
      && types[..] == [MonotoneHermite, MonotoneHermite, MonotoneHermite]
      && autoscaleAb == 1 && preset == 0
    }

    /** Overwrite the whole record with the default initialiser: L is the
        2-node identity, a and b the 3-node identity, all monotone Hermite,
        autoscale on, preset 0, every other slot zero. */
    method LoadDefaults()
      requires Shaped()
      modifies this, nodes, types, tonecurve
      ensures Shaped() && Valid() && IsDefault()
    {
      var c := 0;
      while c < Channels
        invariant 0 <= c <= Channels
        invariant forall c' :: 0 <= c' < c ==> tonecurve[c'][..] == DefaultRow(c')
      {
        FillRow(tonecurve[c], DefaultRow(c));
        c := c + 1;
      }
      nodes[ChL], nodes[ChA], nodes[ChB] := DefaultCount(ChL), DefaultCount(ChA), DefaultCount(ChB);
      types[ChL], types[ChA], types[ChB] := MonotoneHermite, MonotoneHermite, MonotoneHermite;
      autoscaleAb := 1;
      preset := 0;
      assert nodes[..] == [DefaultCount(ChL), DefaultCount(ChA), DefaultCount(ChB)];
      assert types[..] == [MonotoneHermite, MonotoneHermite, MonotoneHermite];
    }
  }

  /** Write `contents` into `row`, slot by slot. */
  method FillRow(row: array<Node>, contents: seq<Node>)
    requires row.Length == |contents|
    modifies row
    ensures row[..] == contents
  {
    var k := 0;
    while k < row.Length
      invariant 0 <= k <= row.Length
      invariant forall j :: 0 <= j < k ==> row[j] == contents[j]
    {
      row[k] := contents[k];
      k := k + 1;
    }
  }

  function DefaultCount(ch: int): int
  {
    if ch == ChL then 2 else 3
  }

  /** The default row of a channel: the identity through its nodes, zeros after. */
  function DefaultRow(ch: int): (r: seq<Node>)
    ensures |r| == MaxNodes
    ensures r[..DefaultCount(ch)] ==
              if ch == ChL then [Origin, Node(1.0, 1.0)]
              else [Origin, Node(0.5, 0.5), Node(1.0, 1.0)]
    ensures StrictlyIncreasingX(r[..DefaultCount(ch)])
  {
    if ch == ChL then [Origin, Node(1.0, 1.0)] + Zeros(18)
    else [Origin, Node(0.5, 0.5), Node(1.0, 1.0)] + Zeros(17)
  }

  /** The version-1 record: six L nodes as separate x and y arrays. */
  datatype ParamsV1 = ParamsV1(tonecurveX: seq<real>, tonecurveY: seq<real>, preset: int)

  /** The L row a version-1 record migrates to: its six nodes, then zeros. */
  function MigratedRow(o: ParamsV1): (r: seq<Node>)
    requires |o.tonecurveX| == 6 && |o.tonecurveY| == 6
    ensures |r| == MaxNodes
    ensures forall k :: 0 <= k < 6 ==> r[k] == Node(o.tonecurveX[k], o.tonecurveY[k])
    ensures forall k :: 6 <= k < MaxNodes ==> r[k] == Origin
  {
    seq(6, k requires 0 <= k < 6 => Node(o.tonecurveX[k], o.tonecurveY[k])) + Zeros(14)
  }

  /** Convert a parameter record of version `oldVersion` into `n` of version
      `newVersion`. Only 1 to 3 is supported: it returns 0 and fills `n`;
      any other pair returns 1 and leaves `n` as it was. */
  method LegacyParams(o: ParamsV1, oldVersion: int, n: Params, newVersion: int) returns (r: int)
    requires |o.tonecurveX| == 6 && |o.tonecurveY| == 6
    requires n.Shaped()
    modifies n, n.nodes, n.types, n.tonecurve
    ensures n.Shaped()
    ensures r == 0 <==> oldVersion == 1 && newVersion == CurrentVersion
    ensures r != 0 ==> r == 1 && unchanged(n, n.nodes, n.types) && unchanged(n.tonecurve)
    ensures r == 0 ==> n.Valid()
    ensures r == 0 ==> n.tonecurve[ChL][..] == MigratedRow(o)
    ensures r == 0 ==> n.tonecurve[ChA][..] == DefaultRow(ChA) && n.tonecurve[ChB][..] == DefaultRow(ChB)
    ensures r == 0 ==> n.nodes[..] == [6, 3, 3]
    ensures r == 0 ==> n.types[..] == [CubicSpline, MonotoneHermite, MonotoneHermite]
    ensures r == 0 ==> n.autoscaleAb == 1 && n.preset == o.preset
  {
    if oldVersion == 1 && newVersion == CurrentVersion {
      n.LoadDefaults();
      CopyV1Nodes(o, n.tonecurve[ChL]);
      n.nodes[ChL] := 6;
      n.types[ChL] := CubicSpline;
      n.autoscaleAb := 1;
      n.preset := o.preset;
      assert n.nodes[..] == [6, 3, 3];
      assert n.types[..] == [CubicSpline, MonotoneHermite, MonotoneHermite];
      return 0;
    }
    return 1;
  }

  /** The two loops of the migration that copy the six x values and then the
      six y values into a default L row. */
  method CopyV1Nodes(o: ParamsV1, row: array<Node>)
    requires |o.tonecurveX| == 6 && |o.tonecurveY| == 6
    requires row[..] == DefaultRow(ChL)
    modifies row
    ensures row[..] == MigratedRow(o)
  {
    var k := 0;
    while k < 6
      invariant 0 <= k <= 6
      invariant forall j :: 0 <= j < k ==> row[j] == Node(o.tonecurveX[j], DefaultRow(ChL)[j].y)
      invariant forall j :: k <= j < MaxNodes ==> row[j] == DefaultRow(ChL)[j]
    {
      row[k] := row[k].(x := o.tonecurveX[k]);
      k := k + 1;
    }
    k := 0;
    while k < 6
      invariant 0 <= k <= 6
      invariant forall j :: 0 <= j < k ==> row[j] == Node(o.tonecurveX[j], o.tonecurveY[j])
      invariant forall j :: k <= j < 6 ==> row[j] == Node(o.tonecurveX[j], DefaultRow(ChL)[j].y)
      invariant forall j :: 6 <= j < MaxNodes ==> row[j] == Origin
    {
      row[k] := row[k].(y := o.tonecurveY[k]);
      k := k + 1;
    }
    assert row[..] == MigratedRow(o);
  }
}
