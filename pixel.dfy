/** The pixel side of the tone curve: the per-pixel Lab mapping through the
    three 65536-entry tables, the image loop that applies it, the colour
    picker's normalisation, and the table samples the highlight
    extrapolation is fitted to. */
module Pixel {
  import opened Numeric
  import opened Curves

  const TableSize: int := 0x10000
  const MaxIndex: int := 0xffff
  /** Normalised L at or below which autoscale uses the fixed low gain. */
  const LowThreshold: real := 0.01
  /** The table slot of the low gain, 655 (see `LowIndexIsTruncatedThreshold`). */
  const LowIndex: int := 655

  /** One Lab pixel: L in [0, 100], a and b around 0, and a fourth channel
      that is carried through. */
  datatype Lab = Lab(L: real, a: real, b: real, alpha: real)

  /** The three coefficients of the exponential highlight extrapolation. */
  datatype Coeffs = Coeffs(c0: real, c1: real, c2: real)

  /** What the pipe holds after the parameters are committed: the rescaled
      L, a and b tables, the autoscale flag and the extrapolation fit. */
  datatype PipeData = PipeData(tableL: seq<real>, tableA: seq<real>, tableB: seq<real>,
                               autoscaleAb: int, coeffs: Coeffs)

  predicate ValidData(d: PipeData)
  {
    |d.tableL| == TableSize && |d.tableA| == TableSize && |d.tableB| == TableSize
  }

  /** The lookup slot of a normalised value, `CLAMP((int)(v * 0xffff), 0, 0xffff)`. */
  function TableIndex(v: real): (k: int)
    ensures 0 <= k <= MaxIndex
    ensures 0.0 <= v <= 1.0 ==> k as real <= v * MaxIndex as real < k as real + 1.0
    ensures v <= 0.0 ==> k == 0
    ensures v >= 1.0 ==> k == MaxIndex
  {
    ClampInt(Trunc(v * MaxIndex as real), 0, MaxIndex)
  }

  /** A larger value never looks up an earlier slot. */
  lemma TableIndexMonotone(v: real, w: real)
    requires v <= w
    ensures TableIndex(v) <= TableIndex(w)
  {
    TruncMonotone(v * MaxIndex as real, w * MaxIndex as real);
  }

  /** The low-gain slot is the threshold scaled to the table and truncated,
      `(int)(0.01 * 0xffff)`. */
  lemma LowIndexIsTruncatedThreshold()
    ensures LowIndex == Trunc(LowThreshold * MaxIndex as real)
  {
  }

  /** The lookup slot of an a or b value, normalised from [-128, 128]. */
  function ChromaIndex(v: real): (k: int)
    ensures 0 <= k <= MaxIndex
    ensures -128.0 <= v <= 128.0 ==> k as real <= (v + 128.0) / 256.0 * MaxIndex as real < k as real + 1.0
    ensures v <= -128.0 ==> k == 0
    ensures v >= 128.0 ==> k == MaxIndex
  {
    TableIndex((v + 128.0) / 256.0)
  }

  /** `L_in < 1 / c0`: the table covers L up to the reciprocal of the first
      coefficient. With `c0 == 0` the float reciprocal is +infinity, so every
      value lies below it. */
  predicate InTableRange(lIn: real, c: Coeffs): (r: bool)
    ensures c.c0 == 0.0 ==> r
    ensures c.c0 > 0.0 && lIn <= 0.0 ==> r
  {
    c.c0 == 0.0 || lIn < 1.0 / c.c0
  }

  /** The output L: a table lookup below the extrapolation start, the
      extrapolation (supplied by the caller) from there on. */
  function LuminanceOut(d: PipeData, lIn: real, evalExp: (Coeffs, real) -> real): (r: real)
    requires ValidData(d)
    ensures InTableRange(lIn, d.coeffs) ==> r == d.tableL[TableIndex(lIn)]
    ensures !InTableRange(lIn, d.coeffs) ==> r == evalExp(d.coeffs, lIn)
    ensures d.coeffs.c0 == 0.0 ==> r == d.tableL[TableIndex(lIn)]
  {
    if InTableRange(lIn, d.coeffs) then d.tableL[TableIndex(lIn)] else evalExp(d.coeffs, lIn)
  }

  /** The autoscaled chroma `v * lOut / lIn`: it keeps the ratio of chroma
      to lightness. */
  function ScaleChroma(v: real, lOut: real, lIn: real): (r: real)
    requires lIn != 0.0
    ensures r * lIn == v * lOut
  {
    v * lOut / lIn
  }

  /** `r` carries `pin`'s ratio of a and of b to L: `r.a / r.L == pin.a / pin.L`,
      written without division. */
  predicate SameChromaRatio(pin: Lab, r: Lab)
  {
    r.a * pin.L == pin.a * r.L && r.b * pin.L == pin.b * r.L
  }

  /** Autoscale off: a and b go through their own tables. */
  function TablePixel(d: PipeData, pin: Lab, lOut: real): (r: Lab)
    requires ValidData(d)
    ensures r.L == lOut && r.alpha == pin.alpha
    ensures r.a == d.tableA[ChromaIndex(pin.a)] && r.b == d.tableB[ChromaIndex(pin.b)]
  {
    Lab(lOut, d.tableA[ChromaIndex(pin.a)], d.tableB[ChromaIndex(pin.b)], pin.alpha)
  }

  /** Autoscale on above the threshold: a and b follow the change of L. */
  function RatioPixel(pin: Lab, lOut: real): (r: Lab)
    requires pin.L > 1.0
    ensures r.L == lOut && r.alpha == pin.alpha
    ensures SameChromaRatio(pin, r)
  {
    Lab(lOut, ScaleChroma(pin.a, lOut, pin.L), ScaleChroma(pin.b, lOut, pin.L), pin.alpha)
  }

  /** Autoscale on at or below the threshold: L, a and b share one gain. */
  function LowGainPixel(pin: Lab, low: real): (r: Lab)
    ensures r == Lab(pin.L * low, pin.a * low, pin.b * low, pin.alpha)
    ensures SameChromaRatio(pin, r)
  {
    assert (pin.a * low) * pin.L == pin.a * (pin.L * low);
    assert (pin.b * low) * pin.L == pin.b * (pin.L * low);
    Lab(pin.L * low, pin.a * low, pin.b * low, pin.alpha)
  }

  /** The tone curve applied to one pixel. */
  function ProcessPixel(d: PipeData, pin: Lab, evalExp: (Coeffs, real) -> real): (r: Lab)
    requires ValidData(d)
    ensures r.alpha == pin.alpha
    ensures d.autoscaleAb == 0 ==>
              && r.L == LuminanceOut(d, pin.L / 100.0, evalExp)
              && r.a == d.tableA[ChromaIndex(pin.a)]
              && r.b == d.tableB[ChromaIndex(pin.b)]
    ensures d.autoscaleAb != 0 && pin.L / 100.0 > LowThreshold ==>
              r.L == LuminanceOut(d, pin.L / 100.0, evalExp)
    ensures d.autoscaleAb != 0 && pin.L / 100.0 <= LowThreshold ==>
              r == LowGainPixel(pin, d.tableL[LowIndex])
  {
    var lIn := pin.L / 100.0;
    var out0 := LuminanceOut(d, lIn, evalExp);
    if d.autoscaleAb == 0 then
      TablePixel(d, pin, out0)
    else if lIn > LowThreshold then
      assert pin.L > 1.0 by { assert pin.L == lIn * 100.0; }
      RatioPixel(pin, out0)
    else
      LowGainPixel(pin, d.tableL[LowIndex])
  }

  /** Autoscale above the threshold: a and b change by L's ratio. */
  lemma RatioBranchKeepsChromaRatio(d: PipeData, pin: Lab, evalExp: (Coeffs, real) -> real)
    requires ValidData(d) && d.autoscaleAb != 0 && pin.L / 100.0 > LowThreshold
    ensures SameChromaRatio(pin, ProcessPixel(d, pin, evalExp))
  {
    assert pin.L > 1.0 by { assert pin.L == (pin.L / 100.0) * 100.0; }
    assert ProcessPixel(d, pin, evalExp) == RatioPixel(pin, LuminanceOut(d, pin.L / 100.0, evalExp));
  }

  /** Autoscale at or below the threshold: the common gain keeps the ratio. */
  lemma LowGainBranchKeepsChromaRatio(d: PipeData, pin: Lab, evalExp: (Coeffs, real) -> real)
    requires ValidData(d) && d.autoscaleAb != 0 && pin.L / 100.0 <= LowThreshold
    ensures SameChromaRatio(pin, ProcessPixel(d, pin, evalExp))
  {
    assert ProcessPixel(d, pin, evalExp) == LowGainPixel(pin, d.tableL[LowIndex]);
  }

  /** With autoscale on and normalised L at or below the threshold, the
      value in slot 655 scales all three channels alike. */
  lemma LowGainBranchScalesAll(d: PipeData, pin: Lab, evalExp: (Coeffs, real) -> real)
    requires ValidData(d) && d.autoscaleAb != 0 && pin.L / 100.0 <= LowThreshold
    ensures ProcessPixel(d, pin, evalExp) ==
              Lab(pin.L * d.tableL[LowIndex], pin.a * d.tableL[LowIndex], pin.b * d.tableL[LowIndex], pin.alpha)
  {
    assert ProcessPixel(d, pin, evalExp) == LowGainPixel(pin, d.tableL[LowIndex]);
  }

  /** With autoscale on, a and b keep their ratio to L in both branches. */
  lemma AutoscaleKeepsChromaRatio(d: PipeData, pin: Lab, evalExp: (Coeffs, real) -> real)
    requires ValidData(d) && d.autoscaleAb != 0
    ensures SameChromaRatio(pin, ProcessPixel(d, pin, evalExp))
  {
    if pin.L / 100.0 > LowThreshold {
      RatioBranchKeepsChromaRatio(d, pin, evalExp);
    } else {
      LowGainBranchKeepsChromaRatio(d, pin, evalExp);
    }
  }

  /** At exactly the threshold (L = 1, normalised 0.01) autoscale takes the
      low-gain branch, not the ratio. */
  lemma ThresholdTakesLowGain(d: PipeData, pin: Lab, evalExp: (Coeffs, real) -> real)
    requires ValidData(d) && d.autoscaleAb != 0 && pin.L == 1.0
    ensures ProcessPixel(d, pin, evalExp) ==
              Lab(d.tableL[LowIndex], pin.a * d.tableL[LowIndex], pin.b * d.tableL[LowIndex], pin.alpha)
  {
  }

  /** The image loop, row by row: every output pixel is the mapped input
      pixel at the same position. */
  method Process(d: PipeData, input: array<Lab>, output: array<Lab>, width: int, height: int,
                 evalExp: (Coeffs, real) -> real)
    requires ValidData(d) && input != output && 0 <= width && 0 <= height
    requires input.Length == width * height && output.Length == width * height
    modifies output
    ensures forall i :: 0 <= i < output.Length ==> output[i] == ProcessPixel(d, input[i], evalExp)
  {
    var k, row := 0, 0;
    while k < height
      invariant 0 <= k <= height && row == k * width
      invariant forall i :: 0 <= i < row ==> output[i] == ProcessPixel(d, input[i], evalExp)
    {
      RowFits(k, width, height);
      var j := 0;
      while j < width
        invariant 0 <= j <= width
        invariant forall i :: 0 <= i < row + j ==> output[i] == ProcessPixel(d, input[i], evalExp)
      {
        output[row + j] := ProcessPixel(d, input[row + j], evalExp);
        j := j + 1;
      }
      k, row := k + 1, row + width;
    }
  }

  /** Row k + 1 of a width-by-height image starts `width` slots after row k
      and still lies inside the image. */
  lemma RowFits(k: int, width: int, height: int)
    requires 0 <= k < height && 0 <= width
    ensures (k + 1) * width == k * width + width <= height * width
  {
    MulStep(k, width);
    MulMonotone(k + 1, height, width);
  }

  lemma MulStep(a: nat, w: nat)
    ensures (a + 1) * w == a * w + w
  {
  }

  /** Multiplying by a non-negative width keeps the order of row numbers. */
  lemma {:induction false} MulMonotone(a: nat, b: nat, w: nat)
    requires a <= b
    ensures a * w <= b * w
    decreases b - a
  {
    if a < b {
      MulMonotone(a, b - 1, w);
      MulStep(b - 1, w);
    }
  }


  /** The colour picker's normalisation of a Lab value to [0, 1]^3. */
  function PickerScale(pin: Lab): (r: (real, real, real))
    ensures 0.0 <= r.0 <= 1.0 && 0.0 <= r.1 <= 1.0 && 0.0 <= r.2 <= 1.0
    ensures 0.0 <= pin.L / 100.0 <= 1.0 ==> r.0 == pin.L / 100.0
    ensures pin.L / 100.0 <= 0.0 ==> r.0 == 0.0
    ensures pin.L / 100.0 >= 1.0 ==> r.0 == 1.0
    ensures 0.0 <= (pin.a + 128.0) / 256.0 <= 1.0 ==> r.1 == (pin.a + 128.0) / 256.0
    ensures (pin.a + 128.0) / 256.0 <= 0.0 ==> r.1 == 0.0
    ensures (pin.a + 128.0) / 256.0 >= 1.0 ==> r.1 == 1.0
    ensures 0.0 <= (pin.b + 128.0) / 256.0 <= 1.0 ==> r.2 == (pin.b + 128.0) / 256.0
    ensures (pin.b + 128.0) / 256.0 <= 0.0 ==> r.2 == 0.0
    ensures (pin.b + 128.0) / 256.0 >= 1.0 ==> r.2 == 1.0
    ensures TableIndex(r.0) == TableIndex(pin.L / 100.0)
    ensures TableIndex(r.1) == ChromaIndex(pin.a) && TableIndex(r.2) == ChromaIndex(pin.b)
  {
    (ClampReal(pin.L / 100.0, 0.0, 1.0),
     ClampReal((pin.a + 128.0) / 256.0, 0.0, 1.0),
     ClampReal((pin.b + 128.0) / 256.0, 0.0, 1.0))
  }

  /** The table slot the extrapolation fit samples, `CLAMP((int)(x * 0x10000), 0, 0xffff)`. */
  function SampleIndex(x: real): (k: int)
    ensures 0 <= k <= MaxIndex
    ensures 0.0 <= x < 1.0 ==> k as real <= x * TableSize as real < k as real + 1.0
    ensures x >= 1.0 ==> k == MaxIndex
    ensures x <= 0.0 ==> k == 0
  {
    ClampInt(Trunc(x * TableSize as real), 0, MaxIndex)
  }

  /** The fit samples a different slot than the pixel lookup does at the same
      normalised position: the two scales differ by one. */
  lemma SampleAndLookupScalesDiffer()
    ensures SampleIndex(0.5) == 32768 && TableIndex(0.5) == 32767
  {
  }

  datatype Samples = Samples(xs: seq<real>, ys: seq<real>)

  /** The four points the exponential is fitted to: 0.7, 0.8, 0.9 and 1.0
      times the last L node's x, with the L table's values there. */
  function ExtrapolationSamples(c: Curve, tableL: seq<real>): (s: Samples)
    requires WellFormed(c) && |tableL| == TableSize
    ensures |s.xs| == 4 && |s.ys| == 4
    ensures var xm := Live(c)[c.count - 1].x; s.xs == [0.7 * xm, 0.8 * xm, 0.9 * xm, xm]
    ensures forall i :: 0 <= i < 4 ==> s.ys[i] == tableL[SampleIndex(s.xs[i])]
  {
    var xm := c.row[c.count - 1].x;
    var xs := [0.7 * xm, 0.8 * xm, 0.9 * xm, 1.0 * xm];
    Samples(xs, seq(4, i requires 0 <= i < 4 => tableL[SampleIndex(xs[i])]))
  }

  /** For a last node at a non-negative x, the sample positions and the
      slots they read ascend. */
  lemma ExtrapolationSamplesAscend(c: Curve, tableL: seq<real>)
    requires WellFormed(c) && |tableL| == TableSize && Live(c)[c.count - 1].x >= 0.0
    ensures var s := ExtrapolationSamples(c, tableL);
            forall i, j :: 0 <= i < j < 4 ==>
              s.xs[i] <= s.xs[j] && SampleIndex(s.xs[i]) <= SampleIndex(s.xs[j])
  {
    var s := ExtrapolationSamples(c, tableL);
    forall i, j | 0 <= i < j < 4
      ensures s.xs[i] <= s.xs[j] && SampleIndex(s.xs[i]) <= SampleIndex(s.xs[j])
    {
      TruncMonotone(s.xs[i] * TableSize as real, s.xs[j] * TableSize as real);
    }
  }
}
