/**
 * `interpolateSMA` (api.js): carrying an SMA computed at a coarse
 * granularity onto the timestamps of a denser candle series.
 */
module Interpolation {
  import opened Wrappers
  import opened Seqs
  import opened Series

  /** A non-null SMA point. */
  datatype Sample = Sample(x: int, y: real)

  /** The SMA point found at or before the target, and the one at or after it. */
  datatype Neighbours = Neighbours(before: Option<Sample>, after: Option<Sample>)

  /** Every point as a sample; a `null` value reads as 0 and is never kept. */
  function AsSamples(sma: seq<Point>): (s: seq<Sample>)
    ensures |s| == |sma|
    ensures forall i :: 0 <= i < |sma| ==> s[i] == Sample(sma[i].x, sma[i].y.GetOr(0.0))
  {
    seq(|sma|, i requires 0 <= i < |sma| => Sample(sma[i].x, sma[i].y.GetOr(0.0)))
  }

  /** Which points carry a value. */
  function HasValue(sma: seq<Point>): (flags: seq<bool>)
    ensures |flags| == |sma|
    ensures forall i :: 0 <= i < |sma| ==> flags[i] == sma[i].y.Some?
  {
    seq(|sma|, i requires 0 <= i < |sma| => sma[i].y.Some?)
  }

  /**
   * `smaData.filter(point => point.y !== null)`: the points that carry a
   * value, in their original order.
   */
  function ValidSamples(sma: seq<Point>): (valid: seq<Sample>)
    ensures var ps := Positions(HasValue(sma));
      && |valid| == |ps|
      && (forall j :: 0 <= j < |ps| ==>
            sma[ps[j]].y.Some? && valid[j] == Sample(sma[ps[j]].x, sma[ps[j]].y.value))
  {
    Keep(AsSamples(sma), HasValue(sma))
  }

  /**
   * The search loop for one target: `before` tracks the last sample with
   * `x <= t` seen so far; the loop stops at the first sample with `x >= t`,
   * which is `after`.
   */
  function Scan(valid: seq<Sample>, t: int, i: nat, before: Option<Sample>): Neighbours
    requires i <= |valid|
    decreases |valid| - i
  {
    if i == |valid| then Neighbours(before, None)
    else
      var b := if valid[i].x <= t then Some(valid[i]) else before;
      if valid[i].x >= t then Neighbours(b, Some(valid[i]))
      else Scan(valid, t, i + 1, b)
  }

  /** The straight line through `b` and `a`, evaluated at `t`. */
  function Blend(b: Sample, a: Sample, t: int): real
    requires b.x != a.x
  {
    b.y + ((t - b.x) as real / (a.x - b.x) as real) * (a.y - b.y)
  }

  /**
   * The resolution policy: interpolate between two distinct neighbours,
   * use the shared sample on an exact match, hold the last value forward,
   * and give `null` when nothing lies at or before the target.
   */
  function Resolve(n: Neighbours, t: int): (y: Option<real>)
    ensures y.Some? <==> n.before.Some?
    ensures n.before.Some? && n.after.None? ==> y == Some(n.before.value.y)
  {
    match n
    case Neighbours(Some(b), Some(a)) =>
      if b.x != a.x then Some(Blend(b, a, t)) else Some(b.y)
    case Neighbours(Some(b), None) => Some(b.y)
    case Neighbours(None, _) => None
  }

  /** The interpolated value for one target. */
  function ValueAt(valid: seq<Sample>, t: int): Option<real> {
    Resolve(Scan(valid, t, 0, None), t)
  }

  /**
   * `interpolateSMA`: one point per target timestamp, in target order,
   * all `null` when the SMA has no value at all.
   */
  function Interpolate(sma: seq<Point>, targets: seq<int>): (r: seq<Point>)
    ensures |r| == |targets|
    ensures forall k :: 0 <= k < |targets| ==> r[k].x == targets[k]
    ensures |ValidSamples(sma)| == 0 ==> forall k :: 0 <= k < |targets| ==> r[k].y.None?
  {
    var valid := ValidSamples(sma);
    if |valid| == 0 then
      seq(|targets|, k requires 0 <= k < |targets| => Point(targets[k], None))
    else
      seq(|targets|, k requires 0 <= k < |targets| => Point(targets[k], ValueAt(valid, targets[k])))
  }

  /** Sample timestamps strictly increase. */
  predicate Ascending(valid: seq<Sample>) {
    forall j, k :: 0 <= j < k < |valid| ==> valid[j].x < valid[k].x
  }

  /** Once a sample at or before the target has been seen, one is reported. */
  lemma {:induction false} ScanKeepsBefore(valid: seq<Sample>, t: int, i: nat, before: Option<Sample>)
    requires i <= |valid| && before.Some?
    ensures Scan(valid, t, i, before).before.Some?
    decreases |valid| - i
  {
    if i < |valid| && valid[i].x < t {
      ScanKeepsBefore(valid, t, i + 1, Some(valid[i]));
    }
  }

  /** Samples strictly before the target are walked past, the last one remembered. */
  lemma {:induction false} ScanSkips(valid: seq<Sample>, t: int, i: nat, m: nat, before: Option<Sample>)
    requires i <= m <= |valid|
    requires forall j :: i <= j < m ==> valid[j].x < t
    ensures Scan(valid, t, i, before) == Scan(valid, t, m, if i < m then Some(valid[m - 1]) else before)
    decreases m - i
  {
    if i < m {
      ScanSkips(valid, t, i + 1, m, Some(valid[i]));
    }
  }

  /**
   * With at least one sample, a target gets `null` exactly when it precedes
   * the first sample -- whatever the order of the samples.
   */
  lemma ValueAtNullIff(valid: seq<Sample>, t: int)
    requires |valid| > 0
    ensures ValueAt(valid, t).None? <==> t < valid[0].x
  {
    if valid[0].x < t {
      ScanKeepsBefore(valid, t, 1, Some(valid[0]));
    }
  }

  /** `Interpolate` never fills backwards and never leaves a later target empty. */
  lemma InterpolateNullIff(sma: seq<Point>, targets: seq<int>)
    requires |ValidSamples(sma)| > 0
    ensures var r := Interpolate(sma, targets);
      forall k :: 0 <= k < |targets| ==>
        (r[k].y.None? <==> targets[k] < ValidSamples(sma)[0].x)
  {
    var valid := ValidSamples(sma);
    forall k | 0 <= k < |targets|
      ensures ValueAt(valid, targets[k]).None? <==> targets[k] < valid[0].x
    {
      ValueAtNullIff(valid, targets[k]);
    }
  }

  /** A target equal to a sample's timestamp takes that sample's value exactly. */
  lemma ValueAtExact(valid: seq<Sample>, j: nat)
    requires Ascending(valid) && j < |valid|
    ensures ValueAt(valid, valid[j].x) == Some(valid[j].y)
  {
    var t := valid[j].x;
    ScanSkips(valid, t, 0, j, None);
  }

  /** A target after the last sample holds the last value forward. */
  lemma ValueAtAfterLast(valid: seq<Sample>, t: int)
    requires Ascending(valid) && |valid| > 0 && valid[|valid| - 1].x < t
    ensures ValueAt(valid, t) == Some(valid[|valid| - 1].y)
  {
    ScanSkips(valid, t, 0, |valid|, None);
  }

  /** A target strictly between two consecutive samples gets the straight-line value. */
  lemma ValueAtBetween(valid: seq<Sample>, j: nat, t: int)
    requires Ascending(valid) && j + 1 < |valid|
    requires valid[j].x < t < valid[j + 1].x
    ensures ValueAt(valid, t) == Some(Blend(valid[j], valid[j + 1], t))
  {
    ScanSkips(valid, t, 0, j + 1, None);
  }

  function Lesser(a: real, b: real): real { if a <= b then a else b }
  function Greater(a: real, b: real): real { if a <= b then b else a }

  /** `r` of the way from `y0` to `y1` stays between them when `0 <= r <= 1`. */
  lemma PartWayBetween(y0: real, y1: real, r: real)
    requires 0.0 <= r <= 1.0
    ensures Lesser(y0, y1) <= y0 + r * (y1 - y0) <= Greater(y0, y1)
  {
    if y0 <= y1 {
      MulNonNegative(r, y1 - y0);
      MulNonNegative(1.0 - r, y1 - y0);
      assert (1.0 - r) * (y1 - y0) == (y1 - y0) - r * (y1 - y0);
    } else {
      MulNonNegative(r, y0 - y1);
      MulNonNegative(1.0 - r, y0 - y1);
      assert (1.0 - r) * (y0 - y1) == (y0 - y1) - r * (y0 - y1);
      assert r * (y1 - y0) == -(r * (y0 - y1));
    }
  }

  /** The straight-line value never leaves the range of its two samples. */
  lemma BlendBetween(b: Sample, a: Sample, t: int)
    requires b.x <= t <= a.x && b.x < a.x
    ensures Lesser(b.y, a.y) <= Blend(b, a, t) <= Greater(b.y, a.y)
  {
    var n := (t - b.x) as real;
    var d := (a.x - b.x) as real;
    DivideBounds(n, d, 0.0, 1.0);
    PartWayBetween(b.y, a.y, n / d);
  }

  /** On the target grid, an exact timestamp match takes the sample's value. */
  lemma InterpolateExact(sma: seq<Point>, targets: seq<int>, k: nat, j: nat)
    requires Ascending(ValidSamples(sma)) && k < |targets|
    requires j < |ValidSamples(sma)| && ValidSamples(sma)[j].x == targets[k]
    ensures Interpolate(sma, targets)[k].y == Some(ValidSamples(sma)[j].y)
  {
    ValueAtExact(ValidSamples(sma), j);
  }

  /** On the target grid, a target past the last sample holds the last value. */
  lemma InterpolateHoldsLast(sma: seq<Point>, targets: seq<int>, k: nat)
    requires Ascending(ValidSamples(sma)) && k < |targets|
    requires |ValidSamples(sma)| > 0 && ValidSamples(sma)[|ValidSamples(sma)| - 1].x < targets[k]
    ensures Interpolate(sma, targets)[k].y == Some(ValidSamples(sma)[|ValidSamples(sma)| - 1].y)
  {
    ValueAtAfterLast(ValidSamples(sma), targets[k]);
  }

  /**
   * On the target grid, a target strictly between two consecutive samples
   * takes the straight-line value, which lies between the two samples' values.
   */
  lemma InterpolateBetween(sma: seq<Point>, targets: seq<int>, k: nat, j: nat)
    requires Ascending(ValidSamples(sma)) && k < |targets|
    requires j + 1 < |ValidSamples(sma)|
    requires ValidSamples(sma)[j].x < targets[k] < ValidSamples(sma)[j + 1].x
    ensures var valid := ValidSamples(sma);
      && Interpolate(sma, targets)[k].y == Some(Blend(valid[j], valid[j + 1], targets[k]))
      && Lesser(valid[j].y, valid[j + 1].y) <= Blend(valid[j], valid[j + 1], targets[k])
      && Blend(valid[j], valid[j + 1], targets[k]) <= Greater(valid[j].y, valid[j + 1].y)
  {
    var valid := ValidSamples(sma);
    ValueAtBetween(valid, j, targets[k]);
    BlendBetween(valid[j], valid[j + 1], targets[k]);
  }
}
