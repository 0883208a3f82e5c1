/**
 * The zone scans of the signal engine (`scanOversoldZone`, `scanOverboughtZone`):
 * starting at the current bar and walking back, count how long the SMI has
 * stayed inside the zone (at or below -40, or at or above +40) and report a
 * turn when the dwell is at least 4 bars and the current SMI has left the
 * run's extreme.
 *
 * The SMI points are looked up by bar time in `smi`, the map the engine
 * builds from the indicator result.
 */
module ZoneScan {
  import opened Dto

  datatype Zone = Oversold | Overbought

  /** The zone boundary: SMI at or below -40, or at or above +40. */
  const LEVEL: real := 40.0
  /** Bars (the current one included) the SMI must have stayed inside the zone. */
  const MIN_DWELL: int := 4

  predicate InZone(z: Zone, smi: real) {
    match z
    case Oversold => smi <= -LEVEL
    case Overbought => smi >= LEVEL
  }

  /** `a` lies further into the zone than `b`: lower when oversold, higher when overbought. */
  predicate MoreExtreme(z: Zone, a: real, b: real) {
    match z
    case Oversold => a < b
    case Overbought => a > b
  }

  /** The running extreme: `Math.min` when oversold, `Math.max` when overbought. */
  function Extreme(z: Zone, a: real, b: real): (e: real)
    ensures e == a || e == b
    ensures !MoreExtreme(z, a, e) && !MoreExtreme(z, b, e)
  {
    match z
    case Oversold => if a <= b then a else b
    case Overbought => if a >= b then a else b
  }

  /** The bar has an SMI point and that point is inside the zone. */
  predicate Qualifies(z: Zone, smi: map<int, SmiPoint>, c: Candle) {
    c.time in smi && InZone(z, smi[c.time].smi)
  }

  /**
   * The number of consecutive qualifying bars ending at index `j` (0 when
   * `j` is -1 or bar `j` does not qualify): the walk back stops at the first
   * bar with no SMI point or outside the zone, or at the start of the series.
   */
  function RunLength(z: Zone, smi: map<int, SmiPoint>, candles: seq<Candle>, j: int): (n: nat)
    requires -1 <= j < |candles|
    ensures n <= j + 1
    ensures forall k :: j - n < k <= j ==> Qualifies(z, smi, candles[k])
    ensures j - n >= 0 ==> !Qualifies(z, smi, candles[j - n])
    decreases j + 1
  {
    if j < 0 || !Qualifies(z, smi, candles[j]) then 0
    else 1 + RunLength(z, smi, candles, j - 1)
  }

  /**
   * The scan's verdict at bar `idx`: the bar qualifies, the run ending at it
   * is at least 4 bars long, and some earlier bar of the run lies further
   * into the zone than the current one.
   */
  predicate Scan(z: Zone, smi: map<int, SmiPoint>, candles: seq<Candle>, idx: int)
    requires 0 <= idx < |candles|
  {
    && Qualifies(z, smi, candles[idx])
    && var n := RunLength(z, smi, candles, idx);
       && n >= MIN_DWELL
       && exists k :: idx - n < k < idx && MoreExtreme(z, smi[candles[k].time].smi, smi[candles[idx].time].smi)
  }

  /** Any maximal run of qualifying bars ending at `j` has the run length. */
  lemma {:induction false} RunLengthExact(z: Zone, smi: map<int, SmiPoint>, candles: seq<Candle>, j: int, s: int)
    requires -1 <= j < |candles| && 0 <= s <= j + 1
    requires forall k :: s <= k <= j ==> Qualifies(z, smi, candles[k])
    requires s == 0 || !Qualifies(z, smi, candles[s - 1])
    ensures RunLength(z, smi, candles, j) == j + 1 - s
    decreases j + 1
  {
    if j >= s {
      RunLengthExact(z, smi, candles, j - 1, s);
    }
  }

  /**
   * The source's loop: look up the current bar, give up when it has no
   * point or lies outside the zone, then walk back counting the dwell and
   * tracking the extreme until a bar is missing or outside the zone.
   */
  method ScanZone(z: Zone, smi: map<int, SmiPoint>, candles: seq<Candle>, idx: int) returns (b: bool)
    requires 0 <= idx < |candles|
    ensures b == Scan(z, smi, candles, idx)
    ensures candles[idx].time !in smi ==> !b
    ensures b ==> InZone(z, smi[candles[idx].time].smi)
  {
    var t := candles[idx].time;
    if t !in smi {
      return false;
    }
    var cur := smi[t].smi;
    if !InZone(z, cur) {
      return false;
    }
    var dwell := 1;
    var ext := cur;
    var j := idx - 1;
    while j >= 0
      invariant -1 <= j < idx
      invariant dwell == idx - j
      invariant forall k :: j < k <= idx ==> Qualifies(z, smi, candles[k])
      invariant forall k :: j < k <= idx ==> !MoreExtreme(z, smi[candles[k].time].smi, ext)
      invariant ext == cur || exists k :: j < k < idx && ext == smi[candles[k].time].smi
      decreases j + 1
    {
      var tj := candles[j].time;
      if tj !in smi {
        break;
      }
      var v := smi[tj].smi;
      if InZone(z, v) {
        dwell := dwell + 1;
        ext := Extreme(z, ext, v);
      } else {
        break;
      }
      j := j - 1;
    }
    RunLengthExact(z, smi, candles, idx, j + 1);
    b := dwell >= MIN_DWELL && MoreExtreme(z, ext, cur);
    if b {
      var k :| j < k < idx && ext == smi[candles[k].time].smi;
    }
  }

  /** The SMI points with every value negated: the overbought picture turned upside down. */
  function Negate(smi: map<int, SmiPoint>): (r: map<int, SmiPoint>)
    ensures r.Keys == smi.Keys
    ensures forall t :: t in smi ==> r[t].smi == -smi[t].smi
  {
    map t | t in smi :: SmiPoint(smi[t].time, -smi[t].smi, -smi[t].signal)
  }

  lemma {:induction false} RunLengthMirror(smi: map<int, SmiPoint>, candles: seq<Candle>, j: int)
    requires -1 <= j < |candles|
    ensures RunLength(Overbought, smi, candles, j) == RunLength(Oversold, Negate(smi), candles, j)
    decreases j + 1
  {
    if j >= 0 {
      RunLengthMirror(smi, candles, j - 1);
    }
  }

  /**
   * The overbought scan is the oversold scan of the negated SMI: `>= 40`
   * mirrors `<= -40`, the run's maximum mirrors its minimum, and "below the
   * maximum" mirrors "above the minimum".
   */
  lemma ScanMirror(smi: map<int, SmiPoint>, candles: seq<Candle>, idx: int)
    requires 0 <= idx < |candles|
    ensures Scan(Overbought, smi, candles, idx) <==> Scan(Oversold, Negate(smi), candles, idx)
  {
    RunLengthMirror(smi, candles, idx);
  }

  /** Bars at times 1, 2, ... carrying the given SMI values. */
  function Bars(n: nat): (cs: seq<Candle>)
    ensures |cs| == n
    ensures forall i :: 0 <= i < n ==> cs[i].time == i + 1
  {
    seq(n, i requires 0 <= i < n => Candle(i + 1, 1.0, 1.0, 1.0, 1.0, 0))
  }

  /** SMI points for times 1, 2, ...: bar `i` (time `i + 1`) gets `values[i]`. */
  function SmiAt(values: seq<real>): (m: map<int, SmiPoint>)
    ensures forall t :: 1 <= t <= |values| ==> t in m && m[t].smi == values[t - 1]
  {
    if |values| == 0 then map[]
    else SmiAt(values[..|values| - 1])[|values| := SmiPoint(|values|, values[|values| - 1], 0.0)]
  }

  /** Four bars at -50 and a current -45: a rebound inside the zone after a long enough dwell. */
  lemma OversoldReboundExample()
    ensures Scan(Oversold, SmiAt([-50.0, -50.0, -50.0, -50.0, -45.0]), Bars(5), 4)
  {
    var m := SmiAt([-50.0, -50.0, -50.0, -50.0, -45.0]);
    var cs := Bars(5);
    assert forall k :: 0 <= k <= 4 ==> cs[k].time == k + 1 && Qualifies(Oversold, m, cs[k]);
    RunLengthExact(Oversold, m, cs, 4, 0);
    assert MoreExtreme(Oversold, m[cs[0].time].smi, m[cs[4].time].smi);
  }

  /** A current bar back above -40 is no longer in the zone, so no signal. */
  lemma OversoldExitExample()
    ensures !Scan(Oversold, SmiAt([-50.0, -50.0, -50.0, -50.0, -30.0]), Bars(5), 4)
  {
    var m := SmiAt([-50.0, -50.0, -50.0, -50.0, -30.0]);
    assert Bars(5)[4].time == 5;
  }

  /** A three-bar dwell is too short, even with a rebound. */
  lemma ShortDwellExample()
    ensures !Scan(Oversold, SmiAt([-50.0, -50.0, -45.0]), Bars(3), 2)
  {
    var m := SmiAt([-50.0, -50.0, -45.0]);
    assert forall k :: 0 <= k <= 2 ==> Bars(3)[k].time == k + 1 && Qualifies(Oversold, m, Bars(3)[k]);
    RunLengthExact(Oversold, m, Bars(3), 2, 0);
  }

  /** A run broken by a bar above -40 starts after the break. */
  lemma BrokenRunExample()
    ensures !Scan(Oversold, SmiAt([-60.0, -60.0, -30.0, -50.0, -50.0, -45.0]), Bars(6), 5)
  {
    var m := SmiAt([-60.0, -60.0, -30.0, -50.0, -50.0, -45.0]);
    assert forall k :: 3 <= k <= 5 ==> Bars(6)[k].time == k + 1 && Qualifies(Oversold, m, Bars(6)[k]);
    assert Bars(6)[2].time == 3 && !Qualifies(Oversold, m, Bars(6)[2]);
    RunLengthExact(Oversold, m, Bars(6), 5, 3);
  }
}
