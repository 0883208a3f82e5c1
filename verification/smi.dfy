/**
 * The Stochastic Momentum Index (`SMIIndicatorService.calculate`): for every
 * bar from the tenth on, the position of the close inside the 10-bar high/low
 * range, smoothed by EMA(3), scaled to percent, smoothed again by SMA(5), with
 * an EMA(10) signal line. Thresholds are +40 / -40.
 */
module Smi {
  import opened Dto
  import opened MovingAverages

  const PERCENT_K_LENGTH: int := 10
  const PERCENT_D_LENGTH: int := 3
  const EMA_SIGNAL_LENGTH: int := 10
  const SMOOTH_PERIOD: int := 5
  const OVERBOUGHT: real := 40.0
  const OVERSOLD: real := -40.0

  /** Java's `Double.MIN_VALUE`: the smallest positive double, 2^-1074 (not the most negative one). */
  const DOUBLE_MIN_VALUE: real := 1.0 / 202402253307310618352495346718917307049556649764142118356901358027430339567995346891960383701437124495187077864316811911389808737385793476867013399940738509921517424276566361364466907742093216341239767678472745068562007483424692698618103355649159556340810056512358769552333414615230502532186327508646006263307707741093494784.0
  /** Java's `Double.MAX_VALUE`: (2 - 2^-52) * 2^1023. */
  const DOUBLE_MAX_VALUE: real := 179769313486231570814527423731704356798070567525844996598917476803157260780028538760589558632766878171540458953514382464234321326889464182768467546703537516986049910576551282076245490090389328944075868508455133942304583236903222948165808559332123348274797826204144723168738177180919299881250404026184124858368.0

  /** The running `Math.max` of the highs of `w`, seeded with `Double.MIN_VALUE`. */
  function HighestHigh(w: seq<Candle>): (hh: real)
    ensures hh >= DOUBLE_MIN_VALUE
    ensures forall k :: 0 <= k < |w| ==> w[k].high <= hh
    ensures hh == DOUBLE_MIN_VALUE || exists k :: 0 <= k < |w| && hh == w[k].high
    decreases |w|
  {
    if |w| == 0 then DOUBLE_MIN_VALUE
    else
      var h := HighestHigh(w[..|w| - 1]);
      if w[|w| - 1].high > h then w[|w| - 1].high else h
  }

  /** The running `Math.min` of the lows of `w`, seeded with `Double.MAX_VALUE`. */
  function LowestLow(w: seq<Candle>): (ll: real)
    ensures ll <= DOUBLE_MAX_VALUE
    ensures forall k :: 0 <= k < |w| ==> ll <= w[k].low
    ensures ll == DOUBLE_MAX_VALUE || exists k :: 0 <= k < |w| && ll == w[k].low
    decreases |w|
  {
    if |w| == 0 then DOUBLE_MAX_VALUE
    else
      var l := LowestLow(w[..|w| - 1]);
      if w[|w| - 1].low < l then w[|w| - 1].low else l
  }

  /** The 10 bars ending at bar `i`. */
  function Window(candles: seq<Candle>, i: int): (w: seq<Candle>)
    requires PERCENT_K_LENGTH - 1 <= i < |candles|
    ensures |w| == PERCENT_K_LENGTH && w[PERCENT_K_LENGTH - 1] == candles[i]
  {
    candles[i - PERCENT_K_LENGTH + 1..i + 1]
  }

  /** `diff = hh - ll` for bars 9, 10, ...; entry k belongs to bar k + 9. */
  function Diffs(candles: seq<Candle>): (d: seq<real>)
    requires |candles| >= PERCENT_K_LENGTH
    ensures |d| == |candles| - PERCENT_K_LENGTH + 1
    ensures forall k :: 0 <= k < |d| ==>
              d[k] == HighestHigh(Window(candles, k + PERCENT_K_LENGTH - 1)) - LowestLow(Window(candles, k + PERCENT_K_LENGTH - 1))
  {
    seq(|candles| - PERCENT_K_LENGTH + 1, k requires 0 <= k < |candles| - PERCENT_K_LENGTH + 1 =>
      var w := Window(candles, k + PERCENT_K_LENGTH - 1);
      HighestHigh(w) - LowestLow(w))
  }

  /** `rdiff = close - (hh + ll) / 2` for bars 9, 10, ...; entry k belongs to bar k + 9. */
  function RelDiffs(candles: seq<Candle>): (d: seq<real>)
    requires |candles| >= PERCENT_K_LENGTH
    ensures |d| == |candles| - PERCENT_K_LENGTH + 1
    ensures forall k :: 0 <= k < |d| ==>
              d[k] == candles[k + PERCENT_K_LENGTH - 1].close
                      - (HighestHigh(Window(candles, k + PERCENT_K_LENGTH - 1)) + LowestLow(Window(candles, k + PERCENT_K_LENGTH - 1))) / 2.0
  {
    seq(|candles| - PERCENT_K_LENGTH + 1, k requires 0 <= k < |candles| - PERCENT_K_LENGTH + 1 =>
      var w := Window(candles, k + PERCENT_K_LENGTH - 1);
      candles[k + PERCENT_K_LENGTH - 1].close - (HighestHigh(w) + LowestLow(w)) / 2.0)
  }

  /** For a coherent bar the close sits inside its window, so `|rdiff| <= diff / 2`. */
  lemma RelDiffDominated(candles: seq<Candle>)
    requires |candles| >= PERCENT_K_LENGTH
    requires AllCoherent(candles)
    ensures forall k :: 0 <= k < |Diffs(candles)| ==>
              -Diffs(candles)[k] <= 2.0 * RelDiffs(candles)[k] <= Diffs(candles)[k]
  {
    var d := Diffs(candles);
    var rd := RelDiffs(candles);
    forall k | 0 <= k < |d| ensures -d[k] <= 2.0 * rd[k] <= d[k] {
      var i := k + PERCENT_K_LENGTH - 1;
      var w := Window(candles, i);
      var c := w[PERCENT_K_LENGTH - 1];
      assert Coherent(candles[i]);
      assert c.high <= HighestHigh(w) && LowestLow(w) <= c.low;
    }
  }

  /**
   * Step 3: raw SMI, `avgrel / (avgdiff / 2) * 100`, or exactly 0 where the
   * smoothed range is 0 (no division by zero).
   */
  function RawSmi(avgrel: seq<real>, avgdiff: seq<real>): (r: seq<real>)
    requires |avgrel| == |avgdiff|
    ensures |r| == |avgrel|
    ensures forall i {:trigger r[i]} :: 0 <= i < |r| && avgdiff[i] == 0.0 ==> r[i] == 0.0
    ensures forall i {:trigger r[i]} :: 0 <= i < |r| && avgdiff[i] != 0.0 ==> r[i] == avgrel[i] / (avgdiff[i] / 2.0) * 100.0
  {
    seq(|avgrel|, i requires 0 <= i < |avgrel| =>
      if avgdiff[i] != 0.0 then avgrel[i] / (avgdiff[i] / 2.0) * 100.0 else 0.0)
  }

  /** A relative value dominated by half its range scales into [-100, 100]. */
  lemma RawSmiBetween(rel: real, d: real)
    requires -d <= 2.0 * rel <= d
    ensures -100.0 <= (if d != 0.0 then rel / (d / 2.0) * 100.0 else 0.0) <= 100.0
  {
    if d != 0.0 {
      assert d > 0.0;
      var q := rel / (d / 2.0);
      assert q * (d / 2.0) == rel;
      assert -1.0 <= q <= 1.0;
    }
  }

  /** Steps 2 to 4: EMA(3) of both series, raw SMI, SMA(5). */
  function SmoothedSmi(candles: seq<Candle>): (s: seq<real>)
    requires |candles| >= PERCENT_K_LENGTH
    ensures |s| == |candles| - PERCENT_K_LENGTH + 1
  {
    var avgrel := Ema(RelDiffs(candles), PERCENT_D_LENGTH);
    var avgdiff := Ema(Diffs(candles), PERCENT_D_LENGTH);
    Sma(RawSmi(avgrel, avgdiff), SMOOTH_PERIOD)
  }

  /** Step 5: the EMA(10) signal line of the smoothed SMI. */
  function SignalLine(candles: seq<Candle>): (s: seq<real>)
    requires |candles| >= PERCENT_K_LENGTH
    ensures |s| == |candles| - PERCENT_K_LENGTH + 1
  {
    Ema(SmoothedSmi(candles), EMA_SIGNAL_LENGTH)
  }

  /**
   * The reported points: point k belongs to bar k + 9 and carries that bar's
   * time, the smoothed SMI and the signal line at k.
   */
  function Points(candles: seq<Candle>, smoothed: seq<real>, signal: seq<real>): (ps: seq<SmiPoint>)
    requires |candles| >= PERCENT_K_LENGTH - 1
    requires |smoothed| == |candles| - PERCENT_K_LENGTH + 1 && |signal| == |smoothed|
    ensures |ps| == |smoothed|
    ensures forall k {:trigger ps[k].time} :: 0 <= k < |ps| ==> ps[k].time == candles[k + PERCENT_K_LENGTH - 1].time
    ensures forall k {:trigger ps[k].smi} :: 0 <= k < |ps| ==> ps[k].smi == smoothed[k]
    ensures forall k {:trigger ps[k].signal} :: 0 <= k < |ps| ==> ps[k].signal == signal[k]
    decreases |candles|
  {
    if |smoothed| == 0 then []
    else
      var n := |candles| - 1;
      var m := |smoothed| - 1;
      Points(candles[..n], smoothed[..m], signal[..m]) + [SmiPoint(candles[n].time, smoothed[m], signal[m])]
  }

  /**
   * `calculate(candles)`: empty below 10 bars; otherwise one point per bar from
   * the tenth on, carrying that bar's time, the smoothed SMI and the signal line.
   */
  function Calculate(candles: seq<Candle>): (r: SmiResult)
    ensures r.overbought == OVERBOUGHT && r.oversold == OVERSOLD
    ensures |candles| < PERCENT_K_LENGTH ==> r.data == []
    ensures |candles| >= PERCENT_K_LENGTH ==> |r.data| == |candles| - PERCENT_K_LENGTH + 1
    ensures forall k {:trigger r.data[k].time} :: 0 <= k < |r.data| ==>
              k + PERCENT_K_LENGTH - 1 < |candles| && r.data[k].time == candles[k + PERCENT_K_LENGTH - 1].time
    ensures forall k {:trigger r.data[k].smi} :: 0 <= k < |r.data| ==>
              |candles| >= PERCENT_K_LENGTH && r.data[k].smi == SmoothedSmi(candles)[k]
    ensures forall k {:trigger r.data[k].signal} :: 0 <= k < |r.data| ==>
              |candles| >= PERCENT_K_LENGTH && r.data[k].signal == SignalLine(candles)[k]
  {
    if |candles| < PERCENT_K_LENGTH then SmiResult([], OVERBOUGHT, OVERSOLD)
    else SmiResult(Points(candles, SmoothedSmi(candles), SignalLine(candles)), OVERBOUGHT, OVERSOLD)
  }

  /** For coherent bars the raw SMI lies in [-100, 100]. */
  lemma RawSmiBounded(candles: seq<Candle>)
    requires |candles| >= PERCENT_K_LENGTH
    requires AllCoherent(candles)
    ensures var raw := RawSmi(Ema(RelDiffs(candles), PERCENT_D_LENGTH), Ema(Diffs(candles), PERCENT_D_LENGTH));
            forall i :: 0 <= i < |raw| ==> -100.0 <= raw[i] <= 100.0
  {
    var rd := RelDiffs(candles);
    var d := Diffs(candles);
    RelDiffDominated(candles);
    forall i | 0 <= i < |d| ensures -100.0 <= RawSmi(Ema(rd, PERCENT_D_LENGTH), Ema(d, PERCENT_D_LENGTH))[i] <= 100.0 {
      RawSmiBoundedAt(rd, d, i);
    }
  }

  /** One raw SMI value from relative values dominated by half their ranges lies in [-100, 100]. */
  lemma RawSmiBoundedAt(rd: seq<real>, d: seq<real>, i: int)
    requires |rd| == |d| && 0 <= i < |d|
    requires forall k :: 0 <= k < |d| ==> -d[k] <= 2.0 * rd[k] <= d[k]
    ensures -100.0 <= RawSmi(Ema(rd, PERCENT_D_LENGTH), Ema(d, PERCENT_D_LENGTH))[i] <= 100.0
  {
    var avgrel := Ema(rd, PERCENT_D_LENGTH);
    var avgdiff := Ema(d, PERCENT_D_LENGTH);
    assert avgrel == Smooth(rd, Multiplier(PERCENT_D_LENGTH));
    assert avgdiff == Smooth(d, Multiplier(PERCENT_D_LENGTH));
    var raw := RawSmi(avgrel, avgdiff);
    SmoothDominated(rd, d, Multiplier(PERCENT_D_LENGTH), i);
    RawSmiBetween(avgrel[i], avgdiff[i]);
    assert raw[i] == (if avgdiff[i] != 0.0 then avgrel[i] / (avgdiff[i] / 2.0) * 100.0 else 0.0);
  }

  /**
   * For coherent bars (low <= close <= high) every SMI value and every signal
   * value lies in [-100, 100], whatever the prices.
   */
  lemma SmiBounded(candles: seq<Candle>)
    requires AllCoherent(candles)
    ensures forall k :: 0 <= k < |Calculate(candles).data| ==>
              && -100.0 <= Calculate(candles).data[k].smi <= 100.0
              && -100.0 <= Calculate(candles).data[k].signal <= 100.0
  {
    if |candles| >= PERCENT_K_LENGTH {
      RawSmiBounded(candles);
      var raw := RawSmi(Ema(RelDiffs(candles), PERCENT_D_LENGTH), Ema(Diffs(candles), PERCENT_D_LENGTH));
      SmaBounded(raw, SMOOTH_PERIOD, -100.0, 100.0);
      EmaBounded(SmoothedSmi(candles), EMA_SIGNAL_LENGTH, -100.0, 100.0);
    }
  }
}
