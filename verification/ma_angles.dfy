/**
 * MA angles (`MAAnglesIndicatorService.calculate`): the angle, in degrees, of
 * the EMA(10) line of the closes, with each bar's move measured in units of
 * the Wilder ATR(14); plus the rising/falling direction of an EMA(27).
 * `atan` and pi are left uninterpreted: they are parameters of the model.
 */
module MaAngles {
  import opened Dto
  import opened MovingAverages

  const THRESHOLD: real := 2.0
  const ATR_PERIOD: int := 14
  const SLOPE_EMA_PERIOD: int := 10
  const MA27_PERIOD: int := 27
  /** Fewer bars than this give an empty result. */
  const MIN_CANDLES: int := 280
  /** First reported bar (the warm-up of the smoothing line). */
  const START_INDEX: int := 50

  function Abs(x: real): real {
    if x < 0.0 then -x else x
  }

  function Max(a: real, b: real): real {
    if a >= b then a else b
  }

  /**
   * True range: `high - low` at bar 0, and from bar 1 on the largest of
   * `high - low`, `|high - prevClose|` and `|low - prevClose|`.
   */
  function TrueRange(candles: seq<Candle>): (tr: seq<real>)
    ensures |tr| == |candles|
    ensures |candles| > 0 ==> tr[0] == candles[0].high - candles[0].low
    ensures forall i {:trigger tr[i]} :: 1 <= i < |candles| ==>
              var hl := candles[i].high - candles[i].low;
              var hc := Abs(candles[i].high - candles[i - 1].close);
              var lc := Abs(candles[i].low - candles[i - 1].close);
              && tr[i] >= 0.0
              && hl <= tr[i] && hc <= tr[i] && lc <= tr[i]
              && (tr[i] == hl || tr[i] == hc || tr[i] == lc)
  {
    seq(|candles|, i requires 0 <= i < |candles| =>
      if i == 0 then candles[i].high - candles[i].low
      else
        var hl := candles[i].high - candles[i].low;
        var hc := Abs(candles[i].high - candles[i - 1].close);
        var lc := Abs(candles[i].low - candles[i - 1].close);
        Max(hl, Max(hc, lc)))
  }

  /** Wilder's moving average as the source writes it: `rma[i] = (rma[i-1] * (period - 1) + tr[i]) / period`. */
  function Rma(tr: seq<real>, period: int): (r: seq<real>)
    requires period >= 1
    ensures |r| == |tr|
    ensures |tr| > 0 ==> r[0] == tr[0]
    ensures forall i {:trigger r[i], tr[i]} :: 1 <= i < |tr| ==> r[i] == RmaStep(r[i - 1], tr[i], period)
    decreases |tr|
  {
    if |tr| <= 1 then tr
    else
      var prev := Rma(tr[..|tr| - 1], period);
      prev + [RmaStep(prev[|prev| - 1], tr[|tr| - 1], period)]
  }

  function RmaStep(prev: real, x: real, period: int): real
    requires period >= 1
  {
    (prev * (period - 1) as real + x) / period as real
  }

  lemma RmaStepIsSmoothStep(prev: real, x: real, period: int)
    requires period >= 1
    ensures RmaStep(prev, x, period) == SmoothStep(prev, x, 1.0 / period as real)
  {
    var p := period as real;
    assert (p - 1.0) / p == 1.0 - 1.0 / p;
  }

  /** Wilder's average is the exponential smoothing with weight `1 / period`. */
  lemma RmaIsSmoothing(tr: seq<real>, period: int)
    requires period >= 1
    ensures Rma(tr, period) == Smooth(tr, 1.0 / period as real)
  {
    var r := Rma(tr, period);
    var alpha := 1.0 / period as real;
    forall i | 1 <= i < |tr| ensures r[i] == SmoothStep(r[i - 1], tr[i], alpha) {
      RmaStepIsSmoothStep(r[i - 1], tr[i], period);
    }
    SmoothUnique(tr, alpha, r);
  }

  /** `calculateATR(high, low, close, 14)`. */
  function Atr(candles: seq<Candle>): (r: seq<real>)
    ensures |r| == |candles|
    ensures |candles| > 0 ==> r[0] == candles[0].high - candles[0].low
    ensures forall i {:trigger r[i]} :: 1 <= i < |candles| ==>
              r[i] == (r[i - 1] * 13.0 + TrueRange(candles)[i]) / 14.0
  {
    var tr := TrueRange(candles);
    var r := Rma(tr, ATR_PERIOD);
    forall i | 1 <= i < |candles|
      ensures r[i] == (r[i - 1] * 13.0 + tr[i]) / 14.0
    {
      assert r[i] == RmaStep(r[i - 1], tr[i], ATR_PERIOD);
    }
    r
  }

  /** For bars with `low <= high` the ATR is never negative. */
  lemma AtrNonNegative(candles: seq<Candle>)
    requires forall i :: 0 <= i < |candles| ==> candles[i].low <= candles[i].high
    ensures forall i :: 0 <= i < |candles| ==> Atr(candles)[i] >= 0.0
  {
    var tr := TrueRange(candles);
    RmaIsSmoothing(tr, ATR_PERIOD);
    forall i | 0 <= i < |candles| ensures Atr(candles)[i] >= 0.0 {
      SmoothAtLeast(tr, 1.0 / ATR_PERIOD as real, 0.0, i);
    }
  }

  /** The EMA(10) line whose angle is measured (the source's JMA is not used). */
  function SlopeLine(candles: seq<Candle>): (r: seq<real>)
    ensures |r| == |candles|
  {
    Ema(Closes(candles), SLOPE_EMA_PERIOD)
  }

  /** The EMA(27) whose direction gives `ma27Rising` / `ma27Falling`. */
  function Ma27(candles: seq<Candle>): (r: seq<real>)
    ensures |r| == |candles|
  {
    Ema(Closes(candles), MA27_PERIOD)
  }

  /**
   * The slope array: 0 at bar 0 and wherever the ATR is not positive,
   * otherwise `(180 / pi) * atan(lineMove / atr)`.
   */
  function Slopes(atr: seq<real>, line: seq<real>, atan: real -> real, pi: real): (r: seq<real>)
    requires pi > 0.0 && |atr| == |line|
    ensures |r| == |line|
    ensures forall i {:trigger r[i], atr[i]} :: 0 <= i < |line| && (i == 0 || atr[i] <= 0.0) ==> r[i] == 0.0
    ensures forall i {:trigger r[i], atr[i]} :: 1 <= i < |line| && atr[i] > 0.0 ==> r[i] == Angle(line[i] - line[i - 1], atr[i], atan, pi)
    decreases |line|
  {
    if |line| == 0 then []
    else
      var n := |line| - 1;
      var init := Slopes(atr[..n], line[..n], atan, pi);
      var r := init + [if n >= 1 && atr[n] > 0.0 then Angle(line[n] - line[n - 1], atr[n], atan, pi) else 0.0];
      forall i | 0 <= i < n
        ensures r[i] == if i >= 1 && atr[i] > 0.0 then Angle(line[i] - line[i - 1], atr[i], atan, pi) else 0.0
      {
        assert r[i] == init[i] && atr[..n][i] == atr[i] && line[..n][i] == line[i];
        if i >= 1 {
          assert line[..n][i - 1] == line[i - 1];
        }
      }
      r
  }

  /** The slope of every bar, from the ATR and the EMA(10) line of the bars. */
  function BarSlopes(candles: seq<Candle>, atan: real -> real, pi: real): (r: seq<real>)
    requires pi > 0.0
    ensures |r| == |candles|
  {
    Slopes(Atr(candles), SlopeLine(candles), atan, pi)
  }

  /** `RAD2DEGREE * atan(move / atr)` with `RAD2DEGREE = 180 / pi`. */
  function Angle(move: real, atr: real, atan: real -> real, pi: real): real
    requires pi > 0.0 && atr > 0.0
  {
    (180.0 / pi) * atan(move / atr)
  }

  /** With a sign-preserving `atan` the angle has the sign of the move. */
  lemma AngleSign(move: real, atr: real, atan: real -> real, pi: real)
    requires pi > 0.0 && atr > 0.0 && SignPreserving(atan)
    ensures Angle(move, atr, atan, pi) >= 0.0 <==> move >= 0.0
  {
    var q := move / atr;
    assert q * atr == move;
    assert q >= 0.0 <==> move >= 0.0 by {
      if q < 0.0 {
        assert q * atr < 0.0;
      }
      if move < 0.0 {
        assert q < 0.0;
      }
    }
    PositiveScaleSign(180.0 / pi, atan(q));
  }

  /**
   * The reported points from the per-bar slope and EMA(27) arrays: point k
   * belongs to bar k + 50 and carries that bar's slope, zeros in the four
   * unused slope fields, and the EMA(27) direction flags.
   */
  function Points(candles: seq<Candle>, slope: seq<real>, ma27: seq<real>): (ps: seq<MaAnglesPoint>)
    requires |slope| == |candles| && |ma27| == |candles| && |candles| >= START_INDEX
    ensures |ps| == |candles| - START_INDEX
    ensures forall k {:trigger ps[k].time} :: 0 <= k < |ps| ==> ps[k].time == candles[k + START_INDEX].time
    ensures forall k {:trigger ps[k].jmaSlope} :: 0 <= k < |ps| ==>
              && ps[k].jmaSlope == slope[k + START_INDEX]
              && ps[k].jmaFastSlope == 0.0 && ps[k].ma27Slope == 0.0
              && ps[k].ma83Slope == 0.0 && ps[k].ma278Slope == 0.0
    ensures forall k {:trigger ps[k].ma27Rising} {:trigger ps[k].ma27Falling} :: 0 <= k < |ps| ==>
              && (ps[k].ma27Rising <==> ma27[k + START_INDEX] > ma27[k + START_INDEX - 1])
              && (ps[k].ma27Falling <==> ma27[k + START_INDEX] < ma27[k + START_INDEX - 1])
              && !(ps[k].ma27Rising && ps[k].ma27Falling)
    decreases |candles|
  {
    if |candles| == START_INDEX then []
    else
      var n := |candles| - 1;
      var init := Points(candles[..n], slope[..n], ma27[..n]);
      var ps := init + [MaAnglesPoint(candles[n].time, slope[n], 0.0, 0.0, 0.0, 0.0, ma27[n] > ma27[n - 1], ma27[n] < ma27[n - 1])];
      forall k | 0 <= k < |init|
        ensures ps[k].time == candles[k + START_INDEX].time
        ensures ps[k].jmaSlope == slope[k + START_INDEX]
        ensures ps[k].jmaFastSlope == 0.0 && ps[k].ma27Slope == 0.0 && ps[k].ma83Slope == 0.0 && ps[k].ma278Slope == 0.0
        ensures ps[k].ma27Rising <==> ma27[k + START_INDEX] > ma27[k + START_INDEX - 1]
        ensures ps[k].ma27Falling <==> ma27[k + START_INDEX] < ma27[k + START_INDEX - 1]
      {
        var i := k + START_INDEX;
        assert ps[k] == init[k];
        assert candles[..n][i] == candles[i] && slope[..n][i] == slope[i];
        assert ma27[..n][i] == ma27[i] && ma27[..n][i - 1] == ma27[i - 1];
      }
      ps
  }

  /**
   * `calculate(candles)`: empty below 280 bars; otherwise the points of
   * bars 50 onwards, with the slopes of `BarSlopes` and the EMA(27) flags.
   */
  function Calculate(candles: seq<Candle>, atan: real -> real, pi: real): (r: MaAnglesResult)
    requires pi > 0.0
    ensures r.threshold == THRESHOLD
    ensures |candles| < MIN_CANDLES ==> r.data == []
    ensures |candles| >= MIN_CANDLES ==> |r.data| == |candles| - START_INDEX
    ensures forall k {:trigger r.data[k].time} :: 0 <= k < |r.data| ==>
              START_INDEX + k < |candles| && r.data[k].time == candles[k + START_INDEX].time
    ensures forall k {:trigger r.data[k].jmaSlope} :: 0 <= k < |r.data| ==>
              && START_INDEX + k < |candles|
              && r.data[k].jmaSlope == BarSlopes(candles, atan, pi)[k + START_INDEX]
              && r.data[k].jmaFastSlope == 0.0 && r.data[k].ma27Slope == 0.0
              && r.data[k].ma83Slope == 0.0 && r.data[k].ma278Slope == 0.0
    ensures forall k {:trigger r.data[k].ma27Rising} {:trigger r.data[k].ma27Falling} :: 0 <= k < |r.data| ==>
              && START_INDEX + k < |candles|
              && (r.data[k].ma27Rising <==> Ma27(candles)[k + START_INDEX] > Ma27(candles)[k + START_INDEX - 1])
              && (r.data[k].ma27Falling <==> Ma27(candles)[k + START_INDEX] < Ma27(candles)[k + START_INDEX - 1])
              && !(r.data[k].ma27Rising && r.data[k].ma27Falling)
  {
    if |candles| < MIN_CANDLES then MaAnglesResult([], THRESHOLD)
    else MaAnglesResult(Points(candles, BarSlopes(candles, atan, pi), Ma27(candles)), THRESHOLD)
  }

  /** `atan` has the sign of its argument (true of the real arctangent). */
  ghost predicate SignPreserving(atan: real -> real) {
    forall x :: atan(x) >= 0.0 <==> x >= 0.0
  }

  /**
   * With a sign-preserving `atan`, a reported slope is non-negative exactly
   * when the ATR there is not positive or the EMA(10) line did not fall —
   * the condition the signal engine reads as "slope agrees with a long".
   */
  lemma SlopeSign(candles: seq<Candle>, atan: real -> real, pi: real, k: int)
    requires pi > 0.0 && SignPreserving(atan)
    requires |candles| >= MIN_CANDLES && 0 <= k < |candles| - START_INDEX
    ensures var i := k + START_INDEX;
            Calculate(candles, atan, pi).data[k].jmaSlope >= 0.0
            <==> (Atr(candles)[i] <= 0.0 || SlopeLine(candles)[i] >= SlopeLine(candles)[i - 1])
  {
    var i := k + START_INDEX;
    var atr := Atr(candles);
    var line := SlopeLine(candles);
    assert Calculate(candles, atan, pi).data[k].jmaSlope == Slopes(atr, line, atan, pi)[i];
    SlopesSign(atr, line, atan, pi, i);
  }

  /** One entry of the slope array has the sign of the line's move, or is 0. */
  lemma SlopesSign(atr: seq<real>, line: seq<real>, atan: real -> real, pi: real, i: int)
    requires pi > 0.0 && |atr| == |line| && SignPreserving(atan)
    requires 1 <= i < |line|
    ensures Slopes(atr, line, atan, pi)[i] >= 0.0 <==> (atr[i] <= 0.0 || line[i] >= line[i - 1])
  {
    if atr[i] > 0.0 {
      AngleSign(line[i] - line[i - 1], atr[i], atan, pi);
    }
  }

  lemma PositiveScaleSign(c: real, a: real)
    requires c > 0.0
    ensures c * a >= 0.0 <==> a >= 0.0
  {
    if a < 0.0 {
      assert c * a < 0.0;
    }
  }

  /**
   * Flat bars (high, low and close all equal to one price) have zero true
   * range and ATR from bar 1 on, so every reported slope is 0 and the EMA(27)
   * neither rises nor falls.
   */
  lemma FlatBarsFlatAngles(candles: seq<Candle>, x: real, atan: real -> real, pi: real)
    requires pi > 0.0
    requires forall i :: 0 <= i < |candles| ==> candles[i].high == x && candles[i].low == x && candles[i].close == x
    ensures forall i :: 0 <= i < |candles| ==> TrueRange(candles)[i] == 0.0 && Atr(candles)[i] == 0.0
    ensures forall k :: 0 <= k < |Calculate(candles, atan, pi).data| ==>
              && Calculate(candles, atan, pi).data[k].jmaSlope == 0.0
              && !Calculate(candles, atan, pi).data[k].ma27Rising
              && !Calculate(candles, atan, pi).data[k].ma27Falling
  {
    FlatBarsZeroAtr(candles, x);
    ZeroAtrZeroSlopes(candles, atan, pi);
    FlatBarsNoDirection(candles, x, atan, pi);
  }

  /** Where the ATR is never positive every reported slope is 0. */
  lemma ZeroAtrZeroSlopes(candles: seq<Candle>, atan: real -> real, pi: real)
    requires pi > 0.0
    requires forall i :: 0 <= i < |candles| ==> Atr(candles)[i] <= 0.0
    ensures forall k :: 0 <= k < |Calculate(candles, atan, pi).data| ==> Calculate(candles, atan, pi).data[k].jmaSlope == 0.0
  {
    SlopesZero(Atr(candles), SlopeLine(candles), atan, pi);
  }

  lemma SlopesZero(atr: seq<real>, line: seq<real>, atan: real -> real, pi: real)
    requires pi > 0.0 && |atr| == |line|
    requires forall i :: 0 <= i < |atr| ==> atr[i] <= 0.0
    ensures forall i :: 0 <= i < |line| ==> Slopes(atr, line, atan, pi)[i] == 0.0
  {
    var r := Slopes(atr, line, atan, pi);
    forall i | 0 <= i < |line| ensures r[i] == 0.0 {
      assert atr[i] <= 0.0;
    }
  }

  lemma FlatBarsNoDirection(candles: seq<Candle>, x: real, atan: real -> real, pi: real)
    requires pi > 0.0
    requires forall i :: 0 <= i < |candles| ==> candles[i].close == x
    ensures forall k :: 0 <= k < |Calculate(candles, atan, pi).data| ==>
              !Calculate(candles, atan, pi).data[k].ma27Rising && !Calculate(candles, atan, pi).data[k].ma27Falling
  {
    EmaConstant(Closes(candles), MA27_PERIOD, x);
  }

  lemma FlatBarsZeroAtr(candles: seq<Candle>, x: real)
    requires forall i :: 0 <= i < |candles| ==> candles[i].high == x && candles[i].low == x && candles[i].close == x
    ensures forall i :: 0 <= i < |candles| ==> TrueRange(candles)[i] == 0.0 && Atr(candles)[i] == 0.0
  {
    var tr := TrueRange(candles);
    assert forall i :: 0 <= i < |candles| ==> tr[i] == 0.0;
    RmaIsSmoothing(tr, ATR_PERIOD);
    SmoothBounded(tr, 1.0 / ATR_PERIOD as real, 0.0, 0.0);
  }
}
