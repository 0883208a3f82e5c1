/**
 * The EMA trend cloud (`EMACloudIndicatorService.calculate`): a fast EMA(50)
 * and a slow EMA(200) of the closes, both started at bar 0, reported from bar
 * 199 on with an up-trend flag (fast above slow) and a down-trend flag (fast
 * below slow).
 */
module EmaCloud {
  import opened Dto
  import opened MovingAverages

  const FAST_LENGTH: int := 50
  const SLOW_LENGTH: int := 200

  /** Fast EMA(50) over every close. */
  function FastEma(candles: seq<Candle>): (r: seq<real>)
    ensures |r| == |candles|
  {
    Ema(Closes(candles), FAST_LENGTH)
  }

  /** Slow EMA(200) over every close. */
  function SlowEma(candles: seq<Candle>): (r: seq<real>)
    ensures |r| == |candles|
  {
    Ema(Closes(candles), SLOW_LENGTH)
  }

  /**
   * The reported points: point k belongs to bar k + 199 and carries that bar's
   * time, both EMAs there and the trend flags comparing them.
   */
  function Points(candles: seq<Candle>, fast: seq<real>, slow: seq<real>): (ps: seq<EmaCloudPoint>)
    requires |fast| == |candles| && |slow| == |candles| && |candles| >= SLOW_LENGTH - 1
    ensures |ps| == |candles| - SLOW_LENGTH + 1
    ensures forall k {:trigger ps[k].time} :: 0 <= k < |ps| ==> ps[k].time == candles[k + SLOW_LENGTH - 1].time
    ensures forall k {:trigger ps[k].fastEma} :: 0 <= k < |ps| ==> ps[k].fastEma == fast[k + SLOW_LENGTH - 1]
    ensures forall k {:trigger ps[k].slowEma} :: 0 <= k < |ps| ==> ps[k].slowEma == slow[k + SLOW_LENGTH - 1]
    ensures forall k {:trigger ps[k].upTrend} {:trigger ps[k].downTrend} :: 0 <= k < |ps| ==>
              && (ps[k].upTrend <==> fast[k + SLOW_LENGTH - 1] > slow[k + SLOW_LENGTH - 1])
              && (ps[k].downTrend <==> fast[k + SLOW_LENGTH - 1] < slow[k + SLOW_LENGTH - 1])
    decreases |candles|
  {
    if |candles| == SLOW_LENGTH - 1 then []
    else
      var n := |candles| - 1;
      Points(candles[..n], fast[..n], slow[..n]) + [EmaCloudPoint(candles[n].time, fast[n], slow[n], fast[n] > slow[n], fast[n] < slow[n])]
  }

  /**
   * `calculate(candles)`: empty below 200 bars; otherwise point k belongs to
   * bar k + 199 and carries both EMAs there; the up-trend flag says the fast
   * EMA is above the slow one, the down-trend flag that it is below, so the
   * two never both hold.
   */
  function Calculate(candles: seq<Candle>): (r: EmaCloudResult)
    ensures r.fastLength == FAST_LENGTH && r.slowLength == SLOW_LENGTH
    ensures |candles| < SLOW_LENGTH ==> r.data == []
    ensures |candles| >= SLOW_LENGTH ==> |r.data| == |candles| - SLOW_LENGTH + 1
    ensures forall k {:trigger r.data[k].time} :: 0 <= k < |r.data| ==>
              k + SLOW_LENGTH - 1 < |candles| && r.data[k].time == candles[k + SLOW_LENGTH - 1].time
    ensures forall k {:trigger r.data[k].fastEma} :: 0 <= k < |r.data| ==>
              k + SLOW_LENGTH - 1 < |candles| && r.data[k].fastEma == FastEma(candles)[k + SLOW_LENGTH - 1]
    ensures forall k {:trigger r.data[k].slowEma} :: 0 <= k < |r.data| ==>
              k + SLOW_LENGTH - 1 < |candles| && r.data[k].slowEma == SlowEma(candles)[k + SLOW_LENGTH - 1]
    ensures forall k {:trigger r.data[k].upTrend} {:trigger r.data[k].downTrend} :: 0 <= k < |r.data| ==>
              && (r.data[k].upTrend <==> r.data[k].fastEma > r.data[k].slowEma)
              && (r.data[k].downTrend <==> r.data[k].fastEma < r.data[k].slowEma)
              && !(r.data[k].upTrend && r.data[k].downTrend)
  {
    if |candles| < SLOW_LENGTH then EmaCloudResult([], FAST_LENGTH, SLOW_LENGTH)
    else EmaCloudResult(Points(candles, FastEma(candles), SlowEma(candles)), FAST_LENGTH, SLOW_LENGTH)
  }

  /** When every close is the same price both EMAs equal it, so no trend is ever flagged. */
  lemma FlatClosesNoTrend(candles: seq<Candle>, x: real)
    requires forall i :: 0 <= i < |candles| ==> candles[i].close == x
    ensures forall k :: 0 <= k < |Calculate(candles).data| ==>
              && Calculate(candles).data[k].fastEma == x
              && Calculate(candles).data[k].slowEma == x
              && !Calculate(candles).data[k].upTrend
              && !Calculate(candles).data[k].downTrend
  {
    EmaConstant(Closes(candles), FAST_LENGTH, x);
    EmaConstant(Closes(candles), SLOW_LENGTH, x);
  }
}
