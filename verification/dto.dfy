/**
 * The records of the `crypto/dto` package: an OHLCV bar and the points of the
 * three indicator results. Java `double` becomes `real` and `long` becomes
 * `int`; nothing is claimed about floating-point rounding.
 */
module Dto {

  /** One OHLCV bar; `time` is the bar's opening time in Unix seconds. */
  datatype Candle = Candle(time: int, open: real, high: real, low: real, close: real, volume: int)

  /** A bar whose close lies inside its own high/low range, as every exchange bar does. */
  predicate Coherent(c: Candle) {
    c.low <= c.close <= c.high
  }

  predicate AllCoherent(cs: seq<Candle>) {
    forall i :: 0 <= i < |cs| ==> Coherent(cs[i])
  }

  /** The bars' times, in series order. */
  function Times(cs: seq<Candle>): (ts: seq<int>)
    ensures |ts| == |cs|
    ensures forall i {:trigger ts[i]} :: 0 <= i < |cs| ==> ts[i] == cs[i].time
  {
    seq(|cs|, i requires 0 <= i < |cs| => cs[i].time)
  }

  /**
   * Bar times strictly increase along the series (no duplicates, no
   * reordering). Stated on `Times` so that the pairwise fact is only
   * instantiated for the bars a proof asks about.
   */
  predicate StrictlyIncreasing(cs: seq<Candle>) {
    var ts := Times(cs);
    forall i, j :: 0 <= i < j < |ts| ==> ts[i] < ts[j]
  }

  /** `StrictlyIncreasing` read on the bars themselves. */
  lemma StrictlyIncreasingPairs(cs: seq<Candle>)
    ensures StrictlyIncreasing(cs) <==> forall i, j :: 0 <= i < j < |cs| ==> cs[i].time < cs[j].time
  {
    var ts := Times(cs);
    if StrictlyIncreasing(cs) {
      forall i, j | 0 <= i < j < |cs| ensures cs[i].time < cs[j].time {
        assert ts[i] < ts[j];
      }
    }
  }

  /** A suffix of a strictly increasing series is strictly increasing. */
  lemma StrictlyIncreasingSuffix(cs: seq<Candle>, d: int)
    requires StrictlyIncreasing(cs) && 0 <= d <= |cs|
    ensures StrictlyIncreasing(cs[d..])
  {
    var ts := Times(cs);
    var us := Times(cs[d..]);
    forall i, j | 0 <= i < j < |us| ensures us[i] < us[j] {
      assert us[i] == ts[d + i] && us[j] == ts[d + j];
    }
  }

  /** A prefix of a strictly increasing series is strictly increasing. */
  lemma StrictlyIncreasingPrefix(cs: seq<Candle>, d: int)
    requires StrictlyIncreasing(cs) && 0 <= d <= |cs|
    ensures StrictlyIncreasing(cs[..d])
  {
    var ts := Times(cs);
    var us := Times(cs[..d]);
    forall i, j | 0 <= i < j < |us| ensures us[i] < us[j] {
      assert us[i] == ts[i] && us[j] == ts[j];
    }
  }

  /** Appending a bar newer than the last keeps a series strictly increasing. */
  lemma StrictlyIncreasingExtend(cs: seq<Candle>, c: Candle)
    requires StrictlyIncreasing(cs)
    requires |cs| == 0 || cs[|cs| - 1].time < c.time
    ensures StrictlyIncreasing(cs + [c])
  {
    var ts := Times(cs);
    var us := Times(cs + [c]);
    forall i, j | 0 <= i < j < |us| ensures us[i] < us[j] {
      assert us[i] == ts[i];
      if j < |cs| {
        assert us[j] == ts[j];
      } else {
        assert us[j] == c.time && ts[|cs| - 1] == cs[|cs| - 1].time;
        assert ts[i] <= ts[|cs| - 1];
      }
    }
  }

  /** Bar times never decrease along the series (duplicates allowed). */
  predicate SortedByTime(cs: seq<Candle>) {
    var ts := Times(cs);
    forall i, j :: 0 <= i < j < |ts| ==> ts[i] <= ts[j]
  }

  /** A prefix of a sorted series is sorted, and no bar of it is later than the series' last bar. */
  lemma SortedPrefix(cs: seq<Candle>, d: int)
    requires SortedByTime(cs) && 0 <= d <= |cs|
    ensures SortedByTime(cs[..d])
    ensures forall k :: 0 <= k < d ==> cs[k].time <= cs[|cs| - 1].time
  {
    var ts := Times(cs);
    var us := Times(cs[..d]);
    forall i, j | 0 <= i < j < |us| ensures us[i] <= us[j] {
      assert us[i] == ts[i] && us[j] == ts[j];
    }
    forall k | 0 <= k < d ensures cs[k].time <= cs[|cs| - 1].time {
      assert ts[k] <= ts[|cs| - 1];
    }
  }

  /** Appending a bar no older than the last keeps a series sorted. */
  lemma SortedExtend(cs: seq<Candle>, c: Candle)
    requires SortedByTime(cs)
    requires |cs| == 0 || cs[|cs| - 1].time <= c.time
    ensures SortedByTime(cs + [c])
  {
    var ts := Times(cs);
    var us := Times(cs + [c]);
    forall i, j | 0 <= i < j < |us| ensures us[i] <= us[j] {
      assert us[i] == ts[i];
      if j < |cs| {
        assert us[j] == ts[j];
      } else {
        assert us[j] == c.time && ts[|cs| - 1] == cs[|cs| - 1].time;
        assert ts[i] <= ts[|cs| - 1];
      }
    }
  }

  function Closes(cs: seq<Candle>): (r: seq<real>)
    ensures |r| == |cs|
    ensures forall i :: 0 <= i < |cs| ==> r[i] == cs[i].close
  {
    seq(|cs|, i requires 0 <= i < |cs| => cs[i].close)
  }

  function Highs(cs: seq<Candle>): (r: seq<real>)
    ensures |r| == |cs|
    ensures forall i :: 0 <= i < |cs| ==> r[i] == cs[i].high
  {
    seq(|cs|, i requires 0 <= i < |cs| => cs[i].high)
  }

  function Lows(cs: seq<Candle>): (r: seq<real>)
    ensures |r| == |cs|
    ensures forall i :: 0 <= i < |cs| ==> r[i] == cs[i].low
  {
    seq(|cs|, i requires 0 <= i < |cs| => cs[i].low)
  }

  /** One Stochastic Momentum Index point: the smoothed SMI and its EMA signal line. */
  datatype SmiPoint = SmiPoint(time: int, smi: real, signal: real)

  datatype SmiResult = SmiResult(data: seq<SmiPoint>, overbought: real, oversold: real)

  /** One EMA-cloud point: fast EMA(50), slow EMA(200) and the two trend flags. */
  datatype EmaCloudPoint = EmaCloudPoint(time: int, fastEma: real, slowEma: real, upTrend: bool, downTrend: bool)

  datatype EmaCloudResult = EmaCloudResult(data: seq<EmaCloudPoint>, fastLength: int, slowLength: int)

  /** One MA-angles point. Only `jmaSlope` and the two EMA(27) direction flags are ever filled in. */
  datatype MaAnglesPoint = MaAnglesPoint(
    time: int,
    jmaSlope: real,
    jmaFastSlope: real,
    ma27Slope: real,
    ma83Slope: real,
    ma278Slope: real,
    ma27Rising: bool,
    ma27Falling: bool)

  datatype MaAnglesResult = MaAnglesResult(data: seq<MaAnglesPoint>, threshold: real)
}
