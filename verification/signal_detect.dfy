/**
 * The engine wired to its inputs: `detectAndNotify(contract)` reads the
 * contract's 1m bars from the candle store, computes the three indicators,
 * keys their points by bar time and runs one tick; `checkSignals` does this
 * for every watched contract in turn.
 *
 * `atan` and pi, used by the MA-angles indicator, are parameters.
 */
module SignalDetect {
  import opened Dto
  import CandleStore
  import Smi
  import EmaCloud
  import MaAngles
  import opened SignalEngine

  /** The contracts `checkSignals` runs the engine for. */
  const WATCHED: seq<string> := ["XRP_USDT"]

  /**
   * The points of a result keyed by their time, put one by one into a hash
   * map: every point's time is a key, and every entry is one of the points.
   */
  function ByTime<P>(ps: seq<P>, time: P -> int): (m: map<int, P>)
    ensures forall k :: 0 <= k < |ps| ==> time(ps[k]) in m
    ensures forall t :: t in m ==> time(m[t]) == t
    ensures ps == [] <==> m == map[]
    decreases |ps|
  {
    if |ps| == 0 then map[]
    else
      var last := ps[|ps| - 1];
      ByTime(ps[..|ps| - 1], time)[time(last) := last]
  }

  /** Every entry of the map is one of the points, filed under its own time. */
  lemma {:induction false} ByTimeEntries<P>(ps: seq<P>, time: P -> int)
    ensures forall t :: t in ByTime(ps, time) ==> exists k :: 0 <= k < |ps| && time(ps[k]) == t && ByTime(ps, time)[t] == ps[k]
    decreases |ps|
  {
    if |ps| > 0 {
      var init := ps[..|ps| - 1];
      ByTimeEntries(init, time);
      forall t | t in ByTime(ps, time)
        ensures exists k :: 0 <= k < |ps| && time(ps[k]) == t && ByTime(ps, time)[t] == ps[k]
      {
        if t != time(ps[|ps| - 1]) {
          assert ByTime(ps, time) == ByTime(init, time)[time(ps[|ps| - 1]) := ps[|ps| - 1]];
          assert t in ByTime(init, time) && ByTime(ps, time)[t] == ByTime(init, time)[t];
          var k :| 0 <= k < |init| && time(init[k]) == t && ByTime(init, time)[t] == init[k];
          assert ps[k] == init[k];
        }
      }
    }
  }

  /** A time shared by several points keeps the last of them: a later put overwrites. */
  lemma {:induction false} ByTimeLastWins<P>(ps: seq<P>, time: P -> int, k: int)
    requires 0 <= k < |ps|
    requires forall j :: k < j < |ps| ==> time(ps[j]) != time(ps[k])
    ensures ByTime(ps, time)[time(ps[k])] == ps[k]
    decreases |ps|
  {
    if k < |ps| - 1 {
      assert ps[..|ps| - 1][k] == ps[k];
      ByTimeLastWins(ps[..|ps| - 1], time, k);
    }
  }

  /** Point k belongs to bar k + `offset`: there is one point per bar from `offset` on. */
  ghost predicate Aligned<P>(ps: seq<P>, time: P -> int, candles: seq<Candle>, offset: nat) {
    && |ps| + offset == |candles|
    && forall k :: 0 <= k < |ps| ==> time(ps[k]) == candles[k + offset].time
  }

  /**
   * Points aligned with strictly increasing bars: each bar from `offset` on
   * finds its own point under its time.
   */
  lemma AlignedLookup<P>(ps: seq<P>, time: P -> int, candles: seq<Candle>, offset: nat, i: int)
    requires StrictlyIncreasing(candles) && Aligned(ps, time, candles, offset)
    requires offset <= i < |candles|
    ensures candles[i].time in ByTime(ps, time)
    ensures ByTime(ps, time)[candles[i].time] == ps[i - offset]
  {
    var k := i - offset;
    var ts := Times(candles);
    assert time(ps[k]) == ts[i];
    forall j | k < j < |ps| ensures time(ps[j]) != time(ps[k]) {
      assert time(ps[j]) == ts[j + offset];
    }
    ByTimeLastWins(ps, time, k);
  }

  /** Every bar from `offset` on finds, under its time in `m`, point `i - offset` of `ps`. */
  ghost predicate Finds<P>(m: map<int, P>, ps: seq<P>, candles: seq<Candle>, offset: nat) {
    && |ps| + offset == |candles|
    && forall i :: offset <= i < |candles| ==> candles[i].time in m && m[candles[i].time] == ps[i - offset]
  }

  /** Keying points aligned with strictly increasing bars by time finds every bar's own point. */
  lemma AlignedAll<P>(ps: seq<P>, time: P -> int, candles: seq<Candle>, offset: nat)
    requires StrictlyIncreasing(candles) && Aligned(ps, time, candles, offset)
    ensures Finds(ByTime(ps, time), ps, candles, offset)
  {
    forall i | offset <= i < |candles|
      ensures candles[i].time in ByTime(ps, time) && ByTime(ps, time)[candles[i].time] == ps[i - offset]
    {
      AlignedLookup(ps, time, candles, offset, i);
    }
  }

  function SmiTime(p: SmiPoint): int { p.time }
  function EmaTime(p: EmaCloudPoint): int { p.time }
  function MaTime(p: MaAnglesPoint): int { p.time }

  /** `smiByTime`, `emaByTime` and `maByTime` for the given bars. */
  function IndicatorsOf(candles: seq<Candle>, atan: real -> real, pi: real): (ind: Indicators)
    requires pi > 0.0
    ensures ind.smi == map[] <==> Smi.Calculate(candles).data == []
    ensures ind.ema == map[] <==> EmaCloud.Calculate(candles).data == []
    ensures ind.ma == map[] <==> MaAngles.Calculate(candles, atan, pi).data == []
    ensures forall t :: t in ind.smi ==> ind.smi[t].time == t
    ensures forall t :: t in ind.ema ==> ind.ema[t].time == t
    ensures forall t :: t in ind.ma ==> ind.ma[t].time == t
  {
    Indicators(
      ByTime(Smi.Calculate(candles).data, SmiTime),
      ByTime(EmaCloud.Calculate(candles).data, EmaTime),
      ByTime(MaAngles.Calculate(candles, atan, pi).data, MaTime))
  }

  /** `detectAndNotify(contract)` over the contract's bars. */
  function Detect(st: EngineState, contract: string, candles: seq<Candle>, atan: real -> real, pi: real): (r: Outcome)
    requires pi > 0.0
    ensures |candles| < MIN_CANDLES ==> r == Outcome(st, [])
    ensures forall c :: c != contract ==> SameFor(r.st, st, c)
    ensures |st.notified| <= NOTIFIED_CAP ==> |r.st.notified| <= NOTIFIED_CAP
  {
    Tick(st, contract, candles, IndicatorsOf(candles, atan, pi))
  }

  /**
   * One scheduler run over `contracts`, each with its 1m series from the
   * store; the state threads through, the messages are concatenated, and
   * contracts outside the list are left alone.
   */
  function CheckAll(st: EngineState, contracts: seq<string>, store: CandleStore.Store, atan: real -> real, pi: real): (r: Outcome)
    requires pi > 0.0
    ensures forall c :: c !in contracts ==> SameFor(r.st, st, c)
    ensures |st.notified| <= NOTIFIED_CAP ==> |r.st.notified| <= NOTIFIED_CAP
    decreases |contracts|
  {
    if |contracts| == 0 then Outcome(st, [])
    else
      var first := Detect(st, contracts[0], CandleStore.GetCandlesDefaultInterval(store, contracts[0]), atan, pi);
      var rest := CheckAll(first.st, contracts[1..], store, atan, pi);
      forall c | c !in contracts ensures SameFor(rest.st, st, c) {
        assert c != contracts[0] && c !in contracts[1..];
        SameForTrans(rest.st, first.st, st, c);
      }
      Outcome(rest.st, first.events + rest.events)
  }

  /** `checkSignals()`: the engine for every watched contract. */
  function CheckSignals(st: EngineState, store: CandleStore.Store, atan: real -> real, pi: real): (r: Outcome)
    requires pi > 0.0
    ensures forall c :: c != "XRP_USDT" ==> SameFor(r.st, st, c)
    ensures |st.notified| <= NOTIFIED_CAP ==> |r.st.notified| <= NOTIFIED_CAP
  {
    CheckAll(st, WATCHED, store, atan, pi)
  }

  /** The SMI result has one point per bar from bar 9 on. */
  lemma SmiAligned(candles: seq<Candle>)
    requires |candles| >= Smi.PERCENT_K_LENGTH
    ensures Aligned(Smi.Calculate(candles).data, SmiTime, candles, Smi.PERCENT_K_LENGTH - 1)
  {
  }

  /** The EMA-cloud result has one point per bar from bar 199 on. */
  lemma EmaAligned(candles: seq<Candle>)
    requires |candles| >= EmaCloud.SLOW_LENGTH
    ensures Aligned(EmaCloud.Calculate(candles).data, EmaTime, candles, EmaCloud.SLOW_LENGTH - 1)
  {
  }

  /** From 280 bars on the MA-angles result has one point per bar from bar 50 on. */
  lemma MaAligned(candles: seq<Candle>, atan: real -> real, pi: real)
    requires pi > 0.0 && |candles| >= MaAngles.MIN_CANDLES
    ensures Aligned(MaAngles.Calculate(candles, atan, pi).data, MaTime, candles, MaAngles.START_INDEX)
  {
  }

  /**
   * Maps that find every bar's own point: from 300 bars on none is empty,
   * and each of the last five bars and its predecessor are present.
   */
  lemma RecentBarsFound(candles: seq<Candle>, ind: Indicators, s: seq<SmiPoint>, e: seq<EmaCloudPoint>, m: seq<MaAnglesPoint>)
    requires |candles| >= MIN_CANDLES
    requires Finds(ind.smi, s, candles, Smi.PERCENT_K_LENGTH - 1)
    requires Finds(ind.ema, e, candles, EmaCloud.SLOW_LENGTH - 1)
    requires Finds(ind.ma, m, candles, MaAngles.START_INDEX)
    ensures !Idle(candles, ind)
    ensures forall i :: StartIndex(|candles|) <= i < |candles| ==> Present(candles, ind, i)
  {
    var last := |candles| - 1;
    assert candles[last].time in ind.smi && candles[last].time in ind.ema && candles[last].time in ind.ma;
    forall i | StartIndex(|candles|) <= i < |candles| ensures Present(candles, ind, i) {
      assert candles[i - 1].time in ind.smi;
    }
  }

  /** `smiByTime` finds every bar's own SMI point from bar 9 on. */
  lemma SmiFindsBars(candles: seq<Candle>)
    requires StrictlyIncreasing(candles) && |candles| >= Smi.PERCENT_K_LENGTH
    ensures Finds(ByTime(Smi.Calculate(candles).data, SmiTime), Smi.Calculate(candles).data, candles, Smi.PERCENT_K_LENGTH - 1)
  {
    SmiAligned(candles);
    AlignedAll(Smi.Calculate(candles).data, SmiTime, candles, Smi.PERCENT_K_LENGTH - 1);
  }

  /** `emaByTime` finds every bar's own EMA-cloud point from bar 199 on. */
  lemma EmaFindsBars(candles: seq<Candle>)
    requires StrictlyIncreasing(candles) && |candles| >= EmaCloud.SLOW_LENGTH
    ensures Finds(ByTime(EmaCloud.Calculate(candles).data, EmaTime), EmaCloud.Calculate(candles).data, candles, EmaCloud.SLOW_LENGTH - 1)
  {
    EmaAligned(candles);
    AlignedAll(EmaCloud.Calculate(candles).data, EmaTime, candles, EmaCloud.SLOW_LENGTH - 1);
  }

  /** `maByTime` finds every bar's own MA-angles point from bar 50 on. */
  lemma MaFindsBars(candles: seq<Candle>, atan: real -> real, pi: real)
    requires pi > 0.0 && StrictlyIncreasing(candles) && |candles| >= MaAngles.MIN_CANDLES
    ensures Finds(ByTime(MaAngles.Calculate(candles, atan, pi).data, MaTime), MaAngles.Calculate(candles, atan, pi).data, candles, MaAngles.START_INDEX)
  {
    MaAligned(candles, atan, pi);
    AlignedAll(MaAngles.Calculate(candles, atan, pi).data, MaTime, candles, MaAngles.START_INDEX);
  }

  /**
   * `detectAndNotify` over at least 300 strictly increasing bars does not
   * return early, and each of the last five bars and its predecessor find
   * their points.
   */
  lemma DetectExaminesRecentBars(candles: seq<Candle>, atan: real -> real, pi: real)
    requires pi > 0.0 && StrictlyIncreasing(candles) && |candles| >= MIN_CANDLES
    ensures !Idle(candles, IndicatorsOf(candles, atan, pi))
    ensures forall i :: StartIndex(|candles|) <= i < |candles| ==> Present(candles, IndicatorsOf(candles, atan, pi), i)
  {
    SmiFindsBars(candles);
    EmaFindsBars(candles);
    MaFindsBars(candles, atan, pi);
    RecentBarsFound(candles, IndicatorsOf(candles, atan, pi), Smi.Calculate(candles).data,
      EmaCloud.Calculate(candles).data, MaAngles.Calculate(candles, atan, pi).data);
  }
}
