/**
 * One run of the signal engine (`detectAndNotify`) as a pure transition:
 * the engine state (per-contract signal bars and the two dedup key sets)
 * and the indicator points looked up by bar time go in, the new state and
 * the notifications to send come out.
 *
 * Inside a tick the order is fixed: the latest-bar reset, the cancellation
 * check (oversold, then overbought), the new-signal scan of the last five
 * bars, and the size cap on the notified set.
 *
 * The source's string keys (`contract + "_S2_LONG_" + time`,
 * `contract + "_OVERSOLD_" + time`) are tuples here; removing cancel keys by
 * the prefix `contract + "_OVERSOLD_"` becomes removing every cancel key of
 * that contract and zone.
 */
module SignalEngine {
  import opened Dto
  import opened Wrappers
  import opened ZoneScan

  /** Fewer bars than this and the tick does nothing. */
  const MIN_CANDLES: int := 300
  /** Only the last five bars are examined for new signals. */
  const RECENT_BARS: int := 5
  /** The notified set is emptied once it holds more keys than this. */
  const NOTIFIED_CAP: int := 1000

  /** Strategy 2 (trend and slope agree) takes priority over strategy 3 (slope alone). */
  datatype Strategy = S2 | S3

  datatype Side = Long | Short

  /** An oversold turn opens a long, an overbought turn a short. */
  function SideOf(z: Zone): Side {
    match z
    case Oversold => Long
    case Overbought => Short
  }

  function Other(z: Zone): Zone {
    match z
    case Oversold => Overbought
    case Overbought => Oversold
  }

  /** `contract + "_" + strategy + "_" + side + "_" + time`. */
  datatype SignalKey = SignalKey(contract: string, strategy: Strategy, side: Side, time: int)

  /** `contract + "_OVERSOLD_" + time` or `contract + "_OVERBOUGHT_" + time`. */
  datatype CancelKey = CancelKey(contract: string, zone: Zone, time: int)

  /** A message handed to the notification services. */
  datatype Event = Notify(signal: SignalKey) | Cancel(cancel: CancelKey)

  /**
   * `oversoldSignalTime` and `overboughtSignalTime` (contract to the time of
   * the bar that fired the zone's signal), `notifiedSignals` and
   * `cancelledSignals`.
   */
  datatype EngineState = EngineState(
    oversoldTime: map<string, int>,
    overboughtTime: map<string, int>,
    notified: set<SignalKey>,
    cancelled: set<CancelKey>)
  {
    function Record(z: Zone): map<string, int> {
      match z
      case Oversold => oversoldTime
      case Overbought => overboughtTime
    }

    function WithRecord(z: Zone, m: map<string, int>): (r: EngineState)
      ensures r.Record(z) == m && r.Record(Other(z)) == Record(Other(z))
      ensures r.notified == notified && r.cancelled == cancelled
    {
      match z
      case Oversold => this.(oversoldTime := m)
      case Overbought => this.(overboughtTime := m)
    }
  }

  /** The state of a freshly constructed service: every map and set empty. */
  const Initial: EngineState := EngineState(map[], map[], {}, {})

  datatype Outcome = Outcome(st: EngineState, events: seq<Event>)

  /** The three indicator results keyed by bar time (`smiByTime`, `emaByTime`, `maByTime`). */
  datatype Indicators = Indicators(
    smi: map<int, SmiPoint>,
    ema: map<int, EmaCloudPoint>,
    ma: map<int, MaAnglesPoint>)

  /** The state of contract `c` agrees in `a` and `b`: both records and its cancel keys. */
  ghost predicate SameFor(a: EngineState, b: EngineState, c: string) {
    && (forall z: Zone :: (c in a.Record(z) <==> c in b.Record(z)))
    && (forall z: Zone :: c in a.Record(z) ==> a.Record(z)[c] == b.Record(z)[c])
    && (forall k: CancelKey :: k.contract == c ==> (k in a.cancelled <==> k in b.cancelled))
  }

  /**
   * Forget the zone's signal for `contract`: drop its record and every
   * cancel key of that contract and zone.
   */
  function ClearZone(st: EngineState, z: Zone, contract: string): (r: EngineState)
    ensures contract !in r.Record(z)
    ensures forall k :: k in r.cancelled <==> k in st.cancelled && !(k.contract == contract && k.zone == z)
    ensures r.Record(Other(z)) == st.Record(Other(z)) && r.notified == st.notified
    ensures forall c :: c != contract ==> SameFor(r, st, c)
  {
    var cleared := set k | k in st.cancelled && k.contract == contract && k.zone == z;
    st.WithRecord(z, st.Record(z) - {contract}).(cancelled := st.cancelled - cleared)
  }

  /**
   * Latest-bar reset: when the newest bar has an SMI point above -40 the
   * oversold signal of `contract` is forgotten, and when it is below +40
   * the overbought one; a value strictly between does both.
   */
  function Reset(st: EngineState, contract: string, candles: seq<Candle>, smi: map<int, SmiPoint>): (r: EngineState)
    requires |candles| > 0
    ensures r.notified == st.notified
    ensures forall c :: c != contract ==> SameFor(r, st, c)
    ensures forall z: Zone :: ResetsZone(z, candles, smi) ==>
              && contract !in r.Record(z)
              && forall k :: k in r.cancelled && k.contract == contract ==> k.zone != z
    ensures forall z: Zone :: !ResetsZone(z, candles, smi) ==>
              && r.Record(z) == st.Record(z)
              && forall k: CancelKey :: k.zone == z ==> (k in r.cancelled <==> k in st.cancelled)
  {
    var latest := candles[|candles| - 1];
    if latest.time !in smi then st
    else
      var v := smi[latest.time].smi;
      var afterLong := if v > -LEVEL then ClearZone(st, Oversold, contract) else st;
      if v < LEVEL then ClearZone(afterLong, Overbought, contract) else afterLong
  }

  /** The latest bar has an SMI point that lies outside zone `z`. */
  predicate ResetsZone(z: Zone, candles: seq<Candle>, smi: map<int, SmiPoint>)
    requires |candles| > 0
  {
    var t := candles[|candles| - 1].time;
    t in smi && !InZone(z, smi[t].smi)
  }

  /** The index of the first bar with time `t`, or -1 when there is none. */
  function IndexOfTime(candles: seq<Candle>, t: int): (idx: int)
    ensures -1 <= idx < |candles|
    ensures idx >= 0 ==> candles[idx].time == t && forall k :: 0 <= k < idx ==> candles[k].time != t
    ensures idx == -1 <==> forall k :: 0 <= k < |candles| ==> candles[k].time != t
  {
    if |candles| == 0 then -1
    else if candles[0].time == t then 0
    else
      var rest := IndexOfTime(candles[1..], t);
      if rest == -1 then -1 else rest + 1
  }

  /**
   * The zone's recorded signal of `contract` has lapsed: its bar is still in
   * the window at an index above 0 but no longer passes the zone scan.
   */
  predicate Lapsed(st: EngineState, z: Zone, contract: string, candles: seq<Candle>, smi: map<int, SmiPoint>) {
    && contract in st.Record(z)
    && var idx := IndexOfTime(candles, st.Record(z)[contract]);
       idx > 0 && !Scan(z, smi, candles, idx)
  }

  /**
   * The cancellation check of one zone: a lapsed signal is forgotten and its
   * cancel key recorded; the cancel message goes out only the first time the
   * key is added. A signal whose bar is missing or at index 0 is kept.
   */
  function CancelCheck(st: EngineState, z: Zone, contract: string, candles: seq<Candle>, smi: map<int, SmiPoint>): (r: Outcome)
    ensures !Lapsed(st, z, contract, candles, smi) ==> r == Outcome(st, [])
    ensures Lapsed(st, z, contract, candles, smi) ==>
              var key := CancelKey(contract, z, st.Record(z)[contract]);
              && contract !in r.st.Record(z)
              && r.st.cancelled == st.cancelled + {key}
              && (r.events == if key in st.cancelled then [] else [Cancel(key)])
    ensures r.st.Record(Other(z)) == st.Record(Other(z)) && r.st.notified == st.notified
    ensures forall c :: c != contract ==> SameFor(r.st, st, c)
  {
    if contract !in st.Record(z) then Outcome(st, [])
    else
      var t := st.Record(z)[contract];
      var idx := IndexOfTime(candles, t);
      if idx > 0 && !Scan(z, smi, candles, idx) then
        var key := CancelKey(contract, z, t);
        var events := if key in st.cancelled then [] else [Cancel(key)];
        Outcome(st.WithRecord(z, st.Record(z) - {contract}).(cancelled := st.cancelled + {key}), events)
      else Outcome(st, [])
  }

  /** The EMA cloud agrees with the zone's side: `upTrend` for a long, `downTrend` for a short. */
  predicate Trend(z: Zone, ema: EmaCloudPoint) {
    match z
    case Oversold => ema.upTrend
    case Overbought => ema.downTrend
  }

  /** The slope agrees with the zone's side: `>= 0` for a long, `< 0` for a short. */
  predicate SlopeAgrees(z: Zone, slope: real) {
    match z
    case Oversold => slope >= 0.0
    case Overbought => slope < 0.0
  }

  /**
   * The strategy chosen for a passing scan: S2 when trend and slope both
   * agree, otherwise S3 when the slope agrees, otherwise none.
   */
  function Choose(z: Zone, ema: EmaCloudPoint, ma: MaAnglesPoint): (r: Option<Strategy>)
    ensures r.Some? <==> SlopeAgrees(z, ma.jmaSlope)
    ensures r == Some(S2) <==> Trend(z, ema) && SlopeAgrees(z, ma.jmaSlope)
  {
    if Trend(z, ema) && SlopeAgrees(z, ma.jmaSlope) then Some(S2)
    else if SlopeAgrees(z, ma.jmaSlope) then Some(S3)
    else None
  }

  /**
   * Bar `i` is examined: it has an EMA, an MA and an SMI point, and its
   * predecessor has an SMI point.
   */
  predicate Present(candles: seq<Candle>, ind: Indicators, i: int)
    requires 1 <= i < |candles|
  {
    var t := candles[i].time;
    t in ind.ema && t in ind.ma && t in ind.smi && candles[i - 1].time in ind.smi
  }

  /** Bar `i` opens a signal in zone `z`: no signal is recorded, the scan passes and the slope agrees. */
  predicate Opens(st: EngineState, z: Zone, contract: string, candles: seq<Candle>, ind: Indicators, i: int)
    requires 1 <= i < |candles| && Present(candles, ind, i)
  {
    && contract !in st.Record(z)
    && Scan(z, ind.smi, candles, i)
    && SlopeAgrees(z, ind.ma[candles[i].time].jmaSlope)
  }

  function ZoneOf(s: Side): Zone {
    match s
    case Long => Oversold
    case Short => Overbought
  }

  /**
   * Key `key` is the signal of bar `j`: the bar is examined, its time is the
   * key's, it passes the zone scan of the key's side with an agreeing slope,
   * and the strategy is S2 exactly when the EMA trend agrees too.
   */
  predicate FiredAt(key: SignalKey, candles: seq<Candle>, ind: Indicators, j: int)
    requires 1 <= j < |candles|
  {
    && Present(candles, ind, j)
    && var z := ZoneOf(key.side);
       var t := candles[j].time;
       && key.time == t
       && Scan(z, ind.smi, candles, j)
       && SlopeAgrees(z, ind.ma[t].jmaSlope)
       && (key.strategy == S2 <==> Trend(z, ind.ema[t]))
  }

  /** Key `key` is the signal of one of the bars from `from` on. */
  ghost predicate Fired(key: SignalKey, candles: seq<Candle>, ind: Indicators, from: int) {
    exists j :: 1 <= from <= j < |candles| && FiredAt(key, candles, ind, j)
  }

  /**
   * The new-signal check of one zone at bar `i`: record the bar and add the
   * key, and notify only when the key is new. The record is set even when
   * the notification is suppressed.
   */
  function TryOpen(st: EngineState, z: Zone, contract: string, candles: seq<Candle>, ind: Indicators, i: int): (r: Outcome)
    requires 1 <= i < |candles| && Present(candles, ind, i)
    ensures !Opens(st, z, contract, candles, ind, i) ==> r == Outcome(st, [])
    ensures Opens(st, z, contract, candles, ind, i) ==>
              var t := candles[i].time;
              var strategy := if Trend(z, ind.ema[t]) then S2 else S3;
              var key := SignalKey(contract, strategy, SideOf(z), t);
              && r.st.Record(z) == st.Record(z)[contract := t]
              && r.st.notified == st.notified + {key}
              && (r.events == if key in st.notified then [] else [Notify(key)])
    ensures r.st.Record(Other(z)) == st.Record(Other(z)) && r.st.cancelled == st.cancelled
    ensures forall c :: c != contract ==> SameFor(r.st, st, c)
    ensures forall e :: e in r.events ==> e.Notify? && e.signal.side == SideOf(z) && FiredAt(e.signal, candles, ind, i)
  {
    var t := candles[i].time;
    if contract in st.Record(z) || !Scan(z, ind.smi, candles, i) then Outcome(st, [])
    else
      match Choose(z, ind.ema[t], ind.ma[t])
      case None => Outcome(st, [])
      case Some(strategy) =>
        var key := SignalKey(contract, strategy, SideOf(z), t);
        var events := if key in st.notified then [] else [Notify(key)];
        Outcome(st.WithRecord(z, st.Record(z)[contract := t]).(notified := st.notified + {key}), events)
  }

  /** One examined bar: the long check, then the short check; a bar that is not present is skipped. */
  function Step(st: EngineState, contract: string, candles: seq<Candle>, ind: Indicators, i: int): (r: Outcome)
    requires 1 <= i < |candles|
    ensures !Present(candles, ind, i) ==> r == Outcome(st, [])
    ensures r.st.cancelled == st.cancelled
    ensures forall c :: c != contract ==> SameFor(r.st, st, c)
    ensures forall z: Zone :: NotifyCount(r.events, SideOf(z)) <= (if contract in st.Record(z) then 0 else 1)
    ensures forall z: Zone :: NotifyCount(r.events, SideOf(z)) > 0 ==> contract in r.st.Record(z)
    ensures forall z: Zone :: contract in st.Record(z) ==> r.st.Record(z) == st.Record(z)
    ensures forall z: Zone :: contract in r.st.Record(z) && contract !in st.Record(z) ==>
              OpensAt(z, candles, ind, i) && r.st.Record(z)[contract] == candles[i].time
    ensures st.notified <= r.st.notified
    ensures forall e :: e in r.events ==> e.Notify? && e.signal.contract == contract
                                          && e.signal !in st.notified && e.signal in r.st.notified
  {
    if !Present(candles, ind, i) then Outcome(st, [])
    else
      var long := TryOpen(st, Oversold, contract, candles, ind, i);
      var short := TryOpen(long.st, Overbought, contract, candles, ind, i);
      SameForChain(short.st, long.st, st, contract);
      StepRecords(st, contract, candles, ind, i);
      StepCounts(st, contract, candles, ind, i);
      Outcome(short.st, long.events + short.events)
  }

  /** The records after both checks of a present bar: each check touches only its own zone. */
  lemma StepRecords(st: EngineState, contract: string, candles: seq<Candle>, ind: Indicators, i: int)
    requires 1 <= i < |candles| && Present(candles, ind, i)
    ensures var long := TryOpen(st, Oversold, contract, candles, ind, i);
            var short := TryOpen(long.st, Overbought, contract, candles, ind, i);
            && (forall z: Zone :: contract in st.Record(z) ==> short.st.Record(z) == st.Record(z))
            && (forall z: Zone :: contract in short.st.Record(z) && contract !in st.Record(z) ==>
                  Opens(st, z, contract, candles, ind, i) && short.st.Record(z)[contract] == candles[i].time)
  {
    var long := TryOpen(st, Oversold, contract, candles, ind, i);
    assert long.st.Record(Overbought) == st.Record(Overbought);
  }

  /** The notifications of both checks of a present bar: at most one per side, and only for a side that opened. */
  lemma StepCounts(st: EngineState, contract: string, candles: seq<Candle>, ind: Indicators, i: int)
    requires 1 <= i < |candles| && Present(candles, ind, i)
    ensures var long := TryOpen(st, Oversold, contract, candles, ind, i);
            var short := TryOpen(long.st, Overbought, contract, candles, ind, i);
            var events := long.events + short.events;
            && (forall z: Zone :: NotifyCount(events, SideOf(z)) <= (if contract in st.Record(z) then 0 else 1))
            && (forall z: Zone :: NotifyCount(events, SideOf(z)) > 0 ==> contract in short.st.Record(z))
  {
    var long := TryOpen(st, Oversold, contract, candles, ind, i);
    var short := TryOpen(long.st, Overbought, contract, candles, ind, i);
    assert long.st.Record(Overbought) == st.Record(Overbought);
    assert short.st.Record(Oversold) == long.st.Record(Oversold);
    NotifyCountAppend(long.events, short.events, Long);
    NotifyCountAppend(long.events, short.events, Short);
    NotifyCountNone(long.events, Short);
    NotifyCountNone(short.events, Long);
  }

  /** Every notification of an examined bar is that bar's signal. */
  lemma StepFired(st: EngineState, contract: string, candles: seq<Candle>, ind: Indicators, i: int)
    requires 1 <= i < |candles|
    ensures forall e :: e in Step(st, contract, candles, ind, i).events ==> FiredAt(e.signal, candles, ind, i)
  {
    if Present(candles, ind, i) {
      var long := TryOpen(st, Oversold, contract, candles, ind, i);
      var short := TryOpen(long.st, Overbought, contract, candles, ind, i);
      assert Step(st, contract, candles, ind, i).events == long.events + short.events;
    }
  }

  /** The number of notifications for side `s` in `events`. */
  function NotifyCount(events: seq<Event>, s: Side): (n: nat)
    ensures n <= |events|
  {
    if |events| == 0 then 0
    else NotifyCount(events[..|events| - 1], s) + (if events[|events| - 1].Notify? && events[|events| - 1].signal.side == s then 1 else 0)
  }

  lemma {:induction false} NotifyCountAppend(a: seq<Event>, b: seq<Event>, s: Side)
    ensures NotifyCount(a + b, s) == NotifyCount(a, s) + NotifyCount(b, s)
    decreases |b|
  {
    if |b| == 0 {
      assert a + b == a;
    } else {
      assert (a + b)[..|a + b| - 1] == a + b[..|b| - 1];
      assert (a + b)[|a + b| - 1] == b[|b| - 1];
      NotifyCountAppend(a, b[..|b| - 1], s);
    }
  }

  /** Events that hold no notification for side `s` count 0 for it. */
  lemma {:induction false} NotifyCountNone(events: seq<Event>, s: Side)
    requires forall e :: e in events ==> !(e.Notify? && e.signal.side == s)
    ensures NotifyCount(events, s) == 0
    decreases |events|
  {
    if |events| > 0 {
      assert events[|events| - 1] in events;
      NotifyCountNone(events[..|events| - 1], s);
    }
  }

  /** "Contract `contract` aside, `a` and `b` agree" chains. */
  lemma SameForChain(a: EngineState, b: EngineState, d: EngineState, contract: string)
    requires forall c :: c != contract ==> SameFor(a, b, c)
    requires forall c :: c != contract ==> SameFor(b, d, c)
    ensures forall c :: c != contract ==> SameFor(a, d, c)
  {
    forall c | c != contract ensures SameFor(a, d, c) {
      SameForTrans(a, b, d, c);
    }
  }

  lemma SameForTrans(a: EngineState, b: EngineState, d: EngineState, c: string)
    requires SameFor(a, b, c) && SameFor(b, d, c)
    ensures SameFor(a, d, c)
  {
  }

  /** The first index examined for new signals: the last five bars, never bar 0. */
  function StartIndex(n: int): (s: int)
    ensures s >= 1 && s >= n - RECENT_BARS
    ensures s == 1 || s == n - RECENT_BARS
  {
    if n - RECENT_BARS > 1 then n - RECENT_BARS else 1
  }

  /**
   * The new-signal scan over bars `i` to the last: each zone opens at most
   * one signal, only when it had none, and a signal already recorded stays
   * as it is; the notifications sent are for new keys only, and every key
   * notified is recorded.
   */
  function ScanFrom(st: EngineState, contract: string, candles: seq<Candle>, ind: Indicators, i: int): (r: Outcome)
    requires 1 <= i <= |candles|
    ensures r.st.cancelled == st.cancelled
    ensures forall c :: c != contract ==> SameFor(r.st, st, c)
    ensures forall z: Zone :: NotifyCount(r.events, SideOf(z)) <= (if contract in st.Record(z) then 0 else 1)
    ensures forall z: Zone :: contract in st.Record(z) ==> r.st.Record(z) == st.Record(z)
    ensures forall z: Zone :: NotifyCount(r.events, SideOf(z)) > 0 ==> contract in r.st.Record(z)
    ensures forall z: Zone :: contract in r.st.Record(z) && contract !in st.Record(z) ==>
              exists j :: i <= j < |candles| && OpensAt(z, candles, ind, j) && r.st.Record(z)[contract] == candles[j].time
    ensures st.notified <= r.st.notified
    ensures forall e :: e in r.events ==> e.Notify? && e.signal.contract == contract
                                          && e.signal !in st.notified && e.signal in r.st.notified
    ensures forall e :: e in r.events ==> Fired(e.signal, candles, ind, i)
    decreases |candles| - i
  {
    if i == |candles| then Outcome(st, [])
    else
      var o := Step(st, contract, candles, ind, i);
      var rest := ScanFrom(o.st, contract, candles, ind, i + 1);
      StepFired(st, contract, candles, ind, i);
      SameForChain(rest.st, o.st, st, contract);
      NotifyCountAppend(o.events, rest.events, Long);
      NotifyCountAppend(o.events, rest.events, Short);
      Outcome(rest.st, o.events + rest.events)
  }

  /** `notifiedSignals.clear()` once the set holds more than 1000 keys. */
  function Cap(st: EngineState): (r: EngineState)
    ensures |r.notified| <= NOTIFIED_CAP || r.notified == st.notified
    ensures |st.notified| <= NOTIFIED_CAP ==> r == st
    ensures |st.notified| > NOTIFIED_CAP ==> r.notified == {}
    ensures r.oversoldTime == st.oversoldTime && r.overboughtTime == st.overboughtTime && r.cancelled == st.cancelled
    ensures forall c :: SameFor(r, st, c)
  {
    if |st.notified| > NOTIFIED_CAP then st.(notified := {}) else st
  }

  /**
   * The first two phases of a tick: the latest-bar reset, then the oversold
   * and the overbought cancellation checks. Only cancel messages come out,
   * each for a key that was not recorded before and is recorded after.
   */
  function Housekeeping(st: EngineState, contract: string, candles: seq<Candle>, smi: map<int, SmiPoint>): (r: Outcome)
    requires |candles| > 0
    ensures r.st.notified == st.notified
    ensures forall c :: c != contract ==> SameFor(r.st, st, c)
    ensures |r.events| <= 2
    ensures forall e :: e in r.events ==>
              && e.Cancel?
              && e.cancel.contract == contract
              && e.cancel !in st.cancelled
              && e.cancel in r.st.cancelled
  {
    var reset := Reset(st, contract, candles, smi);
    var long := CancelCheck(reset, Oversold, contract, candles, smi);
    var short := CancelCheck(long.st, Overbought, contract, candles, smi);
    SameForChain(short.st, long.st, reset, contract);
    SameForChain(short.st, reset, st, contract);
    Outcome(short.st, long.events + short.events)
  }

  /** The tick does nothing: too few bars, or an indicator result without points. */
  predicate Idle(candles: seq<Candle>, ind: Indicators) {
    |candles| < MIN_CANDLES || ind.smi == map[] || ind.ema == map[] || ind.ma == map[]
  }

  /** One run of `detectAndNotify(contract)` over its bars and indicator points. */
  function Tick(st: EngineState, contract: string, candles: seq<Candle>, ind: Indicators): (r: Outcome)
    ensures Idle(candles, ind) ==> r == Outcome(st, [])
    ensures |st.notified| <= NOTIFIED_CAP ==> |r.st.notified| <= NOTIFIED_CAP
    ensures forall c :: c != contract ==> SameFor(r.st, st, c)
    ensures forall z: Zone :: NotifyCount(r.events, SideOf(z)) <= 1
    ensures forall e :: e in r.events && e.Notify? ==>
              && e.signal.contract == contract
              && Fired(e.signal, candles, ind, StartIndex(|candles|))
              && e.signal !in st.notified
              && (e.signal in r.st.notified || r.st.notified == {})
    ensures forall e :: e in r.events && e.Cancel? ==>
              && e.cancel.contract == contract
              && e.cancel !in st.cancelled
              && e.cancel in r.st.cancelled
  {
    if Idle(candles, ind) then Outcome(st, [])
    else
      var cancels := Housekeeping(st, contract, candles, ind.smi);
      var scan := ScanFrom(cancels.st, contract, candles, ind, StartIndex(|candles|));
      SameForChain(scan.st, cancels.st, st, contract);
      SameForChain(Cap(scan.st), scan.st, st, contract);
      NotifyCountNone(cancels.events, Long);
      NotifyCountNone(cancels.events, Short);
      NotifyCountAppend(cancels.events, scan.events, Long);
      NotifyCountAppend(cancels.events, scan.events, Short);
      Outcome(Cap(scan.st), cancels.events + scan.events)
  }

  /**
   * A cancel message for zone `z` comes out of the reset and cancellation
   * phases exactly when the latest bar did not reset the zone, the recorded
   * signal has lapsed, and its cancel key was not recorded before.
   */
  lemma HousekeepingCancelEvent(st: EngineState, contract: string, candles: seq<Candle>, smi: map<int, SmiPoint>, k: CancelKey)
    requires |candles| > 0
    ensures Cancel(k) in Housekeeping(st, contract, candles, smi).events <==>
              && !ResetsZone(k.zone, candles, smi)
              && Lapsed(st, k.zone, contract, candles, smi)
              && k == CancelKey(contract, k.zone, st.Record(k.zone)[contract])
              && k !in st.cancelled
  {
    var z := k.zone;
    var reset := Reset(st, contract, candles, smi);
    var long := CancelCheck(reset, Oversold, contract, candles, smi);
    var short := CancelCheck(long.st, Overbought, contract, candles, smi);
    assert Housekeeping(st, contract, candles, smi).events == long.events + short.events;
    if ResetsZone(z, candles, smi) {
      assert !Lapsed(reset, z, contract, candles, smi);
      if z == Overbought {
        assert long.st.Record(z) == reset.Record(z);
      }
    } else {
      assert reset.Record(z) == st.Record(z);
      assert k in reset.cancelled <==> k in st.cancelled;
      if z == Overbought {
        assert long.st.Record(z) == reset.Record(z);
        assert k in long.st.cancelled <==> k in reset.cancelled;
      }
    }
  }

  /** The scan phase sends no cancel messages, so a tick's cancel messages are the housekeeping ones. */
  lemma TickCancelEvent(st: EngineState, contract: string, candles: seq<Candle>, ind: Indicators, k: CancelKey)
    requires !Idle(candles, ind)
    ensures Cancel(k) in Tick(st, contract, candles, ind).events <==>
              && !ResetsZone(k.zone, candles, ind.smi)
              && Lapsed(st, k.zone, contract, candles, ind.smi)
              && k == CancelKey(contract, k.zone, st.Record(k.zone)[contract])
              && k !in st.cancelled
  {
    var cancels := Housekeeping(st, contract, candles, ind.smi);
    var scan := ScanFrom(cancels.st, contract, candles, ind, StartIndex(|candles|));
    assert Tick(st, contract, candles, ind).events == cancels.events + scan.events;
    assert Cancel(k) !in scan.events;
    HousekeepingCancelEvent(st, contract, candles, ind.smi, k);
  }

  /**
   * A recorded signal survives a tick when the latest bar keeps the zone
   * and the signal has not lapsed: neither the cancellation nor the scan
   * of the recent bars touches it.
   */
  lemma TickKeepsRecord(st: EngineState, contract: string, candles: seq<Candle>, ind: Indicators, z: Zone)
    requires contract in st.Record(z)
    requires !Idle(candles, ind) && !ResetsZone(z, candles, ind.smi)
    requires !Lapsed(st, z, contract, candles, ind.smi)
    ensures contract in Tick(st, contract, candles, ind).st.Record(z)
    ensures Tick(st, contract, candles, ind).st.Record(z)[contract] == st.Record(z)[contract]
  {
    var reset := Reset(st, contract, candles, ind.smi);
    var long := CancelCheck(reset, Oversold, contract, candles, ind.smi);
    var short := CancelCheck(long.st, Overbought, contract, candles, ind.smi);
    assert Housekeeping(st, contract, candles, ind.smi).st == short.st;
    assert reset.Record(z) == st.Record(z);
    match z
    case Oversold =>
      assert long.st == reset;
      assert short.st.Record(z) == st.Record(z);
    case Overbought =>
      assert long.st.Record(z) == st.Record(z);
      assert short.st == long.st;
  }

  /** Bar `i` qualifies for a signal in zone `z`: it is examined, passes the zone scan and its slope agrees. */
  predicate OpensAt(z: Zone, candles: seq<Candle>, ind: Indicators, i: int)
    requires 1 <= i < |candles|
  {
    && Present(candles, ind, i)
    && Scan(z, ind.smi, candles, i)
    && SlopeAgrees(z, ind.ma[candles[i].time].jmaSlope)
  }

  /** The key bar `i` carries in zone `z`: S2 when the EMA trend agrees as well, S3 otherwise. */
  function KeyAt(z: Zone, contract: string, candles: seq<Candle>, ind: Indicators, i: int): (key: SignalKey)
    requires 1 <= i < |candles| && Present(candles, ind, i)
    ensures key.contract == contract && key.side == SideOf(z) && key.time == candles[i].time
    ensures key.strategy == S2 <==> Trend(z, ind.ema[candles[i].time])
  {
    var t := candles[i].time;
    SignalKey(contract, if Trend(z, ind.ema[t]) then S2 else S3, SideOf(z), t)
  }

  /**
   * A qualifying bar opens the zone when it has no signal yet: the bar's time
   * is recorded, and the bar's key is notified exactly when it is new.
   */
  lemma StepOpens(st: EngineState, contract: string, candles: seq<Candle>, ind: Indicators, i: int, z: Zone)
    requires 1 <= i < |candles|
    requires contract !in st.Record(z) && OpensAt(z, candles, ind, i)
    ensures var o := Step(st, contract, candles, ind, i);
            && contract in o.st.Record(z)
            && o.st.Record(z)[contract] == candles[i].time
            && (Notify(KeyAt(z, contract, candles, ind, i)) in o.events <==> KeyAt(z, contract, candles, ind, i) !in st.notified)
  {
    var long := TryOpen(st, Oversold, contract, candles, ind, i);
    var short := TryOpen(long.st, Overbought, contract, candles, ind, i);
    assert Step(st, contract, candles, ind, i) == Outcome(short.st, long.events + short.events);
    var key := KeyAt(z, contract, candles, ind, i);
    match z
    case Oversold =>
      assert short.st.Record(Oversold) == long.st.Record(Oversold);
      assert Notify(key) !in short.events;
    case Overbought =>
      assert long.st.Record(Overbought) == st.Record(Overbought);
      assert Notify(key) !in long.events;
      assert key in long.st.notified <==> key in st.notified;
  }

  /**
   * A bar that does not qualify leaves a zone without signal as it is: no
   * record, no key of that side added and no notification for that side.
   */
  lemma StepQuiet(st: EngineState, contract: string, candles: seq<Candle>, ind: Indicators, i: int, z: Zone)
    requires 1 <= i < |candles|
    requires contract !in st.Record(z) && !OpensAt(z, candles, ind, i)
    ensures var o := Step(st, contract, candles, ind, i);
            && contract !in o.st.Record(z)
            && (forall k: SignalKey :: k.side == SideOf(z) ==> (k in o.st.notified <==> k in st.notified))
            && (forall e :: e in o.events ==> e.Notify? && e.signal.side != SideOf(z))
  {
    if Present(candles, ind, i) {
      var long := TryOpen(st, Oversold, contract, candles, ind, i);
      var short := TryOpen(long.st, Overbought, contract, candles, ind, i);
      assert Step(st, contract, candles, ind, i) == Outcome(short.st, long.events + short.events);
      match z
      case Oversold =>
        assert long.st == st;
        assert short.st.Record(Oversold) == st.Record(Oversold);
      case Overbought =>
        assert long.st.Record(Overbought) == st.Record(Overbought);
        assert short.st == long.st;
    }
  }

  /** Events that count 0 for side `s` hold no notification for it. */
  lemma {:induction false} NotifyCountZero(events: seq<Event>, s: Side)
    requires NotifyCount(events, s) == 0
    ensures forall e :: e in events ==> !(e.Notify? && e.signal.side == s)
    decreases |events|
  {
    if |events| > 0 {
      var init := events[..|events| - 1];
      NotifyCountZero(init, s);
      forall e | e in events
        ensures !(e.Notify? && e.signal.side == s)
      {
        var idx :| 0 <= idx < |events| && events[idx] == e;
        if idx < |events| - 1 {
          assert init[idx] == e;
        }
      }
    }
  }

  /**
   * The scan from bar `i` opens a zone that has no signal at the first
   * qualifying bar `j`: the record holds that bar's time, and its key is
   * notified exactly when it was not notified before.
   */
  lemma {:induction false} ScanFromFirst(st: EngineState, contract: string, candles: seq<Candle>, ind: Indicators, i: int, j: int, z: Zone)
    requires 1 <= i <= j < |candles|
    requires contract !in st.Record(z)
    requires OpensAt(z, candles, ind, j)
    requires forall k :: i <= k < j ==> !OpensAt(z, candles, ind, k)
    ensures var r := ScanFrom(st, contract, candles, ind, i);
            && contract in r.st.Record(z)
            && r.st.Record(z)[contract] == candles[j].time
            && (Notify(KeyAt(z, contract, candles, ind, j)) in r.events <==> KeyAt(z, contract, candles, ind, j) !in st.notified)
    decreases j - i
  {
    if i == j {
      ScanFromOpensHere(st, contract, candles, ind, i, z);
    } else {
      ScanFromUnfold(st, contract, candles, ind, i);
      var o := Step(st, contract, candles, ind, i);
      StepQuiet(st, contract, candles, ind, i, z);
      ScanFromFirst(o.st, contract, candles, ind, i + 1, j, z);
      assert Notify(KeyAt(z, contract, candles, ind, j)) !in o.events;
    }
  }

  /** The scan from a qualifying bar opens a zone without signal at that bar. */
  lemma ScanFromOpensHere(st: EngineState, contract: string, candles: seq<Candle>, ind: Indicators, i: int, z: Zone)
    requires 1 <= i < |candles|
    requires contract !in st.Record(z) && OpensAt(z, candles, ind, i)
    ensures var r := ScanFrom(st, contract, candles, ind, i);
            && contract in r.st.Record(z)
            && r.st.Record(z)[contract] == candles[i].time
            && (Notify(KeyAt(z, contract, candles, ind, i)) in r.events <==> KeyAt(z, contract, candles, ind, i) !in st.notified)
  {
    ScanFromUnfold(st, contract, candles, ind, i);
    var o := Step(st, contract, candles, ind, i);
    var rest := ScanFrom(o.st, contract, candles, ind, i + 1);
    StepOpens(st, contract, candles, ind, i, z);
    assert NotifyCount(rest.events, SideOf(z)) == 0;
    NotifyCountZero(rest.events, SideOf(z));
    assert Notify(KeyAt(z, contract, candles, ind, i)) !in rest.events;
  }

  /** The scan from bar `i` is bar `i`'s step followed by the scan from `i + 1`. */
  lemma ScanFromUnfold(st: EngineState, contract: string, candles: seq<Candle>, ind: Indicators, i: int)
    requires 1 <= i < |candles|
    ensures var o := Step(st, contract, candles, ind, i);
            var rest := ScanFrom(o.st, contract, candles, ind, i + 1);
            ScanFrom(st, contract, candles, ind, i) == Outcome(rest.st, o.events + rest.events)
  {
  }

  /** The reset and cancellation phases leave zone `z` without signal when it had none, was reset, or had lapsed. */
  lemma HousekeepingClears(st: EngineState, contract: string, candles: seq<Candle>, smi: map<int, SmiPoint>, z: Zone)
    requires |candles| > 0
    requires contract !in st.Record(z) || ResetsZone(z, candles, smi) || Lapsed(st, z, contract, candles, smi)
    ensures contract !in Housekeeping(st, contract, candles, smi).st.Record(z)
  {
    var reset := Reset(st, contract, candles, smi);
    var long := CancelCheck(reset, Oversold, contract, candles, smi);
    var short := CancelCheck(long.st, Overbought, contract, candles, smi);
    assert Housekeeping(st, contract, candles, smi).st == short.st;
    if !ResetsZone(z, candles, smi) {
      assert reset.Record(z) == st.Record(z);
    }
    match z
    case Oversold =>
      assert short.st.Record(Oversold) == long.st.Record(Oversold);
    case Overbought =>
      assert long.st.Record(Overbought) == reset.Record(Overbought);
  }

  /**
   * A tick that finds zone `z` without signal after housekeeping opens it at
   * the first qualifying recent bar: the record holds that bar's time, and
   * its key is notified exactly when it was not notified before.
   */
  lemma TickOpens(st: EngineState, contract: string, candles: seq<Candle>, ind: Indicators, z: Zone, j: int)
    requires !Idle(candles, ind)
    requires contract !in st.Record(z) || ResetsZone(z, candles, ind.smi) || Lapsed(st, z, contract, candles, ind.smi)
    requires StartIndex(|candles|) <= j < |candles| && OpensAt(z, candles, ind, j)
    requires forall k :: StartIndex(|candles|) <= k < j ==> !OpensAt(z, candles, ind, k)
    ensures var r := Tick(st, contract, candles, ind);
            && contract in r.st.Record(z)
            && r.st.Record(z)[contract] == candles[j].time
            && (Notify(KeyAt(z, contract, candles, ind, j)) in r.events <==> KeyAt(z, contract, candles, ind, j) !in st.notified)
  {
    var cancels := Housekeeping(st, contract, candles, ind.smi);
    var scan := ScanFrom(cancels.st, contract, candles, ind, StartIndex(|candles|));
    assert Tick(st, contract, candles, ind) == Outcome(Cap(scan.st), cancels.events + scan.events);
    HousekeepingClears(st, contract, candles, ind.smi, z);
    ScanFromFirst(cancels.st, contract, candles, ind, StartIndex(|candles|), j, z);
    assert Notify(KeyAt(z, contract, candles, ind, j)) !in cancels.events;
  }

  /** A tick with no qualifying recent bar leaves a cleared zone without signal and notifies nothing for its side. */
  lemma TickNoSignal(st: EngineState, contract: string, candles: seq<Candle>, ind: Indicators, z: Zone)
    requires !Idle(candles, ind)
    requires contract !in st.Record(z) || ResetsZone(z, candles, ind.smi) || Lapsed(st, z, contract, candles, ind.smi)
    requires forall k :: StartIndex(|candles|) <= k < |candles| ==> !OpensAt(z, candles, ind, k)
    ensures contract !in Tick(st, contract, candles, ind).st.Record(z)
    ensures forall e :: e in Tick(st, contract, candles, ind).events && e.Notify? ==> e.signal.side != SideOf(z)
  {
    var cancels := Housekeeping(st, contract, candles, ind.smi);
    var scan := ScanFrom(cancels.st, contract, candles, ind, StartIndex(|candles|));
    assert Tick(st, contract, candles, ind) == Outcome(Cap(scan.st), cancels.events + scan.events);
    HousekeepingClears(st, contract, candles, ind.smi, z);
    NotifyCountZero(scan.events, SideOf(z));
  }
}
