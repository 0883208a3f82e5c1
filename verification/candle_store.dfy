/**
 * The candle store (`CandleStickService`): a map from the string key
 * `contract + "_" + interval` to a bounded, time-ordered series of bars.
 * A write either starts a series, replaces its still-open last bar, appends a
 * newer bar (evicting the oldest bars beyond 2000), or is ignored as stale.
 */
module CandleStore {
  import opened Dto
  import opened Wrappers
  import TimeSort

  /** Capacity of one series; older bars are evicted first. */
  const MAX_BARS: nat := 2000
  /** The interval every contract-only overload targets. */
  const DEFAULT_INTERVAL: string := "1m"
  /** The contract every argument-less overload targets. */
  const DEFAULT_CONTRACT: string := "XRP_USDT"

  type Store = map<string, seq<Candle>>

  /** A series the store promises to keep: strictly increasing times, at most `MAX_BARS` bars. */
  predicate ValidSeries(s: seq<Candle>) {
    StrictlyIncreasing(s) && |s| <= MAX_BARS
  }

  predicate ValidStore(store: Store) {
    forall k :: k in store ==> ValidSeries(store[k])
  }

  /** The store key of a series. */
  function MakeKey(contract: string, interval: string): string {
    contract + "_" + interval
  }

  /**
   * Keys of distinct (contract, interval) pairs never collide as long as the
   * intervals contain no underscore; contracts such as `XRP_USDT` may.
   */
  lemma MakeKeyInjective(c1: string, i1: string, c2: string, i2: string)
    requires '_' !in i1 && '_' !in i2
    requires MakeKey(c1, i1) == MakeKey(c2, i2)
    ensures c1 == c2 && i1 == i2
  {
    var k := MakeKey(c1, i1);
    if |i1| < |i2| {
      UnderscoreInLongerInterval(c1, i1, c2, i2);
      assert false;
    } else if |i2| < |i1| {
      UnderscoreInLongerInterval(c2, i2, c1, i1);
      assert false;
    }
    assert i1 == k[|k| - |i1|..] == i2;
    assert c1 == k[..|c1|] == c2;
  }

  /** When one interval is longer, the separator of the other key falls inside it. */
  lemma UnderscoreInLongerInterval(c1: string, i1: string, c2: string, i2: string)
    requires MakeKey(c1, i1) == MakeKey(c2, i2)
    requires |i1| < |i2|
    ensures '_' in i2
  {
    var k := MakeKey(c1, i1);
    var p := |k| - |i1| - 1;
    assert k[p] == '_';
    assert k[p] == i2[|i2| - |i1| - 1];
  }

  /** The underscore in contract names lets two different pairs share a key. */
  lemma MakeKeyCollision()
    ensures MakeKey("XRP", "USDT_1m") == MakeKey("XRP_USDT", "1m")
  {
  }

  /** The eviction loop: drops the first bar while the series holds more than `MAX_BARS`. */
  function TrimOldest(s: seq<Candle>): (r: seq<Candle>)
    ensures |s| <= MAX_BARS ==> r == s
    ensures |s| > MAX_BARS ==> r == s[|s| - MAX_BARS..]
    decreases |s|
  {
    if |s| > MAX_BARS then TrimOldest(s[1..]) else s
  }

  /** `updateCandle` on one series. */
  function UpsertSeries(s: seq<Candle>, c: Candle): (r: seq<Candle>)
    ensures |s| == 0 ==> r == [c]
    ensures |s| > 0 && c.time == s[|s| - 1].time ==>
              |r| == |s| && r[..|s| - 1] == s[..|s| - 1] && r[|s| - 1] == c
    ensures |s| > 0 && c.time > s[|s| - 1].time ==>
              |r| == (if |s| + 1 > MAX_BARS then MAX_BARS else |s| + 1)
              && r == (s + [c])[|s| + 1 - |r|..] && r[|r| - 1] == c
    ensures |s| > 0 && c.time < s[|s| - 1].time ==> r == s
  {
    if |s| == 0 then [c]
    else if c.time == s[|s| - 1].time then s[..|s| - 1] + [c]
    else if c.time > s[|s| - 1].time then TrimOldest(s + [c])
    else s
  }

  /** A full series keeps its length on a newer bar and loses exactly its oldest bar. */
  lemma UpsertFullSeries(s: seq<Candle>, c: Candle)
    requires |s| == MAX_BARS && c.time > s[|s| - 1].time
    ensures UpsertSeries(s, c) == s[1..] + [c]
  {
    assert (s + [c])[1..] == s[1..] + [c];
  }

  /** Every upsert keeps a valid series valid. */
  lemma UpsertKeepsValid(s: seq<Candle>, c: Candle)
    requires ValidSeries(s)
    ensures ValidSeries(UpsertSeries(s, c))
  {
    var n := |s|;
    if n > 0 && c.time == s[n - 1].time {
      StrictlyIncreasingPrefix(s, n - 1);
      if n > 1 {
        var ts := Times(s);
        assert ts[n - 2] < ts[n - 1];
      }
      StrictlyIncreasingExtend(s[..n - 1], c);
    } else if n == 0 || c.time > s[n - 1].time {
      StrictlyIncreasingExtend(s, c);
      var r := UpsertSeries(s, c);
      StrictlyIncreasingSuffix(s + [c], |s + [c]| - |r|);
    }
  }

  /** After a write that is not stale the series ends in the written bar. */
  lemma UpsertEndsWithBar(s: seq<Candle>, c: Candle)
    requires |s| == 0 || c.time >= s[|s| - 1].time
    ensures |UpsertSeries(s, c)| > 0 && UpsertSeries(s, c)[|UpsertSeries(s, c)| - 1] == c
  {
  }

  /** The series stored under `key`, an absent key reading as the empty series. */
  function SeriesAt(store: Store, key: string): seq<Candle> {
    if key in store then store[key] else []
  }

  /** `updateCandle(contract, interval, candle)`: only the series of its own key changes. */
  function Upsert(store: Store, contract: string, interval: string, c: Candle): (r: Store)
    ensures r.Keys == store.Keys + {MakeKey(contract, interval)}
    ensures r[MakeKey(contract, interval)] == UpsertSeries(SeriesAt(store, MakeKey(contract, interval)), c)
    ensures forall k :: k in store && k != MakeKey(contract, interval) ==> r[k] == store[k]
  {
    var key := MakeKey(contract, interval);
    store[key := UpsertSeries(SeriesAt(store, key), c)]
  }

  /** `updateCandle(contract, candle)`: always the contract's `"1m"` series. */
  function UpsertDefaultInterval(store: Store, contract: string, c: Candle): (r: Store)
    ensures r.Keys == store.Keys + {MakeKey(contract, "1m")}
    ensures r[MakeKey(contract, "1m")] == UpsertSeries(SeriesAt(store, MakeKey(contract, "1m")), c)
    ensures forall k :: k in store && k != MakeKey(contract, "1m") ==> r[k] == store[k]
  {
    Upsert(store, contract, DEFAULT_INTERVAL, c)
  }

  /** `updateCandle(candle)`: always the `MakeKey("XRP_USDT", "1m")` series. */
  function UpsertDefault(store: Store, c: Candle): (r: Store)
    ensures r.Keys == store.Keys + {MakeKey("XRP_USDT", "1m")}
    ensures r[MakeKey("XRP_USDT", "1m")] == UpsertSeries(SeriesAt(store, MakeKey("XRP_USDT", "1m")), c)
    ensures forall k :: k in store && k != MakeKey("XRP_USDT", "1m") ==> r[k] == store[k]
  {
    UpsertDefaultInterval(store, DEFAULT_CONTRACT, c)
  }

  lemma UpsertKeepsValidStore(store: Store, contract: string, interval: string, c: Candle)
    requires ValidStore(store)
    ensures ValidStore(Upsert(store, contract, interval, c))
  {
    UpsertKeepsValid(SeriesAt(store, MakeKey(contract, interval)), c);
  }

  /** `getCandles(contract, interval)`: a copy of the series, empty for an unknown key. */
  function GetCandles(store: Store, contract: string, interval: string): (r: seq<Candle>)
    ensures MakeKey(contract, interval) !in store ==> r == []
    ensures MakeKey(contract, interval) in store ==> r == store[MakeKey(contract, interval)]
  {
    SeriesAt(store, MakeKey(contract, interval))
  }

  /** `getCandles(contract)`. */
  function GetCandlesDefaultInterval(store: Store, contract: string): (r: seq<Candle>)
    ensures r == SeriesAt(store, MakeKey(contract, "1m"))
  {
    GetCandles(store, contract, DEFAULT_INTERVAL)
  }

  /** `getCandles()`. */
  function GetCandlesDefault(store: Store): (r: seq<Candle>)
    ensures r == SeriesAt(store, MakeKey("XRP_USDT", "1m"))
  {
    GetCandles(store, DEFAULT_CONTRACT, DEFAULT_INTERVAL)
  }

  /** `getLatestCandle(contract, interval)`: the last bar, or `None` for an absent or empty series. */
  function GetLatestCandle(store: Store, contract: string, interval: string): (r: Option<Candle>)
    ensures r.None? <==> |GetCandles(store, contract, interval)| == 0
    ensures r.Some? ==> r.value == GetCandles(store, contract, interval)[|GetCandles(store, contract, interval)| - 1]
  {
    var key := MakeKey(contract, interval);
    if key !in store || |store[key]| == 0 then None
    else Some(store[key][|store[key]| - 1])
  }

  /** `getLatestCandle(contract)`. */
  function GetLatestCandleDefaultInterval(store: Store, contract: string): (r: Option<Candle>)
    ensures r.None? <==> |SeriesAt(store, MakeKey(contract, "1m"))| == 0
    ensures r.Some? ==> r.value == SeriesAt(store, MakeKey(contract, "1m"))[|SeriesAt(store, MakeKey(contract, "1m"))| - 1]
  {
    GetLatestCandle(store, contract, DEFAULT_INTERVAL)
  }

  /** `getLatestCandle()`. */
  function GetLatestCandleDefault(store: Store): (r: Option<Candle>)
    ensures r.None? <==> |SeriesAt(store, MakeKey("XRP_USDT", "1m"))| == 0
    ensures r.Some? ==> r.value == SeriesAt(store, MakeKey("XRP_USDT", "1m"))[|SeriesAt(store, MakeKey("XRP_USDT", "1m"))| - 1]
  {
    GetLatestCandle(store, DEFAULT_CONTRACT, DEFAULT_INTERVAL)
  }

  /** Reading back after a write: the series read is the upserted series. */
  lemma GetAfterUpsert(store: Store, contract: string, interval: string, c: Candle)
    ensures GetCandles(Upsert(store, contract, interval, c), contract, interval)
            == UpsertSeries(GetCandles(store, contract, interval), c)
  {
  }

  /** Writing one key leaves every other key's reads unchanged. */
  lemma GetAfterUpsertOther(store: Store, contract: string, interval: string, c: Candle,
                            contract': string, interval': string)
    requires MakeKey(contract', interval') != MakeKey(contract, interval)
    ensures GetCandles(Upsert(store, contract, interval, c), contract', interval')
            == GetCandles(store, contract', interval')
  {
  }

  /** After a write that is not stale the latest bar is the written one. */
  lemma LatestAfterUpsert(store: Store, contract: string, interval: string, c: Candle)
    requires var s := GetCandles(store, contract, interval); |s| == 0 || c.time >= s[|s| - 1].time
    ensures GetLatestCandle(Upsert(store, contract, interval, c), contract, interval) == Some(c)
  {
    UpsertEndsWithBar(GetCandles(store, contract, interval), c);
  }

  /**
   * The sort-and-replace step of `loadInitialCandles`. `fetched` is the parsed
   * response of the history request, `None` when the request or parsing failed,
   * in which case the store is left as it was.
   */
  function LoadInitial(store: Store, contract: string, interval: string, fetched: Option<seq<Candle>>): (r: Store)
    ensures fetched.None? ==> r == store
    ensures fetched.Some? ==>
              && r.Keys == store.Keys + {MakeKey(contract, interval)}
              && SortedByTime(r[MakeKey(contract, interval)])
              && multiset(r[MakeKey(contract, interval)]) == multiset(fetched.value)
              && (forall k :: k in store && k != MakeKey(contract, interval) ==> r[k] == store[k])
  {
    match fetched
    case None => store
    case Some(bars) => store[MakeKey(contract, interval) := TimeSort.SortByTime(bars)]
  }

  /** A successful load of distinct-time bars, at most `MAX_BARS` of them, keeps the store valid. */
  lemma LoadInitialKeepsValidStore(store: Store, contract: string, interval: string, bars: seq<Candle>)
    requires ValidStore(store)
    requires |bars| <= MAX_BARS
    requires forall i, j :: 0 <= i < j < |bars| ==> bars[i].time != bars[j].time
    ensures ValidStore(LoadInitial(store, contract, interval, Some(bars)))
  {
    TimeSort.SortDistinctIsStrict(bars);
    var r := TimeSort.SortByTime(bars);
    assert |r| == |multiset(r)| == |multiset(bars)| == |bars|;
  }

  /** Startup (`init`): loads the `"1m"` history of XRP_USDT, then of BTC_USDT. */
  function Init(xrp: Option<seq<Candle>>, btc: Option<seq<Candle>>): (r: Store)
    ensures xrp.Some? ==>
              && MakeKey("XRP_USDT", "1m") in r
              && SortedByTime(r[MakeKey("XRP_USDT", "1m")])
              && multiset(r[MakeKey("XRP_USDT", "1m")]) == multiset(xrp.value)
    ensures xrp.None? ==> MakeKey("XRP_USDT", "1m") !in r
    ensures btc.Some? ==>
              && MakeKey("BTC_USDT", "1m") in r
              && SortedByTime(r[MakeKey("BTC_USDT", "1m")])
              && multiset(r[MakeKey("BTC_USDT", "1m")]) == multiset(btc.value)
    ensures btc.None? ==> MakeKey("BTC_USDT", "1m") !in r
    ensures r.Keys <= {MakeKey("XRP_USDT", "1m"), MakeKey("BTC_USDT", "1m")}
  {
    assert MakeKey("XRP_USDT", "1m")[0] != MakeKey("BTC_USDT", "1m")[0];
    LoadInitial(LoadInitial(map[], "XRP_USDT", DEFAULT_INTERVAL, xrp), "BTC_USDT", DEFAULT_INTERVAL, btc)
  }

  /** Applies a sequence of writes to one series in order. */
  function UpsertAll(s: seq<Candle>, cs: seq<Candle>): seq<Candle>
    decreases |cs|
  {
    if |cs| == 0 then s else UpsertAll(UpsertSeries(s, cs[0]), cs[1..])
  }

  /** The last `MAX_BARS` bars of a sequence (all of them when it is shorter). */
  function Newest(s: seq<Candle>): (r: seq<Candle>)
    ensures |r| == (if |s| > MAX_BARS then MAX_BARS else |s|)
  {
    if |s| > MAX_BARS then s[|s| - MAX_BARS..] else s
  }

  /**
   * Feeding strictly newer bars one by one into a short enough series keeps
   * exactly the newest `MAX_BARS` bars of everything written.
   */
  lemma {:induction false} UpsertAllIncreasing(s: seq<Candle>, cs: seq<Candle>)
    requires |s| <= MAX_BARS
    requires StrictlyIncreasing(s + cs)
    ensures UpsertAll(s, cs) == Newest(s + cs)
    decreases |cs|
  {
    if |cs| == 0 {
      assert s + cs == s;
    } else {
      var s' := UpsertSeries(s, cs[0]);
      if |s| > 0 {
        assert (s + cs)[|s| - 1] == s[|s| - 1] && (s + cs)[|s|] == cs[0];
        assert Times(s + cs)[|s| - 1] < Times(s + cs)[|s|];
      }
      assert s' == Newest(s + [cs[0]]);
      assert s + cs == (s + [cs[0]]) + cs[1..];
      var d := |s + [cs[0]]| - |s'|;
      assert s' + cs[1..] == (s + cs)[d..];
      StrictlyIncreasingSuffix(s + cs, d);
      UpsertAllIncreasing(s', cs[1..]);
      assert Newest(s' + cs[1..]) == Newest(s + cs);
    }
  }

  /** Writing 2001 strictly newer bars into an empty series keeps bars 2 to 2001. */
  lemma EvictionExample(cs: seq<Candle>)
    requires |cs| == MAX_BARS + 1 && StrictlyIncreasing(cs)
    ensures |UpsertAll([], cs)| == MAX_BARS
    ensures UpsertAll([], cs)[0] == cs[1]
  {
    assert [] + cs == cs;
    UpsertAllIncreasing([], cs);
  }

  /** Times 1, 2, 2, 3 written in order leave three bars, the second write at time 2 replacing the first. */
  lemma ReplaceExample(b1: Candle, b2: Candle, b2': Candle, b3: Candle)
    requires b1.time == 1 && b2.time == 2 && b2'.time == 2 && b3.time == 3
    ensures UpsertAll([], [b1, b2, b2', b3]) == [b1, b2', b3]
  {
    assert [b1, b2, b2', b3][1..] == [b2, b2', b3];
    assert [b2, b2', b3][1..] == [b2', b3];
    assert [b2', b3][1..] == [b3];
    assert UpsertSeries([], b1) == [b1];
    assert UpsertSeries([b1], b2) == [b1, b2];
    assert UpsertSeries([b1, b2], b2') == [b1, b2'];
    assert UpsertSeries([b1, b2'], b3) == [b1, b2', b3];
    calc {
      UpsertAll([], [b1, b2, b2', b3]);
      UpsertAll([b1], [b2, b2', b3]);
      UpsertAll([b1, b2], [b2', b3]);
      UpsertAll([b1, b2'], [b3]);
      UpsertAll([b1, b2', b3], []);
    }
  }
}
