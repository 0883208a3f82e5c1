/**
 * The exchange feed (`GateIoWebSocketClient`): the quote maps it keeps for
 * the tracked contracts and the dispatch of one frame (`handleMessage`).
 *
 * A frame arrives here already parsed. Every result carries every field the
 * handler reads; a field the JSON lacks reads as `""`, `0` or `0.0`, as
 * Jackson's `path(..).asText()`, `asLong()` and `asDouble()` give it. A frame
 * that does not parse is `None`, and the handler swallows that failure. The
 * wall clock is the parameter `now`.
 */
module Feed {
  import opened Dto
  import opened Wrappers
  import CandleStore

  const XRP_CONTRACT: string := "XRP_USDT"
  const BTC_CONTRACT: string := "BTC_USDT"
  const TICKERS_CHANNEL: string := "futures.tickers"
  const CANDLES_CHANNEL: string := "futures.candlesticks"
  const UPDATE_EVENT: string := "update"

  /**
   * One element of a frame's `result` array: the ticker fields `contract`,
   * `last` and `change_percentage`, and the candlestick fields `n`, `t`, `v`,
   * `c`, `h`, `l` and `o`.
   */
  datatype Entry = Entry(
    contract: string, last: string, changePercentage: string,
    n: string, t: int, v: int, c: real, h: real, l: real, o: real)

  datatype Frame = Frame(channel: string, event: string, result: seq<Entry>)

  /**
   * `currentPrices`, `lastUpdateTimes` and `changePercentages`, and the
   * candle store the handler writes to.
   */
  datatype FeedState = FeedState(
    prices: map<string, string>,
    updateTimes: map<string, string>,
    changes: map<string, string>,
    store: CandleStore.Store)

  /** The contracts whose quotes are kept: the keys of `currentPrices`. */
  predicate Tracks(st: FeedState, contract: string) {
    contract in st.prices
  }

  /** The three quote maps have the same keys. */
  predicate QuotesAligned(st: FeedState) {
    st.prices.Keys == st.updateTimes.Keys == st.changes.Keys
  }

  /** The constructor: both contracts quoted at price `"0"`, change `"0"`, no update time yet. */
  function Initial(store: CandleStore.Store): (st: FeedState)
    ensures st.prices.Keys == {XRP_CONTRACT, BTC_CONTRACT} && QuotesAligned(st)
    ensures forall k :: k in st.prices ==> st.prices[k] == "0" && st.updateTimes[k] == "" && st.changes[k] == "0"
    ensures st.store == store
  {
    FeedState(
      map[XRP_CONTRACT := "0", BTC_CONTRACT := "0"],
      map[XRP_CONTRACT := "", BTC_CONTRACT := ""],
      map[XRP_CONTRACT := "0", BTC_CONTRACT := "0"],
      store)
  }

  /** `sub` occurs in `s` at index `i`. */
  predicate OccursAt(s: string, sub: string, i: int) {
    0 <= i && i + |sub| <= |s| && s[i..i + |sub|] == sub
  }

  /** `String.contains`, scanning `s` from the front. */
  function Contains(s: string, sub: string): bool
    decreases |s|
  {
    if |sub| > |s| then false
    else if sub <= s then true
    else Contains(s[1..], sub)
  }

  /** `Contains` holds exactly when `sub` occurs somewhere in `s`. */
  lemma {:induction false} ContainsOccurs(s: string, sub: string)
    ensures Contains(s, sub) <==> exists i :: OccursAt(s, sub, i)
    decreases |s|
  {
    if |sub| <= |s| {
      OccursStart(s, sub);
      if !(sub <= s) {
        ContainsOccurs(s[1..], sub);
        if exists i :: OccursAt(s, sub, i) {
          var i :| OccursAt(s, sub, i);
          OccursShift(s, sub, i);
        }
        if exists i :: OccursAt(s[1..], sub, i) {
          var i :| OccursAt(s[1..], sub, i);
          OccursShift(s, sub, i + 1);
        }
      }
    }
  }

  /** An occurrence at the front is a prefix. */
  lemma OccursStart(s: string, sub: string)
    ensures OccursAt(s, sub, 0) <==> sub <= s
  {
    if |sub| <= |s| {
      assert s[0..|sub|] == s[..|sub|];
    }
  }

  /** Dropping the first character moves every later occurrence one place forward. */
  lemma OccursShift(s: string, sub: string, i: int)
    requires |s| > 0 && i >= 1
    ensures OccursAt(s, sub, i) <==> OccursAt(s[1..], sub, i - 1)
  {
    if i + |sub| <= |s| {
      assert s[1..][i - 1..i - 1 + |sub|] == s[i..i + |sub|];
    }
  }

  /**
   * The contract a candlestick name `n` (such as `"1m_XRP_USDT"`) is routed
   * to: `XRP_USDT` when the name contains it, else `BTC_USDT` when it
   * contains that, else none.
   */
  function RouteContract(n: string): (r: Option<string>)
    ensures r == Some(XRP_CONTRACT) <==> Contains(n, XRP_CONTRACT)
    ensures r == Some(BTC_CONTRACT) <==> !Contains(n, XRP_CONTRACT) && Contains(n, BTC_CONTRACT)
    ensures r.None? <==> !Contains(n, XRP_CONTRACT) && !Contains(n, BTC_CONTRACT)
  {
    if Contains(n, XRP_CONTRACT) then Some(XRP_CONTRACT)
    else if Contains(n, BTC_CONTRACT) then Some(BTC_CONTRACT)
    else None
  }

  /** The bar a candlestick result describes. */
  function BarOf(e: Entry): (c: Candle)
    ensures c.time == e.t && c.open == e.o && c.high == e.h && c.low == e.l && c.close == e.c && c.volume == e.v
  {
    Candle(e.t, e.o, e.h, e.l, e.c, e.v)
  }

  /** One ticker result: a tracked contract takes the new price, change and update time. */
  function ApplyTicker(st: FeedState, e: Entry, now: string): (r: FeedState)
    ensures !Tracks(st, e.contract) ==> r == st
    ensures Tracks(st, e.contract) ==>
              r == st.(prices := st.prices[e.contract := e.last],
                       updateTimes := st.updateTimes[e.contract := now],
                       changes := st.changes[e.contract := e.changePercentage])
  {
    if e.contract in st.prices then
      st.(prices := st.prices[e.contract := e.last],
          updateTimes := st.updateTimes[e.contract := now],
          changes := st.changes[e.contract := e.changePercentage])
    else st
  }

  /** The ticker results of one frame, in order. */
  function ApplyTickers(st: FeedState, rs: seq<Entry>, now: string): (r: FeedState)
    ensures r.prices.Keys == st.prices.Keys && r.store == st.store
    ensures QuotesAligned(st) ==> QuotesAligned(r)
    decreases |rs|
  {
    if |rs| == 0 then st
    else ApplyTicker(ApplyTickers(st, rs[..|rs| - 1], now), rs[|rs| - 1], now)
  }

  /** The store key of a contract's `"1m"` series. */
  function MinuteKey(contract: string): string {
    CandleStore.MakeKey(contract, CandleStore.DEFAULT_INTERVAL)
  }

  /** One candlestick result: a routed bar is upserted into the contract's `"1m"` series. */
  function ApplyCandle(st: FeedState, e: Entry): (r: FeedState)
    ensures RouteContract(e.n).None? ==> r == st
    ensures RouteContract(e.n).Some? ==>
              r == st.(store := CandleStore.UpsertDefaultInterval(st.store, RouteContract(e.n).value, BarOf(e)))
  {
    match RouteContract(e.n)
    case None => st
    case Some(contract) => st.(store := CandleStore.UpsertDefaultInterval(st.store, contract, BarOf(e)))
  }

  /** The candlestick results of one frame, in order. */
  function ApplyCandles(st: FeedState, rs: seq<Entry>): (r: FeedState)
    ensures r.prices == st.prices && r.updateTimes == st.updateTimes && r.changes == st.changes
    decreases |rs|
  {
    if |rs| == 0 then st
    else ApplyCandle(ApplyCandles(st, rs[..|rs| - 1]), rs[|rs| - 1])
  }

  /** The frame is a ticker update. */
  predicate IsTickerUpdate(f: Frame) {
    f.channel == TICKERS_CHANNEL && f.event == UPDATE_EVENT
  }

  /** The frame is a candlestick update. */
  predicate IsCandleUpdate(f: Frame) {
    f.channel == CANDLES_CHANNEL && f.event == UPDATE_EVENT
  }

  /**
   * `handleMessage`: a frame that failed to parse, or any channel and event
   * other than the two updates, leaves everything as it was.
   */
  function HandleMessage(st: FeedState, frame: Option<Frame>, now: string): (r: FeedState)
    ensures frame.None? ==> r == st
    ensures frame.Some? && !IsTickerUpdate(frame.value) && !IsCandleUpdate(frame.value) ==> r == st
    ensures r.prices.Keys == st.prices.Keys
    ensures QuotesAligned(st) ==> QuotesAligned(r)
    ensures frame.Some? && IsTickerUpdate(frame.value) ==> r.store == st.store
    ensures frame.Some? && IsCandleUpdate(frame.value) ==>
              r.prices == st.prices && r.updateTimes == st.updateTimes && r.changes == st.changes
  {
    match frame
    case None => st
    case Some(f) =>
      if IsTickerUpdate(f) then ApplyTickers(st, f.result, now)
      else if IsCandleUpdate(f) then ApplyCandles(st, f.result)
      else st
  }

  /** A tracked contract that no ticker result of the frame names keeps its quote. */
  lemma {:induction false} TickersUnnamedUnchanged(st: FeedState, rs: seq<Entry>, now: string, contract: string)
    requires Tracks(st, contract) && QuotesAligned(st)
    requires forall k :: 0 <= k < |rs| ==> rs[k].contract != contract
    ensures var r := ApplyTickers(st, rs, now);
            && r.prices[contract] == st.prices[contract]
            && r.updateTimes[contract] == st.updateTimes[contract]
            && r.changes[contract] == st.changes[contract]
    decreases |rs|
  {
    if |rs| > 0 {
      var init := rs[..|rs| - 1];
      assert forall k :: 0 <= k < |init| ==> init[k] == rs[k];
      TickersUnnamedUnchanged(st, init, now, contract);
    }
  }

  /**
   * After a ticker frame a tracked contract shows the last result that
   * names it, stamped with the frame's time: a later result overwrites an
   * earlier one.
   */
  lemma {:induction false} TickersLastWins(st: FeedState, rs: seq<Entry>, now: string, contract: string, k: int)
    requires Tracks(st, contract) && QuotesAligned(st)
    requires 0 <= k < |rs| && rs[k].contract == contract
    requires forall j :: k < j < |rs| ==> rs[j].contract != contract
    ensures var r := ApplyTickers(st, rs, now);
            && r.prices[contract] == rs[k].last
            && r.updateTimes[contract] == now
            && r.changes[contract] == rs[k].changePercentage
    decreases |rs|
  {
    var init := rs[..|rs| - 1];
    if k < |rs| - 1 {
      assert init[k] == rs[k];
      assert forall j :: k < j < |init| ==> init[j] == rs[j];
      TickersLastWins(st, init, now, contract, k);
    }
  }

  /** A ticker for a contract that is not tracked changes nothing. */
  lemma UntrackedTickerIgnored(st: FeedState, e: Entry, now: string)
    requires !Tracks(st, e.contract)
    ensures HandleMessage(st, Some(Frame(TICKERS_CHANNEL, UPDATE_EVENT, [e])), now) == st
  {
    assert [e][..0] == [];
    assert ApplyTickers(st, [e], now) == ApplyTicker(st, e, now);
  }

  /** A ticker for a tracked contract is what the getters read back, stamped with the frame's time. */
  lemma TickerReadBack(st: FeedState, e: Entry, now: string)
    requires Tracks(st, e.contract) && QuotesAligned(st)
    ensures var r := HandleMessage(st, Some(Frame(TICKERS_CHANNEL, UPDATE_EVENT, [e])), now);
            && GetCurrentPrice(r, e.contract) == e.last
            && GetLastUpdateTime(r, e.contract) == now
            && GetChangePercentage(r, e.contract) == e.changePercentage
  {
    assert [e][..0] == [];
    assert ApplyTickers(st, [e], now) == ApplyTicker(st, e, now);
  }

  /**
   * After a candlestick frame only the `"1m"` series of the two contracts
   * may have changed, and a valid store stays valid.
   */
  lemma {:induction false} CandlesTouchOnlyMinuteSeries(st: FeedState, rs: seq<Entry>)
    requires CandleStore.ValidStore(st.store)
    ensures CandleStore.ValidStore(ApplyCandles(st, rs).store)
    ensures ApplyCandles(st, rs).store.Keys <= st.store.Keys + {MinuteKey(XRP_CONTRACT), MinuteKey(BTC_CONTRACT)}
    ensures forall k :: k in st.store && k != MinuteKey(XRP_CONTRACT) && k != MinuteKey(BTC_CONTRACT) ==>
              k in ApplyCandles(st, rs).store && ApplyCandles(st, rs).store[k] == st.store[k]
    decreases |rs|
  {
    if |rs| > 0 {
      var mid := ApplyCandles(st, rs[..|rs| - 1]);
      CandlesTouchOnlyMinuteSeries(st, rs[..|rs| - 1]);
      var e := rs[|rs| - 1];
      if RouteContract(e.n).Some? {
        CandleStore.UpsertKeepsValidStore(mid.store, RouteContract(e.n).value, "1m", BarOf(e));
      }
    }
  }

  /**
   * A candlestick frame with one routed result upserts its bar into the
   * contract's `"1m"` series, whatever interval the name spells, and leaves
   * the quotes alone.
   */
  lemma CandleFrameUpsertsMinuteSeries(st: FeedState, e: Entry, now: string)
    requires RouteContract(e.n).Some?
    ensures var r := HandleMessage(st, Some(Frame(CANDLES_CHANNEL, UPDATE_EVENT, [e])), now);
            && r.store == CandleStore.Upsert(st.store, RouteContract(e.n).value, "1m", BarOf(e))
            && r.prices == st.prices && r.updateTimes == st.updateTimes && r.changes == st.changes
  {
    assert [e][..0] == [];
    assert ApplyCandles(st, [e]) == ApplyCandle(st, e);
  }

  /** A name without either contract in it is dropped. */
  lemma UnroutedCandleIgnored(st: FeedState, e: Entry, now: string)
    requires !Contains(e.n, XRP_CONTRACT) && !Contains(e.n, BTC_CONTRACT)
    ensures HandleMessage(st, Some(Frame(CANDLES_CHANNEL, UPDATE_EVENT, [e])), now) == st
  {
    assert [e][..0] == [];
    assert ApplyCandles(st, [e]) == ApplyCandle(st, e);
  }

  /** `"5m_BTC_USDT"` names no XRP_USDT but does name BTC_USDT, so it is routed to BTC_USDT. */
  lemma FiveMinuteNameRoutesToBtc()
    ensures RouteContract("5m_BTC_USDT") == Some(BTC_CONTRACT)
  {
    var n := "5m_BTC_USDT";
    ContainsOccurs(n, XRP_CONTRACT);
    forall i | 0 <= i < |n| ensures !OccursAt(n, XRP_CONTRACT, i) {
      if i + |XRP_CONTRACT| <= |n| {
        assert n[i..i + |XRP_CONTRACT|][0] == n[i] != 'X';
      }
    }
    assert n[3..3 + |BTC_CONTRACT|] == BTC_CONTRACT;
    assert OccursAt(n, BTC_CONTRACT, 3);
    ContainsOccurs(n, BTC_CONTRACT);
  }

  /** `"1m_XRP_USDT"` is routed to XRP_USDT. */
  lemma MinuteNameRoutesToXrp()
    ensures RouteContract("1m_XRP_USDT") == Some(XRP_CONTRACT)
  {
    var n := "1m_XRP_USDT";
    assert n[3..3 + |XRP_CONTRACT|] == XRP_CONTRACT;
    assert OccursAt(n, XRP_CONTRACT, 3);
    ContainsOccurs(n, XRP_CONTRACT);
  }

  /** `getCurrentPrice(contract)`: `"0"` for a contract without a quote. */
  function GetCurrentPrice(st: FeedState, contract: string): (r: string)
    ensures contract in st.prices ==> r == st.prices[contract]
    ensures contract !in st.prices ==> r == "0"
  {
    if contract in st.prices then st.prices[contract] else "0"
  }

  /** `getCurrentPrice()`: the XRP_USDT quote. */
  function GetCurrentPriceDefault(st: FeedState): (r: string)
    ensures r == GetCurrentPrice(st, XRP_CONTRACT)
  {
    GetCurrentPrice(st, XRP_CONTRACT)
  }

  /** `getLastUpdateTime(contract)`: `""` for a contract without a quote. */
  function GetLastUpdateTime(st: FeedState, contract: string): (r: string)
    ensures contract in st.updateTimes ==> r == st.updateTimes[contract]
    ensures contract !in st.updateTimes ==> r == ""
  {
    if contract in st.updateTimes then st.updateTimes[contract] else ""
  }

  /** `getLastUpdateTime()`: the XRP_USDT update time. */
  function GetLastUpdateTimeDefault(st: FeedState): (r: string)
    ensures r == GetLastUpdateTime(st, XRP_CONTRACT)
  {
    GetLastUpdateTime(st, XRP_CONTRACT)
  }

  /** `getChangePercentage(contract)`: `"0"` for a contract without a quote. */
  function GetChangePercentage(st: FeedState, contract: string): (r: string)
    ensures contract in st.changes ==> r == st.changes[contract]
    ensures contract !in st.changes ==> r == "0"
  {
    if contract in st.changes then st.changes[contract] else "0"
  }

  /** `getContract()`. */
  function GetContract(): (r: string)
    ensures r == XRP_CONTRACT
  {
    XRP_CONTRACT
  }

  /** `getContract(contract)`: the argument itself. */
  function GetContractOf(contract: string): (r: string)
    ensures r == contract
  {
    contract
  }

  /** A fresh client reads price `"0"`, update time `""` and change `"0"` for every contract, tracked or not. */
  lemma InitialQuotes(store: CandleStore.Store, contract: string)
    ensures GetCurrentPrice(Initial(store), contract) == "0"
    ensures GetLastUpdateTime(Initial(store), contract) == ""
    ensures GetChangePercentage(Initial(store), contract) == "0"
  {
  }

  /** Frames never add or remove tracked contracts: the feed only ever quotes XRP_USDT and BTC_USDT. */
  lemma {:induction false} TrackedForever(store: CandleStore.Store, frames: seq<Option<Frame>>, now: string)
    ensures Replay(Initial(store), frames, now).prices.Keys == {XRP_CONTRACT, BTC_CONTRACT}
    ensures QuotesAligned(Replay(Initial(store), frames, now))
    decreases |frames|
  {
    if |frames| > 0 {
      TrackedForever(store, frames[..|frames| - 1], now);
    }
  }

  /** Frames handled one after another. */
  function Replay(st: FeedState, frames: seq<Option<Frame>>, now: string): (r: FeedState)
    decreases |frames|
  {
    if |frames| == 0 then st
    else HandleMessage(Replay(st, frames[..|frames| - 1], now), frames[|frames| - 1], now)
  }
}
