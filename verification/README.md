# trading-signal: a Dafny model of the feed, candle store, indicators and signal engine

The `crypto` package of trading-signal follows one futures contract, XRP_USDT, and also BTC_USDT:

- **Feed.** A websocket client (`GateIoWebSocketClient`) receives ticker and candlestick frames from the exchange. It keeps the latest quote of each tracked contract. It writes every candlestick into a candle store.
- **Candle store.** The store (`CandleStickService`) keeps one bounded series of OHLCV bars per `contract_interval` key.
- **Indicators.** Three services compute indicators from the 1m series of a contract:
  - the Stochastic Momentum Index (SMI);
  - an EMA(50)/EMA(200) trend cloud;
  - an "MA angles" slope built from an EMA(10) line and the Wilder ATR(14).
- **Signal engine.** Every ten seconds the engine (`SignalDetectionService`) runs over the last bars:
  - it watches the SMI for a turn after a dwell in the oversold or overbought zone;
  - it opens a long or short signal when the trend and slope agree;
  - it cancels a signal whose bar no longer passes the zone scan;
  - it keeps dedup sets so that each notification goes out once.

This project restates that core as pure Dafny functions over immutable data:

| file | module | models |
|---|---|---|
| `wrappers.dfy` | `Wrappers` | `Option`, standing in for `null` |
| `dto.dfy` | `Dto` | the bar and the three indicator point records; time-ordering predicates |
| `time_sort.dfy` | `TimeSort` | the stable sort by time of the history load |
| `candle_store.dfy` | `CandleStore` | `updateCandle`, `getCandles`, `getLatestCandle`, `loadInitialCandles`, `init` |
| `moving_averages.dfy` | `MovingAverages` | `calculateEMA` (the three identical copies), `calculateSMA` |
| `smi.dfy` | `Smi` | `SMIIndicatorService.calculate` |
| `ema_cloud.dfy` | `EmaCloud` | `EMACloudIndicatorService.calculate` |
| `ma_angles.dfy` | `MaAngles` | `MAAnglesIndicatorService.calculate`, `calculateATR` |
| `zone_scan.dfy` | `ZoneScan` | `scanOversoldZone`, `scanOverboughtZone` |
| `signal_engine.dfy` | `SignalEngine` | one run of `detectAndNotify`, as a transition over indicator maps |
| `signal_detect.dfy` | `SignalDetect` | `detectAndNotify` wired to the indicators, and `checkSignals` |
| `feed.dfy` | `Feed` | `handleMessage` over a parsed frame, the constructor, the quote getters |

Modelling choices:

- `double` is `real`, `long` is `int`.
- The signal engine's string dedup keys are tuples:
  - `contract + "_S2_LONG_" + time` becomes `SignalKey(contract, S2, Long, time)`;
  - `contract + "_OVERSOLD_" + time` becomes `CancelKey(contract, Oversold, time)`.
- Because of the tuple keys, removing the cancel keys that start with `contract + "_OVERSOLD_"` becomes removing every cancel key of that contract and zone.
- The engine's proofs take the indicator points as maps keyed by bar time. `SignalDetect` then connects those maps to the indicator functions. It proves that over 300 or more strictly increasing bars, every recent bar finds its own points.
- `Math.atan` and `Math.PI` are parameters of the MA-angles model.
- Where a sign argument is needed, `atan` is assumed to have the sign of its argument (`MaAngles.SignPreserving`).
- The wall clock read by the feed is the parameter `now`.
- A failed history fetch or an unparsable frame is `None`.

## Model

| member | source | states |
|---|---|---|
| CandleStore.MakeKeyInjective | src/main/java/org/example/crypto/service/CandleStickService.java:31-33 | two (contract, interval) pairs share a store key only if they are equal, provided neither interval contains an underscore |
| CandleStore.MakeKeyCollision | src/main/java/org/example/crypto/service/CandleStickService.java:31-33 | without that proviso keys do collide: ("XRP", "USDT_1m") and ("XRP_USDT", "1m") map to the same key |
| CandleStore.TrimOldest | src/main/java/org/example/crypto/service/CandleStickService.java:87-89 | the eviction loop leaves a series of at most 2000 bars as it is, and otherwise keeps exactly its newest 2000 bars |
| CandleStore.UpsertSeries | src/main/java/org/example/crypto/service/CandleStickService.java:76-90 | the four cases of a write: an empty series becomes `[c]`; a bar with the last bar's time replaces the last bar and keeps length and every earlier bar; a newer bar is appended and the result is the newest min(n+1, 2000) bars of the series plus the bar, ending in the bar; an older bar leaves the series unchanged |
| CandleStore.UpsertFullSeries | src/main/java/org/example/crypto/service/CandleStickService.java:85-89 | a full 2000-bar series keeps length 2000 on a newer bar and loses exactly its first bar |
| CandleStore.UpsertKeepsValid | src/main/java/org/example/crypto/service/CandleStickService.java:76-90 | a strictly time-increasing series of at most 2000 bars stays so after any write, whatever the bar |
| CandleStore.UpsertEndsWithBar | src/main/java/org/example/crypto/service/CandleStickService.java:76-89 | a write that is not older than the last bar leaves the series ending in the written bar |
| CandleStore.Upsert | src/main/java/org/example/crypto/service/CandleStickService.java:72-91 | the store gains at most its own key; that key's series is the single-series write applied to what was stored, an absent series reading as empty; every other key keeps its series |
| CandleStore.UpsertDefaultInterval | src/main/java/org/example/crypto/service/CandleStickService.java:93-95 | the contract-only write always targets the contract's "1m" series and leaves every other key alone |
| CandleStore.UpsertDefault | src/main/java/org/example/crypto/service/CandleStickService.java:97-99 | the argument-less write always targets the XRP_USDT "1m" series and leaves every other key alone |
| CandleStore.UpsertKeepsValidStore | src/main/java/org/example/crypto/service/CandleStickService.java:72-91 | a store whose every series is valid stays so after any write |
| CandleStore.GetCandles | src/main/java/org/example/crypto/service/CandleStickService.java:101-105 | the stored series of the key, or the empty list for an absent key |
| CandleStore.GetCandlesDefaultInterval | src/main/java/org/example/crypto/service/CandleStickService.java:107-109 | reads the contract's "1m" series |
| CandleStore.GetCandlesDefault | src/main/java/org/example/crypto/service/CandleStickService.java:111-113 | reads the XRP_USDT "1m" series |
| CandleStore.GetLatestCandle | src/main/java/org/example/crypto/service/CandleStickService.java:119-126 | no bar exactly when the series is absent or empty; otherwise the last bar of what `getCandles` reads |
| CandleStore.GetLatestCandleDefaultInterval | src/main/java/org/example/crypto/service/CandleStickService.java:115-117 | no bar exactly when the contract's "1m" series is absent or empty; otherwise the last bar of that series |
| CandleStore.GetLatestCandleDefault | src/main/java/org/example/crypto/service/CandleStickService.java:128-130 | no bar exactly when the XRP_USDT "1m" series is absent or empty; otherwise the last bar of that series |
| CandleStore.GetAfterUpsert | src/main/java/org/example/crypto/service/CandleStickService.java:72-105 | reading a key back after writing it gives the single-series write applied to what was read before |
| CandleStore.GetAfterUpsertOther | src/main/java/org/example/crypto/service/CandleStickService.java:72-105 | writing one key never changes what another key reads |
| CandleStore.LatestAfterUpsert | src/main/java/org/example/crypto/service/CandleStickService.java:72-126 | after a write that is not older than the last bar, the latest bar is the written one |
| CandleStore.LoadInitial | src/main/java/org/example/crypto/service/CandleStickService.java:41-70 | a failed fetch leaves the store unchanged; a successful one replaces the key's series with a time-sorted permutation of the fetched bars and leaves every other key alone |
| CandleStore.LoadInitialKeepsValidStore | src/main/java/org/example/crypto/service/CandleStickService.java:60-65 | loading at most 2000 bars of distinct times keeps every series strictly increasing and bounded |
| CandleStore.Init | src/main/java/org/example/crypto/service/CandleStickService.java:36-39 | startup fills at most the two "1m" series, XRP_USDT and BTC_USDT: a series whose fetch succeeded holds the fetched bars sorted by time, and one whose fetch failed is absent |
| CandleStore.UpsertAllIncreasing | src/main/java/org/example/crypto/service/CandleStickService.java:72-91 | feeding strictly newer bars one by one into a series of at most 2000 bars keeps exactly the newest 2000 bars of everything written |
| CandleStore.EvictionExample | src/main/java/org/example/crypto/service/CandleStickService.java:85-89 | example: 2001 strictly newer bars written into an empty series leave 2000 bars starting at the second one |
| CandleStore.ReplaceExample | src/main/java/org/example/crypto/service/CandleStickService.java:81-86 | example: bars at times 1, 2, 2, 3 leave three bars, the second bar at time 2 replacing the first |
| TimeSort.SortByTime | src/main/java/org/example/crypto/service/CandleStickService.java:60 | the result is sorted by time and is a permutation of the input |
| TimeSort.SortByTimeStable | src/main/java/org/example/crypto/service/CandleStickService.java:60 | bars of equal time keep their original relative order, as the stable `Collections.sort` does |
| TimeSort.SortDistinctIsStrict | src/main/java/org/example/crypto/service/CandleStickService.java:60-65 | sorting bars of pairwise distinct times gives a strictly increasing series |
| MovingAverages.Ema | src/main/java/org/example/crypto/service/SMIIndicatorService.java:111-121 | the output has the input's length, starts at the first input, and each later value is `(x - prev) * 2/(p+1) + prev` |
| MovingAverages.SmoothUnique | src/main/java/org/example/crypto/service/SMIIndicatorService.java:111-121 | any series with that length, first value and recurrence is the EMA, so the three properties above define it |
| MovingAverages.SmoothPrefix | src/main/java/org/example/crypto/service/EMACloudIndicatorService.java:72-83 | the EMA of a prefix is the prefix of the EMA: later inputs never change earlier values |
| MovingAverages.EmaBounded | src/main/java/org/example/crypto/service/EMACloudIndicatorService.java:72-83 | the EMA never leaves the range of its input |
| MovingAverages.EmaConstant | src/main/java/org/example/crypto/service/SMIIndicatorService.java:111-121 | a constant input gives a constant EMA equal to it |
| MovingAverages.SmoothDominated | src/main/java/org/example/crypto/service/SMIIndicatorService.java:75-76 | if `-y <= 2x <= y` holds pointwise, it still holds after smoothing both series with the same weight |
| MovingAverages.Sma | src/main/java/org/example/crypto/service/SMIIndicatorService.java:126-142 | the output has the input's length; indices below `period - 1` copy the input, later ones are the mean of the last `period` inputs |
| MovingAverages.SmaBounded | src/main/java/org/example/crypto/service/SMIIndicatorService.java:126-142 | the SMA never leaves the range of its input |
| MovingAverages.SmaConstant | src/main/java/org/example/crypto/service/SMIIndicatorService.java:126-142 | a constant input gives a constant SMA equal to it |
| Smi.HighestHigh | src/main/java/org/example/crypto/service/SMIIndicatorService.java:57-63 | the running `Math.max` seeded with `Double.MIN_VALUE`: no smaller than the seed or any high of the window, and equal to the seed or to one of the highs |
| Smi.LowestLow | src/main/java/org/example/crypto/service/SMIIndicatorService.java:58-64 | the running `Math.min` seeded with `Double.MAX_VALUE`: no larger than the seed or any low of the window, and equal to the seed or to one of the lows |
| Smi.Diffs | src/main/java/org/example/crypto/service/SMIIndicatorService.java:56-72 | one value per bar from the tenth on; entry k is `hh - ll` over the ten bars ending at bar k + 9 |
| Smi.RelDiffs | src/main/java/org/example/crypto/service/SMIIndicatorService.java:56-72 | one value per bar from the tenth on; entry k is bar k + 9's close minus the midpoint `(hh + ll) / 2` of its ten-bar window |
| Smi.RelDiffDominated | src/main/java/org/example/crypto/service/SMIIndicatorService.java:56-72 | for bars whose close lies in their high/low range, `abs(rdiff) <= diff / 2` at every window |
| Smi.RawSmi | src/main/java/org/example/crypto/service/SMIIndicatorService.java:79-83 | the raw SMI is exactly 0 where the smoothed range is 0, and `avgrel / (avgdiff / 2) * 100` elsewhere |
| Smi.Calculate | src/main/java/org/example/crypto/service/SMIIndicatorService.java:44-106 | thresholds +40 and -40; empty below 10 bars; otherwise `size - 9` points, point k at the time of bar k + 9, holding the SMA(5) of the raw SMI over EMA(3) of `rdiff` and `diff`, and its EMA(10) signal line |
| Smi.RawSmiBounded | src/main/java/org/example/crypto/service/SMIIndicatorService.java:75-83 | for coherent bars the raw SMI lies in [-100, 100] |
| Smi.SmiBounded | src/main/java/org/example/crypto/service/SMIIndicatorService.java:44-106 | for coherent bars every reported SMI and signal value lies in [-100, 100] |
| EmaCloud.Calculate | src/main/java/org/example/crypto/service/EMACloudIndicatorService.java:34-67 | lengths 50 and 200; empty below 200 bars; otherwise `size - 199` points, point k at the time of bar k + 199, holding EMA(50) and EMA(200) of all closes there; `upTrend` iff fast > slow, `downTrend` iff fast < slow, never both |
| EmaCloud.FlatClosesNoTrend | src/main/java/org/example/crypto/service/EMACloudIndicatorService.java:34-83 | when every close is the same price, both EMAs equal it and neither trend flag is ever set |
| MaAngles.TrueRange | src/main/java/org/example/crypto/service/MAAnglesIndicatorService.java:143-152 | `tr[0] = high - low`; from bar 1 on, `tr[i]` is the largest of `high - low`, `abs(high - prevClose)` and `abs(low - prevClose)`, hence non-negative |
| MaAngles.Rma | src/main/java/org/example/crypto/service/MAAnglesIndicatorService.java:155-163 | `rma[0] = tr[0]` and `rma[i] = (rma[i-1] * (period-1) + tr[i]) / period` |
| MaAngles.RmaIsSmoothing | src/main/java/org/example/crypto/service/MAAnglesIndicatorService.java:155-163 | Wilder's average equals the exponential smoothing with weight `1/period` |
| MaAngles.Atr | src/main/java/org/example/crypto/service/MAAnglesIndicatorService.java:137-166 | one value per bar; the first is the first bar's `high - low`, and each later one is `(prev * 13 + tr) / 14` with that bar's true range |
| MaAngles.AtrNonNegative | src/main/java/org/example/crypto/service/MAAnglesIndicatorService.java:137-166 | for bars with low <= high the ATR(14) is never negative |
| MaAngles.Slopes | src/main/java/org/example/crypto/service/MAAnglesIndicatorService.java:61-67 | the slope is 0 at bar 0 and wherever ATR <= 0, and `(180/pi) * atan(move / atr)` elsewhere |
| MaAngles.AngleSign | src/main/java/org/example/crypto/service/MAAnglesIndicatorService.java:64-65 | with a sign-preserving `atan`, an angle is non-negative exactly when the line's move is |
| MaAngles.Calculate | src/main/java/org/example/crypto/service/MAAnglesIndicatorService.java:33-93 | threshold 2.0; empty below 280 bars; otherwise `size - 50` points, point k at the time of bar k + 50 with that bar's slope, the four other slope fields 0, and `ma27Rising`/`ma27Falling` comparing EMA(27) with its previous value, never both |
| MaAngles.SlopeSign | src/main/java/org/example/crypto/service/MAAnglesIndicatorService.java:55-67 | a reported slope is >= 0 exactly when the ATR there is not positive or the EMA(10) line did not fall |
| MaAngles.ZeroAtrZeroSlopes | src/main/java/org/example/crypto/service/MAAnglesIndicatorService.java:61-67 | where the ATR is never positive, every reported slope is 0 |
| MaAngles.FlatBarsFlatAngles | src/main/java/org/example/crypto/service/MAAnglesIndicatorService.java:33-93 | flat bars have zero true range and ATR, every slope 0 and no EMA(27) direction |
| ZoneScan.RunLength | src/main/java/org/example/crypto/service/SignalDetectionService.java:363-377 | the dwell is the number of consecutive qualifying bars ending at the bar; the bar just before the run is missing, outside the zone, or before the start |
| ZoneScan.RunLengthExact | src/main/java/org/example/crypto/service/SignalDetectionService.java:363-377 | any maximal run of qualifying bars ending at the bar has exactly the dwell's length |
| ZoneScan.ScanZone | src/main/java/org/example/crypto/service/SignalDetectionService.java:355-381 | the source's loop returns true iff the current bar has a point inside the zone, the dwell is at least 4, and some earlier bar of the run lies further into the zone than the current one |
| ZoneScan.ScanMirror | src/main/java/org/example/crypto/service/SignalDetectionService.java:387-412 | the overbought scan is exactly the oversold scan of the negated SMI |
| ZoneScan.OversoldReboundExample | src/main/java/org/example/crypto/service/SignalDetectionService.java:355-381 | example: SMI -50, -50, -50, -50, -45 passes the oversold scan at the last bar |
| ZoneScan.OversoldExitExample | src/main/java/org/example/crypto/service/SignalDetectionService.java:355-381 | example: SMI -50, -50, -50, -50, -30 fails: the current bar has left the zone |
| ZoneScan.ShortDwellExample | src/main/java/org/example/crypto/service/SignalDetectionService.java:355-381 | example: SMI -50, -50, -45 fails: a 3-bar dwell is too short |
| ZoneScan.BrokenRunExample | src/main/java/org/example/crypto/service/SignalDetectionService.java:355-381 | example: a bar above -40 breaks the run, so the dwell restarts after it |
| SignalEngine.ClearZone | src/main/java/org/example/crypto/service/SignalDetectionService.java:140-147 | the zone's record of the contract is gone, and so is every cancel key of that contract and zone; other cancel keys, the other zone and the notified set are kept |
| SignalEngine.Reset | src/main/java/org/example/crypto/service/SignalDetectionService.java:137-148 | a zone is cleared for the contract exactly when the latest bar has an SMI point outside that zone (above -40 for oversold, below +40 for overbought); otherwise the zone's record and cancel keys are untouched; other contracts are untouched |
| SignalEngine.IndexOfTime | src/main/java/org/example/crypto/service/SignalDetectionService.java:157-160 | the first index holding the time, or -1 exactly when no bar has it |
| SignalEngine.CancelCheck | src/main/java/org/example/crypto/service/SignalDetectionService.java:154-178 | a recorded signal whose bar is found at an index above 0 and fails the scan is dropped and its cancel key added, the cancel message going out only if the key is new; otherwise nothing changes |
| SignalEngine.Choose | src/main/java/org/example/crypto/service/SignalDetectionService.java:269-304 | a strategy is chosen iff the slope agrees with the side; it is S2 iff the EMA trend agrees as well |
| SignalEngine.TryOpen | src/main/java/org/example/crypto/service/SignalDetectionService.java:269-304 | with no record and a passing scan and agreeing slope, the bar's time is recorded and its key added, notified only if new; the record is set even when the message is suppressed; otherwise nothing changes |
| SignalEngine.Step | src/main/java/org/example/crypto/service/SignalDetectionService.java:207-343 | a bar missing an EMA, MA or SMI point, or whose predecessor has no SMI point, is skipped; otherwise at most one message per side, only for a side with no record, and any new record is this bar after a passing scan with an agreeing slope (StepOpens and StepQuiet give the converse) |
| SignalEngine.StepFired | src/main/java/org/example/crypto/service/SignalDetectionService.java:207-343 | every message of a bar carries the bar's time, its scan passed with an agreeing slope, and its strategy is S2 exactly when the trend agrees |
| SignalEngine.StepOpens | src/main/java/org/example/crypto/service/SignalDetectionService.java:269-342 | a bar that is examined, passes a zone's scan and has an agreeing slope records its time for that zone when the zone had no signal, and notifies its key exactly when the key is new |
| SignalEngine.StepQuiet | src/main/java/org/example/crypto/service/SignalDetectionService.java:269-342 | a bar that does not qualify for a zone without signal leaves it without one, adds no key of that side and notifies nothing for that side |
| SignalEngine.StartIndex | src/main/java/org/example/crypto/service/SignalDetectionService.java:207 | the first examined bar is `max(1, n - 5)` |
| SignalEngine.ScanFrom | src/main/java/org/example/crypto/service/SignalDetectionService.java:207-343 | over the recent bars each side opens at most one signal and only if it had none; an existing record is kept; a new record is the time of an examined bar that passes the scan with an agreeing slope, so with no such bar a zone without signal stays without one; a side that is notified ends with a record; every message is for a key not notified before, recorded after, and fired by one of the examined bars (ScanFromFirst gives the converse) |
| SignalEngine.ScanFromFirst | src/main/java/org/example/crypto/service/SignalDetectionService.java:207-343 | a zone without signal is opened at the first qualifying bar of the scan: the record holds that bar's time, and its key is notified exactly when it was not notified before |
| SignalEngine.Cap | src/main/java/org/example/crypto/service/SignalDetectionService.java:346-348 | the notified set is emptied exactly when it holds more than 1000 keys; nothing else changes |
| SignalEngine.Housekeeping | src/main/java/org/example/crypto/service/SignalDetectionService.java:137-204 | reset and cancellation emit at most two messages, all cancels for the contract, each for a key new before and recorded after; other contracts are untouched |
| SignalEngine.HousekeepingCancelEvent | src/main/java/org/example/crypto/service/SignalDetectionService.java:137-204 | a cancel message for a zone comes out exactly when the latest bar did not reset that zone, its recorded signal has lapsed, and the cancel key was not recorded before |
| SignalEngine.HousekeepingClears | src/main/java/org/example/crypto/service/SignalDetectionService.java:137-204 | after reset and cancellation a zone has no signal when it had none, the latest bar reset it, or its signal had lapsed |
| SignalEngine.Tick | src/main/java/org/example/crypto/service/SignalDetectionService.java:116-349 | fewer than 300 bars or an empty indicator result changes nothing and emits nothing; otherwise other contracts are untouched, at most one notification per side goes out, each for a new key fired by one of the last five bars, and a notified set within 1000 keys stays within it (TickOpens and TickNoSignal give the converse) |
| SignalEngine.TickCancelEvent | src/main/java/org/example/crypto/service/SignalDetectionService.java:116-216 | the cancel messages of a tick are exactly those of its reset and cancellation phases |
| SignalEngine.TickKeepsRecord | src/main/java/org/example/crypto/service/SignalDetectionService.java:137-343 | a recorded signal that the latest bar does not reset and that has not lapsed keeps its time through the tick |
| SignalEngine.TickOpens | src/main/java/org/example/crypto/service/SignalDetectionService.java:116-349 | a zone cleared by housekeeping is opened at the first qualifying bar among the last five: the record holds that bar's time, and its key is notified exactly when it was not notified before |
| SignalEngine.TickNoSignal | src/main/java/org/example/crypto/service/SignalDetectionService.java:116-349 | a zone cleared by housekeeping with no qualifying bar among the last five stays without signal, and no notification goes out for its side |
| SignalDetect.ByTime | src/main/java/org/example/crypto/service/SignalDetectionService.java:127-134 | every point's time is a key, every entry is filed under its own time, and the map is empty exactly when there are no points |
| SignalDetect.ByTimeEntries | src/main/java/org/example/crypto/service/SignalDetectionService.java:127-134 | every entry of a time-keyed map is one of the points, filed under its own time |
| SignalDetect.ByTimeLastWins | src/main/java/org/example/crypto/service/SignalDetectionService.java:127-134 | where points share a time, the last one put wins |
| SignalDetect.AlignedLookup | src/main/java/org/example/crypto/service/SignalDetectionService.java:127-134 | for strictly increasing bars, each bar past the warm-up finds its own point under its time |
| SignalDetect.SmiAligned | src/main/java/org/example/crypto/service/SMIIndicatorService.java:96-103 | SMI point k belongs to bar k + 9, one per bar to the end |
| SignalDetect.EmaAligned | src/main/java/org/example/crypto/service/EMACloudIndicatorService.java:53-64 | EMA-cloud point k belongs to bar k + 199, one per bar to the end |
| SignalDetect.MaAligned | src/main/java/org/example/crypto/service/MAAnglesIndicatorService.java:74-90 | MA-angles point k belongs to bar k + 50, one per bar to the end |
| SignalDetect.IndicatorsOf | src/main/java/org/example/crypto/service/SignalDetectionService.java:118-134 | each of the three time-keyed maps is empty exactly when its indicator result is, which is what the early return tests, and files every point under its own time |
| SignalDetect.Detect | src/main/java/org/example/crypto/service/SignalDetectionService.java:116-124 | fewer than 300 bars return at once with nothing changed; only the contract's own state can change; the notified cap holds |
| SignalDetect.DetectExaminesRecentBars | src/main/java/org/example/crypto/service/SignalDetectionService.java:116-216 | over at least 300 strictly increasing bars no indicator result is empty, and each of the last five bars and its predecessor find their points |
| SignalDetect.CheckAll | src/main/java/org/example/crypto/service/SignalDetectionService.java:62-70 | one run over a list of contracts leaves every contract outside the list alone and keeps the notified cap |
| SignalDetect.CheckSignals | src/main/java/org/example/crypto/service/SignalDetectionService.java:62-70 | the scheduled run touches only XRP_USDT's state |
| Feed.Initial | src/main/java/org/example/crypto/service/GateIoWebSocketClient.java:37-45 | a new client quotes exactly XRP_USDT and BTC_USDT, at price "0", change "0" and no update time |
| Feed.InitialQuotes | src/main/java/org/example/crypto/service/GateIoWebSocketClient.java:37-45 | a new client reads "0", "" and "0" for every contract, tracked or not |
| Feed.ContainsOccurs | src/main/java/org/example/crypto/service/GateIoWebSocketClient.java:145-150 | the substring test holds exactly when the name occurs somewhere in the string |
| Feed.RouteContract | src/main/java/org/example/crypto/service/GateIoWebSocketClient.java:145-150 | a name containing XRP_USDT goes to XRP_USDT; else one containing BTC_USDT goes to BTC_USDT; else to no contract |
| Feed.FiveMinuteNameRoutesToBtc | src/main/java/org/example/crypto/service/GateIoWebSocketClient.java:145-150 | example: "5m_BTC_USDT" is routed to BTC_USDT |
| Feed.MinuteNameRoutesToXrp | src/main/java/org/example/crypto/service/GateIoWebSocketClient.java:145-150 | example: "1m_XRP_USDT" is routed to XRP_USDT |
| Feed.ApplyTicker | src/main/java/org/example/crypto/service/GateIoWebSocketClient.java:122-131 | an untracked contract changes nothing; a tracked one takes the new price, change and update time and nothing else changes |
| Feed.ApplyTickers | src/main/java/org/example/crypto/service/GateIoWebSocketClient.java:119-132 | a ticker frame never changes which contracts are tracked, keeps the three quote maps on the same keys, and never touches the store |
| Feed.TickersUnnamedUnchanged | src/main/java/org/example/crypto/service/GateIoWebSocketClient.java:119-132 | a tracked contract that no result names keeps its quote |
| Feed.TickersLastWins | src/main/java/org/example/crypto/service/GateIoWebSocketClient.java:119-132 | a tracked contract shows the last result naming it, stamped with the frame's time |
| Feed.UntrackedTickerIgnored | src/main/java/org/example/crypto/service/GateIoWebSocketClient.java:126-131 | a ticker for an untracked contract changes nothing |
| Feed.TickerReadBack | src/main/java/org/example/crypto/service/GateIoWebSocketClient.java:119-132 | after a tracked contract's ticker, the getters read its price, its change and the frame's time |
| Feed.ApplyCandle | src/main/java/org/example/crypto/service/GateIoWebSocketClient.java:136-156 | an unrouted name changes nothing; a routed one upserts its bar into that contract's "1m" series |
| Feed.ApplyCandles | src/main/java/org/example/crypto/service/GateIoWebSocketClient.java:133-157 | a candle frame, applied entry by entry, never changes the quotes |
| Feed.CandlesTouchOnlyMinuteSeries | src/main/java/org/example/crypto/service/GateIoWebSocketClient.java:133-157 | a candlestick frame keeps a valid store valid and changes at most the two "1m" series |
| Feed.CandleFrameUpsertsMinuteSeries | src/main/java/org/example/crypto/service/GateIoWebSocketClient.java:133-157 | a routed candlestick is upserted into the contract's "1m" series whatever interval its name spells, and the quotes are unchanged |
| Feed.UnroutedCandleIgnored | src/main/java/org/example/crypto/service/GateIoWebSocketClient.java:145-155 | a candlestick whose name contains neither contract changes nothing |
| Feed.HandleMessage | src/main/java/org/example/crypto/service/GateIoWebSocketClient.java:113-162 | an unparsable frame or any other channel or event changes nothing; tracked contracts never change; ticker frames never touch the store; candlestick frames never touch the quotes |
| Feed.TrackedForever | src/main/java/org/example/crypto/service/GateIoWebSocketClient.java:113-162 | however many frames arrive, the client quotes exactly XRP_USDT and BTC_USDT on aligned maps |
| Feed.GetCurrentPrice | src/main/java/org/example/crypto/service/GateIoWebSocketClient.java:207-209 | the quoted price, or "0" for an unquoted contract |
| Feed.GetCurrentPriceDefault | src/main/java/org/example/crypto/service/GateIoWebSocketClient.java:203-205 | the XRP_USDT price |
| Feed.GetLastUpdateTime | src/main/java/org/example/crypto/service/GateIoWebSocketClient.java:215-217 | the last update time, or "" for an unquoted contract |
| Feed.GetLastUpdateTimeDefault | src/main/java/org/example/crypto/service/GateIoWebSocketClient.java:211-213 | the XRP_USDT update time |
| Feed.GetChangePercentage | src/main/java/org/example/crypto/service/GateIoWebSocketClient.java:219-221 | the change percentage, or "0" for an unquoted contract |
| Feed.GetContract | src/main/java/org/example/crypto/service/GateIoWebSocketClient.java:223-225 | always XRP_USDT |
| Feed.GetContractOf | src/main/java/org/example/crypto/service/GateIoWebSocketClient.java:227-229 | the argument itself |

Three behaviours of the code are easy to misread. The model follows the code each time:

- **Dwell length.** The doc comments of the two zone scans (`SignalDetectionService.java:353` and `:385`) ask for a dwell of 2 or more bars. The code requires `dwellCount >= 4` (`:380`, `:411`). `ZoneScan.MIN_DWELL` is 4.
- **The current bar must be in the zone.** A dwell of four bars at -50 followed by a bar at -30 does not give an oversold signal, because the current bar must itself be at or below -40 (`SignalDetectionService.java:361`). `ZoneScan.OversoldExitExample` states this.
- **No interval filter on candles.** Candle routing looks only at whether the channel name contains a contract: any such name goes to that contract's "1m" series, whatever interval it names (`GateIoWebSocketClient.java:145-156`). `Feed.FiveMinuteNameRoutesToBtc` and `Feed.CandleFrameUpsertsMinuteSeries` state this.

## Left out

- **Socket lifecycle.** `connect`, the subscribe requests, the ping scheduler, `reconnect` and `shutdown` (`GateIoWebSocketClient.java:48-111`, `164-201`) are network I/O and timers.
- **JSON parsing.** A frame arrives already parsed. Missing fields read as `""`, `0` and `0.0`, the values Jackson's `asText`, `asLong` and `asDouble` give. A parse failure is `None`, which the handler ignores.
- **Clock.** The source reads `LocalDateTime.now()` once per ticker result. The model uses one value `now` per frame.
- **History request.** The REST request of `loadInitialCandles` and its JSON decoding are I/O. The fetched bars, or `None` on failure, are a parameter of `CandleStore.LoadInitial`.
- **Logging and notifications.** The Slack and Telegram senders, `healthCheck`, and the message text and price formatting are left out. A message is an `Event` value carrying its dedup key.
- **Concurrency.** The concurrent maps, and the interleaving of the feed thread with the scheduler, are not modelled. Each operation is atomic.
- **Floating point.** Arithmetic is exact over the reals: no rounding, NaN or infinity. `Double.MIN_VALUE` and `Double.MAX_VALUE` are exact rationals.
- **Math functions.** `Math.atan` and `Math.PI` are parameters. Sign facts assume `atan` has the sign of its argument.
- **calculateJMA.** `MAAnglesIndicatorService.calculateJMA` is never called, so it is not modelled.
- **Failure isolation.** `checkSignals`' per-contract catch is left out: the pure model has no exceptions to isolate. `SignalDetect.CheckAll` shows instead that each contract's run leaves the others' state alone.
- **calculateEMA on empty input.** The source would index out of bounds on an empty list. It is only ever called on at least 10 values, and `MovingAverages.Ema` returns the empty sequence instead.
- **Unwatched contracts.** The model never runs the engine for any contract but XRP_USDT, matching the hard-coded list.
- **Cancel-key prefix removal.** Cancel keys are tuples, so prefix removal becomes removal by (contract, zone). This equals the source's removal as long as no contract name itself contains `_OVERSOLD_` or `_OVERBOUGHT_`.
- **Store keys.** Keys are the source's strings `contract + "_" + interval`. They are injective only for intervals without an underscore; `CandleStore.MakeKeyCollision` shows a collision.
- CandleStore.LoadInitialKeepsValidStore: requires the fetched bars to have distinct times and to number at most 2000. The source does not check either, and trusts the exchange's history response.
- Feed.TickerReadBack: requires the three quote maps to share their keys, which holds from the constructor on (`Feed.TrackedForever`).
