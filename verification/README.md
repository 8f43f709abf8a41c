# Recommendation engine: model and proofs

A Dafny model of a crypto-currency recommendation service: it collects price bars from an exchange, backtests entry rules on them, announces the coins whose own record is good enough, watches the announced positions minute by minute and keeps a public track record.

| file | what it models |
|---|---|
| `Domain.dfy` | instants, timeframes, bars, `bisect_right` |
| `Tracks.dfy`, `TrackTheorems.dfy`, `TrackMeaning.dfy`, `TrackTable.dfy`, `Resolution.dfy` | the three tracks: entry conditions, the race between target and stop, the log of non-overlapping trades, its shape, what it holds in numbers alone, the rules by track, its stability under new data, its accounting, and judging on coarse against fine bars |
| `PriceEvents.dfy`, `Monitor.dfy`, `AlertHistory.dfy`, `AlertDelivery.dfy`, `LostAlert.dfy`, `MonitorLimits.dfy` | the live price monitor against a batch scan, against the backtest, and inside every schedule of the ledger; which events reach a reader; how far it sees |
| `Rows.dfy`, `Ledger.dfy`, `Announcements.dfy`, `Pipeline.dfy`, `Sessions.dfy`, `Performance.dfy` | the recommendation table as a state machine shared by locked pipeline runs and an unlocked monitor; announcements; outcome evaluation; the calls of a store's life in sequence; the published track record |
| `Exchange.dfy`, `CandleTable.dfy`, `Store.dfy`, `Collector.dfy`, `CollectorLimits.dfy`, `PartialBars.dfy` | the exchange as an ordered history that keeps closing bars, paged fetches, the stored bars and the collector |
| `Regime.dfy`, `Wilson.dfy`, `Backtest.dfy`, `SampleMeaning.dfy` | bitcoin's regime series, the lower confidence bound, the regime track's sample and what its statistics say of the bars |
| `Ranking.dfy`, `Scorer.dfy`, `OfferMeaning.dfy`, `RunLists.dfy` | list generation, what a published offer says in numbers alone, the cache shared by the tracks, the ranking, and what a run hands to the ledger |
| `PriceText.dfy`, `ShippedPrices.dfy` | the price printer, and the prices it is given |

Prices and ratios are exact reals, instants are whole microseconds, tables are maps inside the class `Store.DataStore`, and a method of the store is one transaction. What the source loops over is a method with a loop, proved equal to a function; the theorems are about that function. Interleavings are schedules of `Ledger.Step`: the methods of `Monitor` and `Pipeline` return, as ghost values, the schedule of steps they took, and `Ledger` and `Announcements` prove their invariants for every schedule of any number of pipeline callers and one monitor.

## Where the code departs from its own text, or keeps it only under a condition

The model follows the code. Each point is proved by the lemmas named.

- **A shown price can be above the value** although the docstring gives "never above the real target" as the reason for rounding down (`src/notifier.py:44`): the rounding to ten significant digits comes first and may go up. `PriceText.ShownAboveIff`, `ShippedPrices.ShownExamples`. Entries of at most seven digits are safe: `ShippedPrices.ShippedPricesAreCut`.
- **A cut backfill over stored bars leaves a hole for good**; the comment at `src/binance_client.py:109-111` expects later runs to fill it. `Collector.CollectionTearsIff`, `CollectorLimits.TornForGood`, `CollectorLimits.TornReached`. It takes a lookback beyond 6243 days; the shipped one is safe: `CollectorLimits.CollectionConverges`.
- **Lengthening the lookback has no effect** once an exchange-earliest value is cached, even when the exchange has older bars. `CollectorLimits.LongerLookbackIsIgnored`, `CollectorLimits.IgnoredReached`.
- **Three pages of minutes reach 2998 minutes, not every 48-hour hold**: the fetch starts at the entry bar while the hold is counted from the run, and the two may be hours apart. `Exchange.MonitorReach`, `MonitorLimits.BeyondReachIsMissed`, `MonitorLimits.MissedStopReached`.
- **An event column is not a sign that an alert was sent** (`src/data_store.py:634`): the column is written at once, the alert is sent only after the whole check has returned, and the written column keeps the event from being raised again. An event is alerted exactly if its check returns and its message arrives. `AlertDelivery.MarkedIsAlertedIff`, `LostAlert.LostAlertReached`.
- **`drop_unclosed` can let a partial bar through**: it reads the clock after the response. `PartialBars.PartialKeptIff`, `PartialBars.PartialStays`.
- **"Coarse bars are biased towards loss" is exactly one case**: a win followed by a stop touch inside the same coarse bar. In every other case the two grids agree in verdict and return. `Resolution.CoarseJudgingOnlyLoses`.
- **The outcome UPDATE has no NULL guard**, so outcome columns are write-once only because evaluations exclude each other. `Ledger.UnlockedEvaluationLosesAWin`.
- **A recorded entry is announced again** once it is older than ten days and still offered. `Announcements.AnnouncedAgainIff`.

## Model

| member | source | states |
|---|---|---|
| Domain.CountUpToIs | src/tracks.py:218-220 | the binary search returns r exactly when the first r stamps are at or before the moment and all others after it |
| Domain.CountUpToStable | src/tracks.py:148-153 | stamps appended after the moment never change a look-up |
| Domain.CountUpToOwn | src/tracks.py:218-220 | every closing time finds its own bar |
| Tracks.AsOfIsLatest | src/tracks.py:148-153 | the as-of look-up is the value of the last bar closed at or before the moment, false if there is none |
| Tracks.RoundsToNearest | src/tracks.py:134-136 | the holding period in bars is the nearest whole number, ties to even |
| Tracks.HoldInBars | src/tracks.py:121-136 | for every timeframe of the track table, the bars of a hold are the nearest whole number to it and at least one |
| Tracks.FirstTouch | src/tracks.py:243-248 | the race ends on the first bar that reaches stop or target; no earlier bar reaches either |
| Tracks.Simulate | src/tracks.py:223-250 | the bar-by-bar race equals the declarative outcome: stop before target on the exit bar, nothing at all unless the entry price is positive and every bar of the hold is present |
| Tracks.WorstDipIsLeast | src/tracks.py:283 | the drawdown of a trade is a lower bound of the dips over its range and is attained |
| Tracks.JudgedBar | src/tracks.py:277-283 | a signalling bar counts as judged exactly when `simulate` returns something; its drawdown range is never empty and is exactly the bars after the entry up to the exit bar |
| Tracks.BarEffect | src/tracks.py:265-288 | what one bar adds to the totals, against the log of trades |
| Tracks.ComputeTrackStats | src/tracks.py:253-298 | the published statistics are those of the trade log: one trade per eligible bar at which no position is open; TrackMeaning says what that log holds |
| TrackTheorems.LatestEntryIsBacktested | src/tracks.py:301-313 | the newest bar is offered exactly when every later history that can judge it finds it eligible, and that history's log then counts it unless a counted position is strictly open |
| TrackTheorems.LogShape | src/tracks.py:262-288 | for every history: trades are in order, none starts before the previous exit, each is what its bar alone gives, and every eligible bar left out lies strictly inside a counted holding interval |
| TrackTheorems.ExitAfterEntry | src/tracks.py:237-250 | every trade ends after it starts |
| TrackTheorems.SignalsStable | src/tracks.py:156-202 | entry conditions of existing bars read nothing that arrives later |
| TrackTheorems.JudgementStable | src/tracks.py:237-250 | a verdict once reached is final: same start, same exit bar |
| TrackTheorems.TradeStable | src/tracks.py:223-250 | the whole trade, drawdown included, is unchanged by later data |
| TrackTheorems.PrefixStability | src/tracks.py:239-298 | appending bars, indicators, judging bars and bitcoin values leaves the old log an exact prefix; additions are bars whose window was still open |
| TrackTheorems.TradeLogStability | src/tracks.py:253-298 | the same for the finished log: no look-ahead, and no unfinished trade was ever counted |
| TrackTheorems.LogGrows | src/tracks.py:264-288 | the log up to bar m is a prefix of the log up to bar n, and what follows comes from bars m to n |
| TrackTheorems.ExitBarPays | src/tracks.py:243-250 | win pays the target, loss the stop, and a timeout strictly between the two when low <= close <= high |
| TrackTheorems.VerdictPays | src/tracks.py:243-250 | the same for every trade of a history |
| TrackTheorems.Accounting | src/tracks.py:285-298 | the return sum is wins times target minus losses times stop plus the timeout returns, for every log that pays by verdict |
| TrackTheorems.ReturnAccounting | src/tracks.py:289-298 | n = wins + losses + timeouts, and the expected return lies in the interval the counts impose, hence in [-stop, target] |
| TrackTheorems.DipReachesStopIffLoss | src/tracks.py:243-283 | one trade's drawdown reaches the stop exactly when the trade is a loss |
| TrackTheorems.DrawdownReachesStopIffLoss | src/tracks.py:283-298 | the published maximum drawdown is at or below -stop exactly when the loss count is positive |
| TrackMeaning.SignalsAre | src/tracks.py:156-202 | a bar signals exactly when the tenkan rises over a kijun it was not above one bar before, the close is above both spans where the track asks for it, and, with a context, the RSI is at least 50 and bitcoin's last value stamped by the closing time is true |
| TrackMeaning.JudgeableIs | src/tracks.py:237-241 | a position can be judged exactly when its entry price is positive and every judging bar of the hold after the last one closed with the entry is there |
| TrackMeaning.TradesAreRaces | src/tracks.py:223-288 | every trade of the log sits on such an entry bar; the first judging bar that reaches stop or target ends it, the stop wins a tie and pays -stop, the target pays the target, an untouched hold pays the change to its last close; the drawdown is the deepest low up to the exit, attained |
| TrackMeaning.EntriesAreTraded | src/tracks.py:262-288 | conversely every entry bar with a positive close and a whole hold is counted, unless a counted position is strictly open when it closes |
| TrackTable.RulesAre | src/monitor.py:17-28 | for every key: 8, 24, 48 hours and 24 for any other, targets 2%, 5%, 10% and 3%, stops 2%, 4%, 5% and 2% |
| TrackTable.ShippedRules | src/monitor.py:23-28 | each shipped track is looked up under its own key with its own target, stop and hold |
| TrackTable.ExpiredIff | src/monitor.py:83-86 | a position is given up exactly when more than its own 8, 24 or 48 hours have passed since the announcement |
| TrackTable.DeadlineIs | src/pipeline.py:233-236 | a position's deadline is its own 8, 24 or 48 hours after the entry |
| Resolution.SameBlock | src/tracks.py:243-248 | over merged bars the fine race ends inside the coarse bar on which the coarse race ends |
| Resolution.OutcomeOfWindow | src/tracks.py:237-250 | the outcome is read off the hold window alone: the bar on which its race ends decides verdict, return and exit time |
| Resolution.RacesAgree | src/tracks.py:243-248 | races over a merged window and over the bars it merges end in the same merged bar, and the merged one meets the stop exactly when the other does on its last bar or on a later one of that merged bar |
| Resolution.CoarseJudgingOnlyLoses | src/tracks.py:223-250 | for every entry whose coarse hold window merges its fine one, whatever lies outside: a fine loss is a coarse loss, a coarse win a fine win, timeouts coincide, the fine exit is no later; verdicts differ exactly when a fine win is followed by a stop touch inside that coarse bar, otherwise the returns are equal; the coarse return never exceeds the fine one |
| Resolution.CoarseLossReached | src/tracks.py:243-248 | the difference occurs: a one-hour hold that half hours judge a win and the hour a loss |
| Resolution.SameEntries | src/tracks.py:237-241 | grids in step after the entry, the newest coarse bar possibly still forming, can judge the same entries, and their hold windows merge |
| Resolution.ShippedHolds | src/tracks.py:96-136 | every shipped track's hold is a whole number of half-hour bars and of four-hour blocks of them |
| PriceEvents.EventsFor | src/monitor.py:40-69 | the scanning loop with early exit equals the recursive scan of the bars since the entry |
| PriceEvents.ScanShape | src/monitor.py:54-69 | at most one touch, then at most one closing event, which is the first decisive bar's; a closing event exists exactly when a bar is decisive |
| PriceEvents.ScanMeans | src/monitor.py:40-69 | an event is raised exactly when its bar calls for it: no bar since the entry reached either price before, and this one reaches the stop, or the target and not the stop, or neither but, as the first, the entry price; it carries that price and the bar's time |
| PriceEvents.TouchOnly | src/monitor.py:52-67 | knowing the touch already removes that event and nothing else |
| PriceEvents.ScanExtends | src/monitor.py:40-69 | more bars only append events, and none after a closing event |
| PriceEvents.NextCheck | src/monitor.py:84-97 | the events of one more check complete those on record to a full scan |
| PriceEvents.IncrementalEqualsBatch | src/monitor.py:84-97 | for every schedule of checks, failed fetches skipped, the concatenated events equal one scan from scratch, and the columns hold exactly them |
| PriceEvents.AlertsOnce | src/monitor.py:40-97 | each kind is raised at most once, the closing event is last, the columns hold exactly the raised instants, target and stop never both |
| AlertHistory.ScanCompletes | src/monitor.py:52-69 | a scan that starts from the marks on record, all of an earlier scan or the part made before an abandoned check, completes them to a scan from scratch |
| AlertHistory.StepTracked | src/monitor.py:84-97 | every step of every caller keeps: a row's marks and those about to be made are one scan from scratch of the bars last seen, and its columns record exactly the marks |
| AlertHistory.MarksEqualOneScan | src/monitor.py:72-97 | for every schedule of the ledger whose scans of a row see growing bars, the row's marks are the events of one scan from scratch; a part may be missing only after a check was abandoned and before the row is scanned again |
| AlertDelivery.RaisedIsAlertedIff | src/pipeline.py:192-215 | an event marked in the running pass is alerted if and only if the pass returns and its message is delivered, whatever follows |
| AlertDelivery.MarkedIsAlertedIff | src/data_store.py:631-646 | the same for a mark anywhere in a schedule; its column is written either way |
| AlertDelivery.SilentForever | src/monitor.py:62-65 | an event marked and not sent is never sent by any later check |
| AlertDelivery.AlertsEqualOneScan | src/pipeline.py:192-215 | when no pass is abandoned after a mark and no message is lost, a row's alerts are one scan from scratch |
| LostAlert.LostAlertReached | src/monitor.py:93-97 | from an empty store: a target met and on record that nobody was told of, and nobody ever is |
| PriceEvents.MonitorAgreesWithBacktest | src/monitor.py:40-69 | on the same window: a closing event exactly when the backtest does not time out, inside the judging bar that decides it; stop and loss, target and win coincide except exactly when a later bar of that judging bar reaches the stop after the target, which the backtest calls a loss; on equal grids never |
| Exchange.PageIs | src/binance_client.py:50-81 | one response is a slice of the closed history from the query time, cut only by the limit |
| Exchange.NextPage | src/binance_client.py:102-117 | the response after the collected bars overlaps them in one bar and everything else in it is new |
| Exchange.PageStep | src/binance_client.py:96-117 | one pass of the loop either ends the fetch or gathers one more full page |
| Exchange.BinanceClient.GetKlines | src/binance_client.py:50-81 | one request, which may fail, for a slice of the closed history |
| PartialBars.PartialKeptIff | src/binance_client.py:61-81 | with the response and the clock reading apart: what one instant would give, and the forming bar with its partial prices exactly if it closes between the two |
| PartialBars.PartialStays | src/pipeline.py:152-163 | an incremental collection never corrects it: every stored bar keeps its prices whatever is fetched |
| Exchange.BinanceClient.GetKlinesSince | src/binance_client.py:83-117 | a successful fetch is an ordered gap-free slice from the first bar of the query; without the guard it ends at what was closed, the guard cuts it after exactly 999 * pages + 1 bars; the number of requests is exact |
| Exchange.CompleteIff | src/binance_client.py:83-117 | with the clock still, exactly the first 999 * pages + 1 closed bars come back: complete if and only if there are no more; the guard is hit exactly when more than 999 * pages are closed |
| Exchange.ClosedInSpan | src/binance_client.py:14-20 | closed bars of a query each need their own least length between query time and clock |
| Exchange.LookbackFits | src/binance_client.py:15-20 | 600 pages cover every collected timeframe, months included, for any lookback up to 6243 days, so for 16 years and the warm-up |
| Exchange.MonitorReach | src/monitor.py:88 | three pages hold every closed minute since the entry if and only if there are at most 2998, so whenever fewer than 2999 minutes have passed, and over gap-free minutes only then |
| CandleTable.PutOrdered | src/data_store.py:367-395 | an upsert keeps the bars strictly ascending by opening time |
| CandleTable.PutMembers | src/data_store.py:367-395 | after an upsert the table holds the new bar and every old bar with another opening time |
| CandleTable.SameBarsEqual | src/data_store.py:421-453 | reading by opening time: two ordered tables with the same bars are the same sequence |
| CandleTable.PutAllUnion | src/data_store.py:367-395 | upserting printed bars into a table of printed bars is their union, in order |
| CandleTable.SlicesMerge | src/data_store.py:367-395 | overlapping or touching slices of the history merge into one slice |
| CandleTable.SlicesApart | src/data_store.py:367-395 | slices with a gap between them never become one |
| Rows.InsertKeepsUnique | src/data_store.py:300-303 | INSERT OR IGNORE keeps (market, track, entry time) unique |
| Rows.InsertAllKeeps | src/data_store.py:455-487 | saving a run keeps every existing row unchanged; new rows carry this run's time and a saved recommendation's own n, hit count, return, drawdown, entry time and price, with no event and no outcome |
| Rows.AnnouncedIs | src/data_store.py:354-365 | the announced set holds exactly the recorded entries not older than the cut |
| Ledger.MonitorUnaffected | src/data_store.py:591-601 | a write that touches no event column is invisible to a running check |
| Ledger.RecordKeepsTable | src/pipeline.py:237-247 | an outcome judged from a current snapshot is sound and the first of its row |
| Ledger.MarkKeepsTable | src/data_store.py:631-646 | marking an open row keeps the table sound and changes no column already written |
| Ledger.MarkKeepsEvents | src/monitor.py:93-95 | after marking one event of a scan the remaining ones can still be marked |
| Ledger.ScanIsSafe | src/monitor.py:84-95 | a scan of a current row raises only events whose columns are still NULL |
| Ledger.SaveKeepsInv | src/pipeline.py:307-317 | saving a run keeps the invariant, whatever the monitor is doing |
| Ledger.JudgeKeepsInv | src/pipeline.py:232-249 | judging one snapshot row keeps the invariant although the monitor wrote in between |
| Ledger.StepKeepsInv | src/pipeline.py:263-347 | every step of every caller keeps the invariant and rewrites nothing |
| Ledger.LedgerSafety | src/data_store.py:591-646 | for every interleaving: the invariant holds and every event and outcome column is written at most once |
| Ledger.LedgerSafetyFromEmpty | src/pipeline.py:218-249 | from an empty table: never both target and stop, a reached outcome has its target marked and pays that track's target, no alert repeats and each is on record, at most one pipeline is inside |
| Ledger.UnlockedEvaluationLosesAWin | src/data_store.py:591-601 | two overlapping evaluations lose a recorded win: why the missing NULL guard needs the lock |
| Announcements.DropKeeps | src/pipeline.py:180-189 | the filter keeps exactly the recommendations without entry time or not yet announced |
| Announcements.AnnouncedAgainIff | src/pipeline.py:180-189 | an offered entry is passed on if and only if it is not (recorded and at most ten days old) |
| Announcements.AllStored | src/data_store.py:455-487 | new distinct entries are all stored, and nothing else becomes recorded |
| Announcements.SavedEntries | src/pipeline.py:307-317 | what a run will announce is new, without repeats, and stored by its saving step |
| Announcements.StepKeepsTold | src/pipeline.py:307-347 | every step keeps: announced entries are recorded and not repeated |
| Announcements.AnnouncedAtMostOnce | src/pipeline.py:263-347 | over any schedule of runs with current lists each entry is announced at most once and occupies exactly one row |
| Announcements.EmptyLedgerStartsWell | src/data_store.py:282-303 | an empty table satisfies both invariants |
| Store.DataStore.UpsertCandles | src/data_store.py:367-395 | the series becomes the table after all upserts; no other series changes |
| Store.DataStore.SetExchangeEarliest | src/data_store.py:344-352 | the cached earliest of that series and of no other |
| Store.DataStore.SaveRun | src/data_store.py:455-487 | rows are inserted in order with duplicates ignored; a repeated run time changes no row |
| Store.DataStore.MarkPriceEvent | src/data_store.py:631-646 | only the named column of the named row, only while NULL; every other row, kind and column keeps its value |
| Store.DataStore.RecordTrackOutcome | src/data_store.py:591-601 | the outcome of the named row is overwritten, nothing else |
| Store.DataStore.GetMonitorable | src/data_store.py:603-629 | every open, priced row since the cut exactly once, by run time, with its current values |
| Store.DataStore.GetUnevaluated | src/data_store.py:567-589 | every row without outcome and with an entry time exactly once, with its current values |
| Store.DataStore.GetAnnouncedEntries | src/data_store.py:354-365 | exactly the entries some row stands for that are not older than the cut |
| Monitor.MarkEventsIs | src/monitor.py:93-95 | marking a scan event by event marks exactly that row with exactly those events |
| Monitor.WatchOne | src/monitor.py:84-95 | one position's turn is a schedule of ledger steps; a failed fetch changes nothing, and the row is asked for exactly while its own 8, 24 or 48 hours (24 for any other key) since the announcement have not passed |
| Monitor.MarkFound | src/monitor.py:93-95 | the events of one scan are marked in order; a mark that raises leaves the earlier ones marked and ends the pass |
| Monitor.CheckPriceEvents | src/monitor.py:72-97 | one check: every monitorable row is scanned once over what its fetch showed, all others stay, and the events returned are those marked; if the query or a mark raises nothing is returned and each row keeps a beginning of its events; the whole is one schedule of ledger steps; every row used was announced within its own 8, 24 or 48 hours, each monitorable row within them is asked for, once, and no other |
| Monitor.RunPriceMonitor | src/pipeline.py:192-215 | the job: what is reported is what the check returned, if it returned and the message arrived; marks stay in any case |
| MonitorLimits.BeyondReachIsMissed | src/monitor.py:88 | a position whose first decisive minute lies beyond the reach is closed by no check, at whatever time, although the closed minutes show it |
| MonitorLimits.MissedStopReached | src/monitor.py:84-88 | it happens inside a hold: a long position announced three hours after its entry is stopped out in minute 2999, and the fetch ends at minute 2998 |
| Monitor.LaterFetchExtends | src/monitor.py:88 | of two fetches of one position the earlier is a prefix of the later, cut or not |
| Pipeline.PriceAt | src/pipeline.py:252-260 | the scan finds the close of the last half-hour bar closed at the moment |
| Pipeline.EvaluatePendingOutcomes | src/pipeline.py:218-249 | every waiting row gets exactly the verdict of its own record, all others stay: a target mark pays 2%, 5%, 10% (3% for any other key) and a stop mark -2%, -4%, -5% (-2%); an unmarked row is settled exactly when 8, 24, 48 (24) hours have passed since its entry, its entry price is present and nonzero and a half-hour bar had closed by then, at the change to that moment's last close; the loop is a schedule of ledger steps |
| Pipeline.DropConcat | src/pipeline.py:308-317 | filtering list by list and joining is filtering the joined list |
| Pipeline.PipelineJob.RunOnce | src/pipeline.py:263-347 | a call while the lock is held changes nothing; any other ends with the lock free, also when the block raises before saving or before reading the rows to judge, and is one schedule of ledger steps; the store changes exactly as the result says |
| Pipeline.TryBlock | src/pipeline.py:270-345 | unsaved runs change nothing; saved ones insert exactly the entries not yet announced; completed ones judge every waiting row |
| Sessions.OntoRun | src/pipeline.py:263-347 | what was told and marked before a call changes nothing in its schedule |
| Sessions.RunIsCall | src/pipeline.py:263-347 | a run over current lists returns a timely schedule from a calm store to a calm store |
| Sessions.CheckIsCall | src/pipeline.py:192-215 | so does a price check |
| Sessions.CallsAreOneSchedule | src/pipeline.py:192-347 | any sequence of runs and checks of one store is one timely schedule of the ledger, with the stores and reports of the calls |
| Sessions.CallsReportOnce | src/pipeline.py:192-347 | over the life of a store that starts empty: no entry announced twice, one row for each, no alert repeated, every alert on record |
| Performance.CountByTrack | src/data_store.py:527-556 | the grouping loop counts every resolved group once, under its track |
| Performance.GetLivePerformance | src/data_store.py:527-556 | the counts per track, and their sum equals the count over all resolved groups |
| Performance.PlainCounts | src/data_store.py:527-556 | under the unique index the grouped counts are plain row counts, and hits never exceed resolved |
| Performance.CountsNeverDecrease | src/data_store.py:527-556 | whatever the ledger does, no resolved group and no hit is lost |
| Performance.FirstClosingMarkResolvesOne | src/data_store.py:631-646 | the first closing mark of a position raises resolved by exactly its own group, and hits exactly if it is the target |
| Collector.IsExchangeEarliest | src/pipeline.py:52-77 | a cached value answers without a request; otherwise one probe may fill the cache, with the first bar there is |
| Collector.NeedsBackfill | src/pipeline.py:80-97 | no backfill for a settled head, and then no request either; a backfill of a store with bars starts before them |
| Collector.IsUpToDate | src/pipeline.py:100-110 | true exactly while the bar after the last stored one cannot have closed |
| Collector.Backfill | src/pipeline.py:125-151 | the fetched slice is united with the stored bars; an earliest value it records means no exchange bar lies between the target and it |
| Collector.Extend | src/pipeline.py:152-165 | from the last stored bar on, everything closed and later is appended |
| Collector.CollectOne | src/pipeline.py:125-165 | one timeframe's turn: up to date, backfilled, extended or failed, with exact contents; unless it failed the head is settled after it, over a settled head it is no backfill, and settled and up to date means no request |
| Collector.CollectAndStore | src/pipeline.py:113-165 | one turn per timeframe, a failure in one leaves the rest their turn, no other series is touched, a quiet store issues no request; each series is served as the theorems below state and left with a settled head unless its turn failed |
| Collector.QuietAfterCollection | src/pipeline.py:100-131 | after a collection in which no turn failed, the store is quiet for every later target exactly while no next bar can have closed |
| Collector.CollectAgain | src/pipeline.py:113-165 | a collection over the store left by one in which no turn failed sends no request as long as no next bar can have closed |
| Collector.BackfillTearsIff | src/pipeline.py:125-151 | a backfill over stored bars leaves them contiguous exactly when it reaches them: not when the guard cuts it before |
| Collector.CollectionTearsIff | src/pipeline.py:113-165 | any collection keeps a contiguous history contiguous, with exactly that one exception |
| Collector.ContiguousFills | src/pipeline.py:113-165 | a contiguous store has every exchange bar between two of its bars |
| Collector.BackfillSettles | src/pipeline.py:141-151 | after a backfill that found bars the head of the store is settled |
| Collector.CompleteIffDeep | src/pipeline.py:80-97 | a contiguous store that holds the newest closed bar is complete for a target exactly when its head is deep enough |
| Collector.CollectionCompletes | src/pipeline.py:113-165 | one error-free uncut collection stores every closed bar from the target on |
| Collector.CollectionIsSound | src/pipeline.py:113-165 | everything stored is an exchange bar, closed, in order |
| CollectorLimits.NeverCut | src/binance_client.py:15-20 | a turn that reaches back at most 6243 days, from its target and from the last stored bar, is never cut by the page guard |
| CollectorLimits.CollectionConverges | src/pipeline.py:113-165 | within that span, so in the shipped configuration, every turn keeps a contiguous history contiguous and every turn that did not fail completes it |
| CollectorLimits.HolesPersist | src/pipeline.py:152-165 | after a backfill, over any number of later turns with targets that never move back, the stored bars stay a prefix and no missing older bar is ever stored |
| CollectorLimits.TornForGood | src/binance_client.py:109-117 | a backfill cut before it reaches the stored bars is never repaired: the first bar beyond the guard stays missing and the store is never contiguous again, whatever runs follow |
| CollectorLimits.TornReached | src/binance_client.py:109-117 | such a backfill happens: a history, a store and a target that reach it |
| CollectorLimits.LongerLookbackIsIgnored | src/pipeline.py:52-97 | with a cached earliest value the store stays settled for every longer target, and is then incomplete exactly when the exchange has an older bar within it |
| CollectorLimits.IgnoredReached | src/pipeline.py:141-147 | a first collection reaches that state: complete for its own target, settled and incomplete for a longer one |
| Wilson.RootsEnclose | src/backtest.py:71-80 | the two roots enclose the observed ratio and the lower one lies in [0, 1) |
| Wilson.InvertsScoreTest | src/backtest.py:71-80 | up to the observed ratio, exactly the ratios at or above the bound pass the score test |
| Wilson.WilsonIsLowerRoot | src/backtest.py:71-80 | the computed value is the lower root of the score quadratic; the `max` with zero never binds |
| Wilson.BoundInRange | src/backtest.py:71-80 | the bound lies in [0, h/n] and below one |
| Wilson.LeastCompatibleRatio | src/backtest.py:71-80 | it is the least ratio the score test accepts |
| Wilson.PerfectRecord | src/backtest.py:71-80 | h = n gives n / (n + z * z), below one |
| Wilson.ZeroIffNoHit | src/backtest.py:71-80 | the bound is zero exactly when nothing was hit |
| Wilson.MonotoneInHits | src/backtest.py:71-80 | more hits in as many trials: strictly larger bound |
| Wilson.MoreTrialsSameRatio | src/backtest.py:71-80 | the same ratio over more trials: never lower, strictly higher once anything was hit |
| Regime.TrendIsNaiveMean | src/backtest.py:115-124 | the prefix-sum difference is the naive mean of the last 1200 closes |
| Regime.BuildRegimeSeries | src/backtest.py:83-112 | the prefix-sum loop equals the direct definition at every bar, stamped with its closing time; for positive closes a bar is strong exactly when its close is above 1.2 times the one 180 bars before, a rebound exactly when it is not above that one, more than 10% above some close of the last 180 and above the mean of the last 1200, and has no label otherwise |
| Regime.LeastIs | src/backtest.py:105 | the window's least close is a lower bound and is attained |
| Regime.OpenIff | src/backtest.py:127-134 | a moment has a label exactly when the last bar closed by then has one |
| Regime.RegimeAsOf | src/backtest.py:127-134 | the linear scan returns the label of the last bar closed at or before the moment |
| Regime.LabelStable | src/backtest.py:83-112 | a bar's label depends on no later bar |
| Regime.NoLookAhead | src/backtest.py:127-134 | the label known at a moment is the same however many bars follow |
| Backtest.SimulateTrade | src/backtest.py:169-190 | the 24-bar loop equals the first-touch outcome with the dip up to the exit bar; nothing unless all 24 bars are present |
| Backtest.ComputeSignalStats | src/backtest.py:193-219 | the published sample is that of the greedy picks; SampleMeaning says what its numbers are |
| SampleMeaning.EntriesAre | src/backtest.py:144-166 | a bar is an entry exactly when it closes above both spans and the last four highs, the tenkan is above a kijun that rose over six bars, and twelve times its volume exceeds the positive volume of the last 24 |
| SampleMeaning.OutcomeMeans | src/backtest.py:169-190 | a pick loses 2% if the first of the 24 bars to touch has low <= 0.98 * close, gains 3% if it has high >= 1.03 * close and not that, and otherwise returns the change to the 24th close; its drawdown is the deepest dip up to the exit, or zero |
| SampleMeaning.PickedIff | src/backtest.py:193-219 | a bar is counted exactly when it is an entry under a bitcoin label, its 24 bars are there and none of the 24 bars before it is counted |
| SampleMeaning.CountsAre | src/backtest.py:222-236 | hits, losses and timeouts partition the picks; the return sum is 0.03 * hits - 0.02 * losses plus the timeout returns |
| SampleMeaning.PublishedMeans | src/backtest.py:222-236 | the published n, hit count, hit rate, expected return and drawdown in terms of the bars alone; the drawdown is a lower bound of the picks' dips and of zero, and attained |
| Backtest.PicksAreSpaced | src/backtest.py:204-219 | picks are eligible and more than 24 bars apart |
| Backtest.GreedyIsOptimal | src/backtest.py:204-219 | no set of eligible bars pairwise more than 24 apart is larger than the sample |
| Backtest.SampleSizeIsMaximal | src/backtest.py:204-219 | the sample size is the maximum over all such sets |
| Backtest.SignalStable | src/backtest.py:137-166 | an entry signal reads no later bar |
| Backtest.EligibleStable | src/backtest.py:204-219 | an eligible bar stays eligible; a bar that becomes eligible later had an open window |
| Backtest.SampleStability | src/backtest.py:193-219 | among the old bars, the old picks are a prefix of the new ones; additions had an open window |
| Backtest.WholeSampleStability | src/backtest.py:193-219 | the old sample is a prefix of the whole new one; every addition is on a new bar or had an open window |
| Ranking.RankedIsStableSort | src/scorer.py:197 | the ranking is descending in the lower bound, a permutation, and keeps ties in order |
| Ranking.RankingIsUnique | src/scorer.py:197 | no other list has these properties |
| Ranking.CutKeepsBest | src/scorer.py:212 | a cut list has the length asked for and nothing left out ranks above anything kept |
| Ranking.PublishedAreOwn | src/scorer.py:164-213 | a published list holds candidates' own offers, one per coin if the candidates are distinct, and at most the limit |
| Ranking.ListRanksBest | src/scorer.py:164-213 | it is best first, and a candidate's offer is missing only from a full list of offers at least as good |
| Scorer.KeysApart | src/scorer.py:126-138 | whatever the markets are called, two cache entries share a key only if they are the same series and kind |
| Scorer.FaithfulPut | src/scorer.py:124-145 | filling the cache keeps every entry equal to a fresh computation |
| Scorer.CandlesAndPoints | src/scorer.py:135-145 | with or without cache: the stored bars and their indicator lines |
| Scorer.SimSeriesOf | src/scorer.py:124-132 | with or without cache: the judging series of the stored bars |
| Scorer.GenerateTrackRecommendations | src/scorer.py:148-197 | the list is the ranking of each candidate's own offer, read from the tables alone: the cache and the other candidates do not matter |
| Scorer.GenerateAllTracks | src/scorer.py:200-214 | one cache shared by all tracks gives the lists of separate uncached runs; a closed gate gives empty lists |
| Scorer.OfferByStats | src/scorer.py:175-196 | a candidate whose newest bar signals qualifies exactly when its log reaches both floors, and the offer carries the log's figures |
| Scorer.FloorsMet | src/scorer.py:175-196 | every offer meets its track's sample and hit-rate floors, enters on the newest stored bar and has its bound between zero and the hit rate |
| OfferMeaning.BoundMeans | src/backtest.py:71-80 | the figure that ranks a recommendation is the least ratio up to the observed one that the score test at 1.96 accepts |
| OfferMeaning.CloudMeans | src/scorer.py:113-117 | bitcoin's context is its four-hour bars, each stamped with its closing time and true exactly when it closed above both spans |
| OfferMeaning.OfferedIff | src/scorer.py:148-197 | a coin is offered on a track exactly when its newest bar is an entry and its log holds at least ten trades of which the track's share won; its figures are the counts of wins and trades, the mean of target per win, -stop per loss and the timeout returns, the attained least drawdown, the bound, and the newest bar's closing time and close |
| OfferMeaning.GateOpensIff | src/scorer.py:56-72 | for positive closes the regime gate is open exactly when bitcoin's newest four-hour bar is strong or a rebound, in closes alone |
| OfferMeaning.RegimeOfferedIff | src/scorer.py:75-110 | a coin is offered on the regime track exactly when its newest bar is an entry and at least ten picks are counted of which 30% hit; its figures are those of its picks |
| Scorer.GenerateRecommendations | src/scorer.py:75-110 | the regime list is the ranking of each candidate's own offer, empty unless the newest bitcoin label is open |
| RunLists.GeneratedIsCurrent | src/pipeline.py:297-317 | over fresh data and distinct candidates, the joined lists of a run never repeat a coin and track and hold only recent entries, which is what at-most-once announcement asks of a run |
| PriceText.ScaledExponent | src/notifier.py:50 | the chosen exponent leaves exactly ten digits before the point |
| PriceText.ShownIsFloorOfTenDigits | src/notifier.py:50 | the amount is the value rounded to ten significant digits, ties to even, then cut down to 1e-8 |
| PriceText.ShownAboveIff | src/notifier.py:44-50 | the shown price exceeds the value exactly when the tenth digit was rounded up and the cut removed nothing |
| PriceText.TenDigitsAreCut | src/notifier.py:40-50 | a value of at most ten significant digits is floored to 1e-8 and never raised |
| ShippedPrices.ShippedPricesAreCut | src/notifier.py:33-79 | for an entry of at most seven significant digits, the target and stop price of every track are only cut to 1e-8, never raised |
| ShippedPrices.ShownExamples | src/notifier.py:41-45 | one digit more and it happens: the day target of 99999.998 is shown as 101,999.998 though it is 101,999.99796; and 6.6911999999999995 is shown as 6.6912 |
| PriceText.ShownMonotone | src/notifier.py:50 | a higher price is never shown as a lower amount |
| PriceText.FixedReads | src/notifier.py:51-52 | reading the text, commas removed, gives back the exact amount; groups of three, two to eight decimals, no zero past the second |
| PriceText.RefusedIff | src/notifier.py:50 | the decimal library refuses exactly the values from 99,999,999,995,000,000,000 on |
| PriceText.PriceReads | src/notifier.py:33-52 | every positive value below that prints as text that reads back as its ten-digit rounding cut to 1e-8 |
| PriceText.PriceKeepsOrder | src/notifier.py:33-52 | printing keeps the order, and two prices look alike exactly when they show the same amount |
| PriceText.NonPositiveReads | src/notifier.py:48-49 | zero and below: the nearest cent, two decimals, grouped, with a sign even on a rounded zero |

## Left out

- HTTP, retries, JSON parsing, webhooks, the web API, the scheduler and settings: input and output. A request is a step that may fail; sending a notification is a step that may or may not deliver.
- SQLite, connections and schema migrations: each store method is one atomic transaction on maps. ISO text stamps compare like the instants they name.
- Indicator formulas (`src/features.py:25-78`): Ichimoku lines, RSI and the square root are parameters. `TrackTheorems` and `Backtest` take their values at existing bars as unchanged by later bars.
- Floating-point rounding: prices are exact reals. `PriceText` defines the decimal rounding on the exact value.
- The market phase, the reverse premium, candidate selection and name filters, API expiry, the Upbit client and message wording: short branches without state. The phase enters `Scorer.GenerateAllTracks` as a parameter.
- The monthly timeframe's real lengths: months open at least 28 days apart, and a bar closes 30 days after it opens, as the store reckons. That the last day of a 31-day month is then still forming is not modelled.
- Collector.CollectionCompletes: a month that the skip test holds back may be missing for two days after it closed, because the test adds two bars of 30 days.
- `track or "regime"`: an empty track text does not occur in the model's tables.
- Exchange.BinanceClient.GetKlines: the instant of the response and the clock reading in `drop_unclosed` are one instant; `PartialBars` says exactly what two instants change, for timeframes other than the month, and the collector's theorems hold where no bar closes in between.
- Collector.CollectAndStore: the store has one data source, and other writers of candles do not run meanwhile.
- Store.DataStore.GetUnevaluated: the order of the rows is any order, as the query names none.
- Pipeline.PipelineJob.RunOnce: collection and list generation are separate members (`Collector`, `Scorer`); their results enter as parameters, and an exception in them is one that ends the block before anything is read.
- Pipeline.EvaluatePendingOutcomes: an exception while one row is judged, which the source catches and which leaves that row waiting, does not occur.
- Ledger.LedgerSafetyFromEmpty: does not relate a later monitor mark to an earlier timeout verdict, because the monitor's window runs from the run and the evaluation's from the entry.
- Scorer.GenerateAllTracks: the dictionary of lists is a sequence in the order of the tracks, whose keys are distinct.
- Backtest.SimulateTrade: a zero entry price, on which the source divides by zero, is excluded; so is a zero close in the regime track's tables.
- PriceText.NonPositiveReads: negative zero, infinities and NaN are no real numbers and do not occur.
