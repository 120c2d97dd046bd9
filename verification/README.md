# MAPEX, modelled and proved

MAPEX trades on its own: an engine watches price zones and confirms setups, a trade manager sends the orders to
cTrader and looks after the positions, and a paper venue can stand in for the broker. This project models the parts of
it whose mistakes would cost money, in the form the program has them (classes with fields that methods update, loops
over arrays and lists, plain functions), and proves what the program promises about them. All statements are for every
input or every run; nothing here was executed.

`dafny verify dfyconfig.toml` checks everything.

## What is proved, in short

* **Order flow** (`Trades`, `Ledger`, `Guards`, `Venues`, `Scales`, `Broker`). A venue answers as it likes: an order
  may run without an answer, a fill may show up late, the owner trades on the same account, and any step may be cut
  short by an exception or a crash. `Ledger.Inv` is what every reachable state keeps, and `Broker.Run` states it over
  whole runs of execute, manage, reconcile, flat, the daily roll and resume: at most one position per setup key, never
  more positions than calls of execute, commands only for MAPEX-labelled positions, hands off a trade the owner took
  over, exposure within the caps, every settlement counted once, the loss counter equal to the losses since the last
  win or roll, and every closing time on record. Only execute opens positions; everything else is `Ledger.Quiet`. A
  call can end at every call to the venue and between closing a trade and counting it. An order is placed at the scale
  of points in use (the learned one, else the venue's own) and its row stores it; the first read of the position
  teaches. One fill that the broker placed at s digits, readable after rounding, leaves s in use, and a fill of an
  order placed at s changes nothing (`Scales.FillTeaches`). Over runs: with a broker that reads each symbol at one
  scale, every scale learned is the broker's, and one readable fill is enough for good (`Scales.Knows`, in
  `Broker.Run`).
* **Zone engine** (`Feeds`, `ZoneTypes`, `ZoneScan`, `ZoneTiming`, `ZoneMachine`, `ZoneRuns`, `ZoneLate`, with
  `Primitives`, `Gaps`, `StopTargets`). Each state implies that the fields its handler reads are set and what they
  witness (`ZoneTypes.SequenceHolds`); a confirmation carries the whole ordered chain from the raid to the defending
  bar (`ZoneTypes.Chain`), full scores and the plan that this raid and this bar are worth (`ZoneScan.MadeHolds`); a
  bar is called noise only for a cause (`ZoneScan.NoiseCause`), and a defended retest is neither missed nor called
  noise (`ZoneMachine.Answers`). Over whole runs of evaluations: one plan per zone record, its raid processed after
  every reset, two resets between changes of the map's structure, no bar processed twice, nothing said after a plan or
  an invalidation, and with bars on time every plan said at the latest of three closes (`ZoneTiming.ConfirmTime`).
* **Fast forms** (`Primitives`, `Gaps`, `Levels`, `Clusters`, `History`, `Candles`). Sliding-window ATR, incremental
  structure breaks, suffix extremes for balanced price ranges, greedy touch counting, cluster counts by bisection,
  paged history and the merged candle cache, each against the plain definition.
* **Paper venue** (`Paper`, `PaperTrades`). Opened volume equals what is left plus what was dealt; trades closed by a
  bar settle at exactly -1R, or at the server target, and never at a loss after the first target.
* **Untrusted input** (`Decode`, `GeminiMap`). Price scales decoded back exactly; every zone of an accepted map
  placed, targeted and rooted.

## What the code does that one might not expect

* The kill zone, the Judas threshold and the two-minute limit are checked at the close of the bar whose event is being
  processed, not at the close of the bar that defends the gap. With bars in time order that event is the latest of
  three closes: of the bar after the displacement, of the fourth bar from the break, and of the defending bar itself
  (`ZoneTiming.ConfirmedWhen`, `ZoneRuns.SaidWhen`). So the two moments are the same exactly when the defending bar
  closes no earlier than the bar after the displacement and is no earlier than the fourth bar from the break
  (`ZoneTiming.AtItsClose`), and exactly then what is checked holds at the bar's own close under every calendar and at
  every moment (`ZoneTiming.OpenForAll`, `ZoneTiming.FreshForAll`). Otherwise the bar may have closed before the kill
  zone opened: `ZoneLate.ConfirmedLate` is a run, with bars in time order, that confirms at 6600 a bar that closed at
  6300. The lag stays below four bars of the raid's timeframe less two minutes (`ZoneTiming.LagIsBounded`).
* `retest_from` survives a reset. The scan of a later gap starts right after the bar that confirmed it if and only if
  `retest_from` is no later than that bar (`ZoneMachine.ZoneState.EnterReturn`); it is later only if the raid bar was
  processed after a bar that closes later (`ZoneRuns.ScanStarted`), so never with bars on time. `ZoneLate.SkippedLate`
  is such a run of a fresh zone. Its first evaluation, all in order, loses a sequence raided on M15 to a minute that
  trades through the gap (`ZoneLate.FirstSequence`). The last M5 candles come in only after that. The first of them
  raids a second pool, the break and the gap are the same, the minute that lost the first sequence is not looked at
  again, and the next one is confirmed.
* Hands off rests on comments nobody else uses (`Ledger.Tidy`). Where the owner holds a position labelled MAPEX under
  the comment of a trade whose own position is gone, every invariant holds (`Ledger.UntidyHolds`), and reconciling the
  trade moves it to the owner's position and amends that (`Broker.AmendsTheOwners`).
* A map zone with a usable first target, no usable second one and no usable objective makes the intake compare a
  number with `None` (`mapex/gemini_map.py:133-140`); a score beyond every float, a price too long for one, and a list
  that is none raise as well. `GeminiMap.Accept` says exactly when it raises.
* With one cached bar a refresh is faithful exactly when the answer reaches back to that bar or fills the cache, or
  when the bar happens to be what the server has just before the answer (`Candles.Cache.Refresh`). For every server
  that means: a range load that starts no later than the bar (`Candles.OnlyBarMustBeReached`), a count request
  answered in full (`Candles.OnlyFullAnswers`). Otherwise the bar can stay as it was when it was still forming
  (`Candles.LoneBarGoesStale`, `Candles.ShortAnswerGoesStale`).
* Exact decoding rests on a band narrower than a factor of ten, and only on that (`Decode.NarrowIsNeeded`). The test
  for it guards only the last attempt of `decode_position_price`, not the two before it.
* A position id that is missing from a closed trade's row makes `int(None)` raise in the live venue; the model treats
  it as an exception nobody catches.
* An objective of infinity in a submitted map passes the last comparison and is emitted as the map's final objective
  (`mapex/gemini_map.py:193-194`); `GeminiMap.Reaches` has that case.

## Modelling decisions

* A row of `trades` is a value, its id the index in a sequence; a setup key is a text or `ORPHAN-<pid>`. One venue
  mode per run. Notifications, logs and the text of the kill switch are not state here. A moment carries its trading
  day.
* A tool error whose text names the order type was refused before it ran; every other failure may have run, or may
  have come before anything went out. A snapshot is any part of the positions held. A venue's own scale of a symbol is
  fixed over a run. `Ledger.Tidy` is the hypothesis of the hands-off claims: nobody else labels positions MAPEX with a
  comment already in use or of the form `ORPHAN-<pid>`.
* `build_order` comes in as its result (`None` for an error it raises), with its decoding and volume checks in
  `Decode`.
* Prices are reals, in the map intake integer ticks. The learned exponent is the power of ten within 25 %.
* A number sent in a map is absent, finite, infinite, NaN, or too long for a float; finite scores come without their
  fraction. Items that are no objects are skipped by the intake and left out.
* One evaluation of a zone is a `Market`: the map's zone, the closed bars, the quote, and what the calendar and the
  rest of the map say (kill zone, Judas test, sessions passed, pools, traps, objectives). The engine's map is usable
  when its zone has low at most high, the tick is positive and there is an M5 bar (`max` of an empty list raises).
* A server page is a non-empty prefix of what is left, with a truthful `hasMore`. Closed bars never change.
* `touch_count` starts from the index -1000000000, so its gap is taken to be no larger than that; its caller uses 3.

## Model

| member | source | states |
|---|---|---|
| Ledger.InvMeans | mapex/ctrader/broker.py:182-261 | in every reachable state: one position per setup key and its row claimed first, commands only for labelled positions, hands off what the owner took over, exposure within the caps plus adoptions and orphans, one settlement per closed row, the counter equal to the losses since the last win or roll, after which neither occurs, and a closing row's closing time the reading of the clock when it became closing |
| Broker.Run | mapex/ctrader/broker.py:487-501 | over any steps in any order, each cut short at any call to the venue or inside a settlement: all of the above, no more positions opened than executions, rows never deleted, renamed or unsettled; and with a broker that reads each symbol's points at one scale, every learned scale is that one and one readable fill of a symbol is enough for it to be in use from then on |
| Broker.Advance | mapex/ctrader/broker.py:487-501 | one locked step keeps the invariants; only execute opens a position, and at most one |
| Broker.AmendsTheOwners | mapex/ctrader/broker.py:432-448 | a state and a snapshot of one foreign position under a trade's comment: reconciling the trade takes that position over, and after a verified read-back a position the owner holds was amended |
| Broker.TradeManager.constructor | mapex/ctrader/broker.py:119-130 | an empty table on a fresh account satisfies the invariants |
| Broker.TradeManager.Execute | mapex/ctrader/broker.py:182-226 | blocked whenever a guard objects, and then nothing changed and nothing was asked of the venue; otherwise the setup was new and its row carries the plan, and the scale in use, whatever happened to the order; "open" only after a verified read-back, "closed" only after closing the volume seen with the kill switch on; the venue was sent the one order, as MARKET only after the refused MARKET_RANGE; at most one position opened; whenever the position was read, a fill the broker placed at s digits leaves s in use, and nothing is learned if s was in use already |
| Broker.TradeManager.SendClaimed | mapex/ctrader/broker.py:209-226 | each outcome of the send leaves the row in the state its answer names |
| Broker.TradeManager.GiveUp | mapex/ctrader/broker.py:213-221 | a refused or unauthorised send fails its own row and touches nothing else |
| Broker.TradeManager.Filled | mapex/ctrader/broker.py:222-226 | a told id is on the row, an untold one is looked up, never reordered |
| Broker.TradeManager.Send | mapex/ctrader/broker.py:228-239 | MARKET is tried only after MARKET_RANGE was refused for its type, so at most one of the two fills, with the setup key as comment |
| Broker.TradeManager.SendOnce | mapex/ctrader/broker.py:228-239 | a refusal that names the order type means nothing was filled |
| Broker.TradeManager.FindByComment | mapex/ctrader/broker.py:241-245 | one snapshot is asked for and its first labelled position with that comment is the answer |
| Broker.TradeManager.ReconcileSending | mapex/ctrader/broker.py:247-261 | after an unknown outcome nothing is ever resent: the fill is adopted and protected, or the row fails with the kill switch on after every one of the eight polls showed no such position |
| Broker.TradeManager.AdoptAndProtect | mapex/ctrader/broker.py:255-258 | the row carries the position named by its key, and the answer is as protect promises |
| Broker.TradeManager.Protect | mapex/ctrader/broker.py:274-312 | "open" means the last command was the amend to the plan's legs and the position read after it passes the check; "closed" means the last command closed the volume read, with the kill switch on and the trade closing; closed for its volume exactly when the first read is off by more than the tolerance; that read is put on record and teaches the scale as `LearnPointsScale` says, and without a read nothing is learned |
| Broker.TradeManager.FirstRead | mapex/ctrader/broker.py:279-285 | what the first polls return is the position asked for |
| Broker.TradeManager.Exactify | mapex/ctrader/broker.py:295-312 | two attempts, then the position is closed and the kill switch trips |
| Broker.TradeManager.AmendAndVerify | mapex/ctrader/broker.py:295-308 | one attempt: verified with both legs, vanished, or not as planned and then nothing on the row but the amend time changed |
| Broker.TradeManager.CloseAndTrip | mapex/ctrader/broker.py:289-294 | exactly one close of the given volume; when it answers, the trade is closing since that moment and the kill switch is on; when it raises, nothing else changed |
| Broker.TradeManager.Begin | mapex/ctrader/broker.py:398-400 | the row is closing with the moment it became so, which is on record, and every invariant is kept |
| Broker.TradeManager.AmendPosition | mapex/ctrader/broker.py:88-93 | both legs go out together or nothing does |
| Broker.TradeManager.LearnPointsScale | mapex/ctrader/broker.py:314-332 | the scale is learned exactly when the fill is off from the scale the row was placed at by another power of ten within 25 %, and then it is that one |
| Scales.FillTeaches | mapex/ctrader/broker.py:157-206 | after a fill the broker placed at s digits, s is learned exactly when the order was placed at another scale |
| Scales.OrderTeaches | mapex/ctrader/broker.py:157-206 | for an order placed at the scale in use, such a fill leaves s in use whatever that scale was, and touches nothing if it was s |
| Scales.ReadingKeepsTaught | mapex/ctrader/broker.py:314-332 | with a broker that reads each symbol at one scale, a further first read keeps every learned scale the broker's, and a readable one is enough for good |
| Broker.TradeManager.Manage | mapex/ctrader/broker.py:351-363 | settled, failed and sending rows stay as they are; no position is opened; without open trades nothing is asked or sent; otherwise, when it returns, every other trade missing from the snapshot it was shown is closing or closed |
| Broker.TradeManager.ManageTrade | mapex/ctrader/broker.py:356-363 | only its own row changes, and a trade no longer held is closing or closed afterwards |
| Broker.TradeManager.ManageOne | mapex/ctrader/broker.py:365-394 | a manual trade is left alone; moved legs outside the grace period make it manual and nothing is sent; otherwise a pass sends the partial close and the breakeven amend exactly when the first target is reached and not yet booked, and books it then; a failure after a command was sent can only fall in such a pass |
| Broker.TradeManager.TakeFirstTarget | mapex/ctrader/broker.py:380-392 | the partial close, then breakeven with both legs; the flags are set only after both |
| Broker.TradeManager.HandleClosed | mapex/ctrader/broker.py:396-422 | settled exactly once, with the result its reported closing deals give, or unpriced only when the trade became closing, in an earlier call, at least a minute before; otherwise it waits as closing, since when is on record |
| Broker.TradeManager.Settle | mapex/ctrader/broker.py:418-419 | the result is booked once and counted once; a lost limit trips the kill switch |
| Broker.TradeManager.RecordResult | mapex/guards.py:100-110 | the counter follows the result and the kill switch trips exactly when a limit is reached |
| Broker.TradeManager.Reconcile | mapex/ctrader/broker.py:425-475 | when it returns, every labelled position of the snapshot it was shown is on a row, also when several share one comment |
| Broker.TradeManager.ReconcileTrades | mapex/ctrader/broker.py:432-448 | every position that names a live trade is known or adopted |
| Broker.TradeManager.ReconcileTrade | mapex/ctrader/broker.py:432-448 | one trade: what was held stays held; the position found under its id, else under its comment, is the row's afterwards, adopted exactly when it was new, and opened only after a verified read-back; without one the row keeps its id and is waiting to be sent, failed or on its way to settlement |
| Broker.TradeManager.Unmatched | mapex/ctrader/broker.py:443-448 | a sending row fails exactly after 150 s, any other goes to settlement |
| Broker.TradeManager.ReconcilePosition | mapex/ctrader/broker.py:449-474 | a position on no row ends up on one: its failed row adopts it, or an orphan row records it as manual |
| Broker.TradeManager.RecordOrphan | mapex/ctrader/broker.py:462-474 | the new row records the position as manual under a fresh key, and every invariant is kept, above all one holder per position |
| Broker.TradeManager.InsertOrphan | mapex/ctrader/broker.py:465-470 | the row goes last, its position is now held once, and the snapshot stays covered |
| Broker.TradeManager.Flat | mapex/ctrader/broker.py:477-485 | every labelled position of the snapshot it was shown is closed for its whole volume, in order, and nothing else is sent |
| Broker.TradeManager.FlatOne | mapex/ctrader/broker.py:477-485 | one close for the volume shown |
| Broker.TradeManager.DailyRoll | mapex/guards.py:113-129 | the counter restarts and the books still agree |
| Broker.TradeManager.Resume | mapex/guards.py:31-32 | only the kill switch changes |
| Broker.TradeManager.Update | mapex/ctrader/broker.py:135-137 | an update that keeps position, key and settlement keeps every invariant |
| Broker.TradeManager.Adopt | mapex/ctrader/broker.py:255-258 | adopting the position named by the key keeps every invariant; a failed row adopted is counted |
| Guards.ClearMeansRoom | mapex/guards.py:54-97 | no objection exactly when the environment allows it, there is room under every cap on one side, the limits are not reached and the setup is new |
| Venues.Venue.CreateOrder | mapex/ctrader/client.py:210-258 | every attempt but the last was refused unrun for a lost session, at most eight of them; the last one is answered, or fails before it goes out: one call fills at most once |
| Venues.Venue.Attempt | mapex/ctrader/client.py:220-258 | one attempt, on record with its ending; a lost session and a refused order type ran nothing |
| Ledger.ClaimKeepsInv | mapex/ctrader/broker.py:197-207 | the committed row is the claim: no position with that key existed, and all invariants go on |
| Ledger.OrderFilled | mapex/ctrader/broker.py:228-239 | a fill under a claimed key keeps one position per setup |
| Ledger.AdoptKeepsInv | mapex/ctrader/broker.py:455-461 | adoption keeps one holder per position and pays for the exposure it adds |
| Ledger.MarkManualKeepsInv | mapex/ctrader/broker.py:375-379 | once marked manual, no earlier command contradicts it |
| Ledger.SendKeepsInv | mapex/ctrader/broker.py:145-155 | a command for a position no manual trade holds keeps hands off |
| Ledger.BeginKeepsInv | mapex/ctrader/broker.py:398-400 | becoming closing keeps every invariant and puts the closing time on record |
| Ledger.SettleKeepsInv | mapex/ctrader/broker.py:396-422 | closing a row and counting its result keep the books, also when a crash falls between |
| Ledger.OrphanKeepsInv | mapex/ctrader/broker.py:462-470 | recording an orphan keeps every invariant and pays for the exposure |
| Ledger.ManualNeverReadopts | mapex/ctrader/broker.py:436-442 | a manual trade never meets a second position under its key |
| Ledger.UntidyHolds | mapex/ctrader/broker.py:432-448 | every invariant, hands off included, holds in that state |
| Ledger.StreakCounts | mapex/guards.py:100-110 | the counter rule equals counting losses since the last win or roll |
| ZoneRuns.Run | mapex/executor/engine.py:220-247 | over any evaluations of one zone: every plan holds, at most one plan, witnessed in its market by the chain of its own raid and defending bar with the raid bar processed after every clearing, at most two resets between changes of the map's structure, silence after a plan or an invalidation, no bar processed twice; where the retest scan started; with bars on time it skips none and the plan is said at the latest of three closes |
| ZoneRuns.PlanIsItsChains | mapex/executor/engine.py:619-690 | a plan said in a run is the one for the raid and the defending bar of its own chain, which had closed, scored in full at that moment, and the raid bar was processed after every clearing of the sequence |
| ZoneRuns.SaidWhen | mapex/executor/engine.py:297-302 | with bars on time a plan is said at the latest of three closes; exactly when the defending bar closes last that is its own close, with the kill zone open and the bar two minutes old at most |
| ZoneTiming.ConfirmedWhen | mapex/executor/engine.py:414-559 | whichever state the event found the zone in, a confirmation comes at the latest of the closes of the defending bar, of the bar after the displacement and of the fourth bar from the break |
| ZoneTiming.AtItsClose | mapex/executor/engine.py:604-605 | a confirmation is never said before its bar closed, and at that close exactly when the bar closes no earlier than the other two |
| ZoneTiming.OpenForAll | mapex/executor/engine.py:599-600 | the kill zone is open at the defending bar's close under every calendar that confirms exactly when the confirmation is said at that close |
| ZoneTiming.FreshForAll | mapex/executor/engine.py:636-637 | the defending bar is two minutes old at most at every moment that confirms exactly when the confirmation is said at its close |
| ZoneTiming.LagIsBounded | mapex/executor/engine.py:414-436 | where candles have no holes the lag behind the defending bar stays below four bars of the raid's timeframe less two minutes |
| ZoneTiming.StaysCurrent | mapex/executor/engine.py:297-302 | bars in time order: after every event the scans have come to the last M1 bar seen |
| ZoneLate.ConfirmedLate | mapex/executor/engine.py:414-559 | a run of a fresh zone with bars in time order whose defending bar closed before the kill zone opened and is older than two minutes, confirmed |
| ZoneLate.FirstSequence | mapex/executor/engine.py:297-344 | a fresh zone whose whole first evaluation, in time order, ends in a reset with nothing left to process and the retest mark at the minute that traded through the gap |
| ZoneLate.SkippedLate | mapex/executor/engine.py:530-541 | a run of a fresh zone whose first evaluation lost a sequence: with the bars of the next raid late, the minute through its gap is skipped and the next one confirmed |
| ZoneMachine.ZoneState.StepZone | mapex/executor/engine.py:271-309 | dead exactly by a broken thesis, confirmed and dead never left, monitor left only for a new structure or death, shelved when told, otherwise all new bars processed |
| ZoneMachine.ZoneState.Attend | mapex/executor/engine.py:290-309 | an opposing zone or a stale anchor rests the zone; otherwise its bars are processed |
| ZoneMachine.ZoneState.Process | mapex/executor/engine.py:297-302 | every new bar once, in order, until the zone goes quiet; resets and plans counted |
| ZoneMachine.ZoneState.Work | mapex/executor/engine.py:297-309 | all new bars are processed unless the zone goes quiet, every plan and reset said is counted, and confirmed means the last word was a plan |
| ZoneMachine.ZoneState.Waiting | mapex/executor/engine.py:303-309 | WAIT is said exactly with full scores for position and liquidity |
| ZoneMachine.ZoneState.OnBar | mapex/executor/engine.py:347-368 | the bar is marked, the state keeps its witnesses; an opposing M15 break of the sequence sends the zone to monitor, otherwise a noise decision has its cause and a retest is answered for: a defended one gets its plan, a lost one is reset or monitored; in time order the scans keep up with the bars and a plan is said at the latest of its three closes |
| ZoneMachine.ZoneState.Watch | mapex/executor/engine.py:373-407 | silent exactly when no near pool is swept for the first time; otherwise every swept level is remembered and the deepest decides, a close beyond it opens the raid of that bar and a wick is noise |
| ZoneMachine.ZoneState.RaidStep | mapex/executor/engine.py:414-436 | noise only if the second bar failed, the window passed, or the shift that followed was lost; the raid goes on only within its window; the shift starts at the last swing level, and a gap of it already defended gets its plan |
| ZoneMachine.ZoneState.ShiftScan | mapex/executor/engine.py:458-480 | waits only while no closed bar broke the level in an open window; noise only when the window passed unbroken or the gap after the break was lost; a break whose gap is already defended gets its plan |
| ZoneMachine.ZoneState.FirstBreak | mapex/executor/engine.py:464-474 | the first close beyond the level, and whether a wick reached beyond it before |
| ZoneMachine.ZoneState.GapEval | mapex/executor/engine.py:487-514 | waits exactly while the footprint window is open; noise only without a gap, without a strong body, with a bad anchor, or by a lost retest; a gap already defended gets its plan |
| ZoneMachine.ZoneState.EnterReturn | mapex/executor/engine.py:510-512 | the scan starts right after the bar that confirmed the gap exactly when no earlier scan had come further |
| ZoneMachine.ZoneState.Contained | mapex/executor/engine.py:505-508 | whether an older standing balanced range contains the gap |
| ZoneMachine.ZoneState.RetestScan | mapex/executor/engine.py:530-559 | no bar that closed is left unscanned; the first bar that does not leave the retest open settles it, as noise exactly if it loses, else with the plan it is worth |
| ZoneMachine.ZoneState.RetestBar | mapex/executor/engine.py:540-558 | one bar loses, waits or decides exactly as the rule for touches, time and defence says; a bar that waits moves the mark and the touch, after a bar that loses only the mark is left, a bar that defends gets the plan it is worth |
| ZoneMachine.ZoneState.Decide | mapex/executor/engine.py:543-554 | a defended bar is never noise: it gets the plan it is worth |
| ZoneMachine.ZoneState.DecideRetest | mapex/executor/engine.py:543-554 | noise exactly when the bar does not defend, then with the sequence forgotten; otherwise its plan |
| ZoneMachine.ZoneState.OnTouch | mapex/executor/engine.py:548-556 | a touch is lost, left pending or decided exactly as its age, its close and its defence say |
| ZoneMachine.ZoneState.Confirm | mapex/executor/engine.py:619-690 | confirmed exactly with full scores, in time and with a plan; then the plan, its market and its bar are on record, the counters reset and the chain is kept |
| ZoneMachine.ZoneState.Price | mapex/executor/engine.py:638-662 | the plan of stop and ladder, whose prices are in order |
| ZoneMachine.ZoneState.Noise | mapex/executor/engine.py:333-344 | a reset exactly while two sweeps or fewer and the anchor stands; otherwise monitor, bound to the map's structure |
| ZoneMachine.ZoneState.Monitor | mapex/executor/engine.py:326-330 | the sequence is forgotten and the structure remembered |
| ZoneMachine.ZoneState.ClearSequence | mapex/executor/state.py:30-36 | the sequence is forgotten, the sweep count, the anchor and the retest mark survive |
| ZoneTypes.ChainInOrder | mapex/executor/engine.py:414-559 | raid bar, displacement, raid close, break, gap and defending bar come in this order, the last more than 60 s after the gap's bar and not through the gap |
| ZoneTypes.SequenceStays | mapex/executor/engine.py:347-559 | what a state witnesses stays true as bars arrive |
| ZoneTypes.ChainStays | mapex/executor/engine.py:487-559 | the chain behind a plan stays witnessed as bars arrive |
| ZoneTypes.AfterPending | mapex/executor/engine.py:543-556 | the bar that settles an undecided touch is the next one, at most 16 bars after the break |
| ZoneScan.EventsComplete | mapex/executor/engine.py:312-323 | the events are exactly the bars not processed yet |
| ZoneScan.EventsOrdered | mapex/executor/engine.py:312-323 | the events come in order of closing and none twice |
| ZoneScan.DueStep | mapex/executor/engine.py:312-323 | taking the first event leaves none that closed earlier |
| ZoneScan.AwaySweepsNone | mapex/executor/engine.py:376-378 | the early return for a price far from the zone misses no pool |
| ZoneScan.DeepestRaids | mapex/executor/engine.py:381-392 | the pool chosen is swept and none swept lies deeper |
| ZoneScan.LastSwing | mapex/executor/engine.py:439-449 | the last qualifying swing, or none exists |
| ZoneScan.WidestOf | mapex/executor/engine.py:494-504 | the widest gap of the window, the latest of equals |
| ZoneScan.ClearByList | mapex/executor/engine.py:505-508 | the list of ranges says whether any standing older range contains the gap |
| StopTargets.StopIsSafe | mapex/executor/stoploss.py:36-55 | the stop lies beyond the sweep's anchor by the spread or more, away from every live pool, at a bounded risk |
| StopTargets.StopMirrors | mapex/executor/stoploss.py:36-55 | buy and sell stops are mirror images |
| StopTargets.BuildLadder | mapex/executor/targets.py:32-71 | the loop over objectives finds the targets the ladder is defined by |
| StopTargets.Tp1Means | mapex/executor/targets.py:46-62 | the first target is the nearest objective at 3R or more, or the projection, always in reach |
| StopTargets.Tp2Means | mapex/executor/targets.py:63-66 | the second target lies strictly beyond at 3.5R or more, the projection only when no objective does |
| StopTargets.LadderMeans | mapex/executor/targets.py:32-71 | targets in order, the third beyond the second, the management level before the first |
| StopTargets.TradeGeometry | mapex/executor/engine.py:653-662 | stop and ladder together: stop, entry, first and server target in order, four spreads at most the risk, and the risk at most two fifteenths of the session's ATR |
| StopTargets.LadderMirrors | mapex/executor/targets.py:32-71 | buy and sell ladders are mirror images |
| Primitives.AtrSeries | mapex/core/primitives.py:91-104 | the sliding window gives, at every bar, the ATR of the bars up to it |
| Primitives.StructureBreaks | mapex/core/primitives.py:136-154 | one pass reports the breaks of the definition |
| Primitives.BreaksExact | mapex/core/primitives.py:136-154 | a break is reported at a bar exactly when its close is the first beyond the latest confirmed swing |
| Primitives.NoBarBreaksBothWays | mapex/core/primitives.py:136-154 | on well-formed bars no bar breaks both ways |
| Primitives.NoRepaint | mapex/core/primitives.py:136-154 | the breaks of a prefix are those of the whole series that fall in it |
| Gaps.Bprs | mapex/core/primitives.py:281-299 | suffix extremes of the closes decide every pair as the definition does |
| Gaps.BprsExact | mapex/core/primitives.py:281-299 | exactly the overlapping opposite pairs not traversed on both sides since |
| Gaps.SuffixCloses | mapex/core/primitives.py:283-286 | each entry is the least and the greatest close from there on |
| Gaps.BprStood | mapex/core/primitives.py:281-299 | later bars only remove ranges |
| Levels.TouchCount | mapex/core/levels.py:60-68 | the greedy count is the size of the largest set of touches pairwise that far apart |
| Levels.SweepStatus | mapex/core/levels.py:31-45 | a close beyond wins over any wick, each at its first bar |
| Clusters.ClusterBonus | mapex/mapper/liquidity.py:252-274 | granted exactly when some interval of that width holds the pool and at least three pools, duplicates counted |
| Clusters.WithinByBisection | mapex/mapper/liquidity.py:258 | the distance of two bisections is the number of prices between |
| Paper.PaperVenue.CreateOrder | mapex/ctrader/paper.py:36-52 | a new position at the ask or bid with its legs around it, or a refusal that changes nothing; volume is conserved |
| Paper.PaperVenue.AmendPosition | mapex/ctrader/paper.py:54-60 | both legs or neither |
| Paper.PaperVenue.Close | mapex/ctrader/paper.py:62-70 | what is dealt leaves the position, never more than it holds, and an empty position is gone |
| Paper.PaperVenue.ClosePosition | mapex/ctrader/paper.py:72-78 | the same at the market price |
| Paper.PaperVenue.OnBar | mapex/ctrader/paper.py:86-101 | exactly the struck positions are closed, each for all it holds, at its stop when both legs were reached |
| Paper.ConservedClose | mapex/ctrader/paper.py:62-70 | opened volume stays what is left plus what was dealt |
| PaperTrades.LiveThrough | mapex/ctrader/broker.py:365-418 | through any bars and passes of the manager, each as `ManageOne` promises of it, a trade closed by a bar settles by the rule of `HandleClosed` at exactly -1R or at the server target, and at 0R or better once the first target was taken |
| PaperTrades.TakeTarget | mapex/ctrader/broker.py:380-392 | carries out exactly the commands the manager sends at the first target; after them the stop is the entry and what was closed was closed ahead of it |
| PaperTrades.Pass | mapex/ctrader/broker.py:365-394 | a pass over the paper position, its commands carried out, is one that `ManageOne` promises; the trade never becomes the owner's |
| PaperTrades.NotMoved | mapex/ctrader/broker.py:370-379 | while the manager's legs stand a pass never takes the trade for the owner's |
| PaperTrades.CarryOut | mapex/ctrader/paper.py:54-78 | one command of the manager, carried out at the quote of the pass |
| PaperTrades.AheadSettles | mapex/ctrader/broker.py:407-416 | deals ahead of the entry settle at 0R or better |
| PaperTrades.OneDealSettles | mapex/ctrader/broker.py:407-416 | one deal for the whole volume settles at the price's distance in R |
| Decode.DecodedExactly | mapex/ctrader/decode.py:64-81 | a price in a narrow band encoded at any of the nine scales comes back exactly, whatever digits are listed |
| Decode.NarrowIsNeeded | mapex/ctrader/decode.py:64-81 | exact decoding of every price holds if and only if the band is narrower than a factor of ten |
| Decode.CalibratedExactly | mapex/ctrader/decode.py:50-61 | the digits found are those of the encoding, whatever candidates are tried first |
| Decode.OneScaleOff | mapex/ctrader/broker.py:322-327 | at most one power of ten is within 25 % |
| Decode.LearnedInOneFill | mapex/ctrader/broker.py:314-332 | one fill shows the broker's scale exactly when rounding to points moved the distance by at most 25 % |
| Decode.TwoPointsAreEnough | mapex/ctrader/decode.py:31-35 | two points or more always are |
| Decode.LearnedScaleIsRight | mapex/ctrader/broker.py:157-160 | the learned scale is the broker's, and once it is used nothing more is learned |
| Decode.RoundedVolume | mapex/ctrader/decode.py:98-100 | the largest whole number of steps in the volume, and at least one |
| Decode.WholeCents | mapex/ctrader/decode.py:84-95 | a lot of a whole number of cents is accepted as that number |
| GeminiMap.Accept | mapex/gemini_map.py:64-195 | raises exactly when a list is none, a number is too long, a score that is used does not convert, or a zone has a first target only; accepts exactly when ready with a keepable CHAIN_A or CHAIN_B and nothing raises, and then the map is as guaranteed |
| GeminiMap.GuaranteeMeans | mapex/gemini_map.py:100-180 | each kept zone in band, on the retrace side, in reach, targets beyond it in order, root registered on the right side |
| GeminiMap.Screen | mapex/gemini_map.py:106-143 | kept, dropped or raising exactly by the rule; the kept targets are the zone's own where usable |
| GeminiMap.Collect | mapex/gemini_map.py:102-182 | exactly the keepable zones are kept, in order, each with a root the executor will find, the registry grown by exactly the edges they needed; raises exactly when a zone does |
| GeminiMap.ReadRegistry | mapex/gemini_map.py:89-102 | the pools in the band, in order, their scores clamped; raises exactly for a list that is none, a price too long, or a score in the band that does not convert |
| GeminiMap.Root | mapex/gemini_map.py:153-169 | the zone's own pool exactly when it is registered on the right side, else the zone's edge |
| GeminiMap.AcceptCanRaise | mapex/gemini_map.py:133-140 | a concrete zone that reaches the comparison with None |
| History.TrendBars | mapex/ctrader/client.py:425-444 | terminates and returns exactly the server's bars of the range, each once and ascending, however the server pages |
| History.Window | mapex/ctrader/client.py:432-442 | one window, page by page, misses no bar |
| Candles.Cache.Refresh | mapex/data/candles.py:37-55 | with two or more bars, or none, the cache is afterwards a gapless tail of the server's current bars; with one bar exactly when the answer reaches that bar, fills the cache, or happens to follow it |
| Candles.OnlyBarMustBeReached | mapex/data/candles.py:43-53 | with one cached bar a range load is faithful for every server exactly when it starts no later than that bar |
| Candles.OnlyFullAnswers | mapex/data/candles.py:43-48 | with one cached bar a count request is faithful for every server exactly when the answer fills the cache |
| Candles.LoneBarKept | mapex/data/candles.py:51-54 | a lone bar neither reached nor pushed out leaves a faithful cache exactly when it is the server's bar just before the answer |
| Candles.ShortAnswerGoesStale | mapex/data/candles.py:43-48 | a server for which a short count answer leaves the bar as it was when it was still forming |
| Candles.MergeIsTail | mapex/data/candles.py:51-54 | cached and fetched bars merge to a tail of the server's bars |

## Left out

- Broker.Run: the hands-off claim and the coverage between trades assume `Ledger.Tidy`, because another terminal that labels positions MAPEX under a comment in use breaks the one-position-per-comment rule the code rests on
- Broker.TradeManager.Execute: the arithmetic of `build_order` is not part of it, only its pieces in `Decode`
- Broker.TradeManager.TakeFirstTarget: how often the partial close is sent when the breakeven amend fails after it, because the flag is set only after both calls
- Broker.TradeManager.Reconcile: positions of the other venue mode are not modelled
- Broker.TradeManager.LearnPointsScale: learned scales are forgotten when the program starts on another backend (`mapex/main.py:113-116`), which no run here contains
- PaperTrades.LiveThrough: assumes one quote per tick, a tick size that is not negative, and prices that decode to themselves, as a band in force gives
- Paper.PaperVenue.CreateOrder: rounding of the legs to eight decimals and the truncation of the saved deal log to 500 entries on restart
- StopTargets.StopIsSafe: the nine-digit rounding inside the safety buffer, and the rounding of plan prices for display
- ZoneRuns.Run: zones archived and found again through the database, and bar windows trimmed after long downtime
- Clusters.ClusterBonus: the other three bonuses of the score, which compare one pool with a list
- Choosing between two confirmed plans of one tick (`alpha_pick`), preflight, and the format dictionaries
- Pools, sessions, Judas thresholds, order blocks and other detectors that feed the engine: inputs of a `Market`
- Grouping of equal levels by running mean, deduplication of pools, chain ranking and the mapper's narrative
- Connections, sessions of the protocol, rate limits, tokens, configuration, the scheduler, Telegram and reports
- SQLite itself, the single-instance lease and the outbox: tables are sequences and maps updated in one step
- Time zones and clock changes: trading day, kill zone and sessions are given
- Floating-point rounding
