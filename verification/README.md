# A Dafny model of the paper runner and its dashboard

The project models the stateful and exact-integer parts of a concentrated-liquidity paper-trading system and
proves what they promise over all inputs, runs and interleavings.

- **Crash-safe replay** (`TickBook`, `TickList`, `SwapMath`, `SwapReplay`, `Market`, `ForecastWindow`,
  `CheckpointRows`, `Decimal`, `StateCodec`, `AssetFile`, `JsonText`, `MarkHistory`, `PaperReplay`, `PaperRuns`,
  `PaperRunner`, `PaperExample`). A poller rebuilds a pool's tick ledger from Mint and Burn events, replays every pool
  event between checkpoints, keeps a sliding window of samples, decides or marks, appends marks to a log and saves its
  state by a rename. `PaperRuns.CrashSafeHistory` is the summit: however the checkpoints are cut into polls, with the
  asset written field by field, encoded, decoded and read back between them, and however often a poll dies before its
  rename and is rerun, the log reads without error and shows, up to the wall clock of writing, what one uninterrupted
  replay would have left. Under it lie the ledger's agreement with the open positions (section 6.3 of the Uniswap v3
  Core whitepaper), the proof that every swap the reconstruction accepts leaves a market the next poll can open again
  and charges only fees the contract could have charged, the round trip of the state file, and the reader of the log
  on arbitrary and on cut-off text. `PaperExample.AssumptionsCanBeMet` exhibits a log format, a kernel and an asset
  for which every assumption of the summit holds, and `PaperExample.TickCanFinish` a tick of it that gets through after
  an attempt that died.
- **Idempotent acceptance** (`Acceptance`, `RecoveryPanel`). A browser with durable storage, reloads and lost
  replies sends an acceptance to an idempotent server. A request the page has given up, by a reload or on a network
  error, goes on and may still be taken up.
- **Shared operator session** (`OperatorSession`). Many requests share one CSRF token with single-flight bootstrap
  and renewal. A call refused with 401 waits for the one renewal and goes on with exactly the token it brought.
- **Schedulers and pools** (`ReadinessLease`, `CampaignScan`, `ConcurrentMap`, `ForkHints`).
- **Streaming analyses and the setup form** (`UniverseMarks`, `PathWindows`, `SetupLimits`).

Code that updates objects or loops over variables is a class or a method whose contract equates it with a function
of the old state; the properties are lemmas about those functions. A protocol is a step function on values, each
step the code between two awaits, and a run is `Prelude.Fold` of steps. Every induction is written out: lemmas
carry `{:induction false}`, and `hide` keeps definitions that a proof does not need out of it.

Unknown parts are parameters: a tick's square-root price (`Ratio`, increasing, with the source's end values), the
strategy model (`PaperReplay.Kernel`, with a snapshot that restore undoes), the kinds of model, benchmark, valuation,
checkpoint and mark that occur (`PaperRuns.Kinds`, closed under the kernel as long as the market runs and the charges
are fair), the decision gate (a function of the checkpoint), the log's schema and parser (`MarkHistory.Format`, whose
parser undoes the printer and accepts only texts shaped as JSON), JavaScript numbers (`SetupLimits.JsNumber`) and the
clock.

## Findings

Places where the code does less than its comments or documentation say. Each has a lemma; the code is modelled as it is.

- A checkpoint dropped by the coverage filter is not always "re-offered on a later poll"
  (`src/adaptive-paper.ts:281-282`): once a later block is accepted in the same poll, the query has moved past it
  (`CheckpointRows.DroppedRowReoffered`, `DeferredRowCanBeLost`).
- A failed health probe marks the lease lost without waking sleepers, so a sleeper can stay asleep on a lost lease
  until its own timer; and a wait that begins after a clean release still sleeps (`ReadinessLease.ProbeLeavesSleepers`,
  `AsleepOnLostLease`, `SleepAfterRelease`).
- A record erased by a decisive reply can leave an operation that nothing leads back to. It does exactly when the page
  was not told of the operation and the server has made it already or still has a request of its key before it
  (`Acceptance.EraseOrphansExactlyWhen`): with two sends at once (`TwoSendsCanOrphan`), or with one send after a reload
  that left an earlier one on its way (`ReloadCanOrphan`).
- A preview goes out under two keys exactly when accept is clicked with nothing pending after a decisive reply to the
  retry button (`Acceptance.SecondKeyExactlyWhen`, `SecondKeyForOnePreview`): the retry leaves the accept button live.
  Without such a click the page itself makes one operation per preview (`OneOperationPerPreview`); with one, only the
  server's unique preview id (`src/storage/deployments-migration.ts:83`) does.
- A forced bootstrap that fails gives up the token it began with, which no request need have seen refused
  (`OperatorSession.ClearsOnlyWhatFailed`).
- Appending whole records to a log that was cut keeps it readable exactly when the cut fell on a record boundary; the
  loss of a line break alone is enough to spoil it (`MarkHistory.AppendAfterCut`, `AppendAfterTornTail`).
- Limits do not survive the form exactly when the number of recenters is 10^21 or more, which setup accepts
  (`SetupLimits.LimitsRoundTrip`, `HugeRecentersLost`).
- With a concurrency below one and at least one value, the concurrent map returns an array of holes
  (`ConcurrentMap.EqualsSequentialMap`).

## Model

| member | source | states |
|---|---|---|
| TickBook.Seed | src/adaptive-paper.ts:157-163 | the fold over Mint, Burn and SetFeeProtocol ends in the ledger those events define, and stops exactly when one of its assertions would fail |
| TickBook.SeedMatchesPositions | src/adaptive-paper.ts:153-167 | if no range burns more than it minted, the fold never fails, the ticks it keeps are exactly the bounds of open positions, the nets cancel, and the nets up to any tick sum to the liquidity straddling that tick |
| TickBook.NetAfterMove | src/experiment/market.ts:47-54 | a Mint or Burn changes the nets up to a tick by its amount exactly when its range straddles the tick |
| TickList.LowerBound | src/research/swap.ts:53-57 | binary search returns the number of listed ticks below the given one |
| TickList.SplicedLists | src/experiment/market.ts:50-52 | splicing one tick in or out keeps the sorted list the exact listing of the tick map |
| TickList.ListingUnique | src/experiment/market.ts:33-34 | a tick map has one sorted listing, so the one rebuilt on opening is the one that was dropped |
| SwapMath.StepInEnvelope | src/research/swap.ts:28-42 | a swap step ends between its price and its target, whichever way it moves and whichever side is exact, overflow branch included, and its fee is not negative |
| SwapReplay.TickAtPrice | src/research/swap.ts:44-52 | the search returns the tick whose price interval holds the price, and a tick at all exactly within the price range |
| SwapReplay.Try | src/research/swap.ts:76-116 | one attempt, loop and early exits, is the bounded walk it is specified by |
| SwapReplay.ReconstructSwap | src/research/swap.ts:70-123 | the first of the four interpretations that reproduces the swap, or failure |
| SwapReplay.AcceptedSwapMatchesBook | src/research/swap.ts:118-123 | any reconstruction that is accepted ends at a tick that holds the observed price, with active liquidity equal to the net prefix sum at that tick, word boundaries and empty ranges included |
| Market.ExperimentMarket.constructor | src/experiment/market.ts:28-36 | opening a seed keeps it and lists its ticks in order |
| Market.ExperimentMarket.Apply | src/experiment/market.ts:39-61 | one event changes market and tick list as specified and returns the same charges, or fails exactly when an assertion of the source fails |
| Market.ExperimentMarket.ChargeAll | src/experiment/market.ts:59 | the global fee growth after all charges of an event, wrapping at 2^256, or failure at the first charge that is not allowed |
| Market.ExperimentMarket.Adjust | src/experiment/market.ts:47-58 | both legs, the list and the active liquidity of a Mint or Burn, or failure |
| Market.AppliedKeepsRunning | src/experiment/market.ts:35-61 | after any accepted event the constructor's own checks hold again: positive gross, exact listing, ticks on the grid, liquidity equal to the nets up to the tick |
| Market.ReopenIsIdentity | src/experiment/market.ts:28-38 | saving a running market's seed and opening it again gives the same market |
| Market.SeededMarketOpens | src/experiment/market.ts:33-35 | a market seeded from the event history opens if and only if the checkpoint's liquidity is that of the positions straddling its tick |
| Market.ReplayedLedger | src/adaptive-paper.ts:229-249 | carrying the ledger along the replay ends in the ledger that seeding from scratch at the end would build |
| Market.GlobalsTrackGrowth | src/experiment/market.ts:59 | the wrapping global growth and a counter that never wraps stay congruent modulo 2^256 |
| Market.AppliedFair | src/experiment/market.ts:41-60 | every charge of an accepted event has an allowed protocol share, a fee that is not negative, and liquidity to pay it to |
| ForecastWindow.ForecastSampler.Sample | src/adaptive-paper.ts:225-228 | at most one sample a minute, then the window is trimmed |
| ForecastWindow.ForecastSampler.Retain | src/adaptive-paper.ts:221-224 | the shifting loop leaves the window cut at the lookback |
| ForecastWindow.WindowIsHistorySuffix | src/adaptive-paper.ts:221-228 | the window kept step by step is always the whole sample history from its newest entry older than the cutoff onward |
| ForecastWindow.WindowBounded | src/adaptive-paper.ts:221-228 | its samples are at least a minute apart and never more than lookback / 60000 + 2 |
| CheckpointRows.Rows | src/adaptive-paper.ts:134-147 | the usable rows with one row per block, and two counts that account for every row dropped |
| CheckpointRows.RowsAreLastUsable | src/adaptive-paper.ts:138-140 | a poll sees strictly rising blocks and exactly the last usable row of every block that has one |
| CheckpointRows.DroppedRowReoffered | src/adaptive-paper.ts:280-284 | a dropped row is offered again if and only if the poll accepted no row of its block or a later one |
| CheckpointRows.DeferredRowCanBeLost | src/adaptive-paper.ts:281-284 | an uncovered row followed by a covered one is never offered again |
| Decimal.IntTextRoundTrip | src/adaptive-paper.ts:111-112 | BigInt of String of an integer is that integer |
| StateCodec.RoundTrip | src/adaptive-paper.ts:111-112 | a value decodes to itself if and only if no object in it looks like an encoded bigint |
| AssetFile.LoadUndoesSave | src/adaptive-paper.ts:95-106 | reading an asset back field by field from what was written of it gives that asset, for every running asset: seed and ticks, last checkpoint, samples, counters, counts of reasons, model, and the properties that may be absent |
| AssetFile.SavedPlain | src/adaptive-paper.ts:95-112 | what is written of an asset holds something that looks like an encoded bigint if and only if its model, benchmark or reference does |
| AssetFile.ReloadedIsSame | src/adaptive-paper.ts:111-114 | the file decodes to what was written exactly when none of those three looks like an encoded bigint, and then the next tick sees the asset as it was |
| StateCodec.MigrateRuntime | src/adaptive-paper-runtime.ts:7-19 | the guards in order, then runtime replaced and one history entry appended |
| StateCodec.MigrationOnlyTouchesRuntime | src/adaptive-paper-runtime.ts:9-17 | rewriting the encoded file commutes with decoding: only runtime and runtimeHistory change in the decoded state, and the configuration hash check of the next tick still passes |
| JsonText.TornObject | src/adaptive-paper-history.ts:23-25 | an object's text is one line, and no proper prefix of it has every bracket closed |
| MarkHistory.MarkLog.Append | src/adaptive-paper-history.ts:23-25 | an accepted mark adds exactly its line, another adds nothing |
| MarkHistory.MarkLog.Read | src/adaptive-paper-history.ts:26-34 | the line loop with its map, its early break and its errors returns what the specification of reading says for any text |
| MarkHistory.ReadFailsIff | src/adaptive-paper-history.ts:28-32 | reading fails if and only if some line is damaged anywhere but in an unterminated tail, or carries another symbol |
| MarkHistory.TruncationSurvived | src/adaptive-paper-history.ts:26-34 | every cut of a log of whole records reads, and keeps exactly the records wholly present |
| MarkHistory.WholeRecordsMeaning | src/adaptive-paper-history.ts:28-31 | a record counts as present exactly when the cut lies at or after the end of its text, line break or not |
| MarkHistory.KeptIsLastWrites | src/adaptive-paper-history.ts:32-33 | the result holds exactly the last write of each block, in time order |
| MarkHistory.KeptBlocksDistinct | src/adaptive-paper-history.ts:32-33 | no block appears twice |
| MarkHistory.KeptStrictlyOrdered | src/adaptive-paper-history.ts:33 | with canonical block numbers the result is strictly ordered by time, then block |
| MarkHistory.RetriesReadOnce | src/adaptive-paper-history.ts:23-34 | marks appended by any number of dead attempts vanish on reading once the finished attempt is written, and the result equals any crash-free log up to observedAt |
| MarkHistory.AppendAfterTornTail | src/adaptive-paper-history.ts:24-31 | a whole record appended to one that lost its end, be it only the line break, makes the log unreadable, whatever follows and whatever the texts contain |
| MarkHistory.AppendAfterCut | src/adaptive-paper-history.ts:24-31 | after a cut anywhere in a log of whole records, the log reads after further whole records if and only if what was left was empty or ended with a line break |
| PaperReplay.QueryIsFilter | src/adaptive-paper.ts:148-152 | the event query keeps exactly the events past one block and up to the other |
| PaperReplay.OfferRises | src/adaptive-paper.ts:134-147 | the rows a poll works on rise strictly from the asset's last block |
| PaperRunner.PaperAsset.Capture | src/adaptive-paper.ts:195-199 | a first benchmark is stored and restarts the history, a changed one fails |
| PaperRunner.PaperAsset.Record | src/adaptive-paper.ts:215-220 | a baseline when the history has none, otherwise a mark on an action or after a minute |
| PaperRunner.PaperAsset.Absorb | src/adaptive-paper.ts:234-237 | the queue index advances over exactly the events up to the checkpoint's block, each applied, its fees added to the counters and passed to the model |
| PaperRunner.PaperAsset.Check | src/adaptive-paper.ts:238-247 | verify, sample, decide or mark, capture, value and record, in that order |
| PaperRunner.PaperAsset.Advance | src/adaptive-paper.ts:229-251 | the rows in turn and the new seed and model; when a row fails, the asset is invalid with its old seed and model and exactly the counters, window and marks that row leaves behind |
| PaperRunner.PaperAsset.Begin | src/adaptive-paper.ts:279-280 | the captured benchmark and the baseline mark at the start of a tick |
| PaperRunner.PaperAsset.Poll | src/adaptive-paper.ts:278-286 | one tick of one asset, from the rows of the checkpoint table to the counts of deferred rows, equals its specification; when a row fails, the state left behind is specified too |
| PaperReplay.SettledStartsQuietly | src/adaptive-paper.ts:279-280 | on an asset left by a finished poll the start of a tick changes and writes nothing |
| PaperReplay.SplitPoll | src/adaptive-paper.ts:229-286 | two polls with a save and a restore between them are one poll over all their checkpoints and deferrals: same asset, counts of reasons included, same marks, and one fails exactly when the other does |
| PaperReplay.AdvancedCounting | src/adaptive-paper.ts:281-285 | counting the deferred rows of a poll earlier or later changes neither the asset, apart from the counts, nor the marks |
| PaperRuns.IncrementalIsBatch | src/adaptive-paper.ts:229-286 | any number of polls, each reading the fields the last one wrote and encoded, ends like one uninterrupted replay, and every asset between them can be written |
| PaperRuns.PolledFits | src/adaptive-paper.ts:193-286 | a poll whose kernel stays within its kinds leaves an asset the next poll can start from, and writes only marks of their kind |
| PaperReplay.EventsAppliedOnce | src/adaptive-paper.ts:231-249 | over any checkpoints the market is the result of applying the queried events each exactly once and in order, and agrees with the last checkpoint |
| PaperReplay.CountersTrackChain | src/adaptive-paper.ts:234-238 | what the growth counters gained equals, modulo 2^256, what the chain's fee growth gained |
| PaperRuns.RunIsBatch | src/adaptive-paper.ts:265-286 | a run of ticks with crashes ends in the state of one uninterrupted replay |
| PaperRuns.CrashSafeHistory | src/adaptive-paper.ts:114-286 | with crashes anywhere before the rename, the log reads without error and equals, up to observedAt, what one uninterrupted replay would leave |
| PaperExample.AssumptionsCanBeMet | src/adaptive-paper.ts:200-220 | a format, a kernel whose marks carry their checkpoint's block, and an asset meet all assumptions of CrashSafeHistory |
| PaperExample.TickCanFinish | src/adaptive-paper.ts:278-286 | a tick of that instance accepts a checkpoint row after an attempt that died: the asset moves on to the row, and the log gets the dead attempt's baseline mark and then both marks |
| Acceptance.Widget.constructor | dashboard/deployment-actions.js:409-440 | mounting knows what storage holds, the route of its kind and strategy, and nothing else |
| Acceptance.Widget.ClickPreview | dashboard/deployment-actions.js:494-499 | a preview starts only with nothing pending and nothing accepted |
| Acceptance.Widget.ClickAccept | dashboard/deployment-actions.js:552-566 | the record is stored before the send, and a pending request is resent under its own key, to the route of the mounted widget |
| Acceptance.Widget.Settle | dashboard/deployment-actions.js:446-490 | the record is erased on acceptance or a known refusal only, and kept otherwise |
| Acceptance.StepKeeps | dashboard/deployment-actions.js:427-567 | every step, a reload with a request on its way included, keeps the invariant while no request is sent before the last one is out of reach |
| Acceptance.RunIsSafe | dashboard/deployment-actions.js:409-704 | over every run in which no request is sent while another can still reach the server, with lost replies, retries and reloads, there is at most one unresolved key, it is the stored one, each key carries one payload, no preview is open before the outcome is known, every operation is known or recoverable, and requests go only by the route of the first mount if every mount has that route |
| Acceptance.RecordGoesOnDecision | dashboard/deployment-actions.js:117-130 | a readable record disappears only when a decisive reply to that very request arrives |
| Acceptance.OperationStoredOrErased | dashboard/deployment-actions.js:446-490 | in every run, with any number of sends, every operation is stored or is one whose record a decisive reply erased |
| Acceptance.EraseOrphansExactlyWhen | dashboard/deployment-actions.js:446-490 | when a decisive reply erases the stored record, its operation can be lost if and only if the page was not told of it and the server has made it or still has a request of its key to take up |
| Acceptance.TwoSendsCanOrphan | dashboard/deployment-actions.js:454-493 | a reachable run with two sends out that loses an operation for good: both requests have ended, and the page never hears of it |
| Acceptance.ReloadCanOrphan | dashboard/deployment-actions.js:427-493 | the same with one send per page: the first is left on its way by a reload |
| Acceptance.SecondKeyExactlyWhen | dashboard/deployment-actions.js:491-566 | with one send at a time and fresh preview ids, a preview has gone out under two keys if and only if accept was clicked with nothing pending after a decisive reply to the retry button |
| Acceptance.OneOperationPerPreview | dashboard/deployment-actions.js:552-566 | without such a click no preview becomes two operations, whatever the server allows |
| Acceptance.SecondKeyForOnePreview | dashboard/deployment-actions.js:491-566 | a reachable run with one send at a time in which one preview becomes two operations, on a server without the unique preview rule |
| RecoveryPanel.KeysNeverCollide | dashboard/deployment-actions.js:84-86 | distinct campaigns or kinds never share a storage key |
| RecoveryPanel.ActionKeyMatches | dashboard/deployment-actions.js:138-142 | the scan's expression reads back the campaign and kind a key was made of |
| RecoveryPanel.Scan | dashboard/deployment-actions.js:133-158 | the loop over storage finds every recognised record |
| RecoveryPanel.ScanFindsSaved | dashboard/deployment-actions.js:107-116 | after a save the scan finds that request, as written, beside exactly what it found before |
| RecoveryPanel.ScanFindsConvert | dashboard/deployment-actions.js:145-153 | the same for the convert widget's records |
| RecoveryPanel.ScanAfterErase | dashboard/deployment-actions.js:117-120 | erasing one key takes away its record and no other |
| RecoveryPanel.Recovery.Click | dashboard/deployment-actions.js:208-215 | a click sends the rendered payload to the widget's own route, once per key at a time |
| RecoveryPanel.Recovery.Settle | dashboard/deployment-actions.js:216-235 | the storage after a reply, whatever others wrote meanwhile |
| RecoveryPanel.OneRecoveryPerKey | dashboard/deployment-actions.js:132-235 | in every run each key has at most one recovery under way |
| RecoveryPanel.ErasesOnlyTheSubmitted | dashboard/deployment-actions.js:207-233 | in every run a reply erases a record if and only if it settles the request and the payload stored under the key at that moment is the one of the click it answers, with no other record touched |
| OperatorSession.OperatorSession.Bootstrap | dashboard/operator-session.js:44-54 | a session request starts only when none is under way and one is needed |
| OperatorSession.OperatorSession.BootCatch | dashboard/operator-session.js:47-51 | a failed forced bootstrap clears the token only if it is still the one it began with |
| OperatorSession.OperatorSession.OnUnauthorized | dashboard/operator-session.js:73-77 | compare before clear, then join or start the one renewal, or retry with the token that came in |
| OperatorSession.RunIsSafe | dashboard/operator-session.js:35-85 | in every interleaving successful renewals never outnumber the tokens given up, none is given up twice, and a call sends at most twice, the same bytes, the second time only after a 401 |
| OperatorSession.ClearsOnlyWhatFailed | dashboard/operator-session.js:44-83 | a token is only cleared by a call whose send with that very token came back 401, or by a failed forced bootstrap begun under it |
| OperatorSession.RetriesCarryToken | dashboard/operator-session.js:57-83 | in every run in which replies are tasks of their own, a retry carries a token and never the one that was refused, and a waiting call waits for a renewal that is under way or settled |
| OperatorSession.ResumesWithItsRenewal | dashboard/operator-session.js:57-79 | a call resumed after a renewal that succeeded sends the same bytes with the very token that renewal brought, whatever other calls do |
| OperatorSession.SharedRenewal | dashboard/operator-session.js:57-79 | a reachable run in which two refused calls share one renewal and both send again with its token |
| ReadinessLease.PaperLease.Wake | src/deployments-paper-worker.ts:44-47 | waking ends every sleeper, in order, and leaves a notification pending only if nobody slept |
| ReadinessLease.PaperLease.WaitForOperation | src/deployments-paper-worker.ts:70-85 | a wait returns at once on a pending notification, a lost lease or nothing to wait for, and sleeps otherwise |
| ReadinessLease.EachCallReturnsOnce | src/deployments-paper-worker.ts:70-85 | in every interleaving each call is either asleep or has returned exactly once, and nobody sleeps on a pending notification |
| ReadinessLease.EventsWakeAll | src/deployments-paper-worker.ts:44-101 | in every run a notification, an error or the end of a release leaves nobody asleep, and every wait begun before it has returned for good |
| ReadinessLease.NotificationIsNotLost | src/deployments-paper-worker.ts:44-73 | a notification that finds nobody asleep makes the next wait return at once, whatever happens between |
| ReadinessLease.AsleepOnLostLease | src/deployments-paper-worker.ts:65-69 | in every run, while somebody sleeps the lease is lost if and only if a probe failed and no event came after |
| ReadinessLease.ProbeLeavesSleepers | src/deployments-paper-worker.ts:65-69 | a failed probe strands somebody exactly when somebody slept |
| ReadinessLease.SleepAfterRelease | src/deployments-paper-worker.ts:70-101 | a wait begun after a clean release ends only by its own timer or signal |
| CampaignScan.CampaignScanner.Pass | src/deployments-paper-worker.ts:146-168 | one pass takes the page and moves the cursor before any campaign is worked on |
| CampaignScan.PageIsNext | src/deployments-paper-worker.ts:146-167 | a page is the next min(max, n) campaigns in cyclic order, without repetition |
| CampaignScan.PassBringsCloser | src/deployments-paper-worker.ts:127-168 | a pass that leaves a campaign out brings it closer by a whole page |
| CampaignScan.EveryCampaignIsReached | src/deployments-paper-worker.ts:122-168 | while the eligible set does not grow, a campaign that stays eligible is reached within ceil(n / max) passes from any cursor |
| ConcurrentMap.MapConcurrent | src/action-cost.ts:86-104 | under any scheduler the shared counter and array end as the sequential map, or as holes when there is no worker |
| ConcurrentMap.EqualsSequentialMap | src/action-cost.ts:91-104 | any finished interleaving claimed every index once in n + workers turns, and equals the sequential map if and only if there is a worker or no value |
| ConcurrentMap.ClaimsInOrder | src/action-cost.ts:94-97 | the claims of any interleaving are 0, 1, 2 and so on without gap or repetition |
| ConcurrentMap.BoundedAndLive | src/action-cost.ts:100-102 | never more operations in flight than the concurrency, and a run that has not ended can go on |
| ForkHints.ReadHints.OnReadHints | src/deployments.ts:256-260 | delete, evict, set |
| ForkHints.HoldsNewest | src/deployments.ts:253-260 | after any writes the map holds exactly the eight most recently written hashes, each with its latest hints, in order of last write |
| ForkHints.LastWritesMeaning | src/deployments.ts:256-260 | the reference order is the writes whose key was not written again |
| SetupLimits.DecimalRoundTrip | dashboard/tabs.js:578-593 | parsing undoes printing for every raw value and every number of decimals |
| SetupLimits.RawOfMeaning | dashboard/tabs.js:578-585 | an accepted text means its whole part and its fraction, each at its own scale |
| SetupLimits.WholeIsQuotient | dashboard/tabs.js:587-593 | the two parts that are printed are the quotient and remainder by the scale |
| SetupLimits.NormalizeSetupLimits | dashboard/tabs.js:686-716 | field by field, then the checks across fields |
| SetupLimits.HumanSetupLimitsToRaw | dashboard/tabs.js:610-622 | the form's texts read and validated |
| SetupLimits.RawSetupLimitsToHuman | dashboard/tabs.js:623-632 | the limits as the form shows them |
| SetupLimits.LimitsRoundTrip | dashboard/tabs.js:610-716 | accepted limits shown and read back are the same limits if and only if there is no number of recenters or it is below 10^21 |
| SetupLimits.HugeRecentersLost | dashboard/tabs.js:623-716 | setup accepts the text of 10^21 as a number of recenters, and those limits cannot be shown |
| SetupLimits.SuggestionsAreValid | dashboard/tabs.js:634-658 | for every capital the form accepts, the suggestions of both strategies parse and pass validation |
| UniverseMarks.Diagnostic.Run | scripts/diagnose-adaptive-lp-universe-marks.py:49-75 | the one pass equals the batch definition of marks and tracks, and fails exactly when an assertion does |
| UniverseMarks.Diagnostic.TakeMark | scripts/diagnose-adaptive-lp-universe-marks.py:28-47 | one mark, both conditions, or nothing before the availability block |
| UniverseMarks.MarkSeesItsBlock | scripts/diagnose-adaptive-lp-universe-marks.py:28-66 | every mark holds the state that exactly the events up to its block lead to, and is taken at a block with an event |
| UniverseMarks.EveryBlockMarked | scripts/diagnose-adaptive-lp-universe-marks.py:28-66 | every block with an event from the availability block on has exactly one mark, in block order |
| UniverseMarks.TrackIsBatch | scripts/diagnose-adaptive-lp-universe-marks.py:38-75 | the intervals reported are those of the maximal runs, in order, the last unresolved when it reaches the end |
| UniverseMarks.RunsAreMaximal | scripts/diagnose-adaptive-lp-universe-marks.py:38-75 | the runs are exactly the maximal ones, disjoint and separated, and only the last can be open |
| UniverseMarks.NarrowerRunInside | scripts/diagnose-adaptive-lp-universe-marks.py:36-37 | where one condition implies another, each maximal run of the first lies inside one of the second |
| UniverseMarks.BoundaryInsideEmpty | scripts/diagnose-adaptive-lp-universe-marks.py:36-75 | for events in time order, every interval reported of an empty book at a price limit lies inside one reported of an empty book, and is unresolved only if that one is |
| PathWindows.Analyze | scripts/analyze-lp-hours.py:41-64 | the nested loops equal the recursive scan, rejections counted by reason |
| PathWindows.WindowsAreGood | scripts/analyze-lp-hours.py:42-64 | windows overlap at most in an endpoint, last between the horizon and six minutes more, and record the true extremes of every swap and checkpoint tick in them |
| PathWindows.GivingUpLosesNothing | scripts/analyze-lp-hours.py:46-47 | the early break loses no window when frames are in time order |

## Left out

- The numeric square-root price of a tick: any increasing function with the source's end values stands for it, so nothing here depends on its rounding.
- The strategy models, the forecast statistics, the reference valuation and the benchmark derivation: parameters of `PaperReplay.Kernel`.
- A gate that changes between a dead attempt and its rerun, and a row that becomes usable in the middle of the rows a dead attempt had seen: the rerun then writes other marks.
- PaperRuns.CrashSafeHistory: speaks of runs in which no row fails, and assumes whole-line appends and attempts whose checkpoints are a prefix of the finished attempt's; `MarkHistory.AppendAfterCut` shows why whole lines are needed.
- AssetFile.LoadUndoesSave: the configuration fields of an asset, which no tick changes, are not written; a timestamp is its instant, numbers are exact, and the order of properties, ticks and reasons in the file is left open.
- Indented JSON, object keys that read as integers, duplicate keys, undefined fields, the text of floating point numbers and torn multi-byte characters.
- Seeds without fee or spacing, which default to the 500 tier.
- Acceptance.RunIsSafe: assumes one mounted widget per campaign and kind, storage reads that do not throw, fresh random keys, and no request sent while another can still reach the server; `EraseOrphansExactlyWhen` covers the runs without the last, and the route clause assumes that the campaign's strategy is the same at every mount.
- Acceptance.Possible: leaves out the server's own rule of one operation per preview, so that what the page guarantees by itself shows.
- RecoveryPanel.ScanFindsSaved: assumes that every key in storage is in the case the widgets write; the display order of the records is not modelled.
- The convert widget's own rule for 4xx replies, the open-position acceptance in the tabs module and the live widgets.
- OperatorSession.RunIsSafe: assumes that the server never issues the same token twice.
- OperatorSession.RetriesCarryToken: assumes that a network reply is a task of its own, so that every call waiting on a settled renewal has gone on before the next reply arrives; `RunIsSafe` and `ClearsOnlyWhatFailed` do not.
- The two queries of a campaign page reading different snapshots; accounting, fees and operations inside a pass.
- Acquiring and unlocking the lease's database lock, and the text of its errors: a release is its start and its end.
- ConcurrentMap.EqualsSequentialMap: assumes operations that do not fail.
- The single formulas for the next maintenance time and the suggested native allocation, which would only add easy members.
- White space other than ASCII around a decimal text.
- Databases, RPC, files, DOM, charts, logging, process signals and the command line.
