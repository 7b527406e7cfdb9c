# Verified model of the trading pipeline

The repository is an event-driven crypto trading pipeline. Collectors publish market events; a triage worker gathers them per symbol and publishes analyses; a decision engine scores an analysis and emits a decision; a risk engine vets it, charges its share to a common exposure ledger and approves it; a trading engine turns the approval into an entry order with a stop and a target; a reconciler notices closed positions and releases their share. A gateway archives the events, pages through them, and reports on rejections and on the decision journal. This project models the five places where that logic is hard and proves what each keeps.

**Execution protocol** (`Protocol`, `Ledger`, `LedgerGaps`, `Stranding`, `Releasing`, `Reconciling`, `WholeHandlers`, `Replicas`, `Orders`, `Brackets`, `Limits`, `Provenance`, `Consent`, `Outcomes`, `Witnesses`, `Engines`, `Control`, with `RiskRules`, `Sizing`, `Symbols` and `Text` below them). Every handler is a task suspended at an await, and one move of the system takes any one of them to its next await, starts one, or cuts one short. Portfolio fractions are integers in units of 1e-4, the grid the code rounds them to. A history map records what each approval charged and no close has released. Proved over all runs: with any number of risk handlers and reconcilers the ledger stays a fraction under any interleaving; it covers the book in every run without a lost update, a repeated mark or a close cut in half, and in every run made of whole risk handlers, whole sweeps, and deliveries and approvals cut short anywhere; an approval is executed at most once when no operator approves; every executed order carries the approval on record, the configuration a handler of it loaded and the equity that handler was answered, and respects the caps and the kill switch of these; nothing is executed with auto-trading off unless an operator approved that event; what each whole handler leaves behind is stated key by key; a charged share is lost for good exactly when one of four kinds of move was made for it. Where one of these promises does not hold, the exact condition under which it does is proved, and `Witnesses` reaches the failure from an initial state. `Engines` and `Control` hold the handlers in their own form, as objects whose methods update the shared state, each proved against the step machine.

**Triage** (`Triage`, `TriageOutcomes`, `TriageFailures`, `TriageWorker`, `Workers`). Two tasks share the pending windows and the feature store and interleave at awaits. Proved: absent failures no folded event is lost, and a failure of either task with an event in hand strands it exactly when nothing else will still read it; analyses hold the last values folded; at most one per window; a flush decides everything that was due when it began; of any number of workers on one store, none ever erases an event exactly when each writes back what is still stored, but for the fields its event carries.

**Archive and pagination** (`Sorting`, `Cursor`, `Archive`, `QueryParams`, `Pagination`). Proved: one table and one row per key; the bounded union equals the sorted union cut to the limit; the cursor round trip holds exactly when the id is nonempty and the time aware; a cursor walk under concurrent deliveries returns every row present from the start once, in strictly descending order, and on a fixed archive its pages are the whole listing.

**Scoring and calibration** (`Sums`, `WeightedMean`, `FeatureMap`, `Scoring`, `Scorecard`, `DecisionGate`, `Histogram`, `Replay`, `ReplayAgreement`, `Proposal`). Scores are real arithmetic with the logistic curve and the logarithms as parameters of stated shape. Proved: the renormalised score never leaves the range of what was measured; the zero-confidence sentinel is exact; score, evidence and confidence are given in numbers from the readings; readings none of which is worse never lower the score; the one-pass replay answers what re-running both live gates on every row would, for exactly the thresholds stated.

**Rejections and journal statistics** (`Reasons`, `Funnel`, `PathSimulation`, `Correlation`). Proved: the drawer and the funnel agree in content and order; first-touch settlement, its stability and its long/short symmetry; the correlation lies in [-1, 1] and ignores units.

## What the proofs say about the code

- A second operator approval of the same opportunity orders it again: `approve_opportunity` neither deletes the pending record nor looks at the submitted mark. An event's orders stay one bracket exactly when its entry is never sent while orders for it are out (`Brackets.OneBracketIff`, `LedgerGaps.SecondApprovalOrdersAgain`, `Witnesses.SecondApprovalReached`).
- The exposure ledger is read and written in two awaits, so concurrent approvals and closes can overwrite each other: it stays in [0, 1] but may stop covering the book. Two approvals of 10 percent each leave 10 percent in the ledger and 20 in the book (`LedgerGaps.ChargeCoversIff`, `Witnesses.LostUpdateUncovers`), and a release of what was read before a second position was charged leaves that one over an empty ledger (`LedgerGaps.ReleaseCoversIff`, `Witnesses.StaleReleaseUncovers`).
- A close interrupted between the exposure write and the set removal leaves the position tracked with its share given back: the book stays covered exactly when events outside it are charged at least that much (`LedgerGaps.AbortedCloseUncovers`, `Witnesses.AbortedCloseUncoversTheBook`).
- A charged share is lost for good after four kinds of clean move, and only these: the charge itself, of an approval whose symbol is not on the whitelist, whose share rounds to nothing or that has no price; the loss of the publication after the charge; a crash between the mark and the record; and a sweep that sees the id between its entry into the tracked set and the writing of its record (`Stranding.MoveStrandsIff`, `Releasing.LostForGoodIff`; runs that do it: `Witnesses.UnlistedStrands`, `Witnesses.DroppedPublicationStrands`, `Witnesses.CrashStrandsShare`, `Witnesses.SweepStrandsShare`). A refusal or a rejection gives nothing back either, since no trading handler touches the exposure (`Ledger.TaskKeepsExposure`): such a share waits for another delivery or approval.
- Two reconcilers that find the same position closed, one after the other, both give its share back: the rest of the book stays covered exactly when the ledger holds that much besides the book (`Replicas.SecondReleaseCoversIff`).
- A symbol is cut at a slash, else at a dash, else at a colon, so "BTC-PERP/USDT" is cut at the slash to "BTC-PERP", which is not listed and is refused, while "BTC-PERP" alone is traded (`Symbols.PairNotationIff`, `Symbols.NormalizeTwiceIff`).
- A failure while triage reads or publishes one symbol keeps, as its comment asks, the symbols behind it: their windows are still there. The symbol in hand has lost its window, and its undecided events wait for another event of that symbol; so do those of a handler that fails between its store write and its registration (`Triage.SweeperFailureStrands`, `TriageFailures.HandlerFailureStrands`, `TriageFailures.StrandedEventReached`). A restart empties the windows but not the store, and strands the events of exactly the symbols with undecided ones (`TriageFailures.RestartStrandsIff`).
- The feature store reads a symbol's features in one await and writes them in another, so of two workers that both read first the second erases the first one's event, except for fields it carries too or that were stored so already (`Workers.NeverErasedIff`, `Workers.ErasureReached`).
- A liquidity of zero is scored as the worst liquidity, but the mapping from the feature store turns it into no reading at all, so that branch is never taken and a symbol without liquidity is judged on its other axes (services/decision-engine/app/scoring.py:153-160, services/decision-engine/app/features_map.py:44-48, `FeatureMap.ZeroLiquidityIsNoReading`).
- The calibration replay and the live engine disagree at threshold 0 as soon as one row had no evidence, and above 100 as soon as one row scored 100 (`ReplayAgreement.ReplayAgreesIff`).
- Two rows that share time and id across the two tables fall between two pages when the first page ends between them; one table per key rules it out (`Pagination.SharedKeyFallsBetweenPages`).
- The docstring of `features_from` says the live engine takes the market's mood from its own state; the engine calls the mapping on the analysis's dictionary (services/decision-engine/app/engine.py:44-46), so live and replay read a dictionary alike, and only its unlock date depends on the clock (`FeatureMap.SameFeaturesIff`).
- The comment on the volume axis says a spike ratio of 3 reads about 0.6; the curve is centred there and reads exactly 0.5 (`Scoring.NeutralReadings`).

## Model

| member | source | states |
|---|---|---|
| RiskRules.FirstFailingGateDecides | services/risk-engine/app/rules.py:46-79 | approval if and only if all seven gates pass, each taken on its own; otherwise the reason is that of the first failing gate |
| RiskRules.RiskRewardIgnoresPrice | services/risk-engine/app/rules.py:82-96 | the reward-to-risk ratio depends on the configured percentages alone, whatever the price or the side |
| RiskRules.PositionSizeBounds | services/risk-engine/app/rules.py:97-98 | the position fraction is the configured maximum times the confidence to the nearest grid point, grows with confidence, stays between 0 and the maximum, and from full confidence on is that of full confidence |
| RiskRules.VerdictInFull | services/risk-engine/app/rules.py:46-79 | approval if and only if the token is not blacklisted, the price positive, the direction long or short, confidence, score and the configured reward-to-risk at their floors and the share fits; and which reason is given when |
| RiskRules.ShareIsScaled | services/risk-engine/app/rules.py:97-98 | the share is the configured maximum times the confidence to the nearest grid point; full confidence and above get that of full confidence |
| RiskRules.ApprovedPrices | services/risk-engine/app/rules.py:82-106 | the approved stop and target are the entry moved by the configured percentages, the stop against the direction and the target with it, to eight decimals |
| Sizing.SizeIsLargestUnderCap | services/trading-engine/app/sizing.py:23-32 | a positive size is at least the exchange minimum and a whole number of contract steps worth at most the capped notional; one more step would exceed it |
| Sizing.NotionalUnderEveryCap | services/trading-engine/app/sizing.py:25-26 | the notional is under the per-order cap, the leverage cap and the portfolio fraction |
| Sizing.PositiveSize | services/trading-engine/app/sizing.py:23-32 | a positive size comes only from positive equity, price and fraction |
| Sizing.SizeRespectsCaps | services/trading-engine/app/sizing.py:1-32 | size times entry price never exceeds any of the three caps |
| Sizing.NotionalIsTheLeastCap | services/trading-engine/app/sizing.py:25-26 | the notional is one of the three caps and at most each |
| Sizing.SizedIff | services/trading-engine/app/sizing.py:23-32 | something is ordered if and only if there is equity, a price and a share and the capped notional pays for the smallest order |
| Symbols.PairNotationIff | services/trading-engine/app/symbols.py:27-38 | a bare ticker followed by a separator and anything denotes that ticker in upper case if and only if no separator that is looked for earlier comes after it |
| Symbols.NormalizeTwiceIff | services/trading-engine/app/symbols.py:27-38 | normalising again changes nothing if and only if no separator is left |
| Symbols.TickersAreNormal | services/trading-engine/app/symbols.py:15-24 | every listed ticker denotes itself and is traded under its own pair |
| Protocol.FinishExecuting | services/trading-engine/app/engine.py:155-216 | the eight awaits of an execution, run through, leave the mark, the bracket of three orders, the tracked record and the two events |
| Outcomes.DecisionOutcome | services/risk-engine/app/engine.py:40-86 | a decision that clears every gate with levels an approval accepts charges its share and publishes the approval with the decision's data, scaled share and moved prices; any other changes nothing |
| Outcomes.SizeInFull | services/trading-engine/app/sizing.py:23-32 | a grant orders nothing unless equity, price and share are there and a ten-thousandth of a contract is paid for by the least cap, else the most ten-thousandths that is |
| Outcomes.DeliveryOutcome | services/trading-engine/app/engine.py:91-216 | a whole delivery, case by case and key by key: already submitted, switched off, over the rate, not listed, not sized, queued, or executed with its three orders, record and events |
| Outcomes.ApprovalOutcome | services/trading-engine/app/engine.py:218-256 | a whole approval likewise, the event unlisted first and the auto-trading gate passed over |
| Outcomes.RejectionOutcome | services/trading-engine/app/engine.py:258-281 | a whole rejection unlists the event and announces it refused with the text |
| Outcomes.WithoutAutoTradingDeliveriesWait | services/trading-engine/app/engine.py:137-141 | with auto-trading off a delivery sends, marks, tracks and records nothing, and an event new, let through, listed and sized is stored, listed and announced as waiting |
| Outcomes.CloseOutcome | services/trading-engine/app/engine.py:283-299 | the one order a close sends, field by field |
| Outcomes.AdjustOutcome | services/trading-engine/app/engine.py:302-349 | the orders an adjustment sends, field by field |
| Outcomes.ManualOutcome | services/trading-engine/app/engine.py:345-390 | exactly when a manual order goes out, at which price it is capped, the order itself and the token taken |
| Outcomes.ClosesAsExecuted | services/trading-engine/app/reconcile.py:76-83 | a position is announced closed with the symbol, direction and size it was executed with |
| Consent.NothingExecutedWithoutLeave | services/trading-engine/app/engine.py:137-141 | in every run each executed order was granted with auto-trading on, or an operator approved its event in the run |
| Replicas.ExposureStaysAFraction | services/risk-engine/app/engine.py:47-85 | exposure stays in [0, 1] in every run of any number of risk handlers, reconcilers and trading handlers, interleaved at every await and cut short anywhere |
| Replicas.SecondReleaseCoversIff | services/trading-engine/app/reconcile.py:71-75 | two reconcilers releasing one closed position one after the other take its share twice; the rest of a covered book stays covered if and only if the ledger holds that share besides the book, or there is no rest |
| Replicas.TogetherReleaseOnce | services/trading-engine/app/reconcile.py:72-74 | had both read before either wrote, the share would be taken once |
| Ledger.DecidedFits | services/risk-engine/app/rules.py:77-78 | an approved fraction fits beside the exposure it was judged against |
| Ledger.MoveKeepsBalanced | services/trading-engine/app/engine.py:105-216 | every clean move keeps the ledger equal to what is charged and not released, and every tracked position's share charged |
| Ledger.CleanRunsStayBalanced | services/trading-engine/app/engine.py:105-216 | the ledger invariant holds after every clean run |
| Ledger.LedgerCoversBook | services/trading-engine/app/reconcile.py:52-75 | after every clean run the tracked fractions sum to at most exposure, which is at most 1, and the clamp of a release does not fire |
| Ledger.OperatorKeepsBook | services/trading-engine/app/engine.py:283-398 | closing, adjusting, ordering by hand and configuring leave the ledger's part of the state alone |
| LedgerGaps.ChargeIsExactIffCurrent | services/risk-engine/app/engine.py:47-85 | after a charge the ledger equals what is outstanding if and only if the exposure it read is still current |
| LedgerGaps.ReleaseIsExactIffCurrent | services/trading-engine/app/reconcile.py:72-74 | the same for a release, but for the case where both values are clamped to nothing |
| LedgerGaps.ChargeCoversIff | services/risk-engine/app/engine.py:47-85 | a charge keeps the ledger above what is outstanding if and only if the exposure it read has not grown since, and above the book if and only if what it overwrites is at most its own fraction and what is charged besides the book |
| LedgerGaps.ReleaseCoversIff | services/trading-engine/app/reconcile.py:72-74 | a release keeps the ledger above what is outstanding if and only if the exposure it read has not grown since, or nothing but the share released was in it; and above the book if and only if what it overwrites is at most what is charged besides the book, or the book is that one position |
| LedgerGaps.AbortedCloseUncovers | services/trading-engine/app/reconcile.py:71-75 | a sweep that dies after giving the exposure back and before untracking leaves the book covered if and only if events outside the book are charged at least that fraction |
| LedgerGaps.ApprovalExecutes | services/trading-engine/app/engine.py:218-256 | when guards and sizing let it through, approving a pending opportunity executes it whole, whether or not it was executed before |
| LedgerGaps.SecondApprovalOrdersAgain | services/trading-engine/app/engine.py:221-256 | such an approval sends three more orders and keeps the record pending; the event's orders stay one bracket if and only if there were none before |
| Brackets.OneBracketIff | services/trading-engine/app/engine.py:155-193 | in every run from the start, approvals and crashes included, an event's orders are a prefix of one bracket if and only if its entry was never sent while orders for it were out |
| Stranding.MoveStrandsIff | services/trading-engine/app/engine.py:105-216 | after a clean move from a balanced state a charged share, submitted or not, is stranded if and only if it was before, or the move is the charge of an approval that cannot be executed, the loss of its publication, a crash between mark and record, or a sweep forgetting its id; a stranded share stays charged in full |
| Stranding.RunStrandsIff | services/trading-engine/app/engine.py:105-216 | over every clean run a share ends up stranded if and only if it was at the start or some move of the run strands it |
| Stranding.StrandedStaysCharged | services/trading-engine/app/reconcile.py:48-75 | a stranded share stays stranded and charged in full in every clean run after, and exposure never drops below it |
| Stranding.SweepBetweenStrands | services/trading-engine/app/reconcile.py:52-57 | in every balanced state, a whole sweep between the tracking and the record of an execution strands its share, be it a delivery's or an approval's |
| Releasing.ExecutableIff | services/trading-engine/app/sizing.py:23-32 | an approval has a listed symbol, a share and a price if and only if some configuration and equity size it on a listed symbol |
| Releasing.ReleasedIff | services/trading-engine/app/reconcile.py:48-75 | some clean run gives a charged share back if and only if it is not stranded: recorded or about to be, or published or about to be and executable |
| Releasing.LostForGoodIff | services/risk-engine/app/engine.py:77-86 | after any clean run from the start, a share stays charged whatever clean run follows if and only if one of the four stranding moves was made for it |
| Witnesses.LostUpdateUncovers | services/risk-engine/app/engine.py:47-85 | a run from the start after which the book is twice the ledger |
| Witnesses.AbortedCloseUncoversTheBook | services/trading-engine/app/reconcile.py:71-75 | a run from the start after which a tenth of the portfolio is in the book and nothing in the ledger |
| Witnesses.StaleReleaseUncovers | services/trading-engine/app/reconcile.py:72-74 | a run from the start in which a release of a stale exposure leaves a second position in the book over an empty ledger |
| Witnesses.CrashStrandsShare | services/trading-engine/app/engine.py:155-216 | a run from the start for each of the six crashes that strand a share |
| Witnesses.SweepStrandsShare | services/trading-engine/app/reconcile.py:52-57 | a run from the start in which a sweep strands the share of a position that is then recorded |
| Witnesses.DroppedPublicationStrands | services/risk-engine/app/engine.py:79-82 | a run from the start in which a risk handler charges and dies before it publishes, and the share is stranded |
| Witnesses.UnlistedStrands | services/trading-engine/app/engine.py:118-120 | a run from the start in which a whole risk handler approves a symbol that is not listed, and its share is stranded |
| Witnesses.SecondApprovalReached | services/trading-engine/app/engine.py:218-256 | a run from the start that sends two brackets for one event |
| Reconciling.SweepOutcome | services/trading-engine/app/reconcile.py:48-75 | after a sweep tracked holds exactly the ids with a record whose pair is open, exposure is max(0, e - freed), nothing else changes and no order is sent |
| Reconciling.SweepInFull | services/trading-engine/app/reconcile.py:48-75 | what stays tracked, what is given back and what does not change, in terms of records and open pairs |
| Reconciling.ClosesAnnounced | services/trading-engine/app/reconcile.py:76-83 | a closing is announced once for each tracked record on a pair no longer open, with its symbol, side and size, and for nothing else |
| Reconciling.ClosedOnce | services/trading-engine/app/reconcile.py:76-83 | each closed id is announced exactly once, each other id never |
| Reconciling.SweepIgnoresOrder | services/trading-engine/app/reconcile.py:52-60 | two iteration orders of the tracked set leave the same state up to the order of the announcements |
| Reconciling.SecondSweepChangesNothing | services/trading-engine/app/reconcile.py:48-75 | a second sweep on the same snapshot is the identity |
| WholeHandlers.HandlerRuns | services/trading-engine/app/engine.py:91-141 | a handler given enough awaits returns with the effect of running it through |
| WholeHandlers.SweepRuns | services/trading-engine/app/reconcile.py:48-75 | an uninterrupted sweep, await by await, has the effect of the whole sweep and is clean |
| WholeHandlers.RiskEpisodeRuns | services/risk-engine/app/engine.py:40-86 | an uninterrupted risk handler is clean and charges exactly what it approves |
| WholeHandlers.DeliveryRuns | services/trading-engine/app/engine.py:91-216 | a delivery cut short after any number of awaits is clean |
| WholeHandlers.ApprovalRuns | services/trading-engine/app/engine.py:218-256 | an approval of an id not submitted, cut short after any number of awaits, is clean |
| WholeHandlers.SweepEpisodeRuns | services/trading-engine/app/reconcile.py:48-75 | a sweep started on a quiet system is clean and ends quiet |
| WholeHandlers.EpisodeIsClean | services/trading-engine/app/engine.py:105-108 | every episode, duplicates of a delivery and approvals included, is clean |
| WholeHandlers.WholeHandlersCoverBook | services/trading-engine/app/reconcile.py:52-75 | in every run of risk approvals, deliveries repeated or cut short, approvals of what is not submitted, and whole sweeps, the tracked fractions sum to at most exposure, which is at most 1, and the clamp of a sweep never fires |
| Orders.ExecutedAtMostOnce | services/trading-engine/app/engine.py:105-193 | without operator approvals the orders sent for an event are always a prefix of entry, stop, target of one grant, equal sizes, exits reduce-only on the other side, and FILLED only follows all three |
| Orders.ExecutedAtMostOnceIfMarkedOnce | services/trading-engine/app/engine.py:155-193 | in every run, approvals included, that marks no event twice, an event's orders are a prefix of one bracket |
| Orders.WithoutApprovalsMarksAreFirst | services/trading-engine/app/engine.py:105-108 | without approvals every mark in every run is the first of its event |
| Provenance.ExecutedOrdersRespectCaps | services/trading-engine/app/engine.py:110-141 | after any run, every executed order's grant is the approval on record under its id, the configuration in force when a handler of that approval loaded it and the equity that handler was answered; trading was enabled, the order is worth at most each of the three caps of these, the share of the portfolio rounded to the four places a fraction is kept to, while one contract step more would exceed them, and it is on the side of the direction |
| Provenance.WholeHandlersRespectCaps | services/trading-engine/app/engine.py:110-141 | after any run, a whole delivery or approval sends nothing, or the bracket sized for the approval on record under the caps then in force and the equity it is answered |
| Limits.KillSwitchIsTheLastCommand | services/trading-engine/app/runtime.py:43-66 | what a handler loads is what the last command on the switch set, and the default if there was none |
| Limits.StoppedAtGuards | services/trading-engine/app/guards.py:21-27 | a handler that starts, or reaches its guards, while trading is disabled sends no order |
| Limits.KilledMeansNoOrders | services/trading-engine/app/engine.py:110-115 | after any run whose last switch command disabled trading, no delivery, approval or manual order sends anything |
| Engines.RiskEngine.Handle | services/risk-engine/app/engine.py:40-86 | left alone it charges and publishes an approval exactly when the decision clears every gate, with the decision's data, the scaled share and the moved prices; otherwise it changes nothing |
| Engines.TradingEngine.CheckGuards | services/trading-engine/app/guards.py:21-27 | kill switch first, without taking a token, then the rate |
| Engines.TradingEngine.QueuePending | services/trading-engine/app/engine.py:145-153 | the opportunity is stored, listed and announced, and nothing is ordered |
| Engines.TradingEngine.Execute | services/trading-engine/app/engine.py:155-216 | the method has the effect of the eight modelled awaits |
| Engines.TradingEngine.Decide | services/trading-engine/app/engine.py:110-141 | guards, whitelist, sizing and the auto-trading gate, in that order, each with everything it changes, as the step machine takes them |
| Engines.TradingEngine.Handle | services/trading-engine/app/engine.py:91-141 | nothing for an event already submitted, else what is decided without an operator, key by key, as the step machine leaves it |
| Engines.TradingEngine.ApproveOpportunity | services/trading-engine/app/engine.py:218-256 | an approval leaves the state of the step machine, with guards and sizing re-run |
| Engines.TradingEngine.RejectOpportunity | services/trading-engine/app/engine.py:258-281 | a pending opportunity leaves the set and is announced rejected with the reason given |
| Engines.TradingEngine.ClosePosition | services/trading-engine/app/engine.py:283-299 | a known position gets one market order of its size, reduce-only on the other side; an unknown one nothing; nothing but the order log changes |
| Engines.TradingEngine.AdjustSltp | services/trading-engine/app/engine.py:302-349 | a known position gets a stop and a target at the prices given, each only if given, reduce-only on the other side for its size; an unknown one nothing |
| Engines.TradingEngine.ManualOrder | services/trading-engine/app/engine.py:345-390 | the order requested goes out, under the base ticker, if and only if trading is enabled, the rate not used up, the symbol listed in any notation and the value within the cap where a price is known; a token is taken exactly when trading is enabled |
| Engines.Reconciler.OnClosed | services/trading-engine/app/reconcile.py:71-83 | exposure drops by the position's fraction, not below 0; the id is untracked and CLOSED is published |
| Engines.Reconciler.Sweep | services/trading-engine/app/reconcile.py:48-60 | the loop over the snapshot has the effect of the modelled sweep |
| Control.SettingFieldsOverridesThem | services/trading-engine/app/runtime.py:61-66 | after setting fields the loaded configuration has those values and is otherwise as before |
| Control.EachFieldIsItsOwn | services/trading-engine/app/runtime.py:43-66 | each field set shows up as that field of the effective configuration and no other; with no record the defaults do |
| Control.WrittenDefaultsPinTheConfig | services/trading-engine/app/runtime.py:56-59 | once the defaults are written, later defaults no longer change what is loaded |
| Control.ControlHandler.WriteDefaultsIfAbsent | services/trading-engine/app/runtime.py:56-59 | writes the record only when there is none |
| Control.ControlHandler.SetFields | services/trading-engine/app/runtime.py:61-66 | the stored record is overlaid field by field |
| Control.ControlHandler.Handle | services/trading-engine/app/control.py:39-91 | each command makes of the effective configuration what it names and nothing else, or drives the engine, as modelled |
| Triage.NoEventIsLost | services/ai-worker-haiku/app/worker.py:98-119 | under every interleaving, absent failures, each folded event is being registered, pending, read by a flush after its write, or next in the running flush; a deletion never misses its key |
| Triage.SweeperFailureStrands | services/ai-worker-haiku/app/worker.py:117-129 | a sweep failing with a symbol in hand loses nothing if and only if the symbol is pending again, is being registered, or has no undecided event |
| TriageFailures.HandlerFailureStrands | services/ai-worker-haiku/app/worker.py:98-101 | a handler failing between its store write and its registration loses nothing if and only if the symbol is pending, or in the sweeper's hand and read after the event, or has no undecided event |
| TriageFailures.StrandedEventReached | services/ai-worker-haiku/app/worker.py:117-129 | for every first event of a symbol, a run from the start that folds it and leaves nothing that will show it |
| TriageFailures.RestartStrandsIff | services/ai-worker-haiku/app/worker.py:76-79 | a restart keeps every folded event in the store and strands the events of exactly the symbols with undecided ones |
| Workers.WriteErasesNothingIff | services/ai-worker-haiku/app/features.py:22-28 | a write erases no event if and only if, but for the fields it carries, the store is what its worker read |
| Workers.NeverErasedIff | services/ai-worker-haiku/app/features.py:22-28 | in every run of any number of workers, no event is ever erased if and only if every write meets the store it read, but for the fields it carries |
| Workers.ErasureReached | services/ai-worker-haiku/app/features.py:22-28 | for every symbol, field and value, a run from an empty store in which a second worker erases the first one's event |
| Triage.FoldHoldsLastValues | services/ai-worker-haiku/app/features.py:22-28 | what is stored for a key is the last value its symbol's events carried for it |
| TriageOutcomes.AnalysesAreFaithful | services/ai-worker-haiku/app/worker.py:110-129 | every analysis holds the last values folded by the time it read, has a price or liquidity and a sentiment, social or volume reading, shows the market's mood if known, and its window had been quiet for the settle time or open for the maximum delay when its flush began |
| TriageOutcomes.WindowsAreDated | services/ai-worker-haiku/app/worker.py:99-101 | in every run an open window was last refreshed when the last event of its symbol was registered and began when one was registered that found none open |
| TriageOutcomes.AnalysesCloseListedWindows | services/ai-worker-haiku/app/worker.py:110-129 | in every run the window an analysis closes was pending for its symbol when the flush it names began |
| TriageOutcomes.AtMostOneAnalysisPerWindow | services/ai-worker-haiku/app/worker.py:117-129 | analyses never outnumber closed windows, and at most one window of a symbol is open |
| TriageOutcomes.FlushMeetsDeadline | services/ai-worker-haiku/app/worker.py:110-122 | a window as old as the maximum delay when a flush begins has every event of it decided on when the flush ends |
| TriageWorker.FeatureStore.Update | services/ai-worker-haiku/app/features.py:22-28 | keys carrying a value are replaced, absent ones keep what was stored, no other symbol changes |
| TriageWorker.HaikuWorker.Handle | services/ai-worker-haiku/app/worker.py:81-101 | every event is folded and refreshes its window, whose beginning is kept; a market reading sets only the regime |
| TriageWorker.HaikuWorker.FlushSettled | services/ai-worker-haiku/app/worker.py:103-132 | a window stays open exactly when quiet for less than the settle time and younger than the maximum delay; each closed one is published, as stored and with the market's mood, exactly when it has a price or liquidity and a sentiment, social or volume reading |
| TriageWorker.HandlingAlone | services/ai-worker-haiku/app/worker.py:98-101 | the two-task machine, left to one handler, does to any event, market-wide ones included, what the method does |
| TriageWorker.FlushingAlone | services/ai-worker-haiku/app/worker.py:103-132 | the two-task machine, left to one flush from the listing of what is due, does what the method does |
| Cursor.RoundTripIff | services/api-gateway/app/events_cursor.py:19-32 | decoding an encoded cursor gives it back if and only if the time is aware and the id nonempty |
| Cursor.AcceptedIff | services/api-gateway/app/events_cursor.py:19-32 | a cursor is accepted if and only if its text before the first separator shows an aware time and a nonempty id follows; which of the other refusals it gets when |
| Cursor.NaiveMeansUtc | services/api-gateway/app/events_api.py:26-39 | a time without a zone is that instant in UTC; one with a zone is left as it is |
| Cursor.OwnCursorsAreAccepted | services/api-gateway/app/events_api.py:26-39 | a cursor made after attaching UTC is always accepted back and denotes the same instant |
| Cursor.FaithfulClockExists | services/api-gateway/app/events_cursor.py:19-32 | the assumptions on timestamp text can be met |
| Archive.EventArchiver.Handle | services/api-gateway/app/archiver.py:115-134 | the event's row goes to the market table for the three high-volume types, nowhere for the three kept elsewhere, to the signal table for every other; not if its instant and id are there or the write fails |
| Sorting.TextLessIff | services/api-gateway/app/events_api.py:54-57 | ids compare as text: a common beginning, after which the first ends or has the smaller character |
| Sorting.DescendingIsNewestFirst | services/api-gateway/app/events_api.py:82-101 | of two listed rows the later is older, or as old with the id that comes first as text |
| Archive.ArchiveHoldsEachKeyOnce | services/api-gateway/app/archiver.py:69-134 | archiving any sequence of events in which a key stands for one type keeps one row per key across both tables, each an event delivered and in the table of its type, and holds the key of every event archived at all |
| Archive.BoundedUnionIsExact | services/api-gateway/app/events_api.py:82-101 | limiting each branch before the union gives the same rows as limiting the sorted union |
| Pagination.ListEvents | services/api-gateway/app/events_api.py:43-117 | the page for the raw query parameters: at most the limit, only rows of the symbol in capitals and of the types named, or the refusal of a malformed cursor and only that |
| Pagination.FilterMeaning | services/api-gateway/app/events_api.py:68-79 | a nonempty symbol selects the rows of that symbol in capitals, types the rows of the types named, blank ones nothing less than all |
| Pagination.CaseDoesNotMatter | services/api-gateway/app/events_api.py:68-70 | symbols with the same letters in any case get the same page |
| Pagination.BlanksFilterNothing | services/api-gateway/app/events_api.py:71-79 | a parameter of blanks and commas filters nothing |
| QueryParams.ListedNamesAreWanted | services/api-gateway/app/events_api.py:72-79 | splitting a comma-separated list of proper names gives back those names in order, spaces around them or not |
| QueryParams.OnlyNamesAreWanted | services/api-gateway/app/events_api.py:72-79 | whatever the client sends, only nonempty, stripped names without a comma are compared with event types |
| Pagination.ClauseMeaning | services/api-gateway/app/events_api.py:50-81 | the conditions grown one by one select exactly the rows of the filter that are older than the cursor |
| Pagination.PageIsHead | services/api-gateway/app/events_api.py:106-117 | a page is the head of the listing, with a cursor exactly when rows are left, and that cursor points at its last row |
| Pagination.WalkListsEverything | services/api-gateway/app/events_api.py:43-117 | following cursors to the end while rows are inserted gives every selected row present at the start exactly once, strictly newest first |
| Pagination.WalkListsWhatIsAsked | services/api-gateway/app/events_api.py:43-117 | the walk of a client that names a symbol in any case and lists types by name gives exactly the rows of that symbol in capitals and of those types, each once and newest first |
| Pagination.FixedWalkIsListing | services/api-gateway/app/events_api.py:43-117 | on a fixed archive the pages concatenate to the sorted filtered union |
| Pagination.WalkOverDeliveries | services/api-gateway/app/archiver.py:115-134 | a walk with a page after each of any growing numbers of deliveries, duplicates included, lists every selected event archived before its first page, strictly newest first, none twice and none that was not delivered |
| Pagination.SharedKeyFallsBetweenPages | services/api-gateway/app/events_api.py:54-67 | of two rows sharing a key across the tables, a walk of one-row pages lists one and ends |
| WeightedMean.MeanWithin | services/decision-engine/app/scoring.py:397-412 | a renormalised mean lies between the least and the greatest present value |
| WeightedMean.RescalingChangesNothing | services/decision-engine/app/scoring.py:37-51 | scaling all weights and the floor by one positive factor changes neither the gate nor the mean |
| WeightedMean.FillingMovesToward | services/decision-engine/app/scoring.py:400-411 | one more present value moves the mean toward it and never past it |
| Scoring.SubScoresAreUnit | services/decision-engine/app/scoring.py:102-363 | every sub-score that exists is in [0, 1] |
| Scorecard.AxisIsMeasuredIff | services/decision-engine/app/scoring.py:102-363 | which readings make each axis present |
| Scorecard.CurvedAxes | services/decision-engine/app/scoring.py:102-150 | volume, social and trend by the reading that puts their curve at a given point |
| Scorecard.NewsIsHalfMood | services/decision-engine/app/scoring.py:120-143 | news is half impact and half mood, the mood the symbol's own or half the market's |
| Scorecard.LiquidityIsLogarithmic | services/decision-engine/app/scoring.py:153-162 | liquidity counts decimal orders of magnitude from a thousand to ten million |
| Scorecard.PositioningIsAverage | services/decision-engine/app/scoring.py:220-239 | positioning is the plain average of what is measured of funding, ratio and open interest |
| Scorecard.UnlockCosts | services/decision-engine/app/scoring.py:257-273 | an unlock costs its size, five percent being all, times its nearness, thirty days being none |
| Scorecard.FundamentalsIsAverage | services/decision-engine/app/scoring.py:242-281 | fundamentals is the plain average of what is measured of value locked, fees and the unlock |
| Scorecard.MomentumIsLogarithmic | services/decision-engine/app/scoring.py:340-353 | a pace between a third and three times the usual is placed on a logarithmic scale |
| Scorecard.FreshnessAndStars | services/decision-engine/app/scoring.py:300-363 | freshness fades evenly from a week to ninety days; two percent more stars is all |
| Scorecard.DeveloperIsWeighed | services/decision-engine/app/scoring.py:283-363 | developer activity weighs commits 40, pull requests 25, freshness 25 and stars 10 of what is measured; nothing when all is archived |
| Scoring.ScoreWithinReadings | services/decision-engine/app/scoring.py:366-412 | above the floor the score lies between 100 times the least and the greatest sub-score, rounded; always 0-100 |
| Scorecard.ScoreInFull | services/decision-engine/app/scoring.py:366-412 | above the floor the score is a hundred times the weighed mean of the present axes to the nearest point and the breakdown shows exactly these; under it there is no score, confidence or breakdown |
| Scoring.EvidenceIsAShare | services/decision-engine/app/scoring.py:37-51 | the weights sum to exactly 1, so evidence is a share |
| Scorecard.EvidenceInFull | services/decision-engine/app/scoring.py:37-51 | the evidence is the sum of the eight weights over the axes that are there |
| Scoring.ConfidenceIsAShare | services/decision-engine/app/scoring.py:415-428 | confidence is in [0, 1], never above the rounded evidence, and to three decimals the evidence less the news weight exactly when only the market's mood feeds that axis |
| Scorecard.EverythingIsFullConfidence | services/decision-engine/app/scoring.py:415-428 | everything measured, with news or sentiment of the symbol's own, is a confidence of 1.0 |
| Scorecard.OneMoreAxisRaisesConfidence | services/decision-engine/app/scoring.py:415-428 | measuring one more axis by a reading of the symbol's own raises confidence by that axis's weight, up to rounding |
| Scoring.ZeroConfidenceIsNoEvidence | services/decision-engine/app/scoring.py:400-428 | confidence is 0.0 if and only if the evidence is under the floor, if and only if the breakdown is empty |
| Scoring.MarketMoodDoesNotMoveConfidence | services/decision-engine/app/scoring.py:415-428 | two scored feature vectors differing only in the market's mood have the same confidence |
| Scoring.OneAxisIsNotEnough | services/decision-engine/app/scoring.py:175-199 | one axis alone never produces a score |
| Scoring.ScorablePairs | services/decision-engine/app/scoring.py:175-199 | two axes are enough except developer activity with fundamentals or with liquidity |
| Scoring.MeasuringOneMoreAxis | services/decision-engine/app/scoring.py:400-412 | measuring one more axis moves the score toward what it reads and never past it |
| Scoring.HigherReadingsNeverLowerTheScore | services/decision-engine/app/scoring.py:366-412 | the same axes with no lower readings give no lower score |
| Scoring.BetterReadingsNeverLowerTheScore | services/decision-engine/app/scoring.py:102-428 | with the same readings present and none of them worse, each in the direction its axis gives it, the score is no lower and evidence and confidence are the same |
| Scoring.PositioningIsContrarian | services/decision-engine/app/scoring.py:220-239 | less crowding or more engagement, where measured, never lowers the positioning axis |
| Scoring.MomentumIsSymmetric | services/decision-engine/app/scoring.py:283-353 | a pace and its inverse score symmetrically about one half, and a factor of three saturates |
| DecisionGate.DecisionEngine.OnAnalysis | services/decision-engine/app/engine.py:42-85 | one message per analysis of the stored dictionary at the present instant: a LONG decision with the score, confidence and breakdown exactly when the score reaches the threshold, else an audited rejection |
| DecisionGate.PositiveThresholdDemandsEvidence | services/decision-engine/app/engine.py:47-48 | with a positive threshold every published decision has evidence, confidence and a breakdown |
| DecisionGate.ModelScorerIsSane | services/decision-engine/app/scoring.py:366-412 | mapping and scorer give 0-100, and 0 whenever the confidence is 0.0 |
| FeatureMap.SameFeaturesIff | services/decision-engine/app/features_map.py:29-133 | a dictionary read at two instants gives the same features if and only if it holds no unlock date, the instants agree, or the date is past at both |
| FeatureMap.MarketKeysFeed | services/decision-engine/app/features_map.py:110-122 | each market, news and derivatives reading is the number stored under its own key |
| FeatureMap.ProjectKeysFeed | services/decision-engine/app/features_map.py:123-132 | each fundamental and development reading likewise |
| FeatureMap.LiquidityIsFed | services/decision-engine/app/features_map.py:29-48 | the measured liquidity, and the day's volume when that is missing or zero |
| FeatureMap.UnlockIsDated | services/decision-engine/app/features_map.py:51-94 | the unlock counts in days from the reference instant and is no reading once past |
| Histogram.HistogramCountsEntries | services/decision-engine/app/threshold_scan.py:219-222 | a range count on the histogram equals counting the series it was made from |
| Histogram.CountsGeAntitone | services/decision-engine/app/threshold_scan.py:219-222 | a stricter threshold never counts more |
| Histogram.ThresholdFor | services/decision-engine/app/threshold_scan.py:188-202 | the least threshold on the scale within the budget whenever 100 is within it, else 100 |
| Histogram.CalibratedAntitone | services/decision-engine/app/threshold_scan.py:188-202 | the threshold is determined by the budget and falls as the budget grows |
| Histogram.Percentile | services/decision-engine/app/threshold_scan.py:205-216 | the least value whose cumulative count reaches the rank; 0 on an empty histogram |
| Histogram.PercentileMonotone | services/decision-engine/app/threshold_scan.py:205-216 | a higher percentile is never a lower score |
| Histogram.PercentileWithinScores | services/decision-engine/app/threshold_scan.py:205-216 | up to 100 percent the answer never exceeds the greatest score |
| Histogram.PercentileInFull | services/decision-engine/app/threshold_scan.py:205-216 | on a series of scores, the least value at or under which that many percent of the entries lie |
| Replay.ScanWindow | services/decision-engine/app/threshold_scan.py:238-290 | the one-pass loop yields the summary of exactly the rows it read |
| Replay.Note | services/decision-engine/app/threshold_scan.py:259-273 | what a row adds before scoring: totals, day, presence, regime, bounds, analyst scores |
| Replay.Count | services/decision-engine/app/threshold_scan.py:274-289 | what a row's score adds: no evidence, or the two histograms and the best score of its pair |
| Replay.TalliesAreHistograms | services/decision-engine/app/threshold_scan.py:274-286 | the counters are the histograms of the rescored rows, and of those clearing the confidence floor |
| Replay.EveryRowIsAccountedFor | services/decision-engine/app/threshold_scan.py:259-289 | total equals unscored plus scored rows, and equals the rows by day |
| Replay.PresenceCountsKeys | services/decision-engine/app/threshold_scan.py:265-269 | each axis is counted on exactly the rows carrying its key |
| Replay.ProbesInFull | services/decision-engine/app/threshold_scan.py:56-65 | the key that attests each axis |
| Replay.DaysAndAnalystsInFull | services/decision-engine/app/threshold_scan.py:264-273 | each day has as many rows as the window has of it, and the analyst's scores are kept in order |
| Replay.BoundsAreEarliest | services/decision-engine/app/threshold_scan.py:262-271 | the bounds are the earliest row and the earliest row with a regime reading |
| ReplayAgreement.ReplayAnswersForTheGates | services/decision-engine/app/threshold_scan.py:219-289 | for thresholds 1-100 the histograms equal the live emissions, those passing the score floor, and those the risk engine lets past both floors |
| ReplayAgreement.ReplayAnswersForTheModel | services/decision-engine/app/threshold_scan.py:274-286 | the same for the mapping and the eight-axis scorer themselves, each row read at its own time, with no assumption left on them but the shape of the curves |
| ReplayAgreement.ReplayAnswersForTheLiveRun | services/decision-engine/app/threshold_scan.py:274-286 | the same with every row read live at its own instant, as long as no stored unlock date falls between that instant and the row's time |
| ReplayAgreement.ReplayAgreesIff | services/decision-engine/app/threshold_scan.py:219-222 | over all thresholds, histogram and live engine agree exactly in 1-100, at or below 0 when no row lacked evidence, above 100 when none scored 100 |
| ReplayAgreement.ThresholdZeroOvercounts | services/decision-engine/app/engine.py:47-48 | a single row without evidence is emitted at 0 and not counted |
| ReplayAgreement.RiskFloors | services/risk-engine/app/rules.py:67-70 | a published decision with a price and no blacklist entry gets past both floors exactly when confidence and score reach them |
| ReplayAgreement.BestAnswersEveryThreshold | services/decision-engine/app/threshold_scan.py:287-289 | the pairs whose best score reaches a threshold are the pairs with some row reaching it, for any threshold and row order |
| ReplayAgreement.BestIsPerSymbolAndDay | services/decision-engine/app/threshold_scan.py:286-289 | a symbol on a day reaches a threshold if and only if some scored row of that symbol on that day does |
| Proposal.Propose | services/decision-engine/app/threshold_scan.py:605-662 | the calibrated threshold, its per-day decisions, pairs and confident decisions, their percentage, and the ascending list of floors around it |
| Proposal.FloorsReported | services/decision-engine/app/threshold_scan.py:629-639 | the floors reported on: the threshold, five and ten points to either side on the scale, and the default of 70 |
| Proposal.PercentagesAreShares | services/decision-engine/app/threshold_scan.py:616-652 | every percentage of a report on replayed rows is between 0 and 100 |
| Proposal.ProposedRateIsLive | services/decision-engine/app/threshold_scan.py:613-615 | the proposed threshold is the least positive one whose live emissions keep to the target; at 0 exactly when unscored rows fit too |
| Proposal.EffectsAreLive | services/decision-engine/app/threshold_scan.py:640-652 | each reported floor shows the live counts, and each gate only removes rows |
| Reasons.CollapseIsIdempotent | services/api-gateway/app/funnel.py:114-120 | collapsing twice is collapsing once |
| Reasons.NumbersDoNotMatter | services/api-gateway/app/funnel.py:25-30 | two reasons differing only in one number set apart from its surroundings collapse to the same text |
| Reasons.NumbersAreDecimals | services/api-gateway/app/funnel.py:25-30 | the numbers are runs of digits, and runs of digits around one point, and nothing else |
| Reasons.PlainTextStays | services/api-gateway/app/funnel.py:114-120 | text without digits is left as it is |
| Funnel.MergeBlockReasons | services/api-gateway/app/funnel.py:123-139 | the accumulating loop yields the grouping in first-seen order, sorted biggest first |
| Funnel.ReasonBreakdown | services/api-gateway/app/systems_pipeline.py:538-547 | the same for one stage's rows |
| Funnel.BiggestFirstIsStable | services/api-gateway/app/funnel.py:135-139 | the sort is descending and keeps, for each count, the same entries in the same order |
| Funnel.GroupsInFirstSeenOrder | services/api-gateway/app/funnel.py:123-139 | before the sort the groups stand in the order their first rows came in |
| Funnel.DrawerAgreesWithFunnel | services/api-gateway/app/funnel.py:114-139 | one stage of the merged list is that stage's own breakdown, order included |
| Funnel.FunnelConservesRejections | services/api-gateway/app/funnel.py:123-139 | each stage and reason, and the whole, keep their totals |
| Funnel.Histogram | services/api-gateway/app/funnel.py:44-61 | every bar is there, with the counts of its buckets, perfect scores in the top one |
| Funnel.BarsOfTen | services/api-gateway/app/funnel.py:44-61 | a bucket counts in the bar whose ten points it is among, and in the top one from ninety on |
| Funnel.HistogramConservesSignals | services/api-gateway/app/funnel.py:44-61 | the bars add up to all counts of nonnegative buckets |
| PathSimulation.EarliestTouchSettles | services/api-gateway/app/journal_sim.py:35-67 | the earliest touched sample settles, the stop winning ties; an untouched path runs to its last sample; no data exactly for an empty path or a nonpositive entry |
| PathSimulation.SettlesWhereItTouches | services/api-gateway/app/journal_sim.py:35-82 | in prices, for either direction: which sample settles, how, when, and what gross and net percent it makes |
| PathSimulation.ExtendingKeepsSettlement | services/api-gateway/app/journal_sim.py:54-67 | later samples never change a stop or a target |
| PathSimulation.ShortMirrorsLong | services/api-gateway/app/journal_sim.py:54-82 | a short on the market reflected about the entry ends as the long does, with the same profit |
| Correlation.CauchySchwarz | services/api-gateway/app/journal_calibration.py:53-60 | the square of the sum of products is at most the product of the sums of squares, for any length |
| Correlation.PearsonInRange | services/api-gateway/app/journal_calibration.py:48-60 | the correlation is in [-1, 1] |
| Correlation.SharedInFull | services/api-gateway/app/journal_calibration.py:53-60 | the sum of products of deviations is that of the products less the product of the sums over the count |
| Correlation.PearsonInFull | services/api-gateway/app/journal_calibration.py:48-60 | the coefficient times the root of the product of the two spreads is that shared sum |
| Correlation.PearsonNoneIff | services/api-gateway/app/journal_calibration.py:50-58 | there is none exactly for fewer than two points, unequal lengths or a constant list |
| Correlation.PearsonSymmetric | services/api-gateway/app/journal_calibration.py:48-60 | the two lists may be swapped |
| Correlation.PearsonIgnoresUnits | services/api-gateway/app/journal_calibration.py:48-60 | shifting or positively scaling either list changes nothing |
| Correlation.PerfectCorrelation | services/api-gateway/app/journal_calibration.py:48-60 | a varying list correlates 1.0 with itself in any other unit |
| Correlation.Attribute | services/api-gateway/app/journal_calibration.py:63-85 | per factor, no number under twenty usable pairs or for a constant list, else the rounded correlation, in [-1, 1] |
| Correlation.UsableRowsPair | services/api-gateway/app/journal_calibration.py:63-85 | a further row adds its factor and its outcome when it has both, and nothing otherwise |

## Left out

- Kafka, Redis, Postgres, HTTP and LLM clients, logging, metrics, migrations, collectors and the frontend: state they hold is modelled as maps, sets and append-only sequences.
- Expiry of Redis keys (the submitted marks, the pending records, the features, the regime reading): nothing expires in the model.
- Event ids are serial numbers of the risk handler that raises them, so their uniqueness is built in rather than that of random identifiers.
- Several replicas beyond `Replicas.ExposureStaysAFraction`: the covering theorems have any number of risk handlers, one reconciler, one delivery and one operator command at a time; two reconcilers on one position are in `Replicas.SecondReleaseCoversIff`; triage's windows have one worker, its store any number (`Workers.NeverErasedIff`).
- Floating-point rounding: amounts are reals, stored fractions integers on the 1e-4 grid, decimal rounding is to the nearest grid point with ties to even.
- Sigmoid and logarithms are parameters with the shape stated in `Scoring.Plausible`; overflow of the exponential is not modelled.
- Engines.Platform.Allow: the rate window is one counter an action resets, because how the cache slides its window is not part of this model.
- Upper-casing of non-ASCII symbols, and blanks outside ASCII in the event types.
- Engines.TradingEngine.AdjustSltp: the cancellation of the previous order is not in the order log, which records what is sent.
- Engines.TradingEngine.ManualOrder: without a reference price the notional cap is not enforced, as in the code; manual orders are outside `Provenance.ExecutedOrdersRespectCaps`.
- The audit rejections the risk engine publishes, and correlation ids other than triage's: they carry no state.
- The second loop of the sweep, which only warns about positions the pipeline did not open.
- Retention deletes in the archive, and archive write failures, which drop a row with a warning.
- Timestamp text: the cursor needs a printer without the separator and a parser that inverts it.
- The parsing of the stored unlock date: it is the instant its text denotes, if any. A stored value of another kind than its key's is no reading in the model, where the code converts or raises.
- The query window of the scan, the refusals and day-volume warnings of the analysis, and its suggested number of days.
- Non-ASCII digits, which the pattern for numbers in reasons also matches, and rows whose reason is NULL.
- Conversion percentages, the cut to ten reasons and the payload shaping of the funnel; `calibrate` of the journal; regime voting, dossiers and health probing: easy members only.
- Correlation.Attribute: a factor or outcome that is not a number is an absent entry of the row.
