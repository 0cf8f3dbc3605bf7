# The paper-trading engine, verified

This project models the paper-trading engine as one persistent state machine and proves
that its independently written parts agree with each other.

The engine sizes an order from a target position, asks a risk gate, persists intent, order
and report in separate transactions, and lets a ledger fold fills into positions and cash.
A reconciler later recomputes everything from the persisted fills and compares. The model
keeps the two implementations apart, as the code does: the incremental one is a run of
committed writes (`Oms`, and in place `TraderOms`), the batch one is a replay
(`Reconciler`, and with its loops `ReconcilerRun`, which rebuilds fees by its own cost
functions). The main theorems connect them: over every run, clean if and only if released
(`Runs.IncrementalEqualsReplay`); over every run whose steps are cut off anywhere, in
agreement up to the first cut that is reported (`Runs.RunsAgreeUntilReported`,
`Reports.ReportCut`); and what is torn stays reported (`CashGap.ReportedStaysReported`).

## Layout

| files | what they hold |
|---|---|
| `Prelude`, `Sorting` | time, options, sums over tables, the sort the reconciler relies on |
| `Execution`, `Costs`, `Ledger`, `PaperAdapter`, `Planner`, `RiskGate` | the pure parts of the engine and the loops of the adapter and the gate |
| `Store`, `Oms` | the tables, their save rules, and every operation as a run of writes |
| `TraderOms`, `ControlPlane`, `ReconciliationService` | the same operations in place, as classes, proved to leave what those runs leave |
| `LedgerRuns` | what holds of every fill sequence: T+1, the accounting identity, release insensitivity |
| `Reconciler`, `ReconcilerRun`, `IssueCauses` | the batch replay: what it reports and why, and the loops that compute it |
| `LedgerAgreement`, `OrderAgreement`, `Agreement` | the invariant that ties tables to fills, and what the reconciler says about it |
| `Crashes`, `Marks`, `Reports`, `Submissions`, `Runs`, `Clocks`, `LateFills` | cuts between any two writes, from one fill up to whole runs, the clocks a run needs, and what becomes of a fill that is too early |
| `Unmasked`, `CashGap` | what happens to a reported cut later: order rows ahead of their fills, and the cash of torn fills |
| `Recovery` | what startup recovery leaves, row by row, and the clean check after it |
| `Intents`, `GateReasons`, `CallGate` | what intents and orders carry over from the call that planned them, and which check refuses a call |
| `AtMostOnce`, `Protection`, `Exposure`, `Pending`, `Caps` | properties over repeated, cut-off and protected submissions |
| `Walkthrough`, `Overnight`, `StaleIntent` | two concrete runs from the seed: a buy and its reconciliation the next day, and a breach of the caps |
| `StorageGrid`, `RoundedBooks`, `RoundedDrift`, `RoundingCase` | what the numeric columns round, booking on rounded rows, what the reconciler says about it, and a case |
| `Lease`, `Fencing` | the fencing lease, and submissions under it |
| `EquityCurve`, `Valuation` | the equity-curve sweep, and what its points are worth |
| `DedupGates`, `Baseline`, `Band` | the duplicate gates, the two strategies |

## Where the code does not keep a property

- A reconciliation dated after the last release reports drift on a healthy account: the
  replayed positions are released for the check date, the persisted ones are not. The exact
  condition is `Agreement.CleanIffReleased`; the check date is the wall clock's
  (apps/trader/reconciliation.py:256-264), so the first check after midnight is the case;
  `Overnight.OvernightReconciliationDrifts` is a run that shows it.
- A submission cut off between saving its intent and marking it submitted leaves an intent
  that the next call with the same signal executes as stored, not as planned and admitted.
  That breaks the promise of protective states (exactly when: `Pending.RaisesIffPendingBuy`)
  and the notional caps: from within them, a call leaves them if and only if it executes an
  intent that, filled, does not fit them (`Caps.CallKeepsCapsExactly`), which for market
  orders is always one left pending (`Caps.PendingBreaksCapsExactly`).
  `StaleIntent.StaleIntentBreaches` is a run from the seed in which it happens.
- Rows are stored with ten decimals; the code books each fill on the rows it reads back, the
  replay books on its own unrounded ones. After each of the fills the two accounts are equal
  if and only if no fill, position or balance of the replay has had more than ten decimals
  so far (`RoundedBooks.InStepIffStorable`), and exactly then the reconciler, run after each
  of them on an account with nothing else wrong, reports nothing
  (`RoundedDrift.NeverReportedIffStorable`). Being storable now is not enough: 100 shares at 10 and 200 at 10.01 leave an average of 3002 / 300, which is
  stored as 10.0066666667 and reported (`RoundingCase.SecondBuyIsReported`); after 100 more
  at 9.98 all the replay books would fit, and the account is still reported
  (`RoundingCase.ThirdBuyIsReported`).
- A balance stamped with the time of another is dropped, and one stamped earlier than the
  newest is not the newest. A fill the ledger takes leaves the tables in agreement if and
  only if it is later than the newest balance (`LateFills.FillAgreesExactly`, with one
  harmless exception), and from the seed on it is reported otherwise if it moves cash
  (`LateFills.LateFillIsReported`).
- The strategy's gate sits behind two returns, for a trader not ready and a paused strategy.
  A bar lost there makes it look back further than the collector's gate, and it refuses a
  bar as a duplicate that the collector let through exactly when enough have been lost
  (`DedupGates.RefusedBehindIffLost`): the key allowed right before a pause is refused right
  after it (`DedupGates.PauseMakesLastKeyRefused`). While nothing is dropped and its window
  is no longer, it refuses nothing (`DedupGates.TriggerGateRefusesNothing`).
- A baseline entry on a momentum equal to both thresholds is held with no momentum to spare
  (`Baseline.EntryAtExitThreshold`, exact in `Baseline.HeldBarsHaveMomentum`).

## Conventions

- One account and one exchange; symbols and assets are numbers standing for strings in
  string order, and the settlement asset CNY is asset 0.
- Quantities, prices and cash are exact reals. The 28-digit decimal context and the
  Numeric(28, 10) columns round; the columns are modelled in `StorageGrid` and the three
  files after it, and nowhere else. Fees are rounded as the code rounds them, half up at
  four decimals.
- Time is in microseconds of Shanghai time; a trade date is a whole number of days.
- Identifiers are injective: an order id is made from its intent, a fill id from its order
  and its place in the report. This stands for the name-based UUIDs; the random id of a new
  intent is a parameter that has to be new.
- Every save is one transaction, so a crash leaves a prefix of the writes.
- Clocks are free: a step of a run may be received before the stamps of earlier fills, and
  the venue's clock is a parameter of each submission. A run (`Runs.IsRun`) asks of a step
  only that the fills it writes are dated later than every balance written so far, each
  after the other, and not before a date released for. `Clocks.LaterVenueFits` gives a
  condition on the venue's clock alone under which every step does.
- Clocks, the venue's answer (a scenario), the lease verdict, the control state and the
  listing order of queries are parameters.

## Model

| member | source | states |
|---|---|---|
| `Runs.IncrementalEqualsReplay` | src/domain/reconciliation/service.py:83-245 | From a seeded account, after any run of submissions, cancels, cancel-alls and recoveries that each ran to their end with fills at increasing times, and whatever order the facts are listed in, the reconciler reports nothing if and only if every persisted position has been released for the date it checks |
| `Runs.RunsAgreeUntilReported` | apps/trader/oms.py:1070-1179 | The same run with every step cut off anywhere: the tables agree in every state up to some step, and if that is not the last, the step was cut off and the next state is reported, whatever date it is checked for |
| `Clocks.LaterVenueFits` | src/infra/exchanges/paper.py:264-345 | What a run asks of clocks: a venue clock less than a second behind the last balance, on no earlier date than the last release, makes any step one of a run; nothing is asked of when a submission was received |
| `Agreement.CleanIffReleased` | src/domain/reconciliation/service.py:202-209 | In any state whose tables agree with the fold of their fills: clean if and only if released. This is the exact condition under which incremental booking equals the replay; a check dated after the last release (a scheduled check after midnight) reports drift although nothing is wrong |
| `Overnight.OvernightReconciliationDrifts` | apps/trader/reconciliation.py:256-264 | The concrete case: an account seeded and fed one buy on day 0 by completed steps is reported on day 1, in whatever order its rows are read |
| `Overnight.SameDayReconciliationIsClean` | apps/trader/reconciliation.py:256-264 | The same account, checked on day 0, is clean |
| `Overnight.BuyIsBooked` | apps/trader/oms.py:500-860 | That run exists: the submission is admitted, filled and booked, and leaves 100 locked shares |
| `Runs.RunsAgree` | apps/trader/oms.py:500-860 | Every state of a run of completed steps, whatever their kind, agrees: positions and cash are the ledger's fold of the fills, every order row tells its fills, intents and idempotency keys lead to each other |
| `Runs.CrashAfterRun` | apps/trader/oms.py:1070-1179 | After any run, a crash between any two writes of the next step leaves the tables in agreement or is reported |
| `Runs.StepCut` | apps/trader/oms.py:862-1009 | The same for one step of any kind; a step that ran to its end leaves agreement |
| `Runs.SeedAgrees` | apps/trader/oms.py:1011-1068 | Recovery of an untouched account seeds one snapshot, dated at the start of the trade date, from which agreement starts |
| `Runs.RecoveryCut` | apps/trader/oms.py:970-1009 | Startup recovery of an agreeing account, cut off anywhere, keeps the agreement |
| `Recovery.RecoveredRunIsClean` | apps/trader/oms.py:970-1009 | When a run from its seeded account ends with a recovery for the date that is checked, the reconciler reports nothing: recovery removes the one thing the exact condition asks for |
| `Recovery.RecoveryFrees` | apps/trader/oms.py:970-1068 | What recovery writes, row by row: a position last touched before the trade date has all its shares sellable, every other row is as it was, and cash is seeded exactly when there is no balance, no fill, no working order and no open position |
| `Recovery.RecoveryReleasesAll` | apps/trader/oms.py:993-1001 | After recovery every position is released for its date |
| `Submissions.SubmissionCut` | apps/trader/oms.py:500-860 | Wherever the writes of one submission are cut off, the tables agree or the reconciler reports; a call that did not raise leaves agreement |
| `Submissions.LaunchCut` | apps/trader/oms.py:763-853 | The same from the order row on: gateway failure, contract rejection, partial fills and ledger refusals included |
| `Submissions.AdmitCut` | apps/trader/oms.py:585-593 | Saving the signal and releasing the position, cut off or not, keep the agreement |
| `Reports.ReportCut` | apps/trader/oms.py:1076-1131 | Crash detection, exactly: cut the writes of a report anywhere. From the second order update of a report with executions up to the last balance write it is reported, by an order row ahead of its fills or a fill without its balance; at every other point the tables agree |
| `Crashes.CutInsideFills` | apps/trader/oms.py:1095-1131 | Any cut among the fill writes leaves some number of whole fills booked and at most one torn |
| `Crashes.CutEventsAreReported` | src/domain/reconciliation/service.py:305-322 | With the order row ahead of its fills, every cut before the last balance is reported, and so is a fill the ledger refuses: order quantity and stale balance leave no gap between them |
| `Unmasked.AheadStaysReported` | src/domain/reconciliation/service.py:305-322 | Never masked: once an order row shows executions no fill backs, it does so and is reported in every later state of any run, with any cuts and any clocks |
| `CashGap.ReportedStaysReported` | apps/trader/oms.py:1070-1179 | A run whose steps are cut off anywhere agrees up to its first torn step, which is reported by an order row ahead of its fills or a fill without its balance; from then on it is reported in every state after an order row was left ahead, and in every state up to which the cash of the torn fills does not add up to nothing |
| `CashGap.GapIsTornCash` | apps/trader/oms.py:1095-1131 | Conservation over any run, cut anywhere: what the persisted fills account for and the newest balance does not show grows by exactly the net cash flows of the torn fills |
| `CashGap.ShortStaysReported` | src/domain/reconciliation/service.py:470-556 | In particular a gap keeps its exact size, and is reported, over steps that run to their end |
| `Marks.ShortIsReported` | src/domain/reconciliation/service.py:470-556 | A newest balance that differs from the first by anything but the net cash flow of all fills is always reported |
| `Marks.CutEventsAreLasting` | apps/trader/oms.py:1095-1131 | Wherever the writes of new fills are cut, the state is reported, and either the order row is ahead of the fills or the last fill row lacks its balance |
| `LateFills.FillAgreesExactly` | apps/trader/oms.py:1111-1131 | A new fill the ledger takes leaves the tables in agreement if and only if it is later than the newest balance, or moves no cash at the very time of an untouched seed |
| `LateFills.LateFillIsReported` | src/infra/db/repositories.py:376-391 | A fill from the seed on, but no later than the newest balance, is always reported if it moves cash: its balance is dropped, or is not the newest |
| `Crashes.OrderAheadIsReported` | src/domain/reconciliation/service.py:305-322 | An order whose filled quantity is not the sum of its persisted fills is always reported |
| `Crashes.FillAheadIsReported` | src/domain/reconciliation/service.py:538-556 | A fill row whose balance row is missing is always reported, whether the replay fails or runs ahead of the latest snapshot |
| `Reconciler.ReconcilerIsExact` | src/domain/reconciliation/service.py:83-245 | The reconciler reports nothing if and only if every order tells its intent and its fills (quantity, average, status), every fill has an order and the cost model's fee, the fills book onto the baseline, and persisted positions and latest balances are what that booking gives |
| `Reconciler.ReplayIsExact` | src/domain/reconciliation/service.py:117-187 | The replay is silent if and only if every fill books; then it is the ledger's own fold and its net-cash-flow total is the change in cash |
| `IssueCauses.IssuesTellWhatIsWrong` | src/domain/reconciliation/service.py:83-245 | Issue by issue, clean or not: an issue is reported if and only if an order contradicts its intent or its fills in the way it says, or a fill has the wrong fee, no order, or is refused by the ledger when its turn comes, or a position or latest balance differs from the replay in the way it says |
| `IssueCauses.AllOrderIssuesAreCaused` | src/domain/reconciliation/service.py:248-387 | The order issues, each with its cause: missing intent, any differing field of the instruction, filled quantity, overfill, average, and the status the fills ask for |
| `IssueCauses.AllPositionIssuesAreCaused` | src/domain/reconciliation/service.py:390-467 | The position issues: unbacked unless flat, missing, or different in anything but symbol and time of update |
| `IssueCauses.AllBalanceIssuesAreCaused` | src/domain/reconciliation/service.py:470-556 | The balance issues: unbacked, missing, different amounts, or older than the replay |
| `IssueCauses.WrongFillsAreNotBooked` | src/domain/reconciliation/service.py:117-187 | A fill reported as missing its order or as failed is not booked and not counted as replayed; every other is |
| `Agreement.SummaryTotalsAreSums` | src/domain/reconciliation/service.py:117-241 | The summary's commission, transfer fee, stamp duty, fee and cash-flow totals are sums over all fills in whatever order they were read, and every fill is counted as replayed or has an issue that says why not |
| `Reconciler.InstructionIsExact` | src/domain/reconciliation/service.py:270-300 | An order has its intent's instruction if and only if, with its progress wiped out, it is the order that intent would be given |
| `Reconciler.CleanReplayAccountsForCash` | src/domain/reconciliation/service.py:117-200 | A clean result accounts for every yuan: replayed cash is the baseline plus the reported net cash flow, over all fills |
| `Reconciler.AllOrderIssuesAreExact` | src/domain/reconciliation/service.py:248-387 | The order checks report nothing if and only if each order is consistent with its intent and fill totals |
| `Reconciler.PositionComparisonIsExact` | src/domain/reconciliation/service.py:390-467 | The position checks report nothing if and only if every symbol, on either side, agrees: all compared fields, or flat where nothing was replayed |
| `Reconciler.BalanceComparisonIsExact` | src/domain/reconciliation/service.py:470-556 | The balance checks report nothing if and only if every asset agrees and no latest snapshot is older than the replay's |
| `ReconcilerRun.ReconcilePaperState` | src/domain/reconciliation/service.py:83-245 | The loops over dictionaries and running totals compute those issues and the summary, and return none exactly when the facts are consistent |
| `ReconcilerRun.GroupFills` | src/domain/reconciliation/service.py:94-99 | Grouping and sorting fills by order keeps each order's quantity and notional totals |
| `ReconcilerRun.ReplayLoop` | src/domain/reconciliation/service.py:118-187 | The replay loop computes the replay fold |
| `ReconcilerRun.ScanBalances` | src/domain/reconciliation/service.py:108-116 | One pass over sorted snapshots finds the first and the last of each asset |
| `Sorting.SortRestores` | src/domain/reconciliation/service.py:97-99 | Sorting rows whose keys are distinct restores the one order they have, whatever order they were listed in |
| `ReconciliationService.TraderReconciliationService.RunOnce` | apps/trader/reconciliation.py:256-411 | One reconciliation of the service's own tables: drift exactly when they are inconsistent, on agreeing tables exactly when a position is unreleased; after drift or a failed load protection is on and only the reduce-only orders stay active; without drift nothing changes |
| `ReconciliationService.TraderReconciliationService.EngageProtectionMode` | apps/trader/reconciliation.py:364-378 | Protection mode on, then every active order cancelled but the reduce-only ones it spares |
| `LedgerAgreement.FillAgrees` | apps/trader/oms.py:1095-1131 | One more fill: the tables and the fold accept or refuse it together, and agree afterwards |
| `LedgerAgreement.ReleaseAgrees` | apps/trader/oms.py:1181-1217 | A release written to the position table keeps the agreement with the fold that never released |
| `LedgerAgreement.FillWritesAreABooking` | apps/trader/oms.py:1111-1131 | A new fill is written exactly as the ledger books it on the current account: fill, position, balance, or the fill row alone when the ledger refuses |
| `OrderAgreement.EventsAgree` | apps/trader/oms.py:1095-1131 | A sequence of new fills is booked in three writes each and the tables agree after it |
| `OrderAgreement.SliceEventsAddUp` | src/infra/exchanges/paper.py:264-369 | The fills of a report add up to the running totals of its slices |
| `Store.LatestSnapshotIsLatest` | src/infra/db/repositories.py:419-494 | The latest balance is a snapshot of the asset with the greatest snapshot time, and there is one whenever the asset has any |
| `Store.RecentIntentsAreExact` | apps/trader/oms.py:150-177 | The duplicate window holds exactly the symbol's intents created since, not rejected or expired, whose order, if there is one, is not closed |
| `Store.OpenPositionsAreExact` | src/infra/db/repositories.py:438-450 | The open positions are exactly the rows whose status says so |
| `Intents.RunsEraseNothing` | src/infra/db/repositories.py:216-391 | Over any run, cut off anywhere: signals, fills and snapshots are never changed, no row goes away, and no fill id and no snapshot time of an asset is there twice |
| `AtMostOnce.OneIntentOneOrder` | apps/trader/oms.py:701-720 | After any number of submissions, cancels, cancel-alls and recoveries, each cut off anywhere: at most one intent and one order per signal, and fills only under a submitted intent |
| `AtMostOnce.OneCallBooks` | apps/trader/oms.py:701-720 | Of all calls for one signal, whatever else happens between them, at most one ever writes a fill |
| `AtMostOnce.FillsAreBookedOnce` | apps/trader/oms.py:1095-1131 | Fill writes come as fill, position, balance, each fill new and no fill twice, and position and balance are the ledger's booking of that fill on the rows before it: once into position and once into cash |
| `AtMostOnce.SubmitOrderly` | apps/trader/oms.py:500-860 | In one call a fill is never among the writes before the intent is marked submitted, and a call that finds its intent submitted writes none |
| `Protection.QuantitiesNeverRise` | src/domain/risk/pretrade.py:361-398 | While every submission is made under the kill switch or protection mode, no symbol's quantity ever rises over any run of submissions, cancels and recoveries cut off anywhere, provided no intent was left waiting to buy |
| `Protection.ProtectiveSubmissionReduces` | src/domain/risk/pretrade.py:645-668 | Under a protective state every row a submission writes reduces: positions shrink and new intents sell |
| `Pending.RaisesIffPendingBuy` | apps/trader/oms.py:701-720 | Under a protective state a call raises its symbol's quantity if and only if it executes an intent that an earlier call of the signal left pending and that buys |
| `Pending.RetryIgnoresThePlan` | apps/trader/oms.py:704-705 | A retry executes the stored intent, whatever plan has just been admitted |
| `StaleIntent.StaleIntentBreaches` | apps/trader/oms.py:701-782 | The concrete breach, a run from the seed: a signal cut off behind its intent, another that brings the position to 400 shares, and a retry of the first, admitted under the kill switch as a sell of 100, buys 200 and leaves the caps |
| `Caps.CallKeepsCapsExactly` | src/domain/risk/pretrade.py:559-631 | The caps, exactly: from a state within them, a call leaves them if and only if it executes an intent that, filled at its price, is over the single-symbol limit or, with the market value of the others, over the account's |
| `Caps.PendingBreaksCapsExactly` | apps/trader/oms.py:701-720 | For a market order they are left if and only if the call executes an intent left pending that does not fit them |
| `Caps.NewIntentFits` | src/domain/risk/pretrade.py:559-631 | An intent newly planned and admitted always fits the caps |
| `Caps.CapsHoldThroughout` | src/domain/risk/pretrade.py:559-631 | In every state a run of market orders under the default scenario reaches, crashes included, each symbol and the account are within the policy's notional limits at the marks, as long as no retry finds a pending intent that does not fit |
| `Caps.CallKeepsCaps` | src/domain/risk/pretrade.py:559-631 | The same at every cut of one call |
| `Exposure.CallReprices` | src/infra/exchanges/paper.py:214-225 | At every cut of a call each symbol stands where it stood, but for the traded one, which may stand at the filled quantity and the execution price |
| `Exposure.GateCountsEverything` | src/domain/risk/pretrade.py:573-631 | The gate's account total is the market value of every other position plus the resulting notional of the traded one |
| `Runs.CancelAllLeavesReduceOnly` | apps/trader/oms.py:862-904 | Cancel-all accounts for every order it is asked to cancel, skips exactly the reduce-only orders a protective state spares, and leaves active exactly these |
| `Intents.CancelAllLeavesExactlySells` | apps/trader/oms.py:862-904 | Over any run from empty tables: cancel-all under the kill switch or protection mode leaves active exactly the active sells, and under any other state nothing |
| `Intents.RunsStayFaithful` | src/domain/execution/oms.py:66-95 | Over any run, cut off anywhere: every intent is reduce-only if and only if it sells and is never changed but for being marked submitted, every order asks for exactly what its intent asks for, every fill is of its symbol and side, and no order falls back or leaves a closed status |
| `Intents.NewIntentsCarryTheCall` | apps/trader/oms.py:701-720 | Every intent a call adds carries the stored signal, the call's order type, price, decision price, market and time, is reduce-only exactly when it sells, and is sized towards the target: never past it, never more than may be sold that day, less than one step short unless it sells out an odd lot. An intent that is there is only marked submitted |
| `CallGate.AdmittedCallReachesItsIntent` | apps/trader/oms.py:645-740 | A call that no check refuses gets as far as its intent, a new one if none is stored under the signal's key, and then its order; it fails before that only for a market order with a limit price |
| `CallGate.NewIntentIsLaunched` | apps/trader/oms.py:701-853 | A new intent is launched: behind the admission come the intent, its order, and the intent marked submitted once the venue has answered; when the venue raises, the order row again and nothing else |
| `CallGate.CallIsRefusedByFirstCheck` | apps/trader/oms.py:628-665 | The outcome of a call is the answer of the first check that refuses it, asked with the call, the stored signal, and the holding with the shares that may be sold that day |
| `CallGate.ContextCarriesTheCall` | apps/trader/oms.py:571-642 | That context, field by field |
| `CallGate.RefusedCallBooksNothing` | apps/trader/oms.py:645-700 | A call that any check refuses writes no intent, no order, no fill and no balance |
| `CallGate.LateBarBooksNothing` | apps/trader/oms.py:628-665 | A bar received a whole second later than the threshold and twice the timeframe allow books nothing, whatever else the call brings |
| `CallGate.RepeatIsRefused` | apps/trader/oms.py:611-642 | A call is rejected as a duplicate if and only if an intent in the window asks for the same, when no earlier check refuses, and then it books nothing |
| `CallGate.RepeatedCallRestoresTheOrder` | apps/trader/oms.py:704-720 | Repeating a call whose intent has been submitted books nothing more: it only puts back the order row if that was never written |
| `CallGate.AdmissionFreesShares` | apps/trader/oms.py:577-593 | An admission saves the signal, and the position exactly if shares of earlier dates become free |
| `ControlPlane.ControlStore.SetProtectionMode` | apps/trader/control_plane.py:445-457 | Protection mode outranks every other flag; switched off, the others decide again |
| `ControlPlane.ControlStore.SetKillSwitch` | apps/trader/control_plane.py:431-443 | The kill switch makes the state protective and never lifts protection mode |
| `ControlPlane.ControlStore.MarkCancelAllRequested` | apps/trader/control_plane.py:459-467 | A cancel-all request advances the token and leaves the control state alone |
| `ControlPlane.ControlStore.SetStrategyEnabled` | apps/trader/control_plane.py:417-429 | Pausing or resuming never changes a protective state |
| `TraderOms.TraderOmsService.Submit` | apps/trader/oms.py:500-860 | In place: a submission leaves the tables as the run of its writes leaves them, and ends as that run ends |
| `TraderOms.TraderOmsService.AdmitSignal` | apps/trader/oms.py:585-634 | Saves the signal, releases the position, plans and consults the gate |
| `TraderOms.TraderOmsService.ExecutePlan` | apps/trader/oms.py:701-853 | The intent under the idempotency key wins; a submitted one is only answered |
| `TraderOms.TraderOmsService.LaunchOrder` | apps/trader/oms.py:755-853 | Order, venue, submitted intent, report, in this order; a gateway failure, and nothing else, engages protection mode and leaves the order row |
| `TraderOms.TraderOmsService.ApplyExecutionReport` | apps/trader/oms.py:1070-1179 | All order updates, then fill by fill the fill, the position and the balance |
| `TraderOms.TraderOmsService.ApplyFillEvent` | apps/trader/oms.py:1095-1131 | One fill; one already persisted is skipped |
| `TraderOms.TraderOmsService.SaveSignal` | src/infra/db/repositories.py:216-224 | A signal already stored is kept and answered |
| `TraderOms.TraderOmsService.SaveNewIntent` | src/infra/db/repositories.py:237-258 | Under a known idempotency key the stored intent is answered and nothing written |
| `TraderOms.TraderOmsService.SaveOrder` | src/infra/db/repositories.py:271-291 | An order row may only move along the lifecycle |
| `TraderOms.TraderOmsService.SaveFill` | src/infra/db/repositories.py:304-320 | A fill id is stored once |
| `TraderOms.TraderOmsService.SavePosition` | src/infra/db/repositories.py:333-351 | One row per symbol, overwritten |
| `TraderOms.TraderOmsService.SaveBalance` | src/infra/db/repositories.py:376-391 | A snapshot of the same asset and time is not stored again |
| `TraderOms.TraderOmsService.GetLatestBalance` | apps/trader/oms.py:210-224 | The snapshot with the greatest snapshot time |
| `TraderOms.TraderOmsService.CancelOrderById` | apps/trader/oms.py:906-936 | Cancels an active order through the venue; a closed or unknown one is left alone |
| `TraderOms.TraderOmsService.CancelAllOrders` | apps/trader/oms.py:862-904 | Cancels the listed orders one after the other and counts them |
| `TraderOms.TraderOmsService.RecoverAccountState` | apps/trader/oms.py:970-1009 | Seeds a pristine account and releases every open position |
| `TraderOms.TraderOmsService.ReleasePositionForTradeDate` | apps/trader/oms.py:1181-1217 | Writes the released position only when the release changes it |
| `Oms.WritesKeepTablesValid` | src/domain/portfolio/models.py:50-96 | Every write of the service passes the record validators, so the tables stay valid under any run of them |
| `LedgerRuns.LockedIsBoughtOnLastDate` | src/domain/portfolio/ledger.py:41-65 | T+1 exactness: in every reachable state the locked quantity of a symbol is what was bought on the date of its last fill, no more and no less |
| `LedgerRuns.NeverSellsSharesOfTheDay` | src/domain/portfolio/ledger.py:166-182 | What is sold by the end of any date never exceeds what was bought strictly before it |
| `LedgerRuns.EquityIsInitialCashPlusPnl` | src/domain/portfolio/ledger.py:113-262 | Cash plus cost basis is initial cash plus realized P&L over all symbols; cash plus market value adds the unrealized; when all is flat, realized P&L is the change in cash |
| `LedgerRuns.CapitalIsConserved` | src/domain/portfolio/ledger.py:132-137 | Cash plus cost basis less realized P&L is the same after every accepted fill sequence |
| `LedgerRuns.BuyConserves` | src/domain/portfolio/ledger.py:113-156 | A buy turns cash into cost basis and pays its fee out of realized P&L |
| `LedgerRuns.SellConserves` | src/domain/portfolio/ledger.py:159-222 | A sell turns cost basis into cash and books the difference as realized P&L |
| `LedgerRuns.ReleasesAreInvisible` | src/domain/portfolio/ledger.py:41-65 | Release steps inserted anywhere in a run change neither what the ledger accepts nor, as of the clock's date, what it holds |
| `LedgerRuns.FillCannotTellReleases` | src/domain/portfolio/ledger.py:79-87 | A fill gives the same result, or the same refusal, on a position released before or not |
| `Ledger.ApplyFillKeepsPositionsValid` | src/domain/portfolio/models.py:50-72 | An accepted fill leaves a valid position of the same symbol, stamped with the event time |
| `Ledger.ApplyFillMovesCash` | src/domain/portfolio/ledger.py:225-262 | An accepted fill moves the balance by the net cash flow, keeps what is locked, and leaves it valid |
| `Ledger.FillIsTakenExactly` | src/domain/portfolio/ledger.py:68-262 | The ledger takes a fill if and only if it is of the position's symbol, sells no more than may be sold by then, and leaves no negative cash; quantity, sellable quantity and mark are then what the fill makes them |
| `Ledger.Release` | src/domain/portfolio/ledger.py:41-65 | Releasing keeps a position valid |
| `Costs.FeeSplittingBound` | src/infra/exchanges/paper.py:371-396 | For n slices the summed fees differ from the fee on the summed notional by at most half a quantum per rounding: two components on a buy, three on a sell, n + 1 roundings each |
| `Costs.QuantizeFeeRounds` | src/infra/exchanges/paper.py:440-441 | A quantized fee is on the four-decimal grid and within half a quantum, ties upwards |
| `Costs.QuantizeFeeIsUnique` | src/infra/exchanges/paper.py:440-441 | No other value is |
| `PaperAdapter.BuildCostBreakdown` | src/infra/exchanges/paper.py:371-396 | The adapter's charge: cash moves by the gross notional and the fee, the fee is the sum of its parts, stamp duty on sells only |
| `Reconciler.FillCost` | src/domain/reconciliation/service.py:35-59 | The reconciler's own rebuild of that charge from a persisted fill settles in the same way |
| `Reconciler.RoundFeeIsQuantizeFee` | src/domain/reconciliation/service.py:584-585 | The reconciler's own rounding of a fee is the adapter's |
| `OrderAgreement.RebuiltCostIsTheCharge` | src/domain/reconciliation/service.py:35-59 | For every fill the reconciler's rebuilt breakdown is, component by component, the one the adapter charges |
| `OrderAgreement.FillEventIsReplayable` | src/infra/exchanges/paper.py:290-345 | So every execution the adapter reports carries the fee and the cash flow the replay rebuilds |
| `PaperAdapter.ReportRefinesLifecycle` | src/infra/exchanges/paper.py:227-369 | A report is built without error exactly when its slices are positive, priced and within the order; then every update is accepted in turn by the order lifecycle and all order invariants |
| `PaperAdapter.FinalOrderTellsTotals` | src/infra/exchanges/paper.py:264-369 | The final order has the slice total, its average price, FILLED exactly when the total is the order quantity and CANCELED exactly when a remainder is cancelled |
| `PaperAdapter.ReportedUpdatesAreValid` | src/domain/execution/models.py:395-428 | Every update a report contains passes the update validators |
| `PaperAdapter.VenueRejectsExactly` | src/infra/exchanges/paper.py:75-98 | The venue rejects, with one update that fills nothing, exactly what has no market state, is suspended, out of session, priced outside the limits or not marketable, or is scripted to be rejected |
| `PaperAdapter.DefaultFillsWhole` | src/infra/exchanges/paper.py:214-225 | Without a script a tradable order is filled at once and whole, a market order at the decision price, a limit order at its limit |
| `PaperAdapter.ReportFillsTheSlices` | src/infra/exchanges/paper.py:264-345 | A report fills its slices one for one: identity, quantity, price, and one second after the one before |
| `PaperAdapter.AcceptableIsExact` | src/infra/exchanges/paper.py:264-300 | Slices are accepted if and only if every quantity and price is positive and together they do not exceed the order |
| `PaperAdapter.BuildExecutionReport` | src/infra/exchanges/paper.py:227-369 | The loop over slices with its running totals computes the report |
| `PaperAdapter.ExpandSlices` | src/infra/exchanges/paper.py:264-345 | The slice loop raises at the first bad slice, and otherwise keeps totals, updates and fills in step |
| `PaperAdapter.CancelRefinesLifecycle` | src/infra/exchanges/paper.py:100-129 | Cancelling an active order is accepted and keeps what was filled |
| `Execution.ClosedOrdersStayClosed` | src/domain/execution/models.py:81-97 | No accepted update leaves FILLED, CANCELED or REJECTED |
| `Execution.OrdersMoveForward` | src/domain/execution/models.py:81-97 | Over any accepted updates an order never falls back to an earlier stage, and a new order has no fill without an acknowledgement before it |
| `Execution.TransitionIsExact` | src/domain/execution/models.py:309-316 | A valid order takes exactly the transitions whose filled quantity and average fit the new status, not dated before its submission, and nothing else changes |
| `Execution.UpdateIsTakenExactly` | src/domain/execution/oms.py:136-165 | An update is taken if and only if it is the order's own and fits its lifecycle; the order then shows what the update says, and is otherwise as it was |
| `Execution.TransitionTo` | src/domain/execution/models.py:309-316 | A transition is legal and leaves a valid order, or is refused |
| `Execution.ApplyOrderUpdate` | src/domain/execution/oms.py:136-165 | An accepted update belongs to the order and keeps its identity and quantity |
| `Execution.CreateOrderFromIntent` | src/domain/execution/oms.py:107-133 | An order made from a valid intent is valid |
| `Planner.PlanStaysWithinTarget` | src/domain/execution/oms.py:193-305 | A plan never crosses the target nor exceeds what is sellable, and is reduce-only exactly when it sells |
| `Planner.PlanIsTheLargest` | src/domain/execution/oms.py:193-305 | Nor does it stop short: any whole number of steps of at least the minimum that fits is traded, at least |
| `Planner.SkipIsExact` | src/domain/execution/oms.py:193-305 | When there is no order, and why: target met, less than the minimum wanted, nothing sellable, or less than the minimum to sell and no odd lot to sell out |
| `Planner.OddLotIsSoldWhole` | src/domain/execution/oms.py:255-276 | Less than a lot is sold whole in one order exactly when the rule allows it and all of it is to go, and otherwise not at all |
| `Planner.ReplanningStops` | src/domain/execution/oms.py:173-305 | Replanning one target on one date with full fills gives at most two orders |
| `Planner.SecondOrderIsOddRemainder` | src/domain/execution/oms.py:255-276 | A second order is a sell of an odd remainder of less than one step |
| `Planner.FloorToStep` | src/domain/execution/oms.py:320-325 | Rounds down to a whole number of steps, less than one step away |
| `RiskGate.GateIsExact` | src/domain/risk/pretrade.py:157-280 | The gate allows an order if and only if it is admissible: data, session, control state, quantity, price, notional, duplicates and both limits |
| `GateReasons.FirstRefusalDecides` | src/domain/risk/pretrade.py:157-280 | The verdict, reason by reason: each of the 21 checks refuses on stated prices, times, quantities and rows alone, and the gate's answer is that of the first to refuse |
| `GateReasons.PassesIffNoneRefuses` | src/domain/risk/pretrade.py:157-280 | An order passes if and only if none of them refuses |
| `GateReasons.StaleIsExact` | src/domain/risk/pretrade.py:185-214 | When no earlier check refuses, market data is answered stale if and only if it was received at least one second later than the larger of the threshold and the whole seconds of two timeframes |
| `RiskGate.GateAdmitsOneOrderPerTarget` | src/domain/risk/pretrade.py:400-465 | Of one target on one date the gate admits at most one order: whatever else the context holds, its verdict on the second plan is a rejection |
| `RiskGate.ProtectiveAdmitsOnlyReductions` | src/domain/risk/pretrade.py:361-398 | Under a protective state an admitted plan sells part of what is sellable |
| `RiskGate.MultipleIsWhole` | src/domain/risk/pretrade.py:677-680 | The rounding step test holds of whole multiples only |
| `RiskGate.EvaluateOrder` | src/domain/risk/pretrade.py:157-280 | The checks one after the other give the gate's verdict |
| `RiskGate.CheckDuplicates` | src/domain/risk/pretrade.py:515-557 | The scan finds a duplicate exactly when a recent active intent of another signal asks for the same order |
| `RiskGate.SumOpenNotional` | src/domain/risk/pretrade.py:573-615 | The accumulating loop computes the account total, or finds a position without a price |
| `RiskGate.CheckNotionalLimits` | src/domain/risk/pretrade.py:559-631 | Single-symbol limit first, then the account's |
| `Lease.FencingIsPermanent` | apps/trader/control_plane.py:631-657 | A guard whose token has been issued and which has once been rejected is rejected at every later step of any interleaving of calls, at times that do not go back |
| `Lease.MismatchIsPermanent` | apps/trader/control_plane.py:631-657 | A token mismatch is final at any times, of the calls and of the checks |
| `Lease.ExpiryIsLiftedOnlyByEarlierTime` | apps/trader/control_plane.py:631-657 | A guard rejected for expiry is accepted again if and only if the row is the one it was rejected by and it is checked for a time before its expiry |
| `Fencing.WritersFollowTokens` | apps/trader/oms.py:549-583 | Lease calls and submissions in any order at any times: of two submissions that changed the tables the later one was made under no older a token, and under the same token by the same instance |
| `Fencing.FencedCallWritesNothing` | apps/trader/oms.py:549-583 | A guard the lease turns down writes nothing |
| `Lease.TokenNeverDecreases` | apps/trader/control_plane.py:477-549 | The token never decreases over any run |
| `Lease.TokenCountsTakings` | apps/trader/control_plane.py:477-549 | The token is the number of times the lease has been taken: it grows by one with each and by nothing else |
| `Lease.TokenHasOneOwner` | apps/trader/control_plane.py:477-629 | While a token stays, its owner stays or gives up: a token belongs to one instance for ever |
| `Lease.TakeoverFencesEarlierGuards` | apps/trader/control_plane.py:509-541 | After a take-over every guard issued before is answered with a token mismatch |
| `Lease.OneValidGuard` | apps/trader/control_plane.py:179-187 | At one time at most one guard is valid |
| `Lease.LiveLeaseExcludesOthers` | apps/trader/control_plane.py:477-629 | Exclusion over any calls: from a valid guard on, while every call comes before the expiry then standing and none releases the lease for its owner or takes the owner for dead, the guard is valid right up to the expiry, every other instance that asks is refused, and renewals and heartbeats of the holder move the expiry to their time plus ttl |
| `Lease.LeaseSurvivesExactly` | apps/trader/control_plane.py:477-629 | Before its expiry a lease survives a call if and only if the call is neither its owner's release nor another instance's acquisition over a dead owner |
| `Lease.RefusalIsExact` | apps/trader/control_plane.py:509-549 | An acquisition is refused if and only if a live lease of another instance stands whose process is not known to be dead |
| `Lease.AnswersTellTheRow` | apps/trader/control_plane.py:477-629 | What every answer leaves in the row: who is granted the lease has it until the call's time plus ttl, with the token raised exactly if it was taken |
| `Lease.AcceptanceIsExact` | apps/trader/control_plane.py:551-657 | A guard is valid exactly by owner, token and expiry; a heartbeat is accepted exactly under a valid guard |
| `Lease.LeaseStore.AcquireLease` | apps/trader/control_plane.py:477-549 | First lease, renewal, take-over of an expired, released or dead owner's lease, refusal |
| `Lease.LeaseStore.HeartbeatLease` | apps/trader/control_plane.py:551-591 | The conditional update extends the lease of its holder only |
| `Lease.LeaseStore.Release` | apps/trader/control_plane.py:593-629 | Only the owner releases, and with a token only under that token |
| `Lease.LeaseStore.ValidateSubmission` | apps/trader/control_plane.py:631-657 | Token first, then ownership and expiry |
| `StorageGrid.StoredIsExact` | src/infra/db/models.py:26 | A value comes back from its column unchanged if and only if it has at most ten decimals, and within half a unit otherwise |
| `RoundedBooks.InStepIffStorable` | apps/trader/oms.py:1111-1131 | Booking each fill on the stored rows and storing the result gives, after each of the fills, the account the replay gives if and only if no fill row, position or balance of the replay has had more than ten decimals |
| `RoundedDrift.NeverReportedIffStorable` | src/domain/reconciliation/service.py:83-245 | So an account that is reconciled after each of its fills is never reported if and only if none of the replayed bookings has a number of more than ten decimals |
| `RoundedDrift.FirstRoundingIsReported` | src/domain/reconciliation/service.py:390-556 | The first booking with more decimals is reported in whatever row order and on whatever date, since only averages, profits and cash can have them, and no release touches these |
| `StorageGrid.StoredPositionDrifts` | src/domain/reconciliation/service.py:390-467 | One exact position, stored once, is reported against itself if and only if one of its numbers has more than ten decimals |
| `StorageGrid.StoredAverageDrifts` | src/domain/reconciliation/service.py:338-360 | An executed order that tells its fills is reported if and only if its average price has more than ten decimals |
| `RoundingCase.SecondBuyIsReported` | src/domain/reconciliation/service.py:83-245 | The concrete case: an account with 100 shares bought at 10 and 200 at 10.01 is reported, in whatever order its rows are read and whenever |
| `RoundingCase.ThirdBuyIsReported` | src/domain/reconciliation/service.py:83-245 | After a third buy of 100 at 9.98 all the replay has booked for it fits ten decimals, and the account is still reported |
| `RoundingCase.SecondAccountPersists` | apps/trader/oms.py:1111-1131 | That account exists: its rows are what its fills leave on stored rows; its orders agree with them (SecondOrdersAgree) |
| `EquityCurve.BuildEquityCurve` | apps/api/control_plane.py:1921-2020 | The whole curve: nothing without snapshots, the snapshots without bars, else the sweep with the first value as baseline |
| `EquityCurve.Sweep` | apps/api/control_plane.py:1965-2011 | The cursor sweep equals the naive recomputation at every instant |
| `EquityCurve.ValueInstant` | apps/api/control_plane.py:1965-2004 | At one instant: latest cash at or before it plus what is held by then at its last close, or last trade price |
| `Valuation.EquityIsCashPlusHoldings` | apps/api/control_plane.py:1965-2011 | Equity is the latest cash at or before the instant plus, over everything held, quantity times the close of the last bar by then, or the price of the last trade while no bar has closed |
| `Valuation.HoldingsHaveValues` | apps/api/control_plane.py:1998-2005 | Everything held has such a price |
| `Valuation.CurveIsEquityOverTime` | apps/api/control_plane.py:1921-2020 | The whole curve: one point for each end of a bar from the first snapshot on, in order and no other, its value the equity then, its baseline the first value; without bars the snapshots themselves |
| `Valuation.HeldSinceLowest` | apps/api/control_plane.py:1971-1982 | What is held is what has come in on balance since the balance of buys and sells was last at its lowest |
| `EquityCurve.OnePointPerInstant` | apps/api/control_plane.py:1965-2011 | One point for each instant from the first snapshot on, in order, and no other |
| `EquityCurve.CursorCuts` | apps/api/control_plane.py:1966-1994 | In sorted rows what is at or before an instant is what lies before the cursor |
| `EquityCurve.AdvanceMarks` | apps/api/control_plane.py:1983-1991 | The per-symbol bar cursors and the mark dictionary stay in step |
| `EquityCurve.ConsumeTrades` | apps/api/control_plane.py:1971-1982 | The fill cursor and the held quantities stay in step, dropping what falls to zero |
| `EquityCurve.HoldingsFollowTheLedger` | apps/api/control_plane.py:1971-1982 | What the curve holds is what the ledger holds, whenever the ledger accepts the fills |
| `DedupGates.RefusedIffRecent` | src/domain/market/bars.py:186-204 | A final bar is refused as a duplicate exactly when its key is among the last capacity keys let through |
| `DedupGates.JudgementIsExact` | src/domain/market/bars.py:186-204 | A bar is let through exactly when it is closed and final and not among the last keys let through |
| `DedupGates.EmittedWindowsAreDistinct` | src/domain/market/bars.py:222-230 | Any capacity + 1 consecutive keys let through are pairwise distinct |
| `DedupGates.TriggerGateRefusesNothing` | apps/trader/service.py:119-133 | Behind the collector's gate the strategy gate refuses nothing, if it looks back no further and every bar collected has reached it |
| `DedupGates.RefusedBehindIffLost` | apps/trader/service.py:403-430 | With bars dropped while not ready or paused: it refuses a collected bar exactly when it allowed that key and, of the keys collected since, all but its capacity have been lost; which takes more lost ones than the difference of the two capacities |
| `DedupGates.PauseMakesLastKeyRefused` | apps/trader/service.py:403-430 | However long a pause, the key allowed right before it is refused right after it, if the collector has let it through again |
| `DedupGates.PausedBarMakesTheNextRefused` | apps/trader/service.py:403-430 | One bar dropped in a pause, both capacities 1: the next bar let through by the collector is refused |
| `DedupGates.FinalBarGate.Process` | src/domain/market/bars.py:186-204 | Queue, set and latest bar per stream follow the window |
| `DedupGates.FinalBarGate.NextExpectedBarStart` | src/domain/market/bars.py:210-220 | Backfill resumes one timeframe after the latest bar let through |
| `DedupGates.LastFinalIsLast` | src/domain/market/bars.py:206-220 | The latest bar kept for a stream is the one let through on it that no later one let through on it follows |
| `DedupGates.BarTriggerGate.Allow` | apps/trader/service.py:119-133 | Queue and set follow the window |
| `DedupGates.Evict` | src/domain/market/bars.py:228-230 | Eviction keeps the set the contents of the queue |
| `Baseline.StateTellsTheBars` | src/domain/strategy/baseline.py:170-328 | Over any bars the target is none, reduced or full; while held the peak is the highest close since entry, the entry price the first, and the last close is strictly above the trailing stop |
| `Baseline.ExitsAreExact` | src/domain/strategy/baseline.py:210-266 | While held the strategy leaves exactly when the close is at or below the stop of the highest close since entry, or momentum at or below the exit threshold |
| `Baseline.EntriesAreExact` | src/domain/strategy/baseline.py:268-299 | While flat it enters exactly when momentum reaches the entry threshold with the trend confirmed, at full size exactly when momentum is strong |
| `Baseline.ExitsInPrices` | src/domain/strategy/baseline.py:210-266 | The same exits in prices: at or below the highest close since entry less the stop, or the previous close plus the exit threshold, once enough bars count |
| `Baseline.EntriesInPrices` | src/domain/strategy/baseline.py:268-299 | The same entries in prices: the close the threshold above the previous close, the look-back window ending above its start with enough rising bars; full size from the strong threshold on |
| `Baseline.HistoryIsTheLookback` | src/domain/strategy/baseline.py:170-200 | The history is the last closes of the bars that count, whatever was signalled on them |
| `Baseline.HeldBarsHaveMomentum` | src/domain/strategy/baseline.py:239-268 | A bar held or entered on has momentum above the exit threshold, except exactly an entry on a momentum equal to both thresholds |
| `Baseline.EntryAtExitThreshold` | src/domain/strategy/baseline.py:268-299 | That exception occurs: a concrete entry on momentum equal to the exit threshold |
| `Baseline.BaselineMomentumStrategy.Process` | src/domain/strategy/baseline.py:170-328 | One bar updates the state of its symbol and no other |
| `Band.EntriesAndExitsAlternate` | src/domain/strategy/rule_based.py:95-197 | Entries and exits strictly alternate, starting with an entry, and no exit falls on the known trade date of its entry |
| `Band.BandSignalsAreExact` | src/domain/strategy/rule_based.py:108-183 | Out of the market it enters exactly at or below the band's lower edge; in it, it leaves exactly at or above the upper edge on any date but the entry's |
| `Band.BandSignalsInPrices` | src/domain/strategy/rule_based.py:108-183 | The same in sums: the close times the window against the sum of the window's closes, less or plus the band's share |
| `Band.HistoryIsTheWindow` | src/domain/strategy/rule_based.py:99-101 | The history is the last window closes of actionable bars |
| `Band.WarmUpIsSilent` | src/domain/strategy/rule_based.py:103-108 | Nothing is signalled before the window is filled |
| `Band.MovingAverageBandStrategy.Process` | src/domain/strategy/rule_based.py:95-197 | One bar updates the state of its symbol and no other |

## Left out

- Runs.IncrementalEqualsReplay: asks that the fills of a run are dated strictly later than the balances before them and not before a date released for, and that the check is not dated before the last booking; that agreement ends where they are not is `LateFills.FillAgreesExactly`, for fill times.
- Submissions.SubmissionCut: the same condition on the fills of the one call.
- Caps.CallKeepsCapsExactly: submissions under the default full-fill scenario; a custom scenario may name any price.
- Caps.PendingBreaksCapsExactly: market orders only; a limit order is sized at the decision price and filled at its limit, so a new one may leave the caps too, exactly as `Caps.CallKeepsCapsExactly` says.
- Protection.QuantitiesNeverRise: one direction over whole runs; `Pending.RaisesIffPendingBuy` is the exact statement for one executed call.
- CashGap.ReportedStaysReported: torn fills whose cash adds up to nothing are reported when they happen, but not for certain later; nor is a torn fill that moves no cash, once another balance has been written.
- IssueCauses.IssuesTellWhatIsWrong: which issues are reported, not in which order.
- LateFills.LateFillIsReported: fills from the seed on; one stamped before the first balance would become the baseline.
- RoundedDrift.NeverReportedIffStorable: fill by fill on the ledger's rows; columns are not rounded in the runs of submissions, where an order's average is rounded too (`StorageGrid.StoredAverageDrifts`). Signals, intents and prices are taken as they are read back.
- RoundedBooks.InStepIffStorable: the 28 significant digits of the decimal context are not modelled, only the columns' scale.
- AtMostOnce.FillsAreBookedOnce: speaks of the fill writes of one report; that no second call writes any is `AtMostOnce.OneCallBooks`.
- TraderOms.TraderOmsService.LaunchOrder: a gateway failure engages protection mode; the protection engaged when a write to the database fails is left out, as a failed write is a cut.
- Lease.FencingIsPermanent: whether the owner is a dead process of the same host is an arbitrary answer given with each call, not computed from process tables.
- The runtime around the lease (`TraderControlRuntime.refresh`, `submission_guard`): it only caches the snapshot that the guard is built from; every guard is validated against the store.
- The `current_position` override of `submit_signal`: no caller in the repository passes it; the stored position is used.
- A submission guard of another account: with one account it cannot occur.
- Event-log rows, audit and reason strings, observability events and degraded-mode payloads, and the rows written between the modelled ones for them.
- Exchange order ids and exchange fill ids, liquidity flags, error codes on orders, time in force, trader run ids.
- Why loading the facts of a reconciliation fails: that it did is a parameter of `RunOnce`.
- Interleaving at await points (the reconciliation loop, or a change of the lease, between two writes of a submission): a modelled step runs to its end or is cut off; lease calls and submissions are interleaved whole (`Fencing`).
- The HTTP service, the MCP server, the front end, the command line, the market-data gateways, notifications, language-model judges, migrations, and the backtest service: input and output around the engine.
- Collector checkpoints, bus and task lifecycles: they depend on a scheduler that is not part of this model.
