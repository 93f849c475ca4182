# Verified models of the trading engine's bookkeeping and control loops

The repository is a trading system in two halves: a Rust engine (`rtts`) that scores signals, tracks executions and
controls resting orders, and a Go control plane (`control-plane`) that stores orders, gates them by risk and talks to
the exchange. This project models the parts whose correctness cannot be seen by reading one function and proves what
holds of them over every input, every run or every interleaving:

- **Lot accounting** (`Ledger`, `LedgerConservation`, `LedgerRuns`, `LedgerTheorems`, `LedgerRecords`, `LedgerEngine`). A fill
  is matched against open lots, first-in or last-in first, and fees, rebates and funding are spread pro rata. The laws
  are exact: whatever the two 1e-12 cut-offs and the clamps at zero drop is carried as a tracked loss, whose size is then
  bounded. The cut-off is a parameter `eps`, so the laws hold of the program's value and of zero alike.
- **Statistics** (`KolmogorovSmirnov`, `OnlineMoments`, `EdgeValidation`, `EdgeLaws`, `Markout`). Two merge walks over
  sorted samples, a one-pass moment update, rolling windows with a streak counter, and a queue of fills waiting for later
  prices; each is proved against a plain mathematical definition, and the figures drawn from them against what they are to mean.
- **Orders and reconciliation** (`Store`, `FillAccounting`, `ReconciliationCheck`, `SubmitProtocol`, `SubmitTerms`,
  `BootReconcile`). Every store method is one atomic step; `Submit` is a sequence of such steps which other calls and
  asynchronous exchange updates interleave with arbitrarily.
- **Control loops** (`RiskCircuit`, `RiskGate`, `OverlappingSends`, `Feedback`, `RiskService`, `Gateway`, `OrderQueue`,
  `OrderController`, `ControllerLaws`, `Reversal`). State machines with run-level invariants, and classes proved step by
  step against them.

Objects that the program updates in place are classes whose methods are proved against pure transition functions; the
laws are lemmas about runs of those functions, and what each function computes is pinned down by laws in figures of their
own: shares, signs, ends and exact conditions. Floating-point numbers are exact reals. `u32` and `u64` counters saturate
or wrap as the program's do. `dafny verify dfyconfig.toml` checks everything.

## Where the code does not do what one would expect

Each of these is a lemma with the exact condition, or a concrete input.

- A lot's funding, fee and rebate are clamped at zero after a match, so funding received (a negative amount) is lost
  when the lot is closed in parts (`ClampsKeepCashIff`, `FundingReceivedIsLost`), and FIFO and LIFO then need not agree
  (`FifoLifoAgreeIff`, `ReceiptsDisagree`).
- `apply_fill` stores only the fill's own symbol's unrealized PnL once that symbol has a mark (`FillStoresTotalIff`, and
  `FillForgetsOtherSymbol` for a reachable account).
- The element-at-a-time Kolmogorov-Smirnov walk answers at least 1/n when a sample is compared with itself
  (`SelfComparison`).
- The store's average price is skipped when the new filled quantity is not positive (`AverageKeptIff`). The stream client
  builds fills of positive quantity only (`control-plane/internal/execution/bingx/ws.go:146`); the boot pass takes over
  whatever quantity the exchange's fill list holds (`control-plane/internal/execution/bingx/account.go:106-118`).
- A position keeps its old average when a fill carries it through zero (`FillAverageIff`, `PositionAverageIff`).
- A fill that arrives while `Submit` waits for an exchange call that then fails is erased from the order, though not from
  the ledger (`RejectedSubmitForgetsFill`; `FilledIsSum` and `UpdateKeepsFilledIff` for exactly when).
- The reconciliation flag can be raised while the two logs name different orders (`TinyExecutionHidesMismatch`). The three
  producers in the repository build both records of a fill for one order and quantity, for which it cannot
  (`AgreeingPairsMatch`); it takes an exchange client whose steps pair a ledger entry with another order's event, which
  `applyStep` passes on unchecked.
- The boot pass recovers only the first fill of an order, adds missing fills on top of positions that already contain them,
  and its report is always marked as matched (`OnlyFirstFillRecovered`, `MissingFillCountsTwice`, `PassDriftsBySum`,
  `Reconcile`).
- One failed send opens the risk circuit for good when calls do not overlap (`FailureLatches`, `ServiceLatches`), and when
  at most seven others are in flight (`LatchOutlastsSeven`). With more in flight, eight successes reopen it if stress and
  regime allow (`CircuitOpenIff`, `EightReopen`).
- An order without a price is checked against the latest mark of any symbol (`CheckedAtOwnMarkIff`, `WithinOwnLimitIff`,
  `CheckedAtAnotherMark`).
- The order controller overwrites the touch it has just recorded, so inside the event loop it never reprices, and every exit
  of a sell order is sent at price zero (`LoopNeverReprices`); an abort is undone by a later order event that is not terminal
  (`AbortSilentIff`).
- The order controller can never decide to switch to the defensive strategy, so an order is defensive exactly when it was
  taken on so (`NeverDefensive`, `DefensiveIffTakenOn`); and an order not expected to fill within its half-life is switched
  to aggressive even where its slippage asks for passive (`SwitchesIff`).
- The bar of 1.30 on the t-statistic of a valid edge never decides: the confidence interval already asks for 1.96 where PnL
  varies (`ValidIff`, `IntervalIffT`). The reliability of edge validation is never above 0.95 (`ReliabilityFalls`).
- The markout tracker's grace period never decides either (`GraceNeverDecides`).
- The risk gate lets no order pass that expects a loss unless it only reduces (`LoopExpectsGain`), or an execution event has
  reported a negative adverse selection, which lowers the threshold below zero (`ServiceExpectsGain`,
  `NegativeAdverseAdmitsLoss`).
- The reversal watcher's fall-backs for price and time are dead in the event loop (`ArmingReadsLatestFrame`).

## Model

| member | source | states |
|---|---|---|
| Ledger.MatchFrom | rtts/src/accounting/ledger.rs:179-220 | the match loop makes at most as many matches as there are open lots, and entries plus remaining lots never exceed the lots by more than one |
| LedgerConservation.SettleConserves | rtts/src/accounting/ledger.rs:192-205 | one settlement neither creates nor destroys quantity, price cash, fees or funding: entry, edited lot and clamp loss together equal the old lot plus the matched share of the fill |
| LedgerConservation.MatchConserves | rtts/src/accounting/ledger.rs:179-220 | over a whole match loop, realized entries, remaining lots, unmatched remainder and tracked loss add up to what was there before |
| LedgerConservation.FillConserves | rtts/src/accounting/ledger.rs:166-237 | a fill only moves amounts between itself, the lots and the realized entries; exactly the tracked loss goes missing |
| LedgerConservation.LostQuantity | rtts/src/accounting/ledger.rs:179-222 | one fill loses at most the cut-off in quantity, whatever the fees |
| LedgerConservation.LostNet | rtts/src/accounting/ledger.rs:179-222 | with non-negative amounts one fill loses at most the cash that a cut-off's worth of units stands for |
| LedgerConservation.PnlIsNet | rtts/src/accounting/ledger.rs:198-214 | the realized PnL of a batch is the net cash of its entries |
| LedgerRuns.RunConserves | rtts/src/accounting/ledger.rs:96-237 | after any run of fills and marks over any symbols, realized entries plus open lots plus tracked loss equal what the fills brought, in quantity, cash, fees and funding separately |
| LedgerRuns.TotalsAgree | rtts/src/accounting/ledger.rs:96-104 | the account's running realized, fee, rebate and funding totals are those of its entries and of the fills |
| LedgerRuns.CashLaw | rtts/src/accounting/ledger.rs:96-253 | realized PnL less open cost, open fees and funding, plus open rebates, equals the fills' net cash less the tracked loss |
| LedgerRuns.RunLossBound | rtts/src/accounting/ledger.rs:179-222 | over n fills with no negative amounts the tracked loss is at most n cut-offs' worth of cash, hence zero when the cut-off is zero |
| LedgerRuns.NetQuantityTracks | rtts/src/accounting/ledger.rs:135-164 | after n fills of a symbol its net quantity is within n cut-offs of their signed sum |
| LedgerTheorems.RunOneSided | rtts/src/accounting/ledger.rs:166-237 | in every reachable account each symbol's lots are all on one side |
| LedgerTheorems.ReachableBook | rtts/src/accounting/ledger.rs:280-289 | reachable lots are one-sided with more than the cut-off left, so the search stops at the first (FIFO) or last (LIFO) lot or finds none, and the size of the net quantity is the gross quantity |
| LedgerTheorems.MarkedTotal | rtts/src/accounting/ledger.rs:121-125 | right after a mark, with every open symbol marked, realized plus unrealized PnL is net cash plus positions at mark plus fees and funding still open, less the tracked loss |
| LedgerTheorems.FillStoresTotalIff | rtts/src/accounting/ledger.rs:105-111 | a fill leaves the account's unrealized PnL equal to the total exactly when its symbol is unmarked or the other marked symbols add up to nothing |
| LedgerTheorems.FillForgetsOtherSymbol | rtts/src/accounting/ledger.rs:105-111 | a reachable account, for any two symbols, that stores 0 where the total is 10 |
| LedgerRuns.LossBeyondIgnored | rtts/src/accounting/ledger.rs:179-222 | beyond what fills at or below the cut-off carry, which every matching order ignores alike, n fills lose at most n cut-offs' worth of cash; only the other fills need be free of negative amounts |
| LedgerTheorems.FifoLifoQuantity | rtts/src/accounting/ledger.rs:280-289 | under the same events, whatever they carry, FIFO and LIFO net quantities differ by at most two cut-offs per fill |
| LedgerTheorems.FifoLifoAgree | rtts/src/accounting/ledger.rs:280-289 | and their realized PnL with open cost and residues agrees, at every prefix, up to both runs' losses |
| LedgerTheorems.FlatTogether | rtts/src/accounting/ledger.rs:166-237 | with no cut-off a symbol is flat under FIFO exactly when it is under LIFO |
| LedgerTheorems.FifoLifoFlat | rtts/src/accounting/ledger.rs:166-237 | with no cut-off, and no negative amounts on fills that trade something, they agree exactly at every prefix, and once every position is flat under one of them their realized totals are equal |
| LedgerTheorems.FifoLifoAgreeIff | rtts/src/accounting/ledger.rs:166-237 | whatever the fills carry, realized PnL with open cost and residues agrees exactly when both runs lose the same |
| LedgerTheorems.ReceiptsDisagree | rtts/src/accounting/ledger.rs:202-205 | two lots, one with funding received, on which they do not: selling a part loses 5 under FIFO and nothing under LIFO |
| LedgerTheorems.ClampsKeepCashIff | rtts/src/accounting/ledger.rs:202-205 | a match keeps cash exactly when the lot is matched whole or its negative amounts balance |
| LedgerRecords.LedgerIsFills | rtts/src/accounting/ledger.rs:96-119 | the ledger is every fill of the run, whole and in order |
| LedgerRecords.MatchRecords | rtts/src/accounting/ledger.rs:192-214 | one match adds to its lot what its entry records, labels the entry with the fill, the match number and the fill's time, and keeps the lot's side, price and size |
| LedgerRecords.RunAttributed | rtts/src/accounting/ledger.rs:192-220 | over every run each realized entry belongs to one fill of the ledger: entries follow the fills, carry their order, fill id and time, and those of one fill are numbered from 0 without a gap |
| LedgerRecords.EntriesDistinct | rtts/src/accounting/ledger.rs:206-214 | when no two fills share order and fill id, no two realized entries share order, fill id and match number |
| LedgerRecords.LotsTraceToFills | rtts/src/accounting/ledger.rs:222-237 | every lot open after any run is what is left of one of the run's fills: of its symbol, on its side, at its price, opened for at most its quantity |
| LedgerEngine.FundingReceivedIsLost | rtts/src/accounting/ledger.rs:205 | a concrete half-closed lot with 10 of funding received loses 5 |
| LedgerEngine.AccountingEngine.constructor | rtts/src/accounting/ledger.rs:89-94 | a new engine is the empty account with the given matching order |
| LedgerEngine.AccountingEngine.ApplyFillInternal | rtts/src/accounting/ledger.rs:166-237 | the in-place loop leaves exactly the lots and entries of the specified matching, and adds their PnL to the total |
| LedgerEngine.AccountingEngine.ApplyFill | rtts/src/accounting/ledger.rs:96-119 | the whole new account state after a fill, field by field |
| LedgerEngine.AccountingEngine.DeriveUnrealizedTotal | rtts/src/accounting/ledger.rs:239-253 | the sum over all marks, in whatever order the map is walked |
| LedgerEngine.AccountingEngine.MarkToMarket | rtts/src/accounting/ledger.rs:121-125 | the whole new account state after a mark |
| LedgerEngine.AccountingEngine.PositionExposure | rtts/src/accounting/ledger.rs:135-164 | net quantity and unrealized PnL of the symbol's lots, and an average price that times the gross quantity gives the open notional (the open cost, on a one-sided book), 0 when flat |
| KolmogorovSmirnov.GroupedKs | rtts/src/accounting/edge_validation.rs:666-690 | the grouped walk returns the supremum over all x of the distance of the two empirical distribution functions, attained, ties and early exit of one list included; 0 when a sample is empty |
| KolmogorovSmirnov.SupremumUnique | rtts/src/accounting/edge_validation.rs:666-690 | that supremum is the only value the walk may return |
| KolmogorovSmirnov.SupremumFacts | rtts/src/accounting/edge_validation.rs:666-690 | it lies in [0, 1], is symmetric, and is 0 exactly when the two distribution functions coincide |
| KolmogorovSmirnov.SortedCopyFacts | rtts/src/accounting/edge_validation.rs:670-673 | sorting keeps every count of samples at most, and below, any x |
| KolmogorovSmirnov.ElementKs | rtts/src/accounting/validation.rs:76-102 | the element-at-a-time walk returns the larger of that supremum and the greatest one-sided lead over ties; 1 when a sample is empty |
| KolmogorovSmirnov.ElementwiseAgainstExact | rtts/src/accounting/validation.rs:76-102 | it is never below the exact statistic, and equals it exactly when no shared value leads by more; so always when the samples share no value |
| KolmogorovSmirnov.SelfComparison | rtts/src/accounting/validation.rs:76-102 | a sample compared with itself: the exact statistic is 0, the element-at-a-time one at least 1/n |
| OnlineMoments.Shift | rtts/src/accounting/quality.rs:73-84 | how sums of squared and cubed deviations change when the centre moves |
| OnlineMoments.UpdateHolds | rtts/src/accounting/quality.rs:73-84 | one update carries the batch count, mean, squared and cubed deviations of a stream to those of the stream with one more value |
| OnlineMoments.StreamHoldsBatch | rtts/src/accounting/quality.rs:73-84 | after any stream the one-pass state is the batch one |
| OnlineMoments.SkewMeans | rtts/src/accounting/quality.rs:60-66 | the skew has the third moment's sign and is its share of the 1.5th power of the second, times the root of n |
| OnlineMoments.ErrorReliabilityFalls | rtts/src/accounting/quality.rs:101-106 | the reliability falls in each penalty, is 1 exactly without error and 0 exactly with all penalties full, and a full mean or variance penalty costs 0.45 or 0.40 |
| OnlineMoments.StoppedBeyondBoth | rtts/src/accounting/quality.rs:45-49 | no one figure stops trading: below 0.35 the mean error exceeds 20/9 and the variance 25/8 |
| OnlineMoments.EdgeReliabilityModel.constructor | rtts/src/accounting/quality.rs:27-34 | an empty model |
| OnlineMoments.EdgeReliabilityModel.UpdateWith | rtts/src/accounting/quality.rs:73-84 | the in-place update, in the program's order, keeps the batch moments of everything observed |
| OnlineMoments.EdgeReliabilityModel.ReportMoments | rtts/src/accounting/quality.rs:52-71 | the reported mean, variance and skew are the batch mean, sample variance and skew of everything observed |
| OnlineMoments.EdgeReliabilityModel.Observe | rtts/src/accounting/quality.rs:37-50 | the error is expected less realized markout, the report covers it, and trading is enabled exactly at a reliability of 0.35 or more |
| EdgeValidation.PushKeepsWindow | rtts/src/accounting/edge_validation.rs:727-732 | a capped push turns the window of a history into the window of the history with one more sample: exactly the last `capacity` values |
| EdgeValidation.StreakIsMaxSuffix | rtts/src/accounting/edge_validation.rs:223-227 | the counter is the largest, over all suffixes of the whole history, of samples capturing below -0.05 less the others |
| EdgeValidation.StreakLasts | rtts/src/accounting/edge_validation.rs:223-227 | n later samples lower the streak by at most n |
| EdgeValidation.ReportsAgree | rtts/src/accounting/edge_validation.rs:229-322 | a history has one report: two reports agree on everything not taken from regime memory, and entirely when the memory is the same |
| EdgeValidation.SizeZeroIff | rtts/src/accounting/edge_validation.rs:419-466 | the size multiplier is in [0, 1.1] and is 0 exactly when trading is disabled, reliability is 0 or the drawdown is at least 1/1.35 |
| EdgeValidation.BadSuffixDisables | rtts/src/accounting/edge_validation.rs:482-533 | any suffix with eight more bad captures than others saturates competition; six, from 24 samples on, make the edge invalid; both stop trading and zero the size |
| EdgeValidation.RunSound | rtts/src/accounting/edge_validation.rs:69-86 | over any run of samples and failures each regime memory counts exactly its bucket's samples with figures in range, and the failure average stays within 0.8 |
| EdgeValidation.DominantExists | rtts/src/accounting/edge_validation.rs:358-363 | a non-empty regime memory has an entry no other outnumbers |
| EdgeValidation.SnapshotAfterObserve | rtts/src/accounting/edge_validation.rs:324-416 | in every run a snapshot right after an observation, at the same drawdown, agrees on every field not read from regime memory, and on all fields when the observed bucket outnumbers the others |
| EdgeValidation.OneBucket | rtts/src/accounting/edge_validation.rs:699-709 | which is so whenever all samples fell into one bucket |
| EdgeLaws.EntryMeans | rtts/src/accounting/edge_validation.rs:158-221 | a sample enters the windows with its own figures, those within the noise floor as zero, and its error is its expected less its realized entry |
| EdgeLaws.CaptureMeans | rtts/src/accounting/edge_validation.rs:162-166 | the capture times the expected entry is the realized PnL, up to five times the expected one |
| EdgeLaws.ErrorMeanIsShortfall | rtts/src/accounting/edge_validation.rs:161 | the mean error of a window is its mean expected edge less its mean realized markout |
| EdgeLaws.OutbidMeanIsShare | rtts/src/accounting/edge_validation.rs:188-196 | the mean of the outbid flags is the share of contested samples in the window |
| EdgeLaws.VarianceMeans | rtts/src/accounting/edge_validation.rs:573-597 | the variance is the mean square less the squared mean, scaled to a sample's, and never negative |
| EdgeLaws.RatiosMean | rtts/src/accounting/edge_validation.rs:558-639 | the Sharpe-like ratio times the deviation is the mean, and the t-statistic is that ratio times the root of n |
| EdgeLaws.StableIff | rtts/src/accounting/edge_validation.rs:711-717 | a signal is stable exactly when its mean is beyond the noise floor and its deviation is smaller than the mean |
| EdgeLaws.WindowSkewMeans | rtts/src/accounting/edge_validation.rs:573-597 | the skew has the sign of the cubed deviations and gives them back scaled |
| EdgeLaws.IntervalIffT | rtts/src/accounting/edge_validation.rs:624-648 | the confidence interval lies above zero exactly when t exceeds 1.96, below it exactly when t is under -1.96 |
| EdgeLaws.HalfLifeIff | rtts/src/accounting/edge_validation.rs:650-664 | the half-life reaches t samples exactly when the window holds half as many and the realized mean is at least 1 - ln 2 / t of the expected one in size |
| EdgeLaws.ScoreRises | rtts/src/accounting/edge_validation.rs:535-556 | the competition score rises with edge, unfilled share, outbid share and slippage |
| EdgeLaws.ScoreShares | rtts/src/accounting/edge_validation.rs:535-556 | it is 0 and 1 exactly at the ends of all four, and fills, slippage and outbids count for 0.30, 0.20 and 0.25 |
| EdgeLaws.ReliabilityFalls | rtts/src/accounting/edge_validation.rs:599-622 | the reliability never rises when a figure worsens, and is at most 0.95, exactly there when every figure is at its best |
| EdgeLaws.ReliabilityShares | rtts/src/accounting/edge_validation.rs:599-622 | what the worst of each figure costs: 0.40, 0.18, 0.07, 0.20, 0.10 and 0.15 |
| EdgeLaws.FailuresScale | rtts/src/accounting/edge_validation.rs:617-621 | full failures scale a reliability to 66.75% |
| EdgeLaws.AlphaMeans | rtts/src/accounting/edge_validation.rs:250 | the execution alpha moves the capture by its own sign, by at most 0.15, the same either way |
| EdgeLaws.QualityMoves | rtts/src/accounting/edge_validation.rs:692-697 | execution quality rises with fills and falls with slippage and competition, with its ends and shares |
| EdgeLaws.ReportReads | rtts/src/accounting/edge_validation.rs:505-533 | a report's regime and competition are decided by its own figures, each state with its exact condition |
| EdgeLaws.ValidIff | rtts/src/accounting/edge_validation.rs:468-503 | with enough samples the edge is valid only with its confidence interval above zero, where the lower bar of 1.30 on t never decides, and invalid whenever the mean realized PnL is negative, which stops trading |
| EdgeLaws.SizeFalls | rtts/src/accounting/edge_validation.rs:419-466 | the size never rises when reliability, state, regime, competition or drawdown worsens |
| EdgeLaws.SizeShares | rtts/src/accounting/edge_validation.rs:425-448 | a doubtful edge trades 65% of a valid one, a decaying 75% and an unstable one 40% of a stable one, a competitive market 65% of an ordinary one, exactly |
| EdgeLaws.MemoryMeans | rtts/src/accounting/edge_validation.rs:453-461 | a memory of fewer than eight samples counts for 0.85; from eight on a better memory never lowers the size |
| EdgeLaws.ObservedRemembers | rtts/src/accounting/edge_validation.rs:69-86 | a bucket's first sample becomes its memory, every later one moves each figure 8% of the way to its own, and other buckets keep theirs |
| EdgeLaws.FailureMoves | rtts/src/accounting/edge_validation.rs:145-155 | a failure moves the failure average 18% of the way to its severity |
| EdgeLaws.SeverityOrder | rtts/src/accounting/edge_validation.rs:145-153 | the order of severities, from a deep queue to a spike of competition |
| EdgeLaws.BucketIff | rtts/src/accounting/edge_validation.rs:699-709 | which market falls into which bucket |
| EdgeValidation.EdgeValidationEngine.constructor | rtts/src/accounting/edge_validation.rs:119-143 | empty windows of capacity at least 32 |
| EdgeValidation.EdgeValidationEngine.ObserveFailure | rtts/src/accounting/edge_validation.rs:145-155 | moves the failure average by the reason's severity and nothing else |
| EdgeValidation.EdgeValidationEngine.Record | rtts/src/accounting/edge_validation.rs:158-227 | all fifteen windows and the streak keep describing the whole history with the sample added |
| EdgeValidation.EdgeValidationEngine.RollingMoments | rtts/src/accounting/edge_validation.rs:573-597 | the loop returns the window's batch mean, sample variance and skew |
| EdgeValidation.EdgeValidationEngine.Observe | rtts/src/accounting/edge_validation.rs:157-322 | updates windows, streak and memory, and returns the report recomputed from the whole history with the exact two-sample statistic |
| EdgeValidation.EdgeValidationEngine.TakeSnapshot | rtts/src/accounting/edge_validation.rs:324-416 | the same report for a memory that no other outnumbers |
| EdgeValidation.EdgeValidationEngine.MostSampled | rtts/src/accounting/edge_validation.rs:358-363 | the memory it picks has the largest sample count; the default when there is none |
| Markout.RunTracks | rtts/src/execution_truth.rs:42-136 | over every interleaving, emitted items followed by the queue are the real fills in arrival order, each slot holding the first price that reached its horizon |
| Markout.ReachOrdered | rtts/src/execution_truth.rs:88-99 | an item that reached a later horizon has reached every earlier one |
| Markout.EmittedInOrderAndComplete | rtts/src/execution_truth.rs:102-145 | every emitted curve uses at each horizon the first usable price after the fill whose elapsed time reached it; the fall-back to the fill price never happens; what a curve says at a price is MarkoutMeans and EmittedIsRealized |
| Markout.MarketPriceMeans | rtts/src/execution_truth.rs:216-230 | a trade is usable at its own positive price, a book midway between two positive quotes, and nothing else is |
| Markout.GraceNeverDecides | rtts/src/execution_truth.rs:102-104 | an item leaves the queue exactly when a usable price five seconds past its fill was seen: the extra grace period never decides |
| Markout.MarkoutMeans | rtts/src/execution_truth.rs:232-241 | at the fill's own price the value is minus fee plus rebate minus funding, and it rises with the price by the filled size for a buy and falls for a sell |
| Markout.MarkoutIsRealized | rtts/src/execution_truth.rs:232-241 | for sizes above the cut-off it is the realized PnL the ledger books when the fill opens a lot and an opposite fill of the same size without costs closes it at that price |
| Markout.EmittedIsRealized | rtts/src/execution_truth.rs:138-165 | so each figure of every emitted curve is that realized PnL at the first price that reached its horizon |
| Markout.ExecutionTruth.OnFill | rtts/src/execution_truth.rs:43-56 | a real fill joins the queue with empty slots, a simulated one changes nothing |
| Markout.ExecutionTruth.OnMarket | rtts/src/execution_truth.rs:57-70 | an update with a usable price fills slots and emits; one without changes nothing |
| Markout.ExecutionTruth.UpdatePending | rtts/src/execution_truth.rs:76-136 | the longest ready prefix of the observed queue leaves, in order |
| Markout.ExecutionTruth.ObservePending | rtts/src/execution_truth.rs:86-100 | every waiting item is observed in place, none added or lost |
| Markout.ExecutionTruth.PopReady | rtts/src/execution_truth.rs:102-135 | exactly the ready prefix is popped and emitted |
| Store.StepCoherent | control-plane/internal/state/store.go:34-225 | every store method keeps orders filed under their own id and every key and exchange id pointing at an order |
| Store.RunCoherent | control-plane/internal/state/store.go:34-225 | so does every run of them |
| Store.StepLogs | control-plane/internal/state/store.go:125-184 | only a fill that finds its order appends to the logs, one entry to each |
| Store.OrderStore.constructor | control-plane/internal/state/store.go:25-32 | the empty store |
| Store.OrderStore.ReserveOrder | control-plane/internal/state/store.go:34-53 | a key already bound returns the order it is bound to and changes nothing; a new one stores and binds the order |
| Store.OrderStore.UpdateOrder | control-plane/internal/state/store.go:55-63 | overwrites the stored order and indexes its exchange id |
| Store.OrderStore.MarkOrderSent | control-plane/internal/state/store.go:65-77 | the new state, or the error when the order is unknown |
| Store.OrderStore.MarkOrderAck | control-plane/internal/state/store.go:79-92 | the new state, without regard to the current status |
| Store.OrderStore.CancelOrder | control-plane/internal/state/store.go:94-107 | the new state, without regard to the current status |
| Store.OrderStore.ReplaceOrderPrice | control-plane/internal/state/store.go:109-123 | refuses terminal orders, otherwise changes the price only, and returns the order as it then is |
| Store.OrderStore.ApplyExternalFill | control-plane/internal/state/store.go:125-184 | the order found by order id or exchange id becomes Filled exactly when its filled quantity with the fill reaches its size and Partial otherwise, its ratio times a size above the cut-off is its filled quantity, and it is returned and stored so; the whole new state, and the position returned |
| Store.FillMeans | control-plane/internal/state/store.go:138-154 | a fill completes its order exactly when it brings the filled quantity to the size, the ratio is the filled share, and no other term changes |
| Store.OpenUntilTerminal | control-plane/internal/state/store.go:150-154 | an order is open until it is filled, canceled or rejected, so a fill leaves it open exactly while its size is not reached |
| Store.FillPositionMeans | control-plane/internal/state/store.go:156-180 | a fill moves the position by its signed size, to nothing within the cut-off |
| Store.OrderStore.BindExchangeOrderID | control-plane/internal/state/store.go:186-200 | binds the exchange id and returns the order, or reports an unknown order |
| Store.OrderStore.UpsertOrder | control-plane/internal/state/store.go:202-219 | files an order seen on the exchange under its ids and key |
| Store.OrderStore.StorePosition | control-plane/internal/state/store.go:221-225 | replaces one position |
| Store.OrderStore.OpenOrdersBySymbol | control-plane/internal/state/store.go:253-267 | lists exactly the symbol's orders that are not terminal, as many as there are, in any order |
| Store.OrderStore.GrossExposureUSD | control-plane/internal/state/store.go:370-382 | the sum over all positions at their marks, or at their averages without one, whatever the order of the walk |
| Store.ExposureMeans | control-plane/internal/state/store.go:370-382 | a position without a mark counts as marked at its own average, with one it is worth its size for every unit of a positive mark |
| Store.OrderStore.Reconciliation | control-plane/internal/state/store.go:314-342 | the per-order sums of both logs, and Matched as the program defines it |
| FillAccounting.StepFilledIff | control-plane/internal/state/store.go:34-225 | one store step, whatever it is, keeps every order's filled quantity equal to what was applied to it exactly when it writes back no other quantity than is stored |
| FillAccounting.FilledIsSum | control-plane/internal/state/store.go:34-225 | over every run of store steps each order's filled quantity is always the sum of the fills applied to it exactly when every step is of that kind |
| FillAccounting.AverageKeptIff | control-plane/internal/state/store.go:141-149 | one fill keeps average price times filled equal to the notional exactly when the new filled quantity is positive, or the fill is empty or at the average |
| FillAccounting.StepAverageIff | control-plane/internal/state/store.go:34-225 | likewise for average price times filled quantity and the traded notional, with the condition of AverageKeptIff on fills |
| FillAccounting.AverageIsNotional | control-plane/internal/state/store.go:34-225 | over every run average price times filled is always the traded notional exactly when every step keeps it |
| FillAccounting.FilledIffReached | control-plane/internal/state/store.go:150-154 | after a run whose last status-writing step on an order is a fill, the order is Filled exactly when the sum of its fills reaches its size, whenever its filled quantity is that sum |
| FillAccounting.PlainRunsBalance | control-plane/internal/state/store.go:125-184 | both hold throughout every run whose write-backs keep both figures and whose fills are not negative |
| FillAccounting.UpdateKeepsFilledIff | control-plane/internal/state/store.go:55-63 | writing back an order read earlier keeps the account exactly when no fill came in between |
| FillAccounting.PositionTracks | control-plane/internal/state/store.go:156-180 | between resets n fills leave a position within n cut-offs of their signed sum |
| FillAccounting.FillAverageIff | control-plane/internal/state/store.go:156-180 | for every fill of every position the average stays the average cost of the open quantity exactly when the fill does not cross zero, or crosses it at the old average (and no negative quantity makes the position grow) |
| FillAccounting.PositionAverageIff | control-plane/internal/state/store.go:156-180 | over every run, exchange reports included, a position's average is always the average cost exactly when every fill of its symbol is of that kind |
| FillAccounting.PositionAgainstLedger | control-plane/internal/state/store.go:125-184 | folding the same n fills, this position and the Rust ledger's net quantity differ by at most 2n cut-offs |
| ReconciliationCheck.LedgerSumsAre | control-plane/internal/state/store.go:314-324 | the accumulated map holds exactly the mentioned orders with their total quantities |
| ReconciliationCheck.AgreeingPairsMatch | control-plane/internal/state/store.go:314-342 | when every applied fill and event agree on order and quantity, every reachable store reports Matched |
| ReconciliationCheck.MatchedMeansReconciled | control-plane/internal/state/store.go:325-333 | reconciled logs are always Matched; Matched logs are reconciled exactly when no executed order missing from the ledger is within the tolerance |
| ReconciliationCheck.MatchedIffReconciled | control-plane/internal/state/store.go:325-333 | when every executed quantity exceeds 1e-9, Matched holds exactly when both logs name the same orders and agree within 1e-9 |
| ReconciliationCheck.TinyExecutionHidesMismatch | control-plane/internal/state/store.go:325-333 | a fill of 5 under the wrong order goes unnoticed beside an execution within the tolerance |
| SubmitProtocol.RunSafe | control-plane/internal/execution/gateway.go:58-126 | the protocol invariant over every interleaving of any number of calls, from any coherent boot store: each key is held by at most one call past its reservation |
| SubmitProtocol.AtMostOneSend | control-plane/internal/execution/gateway.go:84-102 | SendOrder is called at most once per idempotency key, for the order the key is bound to |
| SubmitProtocol.BindingIsForGood | control-plane/internal/state/store.go:34-53 | a key once bound stays bound to the same order id |
| SubmitProtocol.DuplicateGetsFirst | control-plane/internal/execution/gateway.go:90-93 | every later duplicate is answered with an order under the id of the first reservation |
| SubmitProtocol.DuplicateAnswer | control-plane/internal/execution/gateway.go:90-93 | that answer is the order as stored at that moment, and nothing else changes |
| SubmitProtocol.RejectedSubmitForgetsFill | control-plane/internal/execution/gateway.go:102-109 | a fill taken in during a failing exchange call is lost from the order and kept in the ledger |
| SubmitProtocol.ActIsStep | control-plane/internal/execution/gateway.go:58-126 | every action of the protocol is one store step or none |
| SubmitProtocol.FilledIsSum | control-plane/internal/execution/gateway.go:58-126 | under every interleaving each order's filled quantity is always the sum of its fills exactly when no action writes back an order read before a fill came in |
| SubmitTerms.SentAsAsked | control-plane/internal/execution/gateway.go:67-102 | under every interleaving what is sent has its call's own key, symbol and side, the size its risk decision gated, and its price unless someone else repriced the order |
| SubmitTerms.BoundAsAsked | control-plane/internal/execution/gateway.go:84-93 | the order stored under a key a call has bound is that call's own at any later moment |
| SubmitTerms.ClearsOpposite | control-plane/internal/execution/gateway.go:76-83 | the order a call's self-trade prevention cancels is of its request's symbol and on the other side |
| SubmitTerms.NeverSentAgainstItself | control-plane/internal/execution/gateway.go:76-102 | no order is sent on the side that its own self-trade prevention has just cleared |
| SubmitTerms.ListsEveryOpen | control-plane/internal/execution/gateway.go:76-78 | the list a call clears holds every order of its symbol open at that moment |
| SubmitTerms.ClearCancels | control-plane/internal/execution/gateway.go:78-83 | cleared from the front: an order of the other side ends canceled, one of the same side is passed over |
| BootReconcile.PassBooks | control-plane/internal/execution/bingx/reconciliation.go:37-92 | after a pass over fills of non-zero quantity every such fill's order has non-zero ledger quantity |
| BootReconcile.SecondPassAddsNothing | control-plane/internal/execution/bingx/reconciliation.go:28-92 | a second pass with the same replies appends nothing to either log and restores every reported position |
| BootReconcile.PassActivatesNothing | control-plane/internal/execution/bingx/reconciliation.go:101-125 | with replies labelled by symbol a pass makes no new symbol active |
| BootReconcile.RepeatedBootAddsNothing | control-plane/internal/execution/bingx/reconciliation.go:12-99 | so two whole boots, each over its own active symbols in any order, leave the logs of one |
| BootReconcile.OnlyFirstFillRecovered | control-plane/internal/execution/bingx/reconciliation.go:53-91 | of an order with nothing booked only the first fill is recovered: the ledger has its whole quantity exactly when the reply has one fill for it |
| BootReconcile.ReplyPosition | control-plane/internal/execution/bingx/reconciliation.go:53-90 | one reply moves the position of the order it is booked to, known or recovered, by the fill, and no other |
| BootReconcile.RecoveredAsFilled | control-plane/internal/execution/bingx/reconciliation.go:58-74 | a missing fill of an unknown order gets an order of its own, found under the fill's order id, with its symbol, side and quantity, complete at once; its symbol alone moves, by the quantity signed with the fill's side |
| BootReconcile.PassStaysMatched | control-plane/internal/execution/bingx/reconciliation.go:12-99 | whatever the exchange replies, a pass over logs that record the same fills leaves logs that do, reported as matched |
| BootReconcile.MissingFillCountsTwice | control-plane/internal/execution/bingx/reconciliation.go:34-90 | for every reply, its order known or recovered, the reported position stays as reported exactly when the order had something booked or the fill is nothing to a position; any other missing fill is counted on top |
| BootReconcile.PassDriftsBySum | control-plane/internal/execution/bingx/reconciliation.go:28-92 | after a whole pass a reported position is off by the signed sum of the missing fills booked to it, within one cut-off per fill; with sizes in whole lots by exactly that sum, so it is as reported exactly when they cancel or there are none |
| BootReconcile.MissingAreBooked | control-plane/internal/execution/bingx/reconciliation.go:53-90 | every missing fill of attributable replies is one new ledger entry |
| BootReconcile.RunReady | control-plane/internal/state/store.go:34-225 | every store built by store steps meets the pass's precondition |
| BootReconcile.ActiveSymbols | control-plane/internal/execution/bingx/reconciliation.go:101-125 | exactly the non-empty symbols of positions and orders, each once, in the order of first appearance |
| BootReconcile.ListOrders | control-plane/internal/state/store.go:360-368 | exactly the stored orders, as many as there are |
| BootReconcile.ReplayFills | control-plane/internal/execution/bingx/reconciliation.go:53-91 | the loop over a reply is the specified replay; missing counts the fills whose order had nothing booked when it came to them, which is the growth of the ledger |
| BootReconcile.ReconcileSymbol | control-plane/internal/execution/bingx/reconciliation.go:38-91 | one symbol's orders and fills, with the exact counts of orphan orders and missing fills |
| BootReconcile.ReconcilePositions | control-plane/internal/execution/bingx/reconciliation.go:28-35 | every reported position is set, and those the store held otherwise are counted |
| BootReconcile.Reconcile | control-plane/internal/execution/bingx/reconciliation.go:12-99 | the store after the whole pass, and the report: exact counts of missing fills, orphan orders and drifted positions, and marked as matched whatever they are |
| RiskCircuit.MempoolStaysUnit | control-plane/internal/risk/mempool_pressure.go:16-63 | every observation keeps the pressure averages in [0, 1], so the clamp on the score never binds |
| RiskCircuit.RecomputeOk | control-plane/internal/risk/intelligence.go:217-259 | every stored snapshot has all scores in [0, 1], multiplier 0 when open and at most 0.60 when degraded, and a stress whose clamp never binds |
| RiskCircuit.AllowedIsBounded | control-plane/internal/risk/service.go:62-108 | for any stored snapshot: the "multiplier zero" denial is unreachable, an open circuit denies everything, an allowed multiplier is in [0.4475, 1], and a non-reduce order is sent with 0.4475 to 1 times its size within the (tightened) limit at its checked price |
| RiskCircuit.RunLoopOk | control-plane/internal/risk/intelligence.go:113-129 | over every sequential run the failure average is 1 once a send has failed and 0 before |
| RiskCircuit.FailureLatches | control-plane/internal/risk/intelligence.go:229-241 | after one failed send the circuit stays open and nothing is ever sent again |
| RiskGate.AllowedIff | control-plane/internal/risk/intelligence.go:138-215 | exactly which requests are allowed: every switch, limit and figure of the gates, with a non-reducing one expecting more than the threshold, within balance times leverage, in a regime neither hostile nor contaminated |
| RiskGate.ThresholdMeans | control-plane/internal/risk/intelligence.go:261-268 | the threshold is 0.001 without penalties and rises with each of them |
| RiskGate.ThresholdShares | control-plane/internal/risk/intelligence.go:261-268 | what each penalty adds to it |
| RiskGate.MultiplierIsLeast | control-plane/internal/risk/intelligence.go:171-210 | an allowed request's multiplier is the least of the snapshot's own and of every cap that applies |
| RiskGate.StressEnds | control-plane/internal/risk/intelligence.go:217-228 | stress is 0 with every component at 0 and 1 with all at 1 |
| RiskGate.StressRises | control-plane/internal/risk/intelligence.go:217-228 | it rises with each component |
| RiskGate.StressShares | control-plane/internal/risk/intelligence.go:228 | what each component adds to it |
| RiskGate.FragilityShares | control-plane/internal/risk/intelligence.go:225 | what full failures, rejections, failure rate and latency cost in fragility |
| RiskGate.MarkoutShares | control-plane/internal/risk/intelligence.go:227 | what each part costs in markout stress |
| RiskGate.ScoreShares | control-plane/internal/risk/mempool_pressure.go:49-51 | what each average adds to the mempool score, which is 1 when all are |
| RiskGate.PressureShares | control-plane/internal/risk/mempool_pressure.go:31-47 | by how much each send result and latency moves the averages |
| RiskGate.FragilityRises | control-plane/internal/risk/intelligence.go:217-228 | fragility and markout stress do not fall as their parts rise |
| RiskGate.PressureMoves | control-plane/internal/risk/mempool_pressure.go:31-47 | a failed send raises the failure and outbid pressures, a good one lowers them, and neither touches bursts |
| RiskGate.MarketPressure | control-plane/internal/risk/mempool_pressure.go:16-29 | two events of one symbol in a row raise the cluster pressure, a change of symbol lowers it |
| RiskGate.MarketShares | control-plane/internal/risk/mempool_pressure.go:16-29 | by how much an event moves burst, cluster and competition |
| RiskGate.QuotePriceMeans | control-plane/internal/risk/intelligence.go:87-111 | an event without a price of its own is priced midway between its quotes |
| RiskGate.VelocityMeans | control-plane/internal/risk/intelligence.go:87-111 | the velocity times the time passed, in units of the last price, is the change of price |
| RiskGate.LoopExpectsGain | control-plane/internal/risk/intelligence.go:157-163 | in no run of the loop does a request pass that expects no gain, unless it only reduces |
| RiskGate.ServiceExpectsGain | control-plane/internal/risk/service.go:62-108 | so it is for the service as long as no execution event reports a negative adverse selection |
| RiskGate.NegativeAdverseAdmitsLoss | control-plane/internal/risk/intelligence.go:261-268 | one that does lowers the threshold below zero: after it an order that expects a loss passes |
| OverlappingSends.CircuitOpenIff | control-plane/internal/risk/intelligence.go:229-241 | with calls overlapping in any way the failure average is the recurrence over the results returned so far, and the circuit is open exactly when it exceeds 0.75, the stress exceeds 0.90 or the regime is hostile |
| OverlappingSends.AfterFirstFailure | control-plane/internal/risk/intelligence.go:306-311 | the average is 0 until the first error, which sets it to 1, and depends only on the results since |
| OverlappingSends.LatchOutlastsSeven | control-plane/internal/risk/intelligence.go:113-145 | once a send has failed and at most seven successes can still have come since, counting every call in flight, the circuit stays open for good and no call passes the gate again |
| OverlappingSends.FirstFailureLatches | control-plane/internal/risk/intelligence.go:116-122 | so it is at the first error with at most seven other calls in flight |
| OverlappingSends.EightReopen | control-plane/internal/risk/intelligence.go:113-129 | with any larger number in flight eight successes reopen the circuit and the next call passes |
| OverlappingSends.SequentialIsOverlapping | control-plane/internal/execution/gateway.go:67-111 | every sequential run of the closed loop is such a run with no call left in flight |
| Feedback.CountersExact | control-plane/internal/risk/feedback.go:94-153 | over every run each counter is the number of inputs of its kind |
| Feedback.RunRates | control-plane/internal/risk/feedback.go:94-169 | over every run the failure, outbid and partial-loss rates and the degradation are in [0, 1] and the slippage variance is not negative |
| Feedback.ContaminatedIff | control-plane/internal/risk/feedback.go:171-178 | the regime is CONTAMINATED exactly when simulated events and no real one have been seen |
| Feedback.ServiceRefinesCircuit | control-plane/internal/risk/service.go:62-137 | every run of the service, with the real feedback engine in the loop, is a run of the circuit model |
| Feedback.ServiceLatches | control-plane/internal/risk/service.go:122-127 | so with the real feedback too, one failed send ends sending for good |
| Feedback.ContaminationBlocks | control-plane/internal/risk/intelligence.go:167-169 | once a simulated event has been taken in and as long as no real one has, only reduce-only requests pass |
| RiskGate.RegimeIff | control-plane/internal/risk/feedback.go:171-178 | exactly when each regime holds, in the engine's own averages |
| RiskGate.DropMeans | control-plane/internal/risk/feedback.go:155-169 | the drop of a positive markout is the share it has lost, none if it has not fallen, at most all of it |
| RiskGate.DegradationMeans | control-plane/internal/risk/feedback.go:155-169 | degradation is 0 for markouts that never fall and are not negative, and does not fall as a later one drops |
| RiskGate.SimulatedOnlyContaminates | control-plane/internal/risk/feedback.go:116-120 | a simulated event counts as contamination and nothing else, a real one never does |
| RiskGate.RealEventCounts | control-plane/internal/risk/feedback.go:121-152 | a real event is a partial-fill loss exactly when less than 70% but something was filled at a negative half-second markout, an outbid exactly when flagged |
| RiskGate.RealEventMoves | control-plane/internal/risk/feedback.go:122-141 | every average of a real event moves by its share towards the event's own figure |
| RiskGate.DenialBooked | control-plane/internal/risk/service.go:139-148 | a denial raises the failure rate only if it was for system stress, and every denial raises exactly one counter |
| Feedback.FeedbackEngine.constructor | control-plane/internal/risk/feedback.go:81-85 | no events, regime SAFE |
| Feedback.FeedbackEngine.ObserveFailure | control-plane/internal/risk/feedback.go:94-114 | the new counters and averages, with the snapshot kept current |
| Feedback.FeedbackEngine.ObserveExecutionEvent | control-plane/internal/risk/feedback.go:116-153 | a simulated event only counts as contamination; a real one moves every average from its old value |
| Feedback.FeedbackEngine.Average | control-plane/internal/risk/feedback.go:122-141 | the averages every real event moves; the variance uses the slippage average before it |
| Feedback.FeedbackEngine.Recompute | control-plane/internal/risk/feedback.go:155-206 | the stored snapshot is the current counters and averages with the degradation and regime derived from them |
| RiskService.MarksAreLatest | control-plane/internal/risk/service.go:43-60 | each symbol's mark is its own latest price, but the price used for limits is the latest of any symbol |
| RiskService.CheckedAtOwnMarkIff | control-plane/internal/risk/service.go:81-84 | an unpriced order is checked at its own symbol's mark exactly when that is the latest price of any symbol |
| RiskService.WithinOwnLimitIff | control-plane/internal/risk/service.go:81-102 | as long as the gate lets some unpriced order through, every such order it allows is within the position limit at its own mark exactly when that mark is no higher than the latest price of any symbol |
| RiskService.CheckedAtAnotherMark | control-plane/internal/risk/service.go:81-102 | an unpriced order of a thousand times the limit at its own mark is allowed after another symbol's quote |
| RiskService.Service.constructor | control-plane/internal/risk/service.go:31-41 | the initial closed-loop state with no marks and nothing forced |
| RiskService.Service.ObserveMarket | control-plane/internal/risk/service.go:43-60 | the marks, and one market step of the closed loop at the velocity since the last event, the exposure of the store's positions and the current feedback; a quote without a usable price changes nothing |
| RiskService.Service.Evaluate | control-plane/internal/risk/service.go:62-108 | the decision of the gates on the marks and feedback so far, whose exact condition is RiskGate.AllowedIff, and a denial booked under its category |
| RiskService.Service.ObserveExecution | control-plane/internal/risk/service.go:122-127 | one send result: the circuit moves on the feedback of before, then a failure is booked |
| RiskService.Service.ObserveExecutionEvent | control-plane/internal/risk/service.go:129-132 | one execution step of the closed loop |
| RiskService.Service.ObserveFailure | control-plane/internal/risk/service.go:134-137 | one failure step of the closed loop |
| RiskService.Service.SetKillSwitch | control-plane/internal/risk/service.go:150-152 | sets the switch |
| RiskService.Service.SetCircuitBreaker | control-plane/internal/risk/service.go:154-166 | the forced breaker is up exactly when some symbol's breaker is |
| Gateway.IntelligenceEngine.constructor | control-plane/internal/risk/intelligence.go:81-85 | the initial averages and snapshot |
| Gateway.IntelligenceEngine.Recompute | control-plane/internal/risk/intelligence.go:217-259 | only the snapshot changes, to the specified one |
| Gateway.IntelligenceEngine.ObserveMarket | control-plane/internal/risk/intelligence.go:87-111 | volatility, pressure and snapshot after a market event at the price change per second since the last one; nothing without a usable price |
| Gateway.IntelligenceEngine.ObserveExecution | control-plane/internal/risk/intelligence.go:113-129 | averages, pressure and snapshot after a send result |
| Gateway.IntelligenceEngine.ObserveFeedback | control-plane/internal/risk/service.go:129-132 | the snapshot recomputed on new feedback |
| Gateway.StepIsProtocolStep | control-plane/internal/execution/gateway.go:231-295 | an exchange step of the sequential gateway leaves the store that the interleaving protocol leaves when nothing comes in between |
| Gateway.SequentialGateway.PreventSelfTrade | control-plane/internal/execution/gateway.go:76-83 | exactly the open orders of the symbol on the other side end canceled, and nothing else in the store changes |
| Gateway.SequentialGateway.ApplyStep | control-plane/internal/execution/gateway.go:231-295 | the new store and the order returned or the failure; the risk side takes in exactly one execution event for each fill booked |
| Gateway.SequentialGateway.SendAndApply | control-plane/internal/execution/gateway.go:102-125 | one send counted, its result observed once; the store and order after the write-back of an error or the exchange's steps up to the first failure |
| Gateway.SequentialGateway.Submit | control-plane/internal/execution/gateway.go:58-126 | one call is exactly one step of the closed loop; what is sent has the request's own symbol, side and price, its gated size and a newly bound key; a rejection answers with the request's fields, a duplicate from the store; and the final store |
| OrderQueue.BookSound | rtts/src/execution/queue_engine.rs:57-105 | after a book probability and rates are in [0, 1], the ratio in [0, 8], the fill time in [10, 2000], the volume ahead at least the order, and the engine's book prices still 0 |
| OrderQueue.TradeSound | rtts/src/execution/queue_engine.rs:107-133 | the same after a trade |
| OrderQueue.QueueEngine.constructor | rtts/src/execution/queue_engine.rs:30-55 | the initial estimate, with no book prices |
| OrderQueue.QueueEngine.ObserveBook | rtts/src/execution/queue_engine.rs:57-105 | the field-by-field update amounts to the specified new state, returned as a copy |
| OrderQueue.QueueEngine.ObserveTrade | rtts/src/execution/queue_engine.rs:107-133 | likewise for a trade |
| ControllerLaws.TradeMeans | rtts/src/execution/queue_engine.rs:107-133 | a trade takes its volume off the queue ahead, down to the order's own quantity, and never lowers the fill probability; trading the whole queue away raises it by 0.18 |
| ControllerLaws.BookAheadMeans | rtts/src/execution/queue_engine.rs:57-105 | a book with nobody ahead by price puts the visible volume ahead, an outbid order has its own quantity on top |
| ControllerLaws.BookProbabilityMoves | rtts/src/execution/queue_engine.rs:85-93 | the fill probability falls with queue and spread, rises with decay, cancels and trade-throughs, and being outbid costs 0.14 |
| ControllerLaws.FillTimeMoves | rtts/src/execution/queue_engine.rs:148-157 | a longer queue, a smaller chance or a slower decay never shortens the expected time |
| ControllerLaws.RatesMove | rtts/src/execution/queue_engine.rs:57-133 | the rates are averages of the share of visible volume that vanished, of trade impulses and of decay per millisecond |
| OrderController.TurnCounts | rtts/src/execution_controller.rs:371-603 | a reprice or timeout cancel is only taken below its limit and raises its counter by one; an instruction waits for the cooldown |
| OrderController.RunWithinLimits | rtts/src/execution_controller.rs:429-532 | whatever is observed between turns, a run has at most `max_replace_per_order` reprices and `max_cancel_per_order` timeout cancels |
| OrderController.InstructionsSpaced | rtts/src/execution_controller.rs:567-572 | any two instructions are at least a positive cooldown apart, even if timestamps sometimes run backwards |
| OrderController.InstructionRate | rtts/src/execution_controller.rs:567-572 | n instructions take at least n cooldowns |
| OrderController.RepriceMoves | rtts/src/execution_controller.rs:449-475 | an improved price is ahead of the reference by at most 0.00025 of it, and a crossing price is ahead of it |
| OrderController.PriceNeverRetreats | rtts/src/execution_controller.rs:571-603 | over any run a buy's tracked price never falls and a sell's never rises |
| OrderController.PriceDrift | rtts/src/execution_controller.rs:854-860 | k non-crossing reprices move a positive price by at most the factor (1 +/- 0.00025)^k |
| OrderController.LoopIsRun | rtts/src/execution_controller.rs:669-727 | every run of the event loop is a run in that sense, so those laws hold of it |
| OrderController.ObservationsBlind | rtts/src/execution_controller.rs:264-323 | no observation leaves a book price in the queue state, and a trade resets the competition state to normal |
| OrderController.BlindImprovement | rtts/src/execution_controller.rs:449-475 | without book prices an improved price exists exactly for a buy at a negative price with a visible tick |
| OrderController.LoopNeverReprices | rtts/src/execution_controller.rs:669-727 | for an order with no price or a non-negative one the loop never reprices, the price stays the first, switches carry no price, and exits go out a tick above a buy's price or at zero for a sell |
| OrderController.TerminalIffAborted | rtts/src/execution_controller.rs:706-727 | a controller the loop still holds has a terminal status exactly when its last decision was to abort |
| OrderController.StepRevivesIff | rtts/src/execution_controller.rs:666-727 | an event makes an aborted controller decide again exactly when it is an order event with a status that is not terminal |
| OrderController.AbortSilentIff | rtts/src/execution_controller.rs:596-727 | after an abort, whatever follows, the controller decides nothing more exactly when the first order event to follow, if any, reports a terminal status |
| OrderController.RevivedDecides | rtts/src/execution_controller.rs:371-392 | a revived controller holds back during the cooldown and then leaves again if its edge is gone |
| OrderController.InstructionMeans | rtts/src/execution_controller.rs:733-789 | each instruction goes out for the actions it belongs to and carries what they decided |
| OrderController.ExitUnwinds | rtts/src/execution_controller.rs:771-780 | an exit goes out only with something filled, on the other side, and its signed size cancels the signed filled quantity |
| OrderController.LoopExitsUnwind | rtts/src/execution_controller.rs:669-789 | so it is of every exit in every run of the loop, for an order of non-negative size |
| OrderController.LeavesIff | rtts/src/execution_controller.rs:371-427 | exactly when the controller exits and aborts, and what a timeout cancel needs |
| OrderController.SaturatingFlagLeaves | rtts/src/execution_controller.rs:326-392 | an event flagged as repeatedly outbid or toxic makes the controller leave as soon as it may act |
| ControllerLaws.SwitchesIff | rtts/src/execution_controller.rs:391-502 | exactly when it switches to aggressive and to passive |
| ControllerLaws.NeverDefensive | rtts/src/execution_controller.rs:371-502 | no decision is a switch to the defensive strategy |
| ControllerLaws.DefensiveIffTakenOn | rtts/src/execution_controller.rs:637-727 | over every run of the loop an order is defensive exactly when it was taken on so |
| ControllerLaws.RepricesIff | rtts/src/execution_controller.rs:404-447 | exactly when a decision reprices |
| ControllerLaws.FilledIsLargest | rtts/src/execution_controller.rs:341-345 | while the loop holds the order its filled quantity is the largest cumulative quantity any fill reported, in whatever order, and its remaining quantity the last reported |
| ControllerLaws.EventMoves | rtts/src/execution_controller.rs:326-369 | an order event sets status, slippage and contest; the adverse figure decays by 8% or is set by the flag, and the markout degradation moves 16% |
| ControllerLaws.ToxicFlagExits | rtts/src/execution_controller.rs:326-340 | of all flags only the toxic partial fill brings the adverse figure over the bar at which a filled order is left |
| ControllerLaws.FillMoves | rtts/src/execution_controller.rs:341-363 | a fill moves capture and execution alpha by 12% and 15%, and the streak grows exactly while the capture is negative |
| ControllerLaws.FillProbabilityMoves | rtts/src/execution_controller.rs:534-561 | the fill probability falls with everything that speaks against a fill and rises with turnover |
| ControllerLaws.BookMeans | rtts/src/execution_controller.rs:243-293 | a book is read on the order's own side: a better price there counts as outbid once and the volume there is what is seen ahead; a one-sided book changes nothing |
| ControllerLaws.BookContests | rtts/src/execution_controller.rs:297-310 | after a two-sided book the contest is read from the new probability and the times outbid |
| ControllerLaws.PullMeans | rtts/src/execution_controller.rs:297-302 | liquidity pulls away as the visible volume falls below the first and as the spread widens, from 0 to 1.25 |
| ControllerLaws.SpreadMeans | rtts/src/execution_controller.rs:261-263 | the spread in ten-thousandths of the reference price, none for a crossed book |
| ControllerLaws.ContestMeans | rtts/src/execution_controller.rs:840-852 | what the contest is read from; it never eases when the probability falls or pressure grows |
| ControllerLaws.TickMeans | rtts/src/execution_controller.rs:854-860 | the tick is at most 0.025% of the reference and at least that or 0.01; a weak edge moves by half of it |
| ControllerLaws.TermsMean | rtts/src/execution_controller.rs:182-233 | the bounds within which an order is judged by the figures given |
| ControllerLaws.StartMeans | rtts/src/execution_controller.rs:182-233 | at first nothing is filled, nothing was tried, and the place in the book is the one estimated |
| ControllerLaws.HalfLifeMsMeans | rtts/src/execution_controller.rs:802-808 | the time an edge is given lies between 0.75 and 12 expected durations |
| ControllerLaws.FillTimeMsFalls | rtts/src/execution_controller.rs:795-800 | more urgency or a better chance never lengthens the expected time to a fill |
| ControllerLaws.SureFillTime | rtts/src/execution_controller.rs:795-800 | with a sure fill it is 1.15 durations without urgency and 0.80 at full urgency |
| OrderController.ExecutionController.constructor | rtts/src/execution_controller.rs:182-233 | the initial state for an intent and a configuration |
| OrderController.ExecutionController.OnMarketUpdate | rtts/src/execution_controller.rs:243-324 | writes the touch, replaces the whole queue state, and re-estimates: the specified new state |
| OrderController.ExecutionController.OnExecutionEvent | rtts/src/execution_controller.rs:326-369 | the specified new state after an order event |
| OrderController.ExecutionController.TakeFill | rtts/src/execution_controller.rs:341-363 | the part only a positive fill triggers |
| OrderController.ExecutionController.ApplyAction | rtts/src/execution_controller.rs:571-603 | counters, price, strategy and status after each kind of action |
| OrderController.ExecutionController.EvaluateAndConvert | rtts/src/execution_controller.rs:733-789 | the decision is turned into its instruction and applied, or nothing changes on hold; an exit goes out only with something filled, on the other side, for exactly the filled quantity when what remains is not negative |
| Reversal.RunRemembers | rtts/src/reversal_engine.rs:93-104 | the remembered pressures and price are those of the latest frame |
| Reversal.ArmingReadsLatestFrame | rtts/src/reversal_engine.rs:73-90 | the fall-backs of arming are never used: exit price and activation time are the latest frame's |
| Reversal.PhaseIsHeld | rtts/src/reversal_engine.rs:63-181 | an armed watcher holds the context of one arming sample, with no arming or confirmation since |
| Reversal.ConfirmationIsArmed | rtts/src/reversal_engine.rs:106-174 | every confirmation traces to one short profitable sample, the other direction, within the timeout, within 0.35% of the exit price, on a frame whose pressure fell below 82% of the frame before |
| Reversal.ConfirmedWithinArmed | rtts/src/reversal_engine.rs:106-181 | confirmations never outnumber arming samples, with one owed while armed |
| Reversal.NoSecondConfirmation | rtts/src/reversal_engine.rs:128-130 | between any two confirmations a sample has armed the watcher afresh |
| Reversal.ArmsIff | rtts/src/reversal_engine.rs:63-91 | in a run a sample arms exactly when it is a short profitable trade with a direction and the latest frame shows a price and no expanding trend |
| Reversal.ConfirmedIff | rtts/src/reversal_engine.rs:106-131 | after a long trade, exactly when a frame keeps the watch and when it confirms the reversal, in plain figures of that frame, the one before and the one armed on |
| Reversal.MirrorRun | rtts/src/reversal_engine.rs:106-160 | exchanging buying and selling in every sample and frame of a run exchanges the two directions in every answer and changes nothing else |
| Reversal.PriceMeans | rtts/src/reversal_engine.rs:256-264 | without a trade the price is midway between two positive quotes |
| Reversal.PressureMeans | rtts/src/reversal_engine.rs:266-278 | there is no pressure exactly when no reading points that way, and what each reading counts for |
| Reversal.UnconfirmedIsEmpty | rtts/src/reversal_engine.rs:119-127 | only a confirmed answer carries a confidence or an edge |
| Reversal.ConfidenceBetween | rtts/src/reversal_engine.rs:236-245 | the confidence lies between the least and greatest of its four readings, and moves with each by its share |
| Reversal.EdgeMoves | rtts/src/reversal_engine.rs:247-254 | the edge is never negative, rises with exhaustion, absorption and timing and falls with spread and pulled liquidity |
| Reversal.ReversalEngine.constructor | rtts/src/reversal_engine.rs:51-61 | an idle watcher |
| Reversal.ReversalEngine.ObserveLearning | rtts/src/reversal_engine.rs:63-91 | arms on a qualifying sample and otherwise changes nothing |
| Reversal.ReversalEngine.ObserveFrame | rtts/src/reversal_engine.rs:93-104 | answers from the pressures of the frame before, then replaces them |
| Reversal.ReversalEngine.ObservePhase | rtts/src/reversal_engine.rs:106-160 | the snapshot and whether the watch ends |
| Reversal.ReversalEngine.Reset | rtts/src/reversal_engine.rs:176-180 | clears phase, time and price and keeps the direction |

## Left out

- IEEE rounding, NaN and infinity: all floating-point quantities are exact reals.
- `sqrt` and `powf`: the square root is an arbitrary function that is positive on positive numbers, and the power 1.5 a value times its root, so of figures that use them only what holds for any such function is claimed; the Welch t-statistic and `validate_modes` are not modelled.
- Library sorting is written as insertion sort; only that it sorts and keeps counts is used.
- A realized entry's trade id string is the triple of order id, fill id and match index; liquidity flags and fee assets are dropped.
- Timestamps, account state, markout and regime fields of the Go orders, and the text of reports are dropped.
- Locks, channels, websockets, HTTP, JSON, request signing, retries, metrics and logging: a channel send is an emitted event, and every locked store method is one atomic step.
- Exchange replies, clock readings, latencies, the symbol hash of the mempool model, the decay penalty and the expected-value figures are arbitrary inputs.
- Freshly drawn order ids are taken not to repeat; a `Submit` that would draw a used id stays where it is.
- Retries that an exchange client makes inside one `SendOrder` call are not seen.
- Asynchronous exchange updates appear as the store steps they consist of, in any number and order; a submitted order is never overwritten under another key. In `SubmitTerms` others write orders back as they read them, price apart, as the only callers of `UpdateOrder` do (`control-plane/internal/execution/gateway.go:107`, `:286`).
- The exposure limit of the configuration is taken to be positive.
- `OverlappingSends` models the risk side of overlapping calls and `SubmitProtocol` their store side; the two are not combined in one state.
- The daily-loss limit of `service.go` and the drawdown check of `risk.rs`: their PnL inputs are never written, so no protection is claimed.
- BootReconcile.Reconcile: the error returns of the exchange calls, which end the pass early, are not modelled.
- `Cancel`, `Replace` and `SwitchStrategy` of the gateway: their store effects are among the steps others may take at any time; their remote calls are left out.
- The order loop's lookup tables over several controllers, `classify_failure`, fill rates, queue history and order-age fields: they feed feedback and metrics only.
- The two reversal observers, mirror images of each other, are one method with the direction as a parameter.
- Adverse-selection and fill-quality scores of emitted markout events.
- Signal scoring (weighted sums of features, cut at thresholds), the order-book, tape and latency windows (sums over the last events), the Python backend (feature frames and fitted classifiers) and the frontend.
