# Verified model of the trading core

A Dafny model of the four parts of the trading system whose guarantees range over all
inputs and all runs, with proofs of those guarantees. Run

    dafny verify dfyconfig.toml

to check everything.

1. **Capital cells.** Many cells' intents are netted, crossed internally and posted to
   virtual ledgers; the residual goes to the broker and its fill is handed out pro rata;
   stops claim shares for exits; the cells are reconciled against the master ledger.
   Modules `Intents`, `Matching`, `Netting`, `NettingEngine`, `CellLedgers`, `CellBooks`,
   `Batches`, `Posting`, `FillAllocation`, `FillPosting`, `ExactFills`, `Clearing`,
   `ClearingCover`, `NettingDrift`, `ClearingDrift`, `MasterLedgers`, `CellReconciliation`,
   `SellReservations`, `Stops`, `StopScopes`.
2. **Order execution.** The state machine, the durable table, the paper broker with its
   faults and its own errors, and the engine between them. Modules `OrderStates`,
   `DurableStore`, `PaperBrokers`, `FillSchema` (calls that raise), `FillPrices`,
   `BrokerOrders`, `BrokerObjects` (the imperative broker), `Execution` (what each call
   does, as a trace of durable steps), `EngineRuns`, `SubmissionRuns`, `Simulation`,
   `CrashRecovery`, `IllegalTransitions`, `StuckOrders`, `StaleChecks`, `BrokerOutages`,
   `ExecutionEngines` (the imperative engine, proved against `Execution`),
   `BrokerReconciliation`.
3. **Independence counting.** A Jacobi eigenvalue solver and union-find with path halving.
   Modules `Products`, `Matrices`, `Jacobi`, `JacobiSolver`, `Partition`, `UnionFind`,
   `Breadth`.
4. **Risk and grading.** Sizing, allocation, the gate, and the decision tracker. Modules
   `RiskConfigs`, `PositionSizing`, `SizingLimits`, `CapitalAllocation`, `RiskGate`,
   `Approvals`, `SizedEntries`, `DecisionQuality`, `DecisionRuns`, `Grades`,
   `DecisionQualityEngines`.

Money and quantities are exact reals with the code's own tolerances (1e-9) and rounding
(`round(x, 6)`, half to even). Where a guarantee needs quantities in whole micro-units the
lemma says so with `Whole`. What the code updates in place is a class or an array; each
method is proved against a function, and runs are proved about those functions. A run of
the engine is a sequence of calls that return or raise, crashes after any durable step,
restarts and settlement ticks.

## Model

| member | source | states |
|---|---|---|
| Jacobi.ComputedAngle | services/capital_cells/breadth.py:100-104 | for any non-zero pivot the computed tangent, cosine and sine satisfy the equations that annihilate it |
| Jacobi.RotationStaysSymmetric | services/capital_cells/breadth.py:80-116 | a rotation of a symmetric matrix leaves it symmetric |
| Jacobi.RotationKeepsTrace | services/capital_cells/breadth.py:80-116 | a rotation keeps the sum of the diagonal |
| Jacobi.RotationKeepsSumOfSquares | services/capital_cells/breadth.py:80-116 | a rotation keeps the sum of squares of all entries |
| Jacobi.RotationLowersOffMass | services/capital_cells/breadth.py:80-116 | a rotation lowers the off-diagonal sum of squares by exactly twice the square of the pivot |
| Jacobi.RotationKeepsEigenvalues | services/capital_cells/breadth.py:80-116 | a rotation changes no eigenvalue: each is one before if and only if it is one after |
| JacobiSolver.RunKeeps | services/capital_cells/breadth.py:80-116 | symmetry, trace, sum of squares and the set of eigenvalues survive any run of rotations |
| JacobiSolver.RunConverges | services/capital_cells/breadth.py:80-116 | with the largest pivot each time, the off-diagonal mass after k rotations is at most (1 - 2/(n(n-1)))^k of the start |
| JacobiSolver.ReturnedValues | services/capital_cells/breadth.py:80-116 | the returned diagonal sums to the trace, its squares to the sum of squares less the mass left, and every eigenvalue lies within (n-1)m of a returned value when m bounds the entries left off the diagonal |
| JacobiSolver.EigenvaluesConverge | services/capital_cells/breadth.py:80-116 | after k rotations every eigenvalue of the input lies within (n-1)m of a returned value for every m whose square is at least the geometric bound on the remaining mass |
| JacobiSolver.LargestOffDiagonal | services/capital_cells/breadth.py:92-97 | finds the first of the largest entries above the diagonal, in row order |
| JacobiSolver.SymmetricEigenvalues | services/capital_cells/breadth.py:80-116 | the in-place loop makes a run of largest-pivot rotations of the input, at most the allowed number, returns the last diagonal, and stops early only when every off-diagonal entry is within the tolerance |
| Breadth.RequireMeasuredPairs | services/capital_cells/breadth.py:64-77 | succeeds exactly when every pair of items has a measured correlation |
| Breadth.ValuesOfCorrelationMatrix | services/capital_cells/breadth.py:143-163 | for unit diagonal and entries in [-1, 1] the squared values sum to between n and n^2, short of the sum of squared entries by at most what the run left off the diagonal |
| Breadth.EigenvalueEffectiveRank | services/capital_cells/breadth.py:143-163 | the participation ratio is n^2 over that sum and already lies in [1, n], so floor and clamp never act; the sum is within n(n-1)tol^2, or the geometric bound, of the closed form |
| Breadth.ConfidenceIs | services/capital_cells/breadth.py:60-61 | confidence is the measured part of the sample asked for, in [0, 1], and 1 exactly from there on |
| Breadth.CorrelationClusterCount | services/capital_cells/breadth.py:166-182 | reports the number of classes of the closure of |correlation| >= threshold |
| Breadth.ClusterCountIgnoresOrder | services/capital_cells/breadth.py:166-182 | the reported count does not depend on how the items are listed |
| UnionFind.HalvingKeepsForest | services/capital_cells/breadth.py:125-129 | halving a path keeps the parent map an acyclic forest with the same roots |
| UnionFind.DisjointSets.Find | services/capital_cells/breadth.py:125-129 | terminates at the root of the item's tree and moves no item to another tree |
| UnionFind.DisjointSets.Union | services/capital_cells/breadth.py:131-134 | merges exactly the two trees named |
| UnionFind.RootsCountClasses | services/capital_cells/breadth.py:136-140 | once every edge has been merged there is one root per class |
| UnionFind.ConnectedComponentCount | services/capital_cells/breadth.py:119-140 | returns the number of classes of the reflexive, symmetric and transitive closure of "similarity >= threshold" |
| Partition.CountIgnoresOrder | services/capital_cells/breadth.py:119-140 | with a symmetric similarity the count is the same for every order of the items |
| Partition.CountRisesWithThreshold | services/capital_cells/breadth.py:119-140 | raising the threshold never lowers the count |
| Intents.SortKeeps | services/capital_cells/netting.py:178-179 | sorting by id orders the intents and keeps each exactly once |
| Intents.SortIgnoresOrder | services/capital_cells/netting.py:178-179 | with unique ids the sorted list does not depend on the input order |
| Matching.GreedyDrift | services/capital_cells/netting.py:184-200 | each intent that steps aside loses at most the tolerance, so the imbalance of the two sides drifts by at most one tolerance per intent, and one side ends finished |
| Matching.GreedySoldWithin | services/capital_cells/netting.py:184-200 | without any premise on units, what a cell sells across never exceeds what its sales lose |
| Matching.GreedyExactBuyer | services/capital_cells/netting.py:184-200 | in whole micro-units a cell buys across exactly what its purchases lose |
| Matching.GreedyExactSeller | services/capital_cells/netting.py:184-200 | in whole micro-units a cell sells across exactly what its sales lose |
| Netting.ResidualGap | services/capital_cells/netting.py:174-217 | the residual sums to the net order within 1e-9 per intent, for every valid batch of real quantities |
| Netting.GuardNeverFires | services/capital_cells/netting.py:85-91 | with at most 1000 intents in a symbol the construction guard cannot fire |
| Netting.NetPreservesMeaning | services/capital_cells/netting.py:174-217 | in whole micro-units every cell crosses and is still owed exactly what it asked for; the residual is on the net side only and sums to the net order; the volume crossed is the smaller gross flow |
| Netting.SalesWithinDemand | services/capital_cells/netting.py:174-217 | across and at the broker together, a cell sells no more than its own sales asked for |
| Netting.NetIgnoresOrder | services/capital_cells/netting.py:174-217 | one symbol nets the same for every order of its intents; only the record of contributors keeps the order |
| NettingEngine.MatchLoop | services/capital_cells/netting.py:184-200 | the two-pointer loop over the in-place lists of what is left computes the greedy match |
| NettingEngine.NetSymbol | services/capital_cells/netting.py:174-217 | the loops compute the netting result of a symbol |
| NettingEngine.ValidateIds | services/capital_cells/netting.py:146-163 | accepts exactly unique ids and known cells, reporting the first offence, and collects the sales per cell and symbol |
| NettingEngine.ValidateBatch | services/capital_cells/netting.py:146-171 | accepts a batch exactly when ids are unique, cells exist and no cell sells more of a symbol than it holds |
| NettingEngine.GroupBySymbol | services/capital_cells/netting.py:133-143 | groups the batch by symbol, symbols in order of first appearance |
| NettingEngine.Net | services/capital_cells/netting.py:133-143 | rejects exactly the invalid batches before any plan is drawn up, otherwise nets every symbol; inconsistency can only be reported above 1000 intents |
| NettingEngine.BatchOrderIsIrrelevant | services/capital_cells/netting.py:133-143 | two permutations of a batch with unique ids name the same symbols and net each of them the same, but for the record of contributors |
| CellLedgers.FillEffect | services/capital_cells/ledger.py:105-151 | an accepted fill moves cash and one position by exactly the fill (up to one tolerance of shares when dust is dropped) and keeps the cell free of short lots and overdraft |
| CellLedgers.CellLedger.Allocate | services/capital_cells/ledger.py:90-103 | hands out or claws back budget, refused exactly when the cell would be overdrawn, and then without a trace |
| CellLedgers.CellLedger.Fill | services/capital_cells/ledger.py:105-151 | validates the whole fill before it writes; a refused fill changes nothing |
| CellLedgers.CellLedger.RecordBrokerFill | services/capital_cells/ledger.py:153-158 | posts a share of a broker fill, fee included |
| CellLedgers.CellLedger.RecordInternalCross | services/capital_cells/ledger.py:160-166 | posts a transfer between cells, never with a fee |
| CellBooks.RefusedIff | services/capital_cells/ledger.py:90-166 | a budget move is refused exactly when it would leave cash below the tolerance, a fill or cross exactly when it would do that or sell more than the cell holds |
| CellBooks.FillCosts | services/capital_cells/ledger.py:105-151 | a purchase realises nothing and adds its price to the cost of the lot; a sale realises price less average cost on every share and leaves the average cost of the rest alone |
| CellBooks.CellBookIdentity | services/capital_cells/ledger.py:90-166 | over any run of allocations, broker fills and crosses, accepted or refused, cash plus lots at average cost is budget plus realised profit less fees, less the cost of the dust that closing sales discarded; cash and profit are the sums of the log |
| CellBooks.WholeCallsDiscardNothing | services/capital_cells/ledger.py:90-166 | in whole units nothing is discarded, so the identity is exact |
| CellLedgers.LegsMoveCash | services/capital_cells/ledger.py:105-151 | legs that are all accepted move a cell's cash by exactly their sum |
| CellLedgers.LegsMoveShares | services/capital_cells/ledger.py:105-151 | in whole units, accepted legs move a holding by exactly their sum |
| CellLedgers.PostLegs | services/capital_cells/netting.py:220-244 | posts leg by leg and stops at the first refusal |
| Batches.PostsIff | services/capital_cells/netting.py:247-273 | sales first, a batch posts without any refusal exactly when the aggregate check passes and no sale finds its position already closed |
| Batches.WholeBatchPostsIffValidated | services/capital_cells/netting.py:247-273 | in whole units the aggregate check passes if and only if every leg will be accepted |
| Batches.LegsMoveTotalCash | services/capital_cells/netting.py:220-244 | accepted legs move total virtual cash by exactly their cash |
| Batches.LegsMoveTotalShares | services/capital_cells/netting.py:220-244 | in whole units, accepted legs move the total of a symbol by exactly their shares |
| Posting.Accumulate | services/capital_cells/netting.py:247-262 | the two dictionaries hold exactly what the legs sell per cell and symbol and cost per cell; an unknown cell is noticed |
| Posting.ValidateLegs | services/capital_cells/netting.py:247-273 | passes exactly the addressed batches whose total sales are held and whose cells stay funded |
| Posting.ApplyCrossesToCells | services/capital_cells/netting.py:220-244 | whole-unit crosses are applied to every cell or to none, and total cash and total shares stay where they were |
| Posting.WholeCrossesPost | services/capital_cells/netting.py:220-273 | whole-unit crosses post completely exactly when they validate |
| Posting.CrossCashTotal | services/capital_cells/netting.py:220-244 | posted crosses leave total virtual cash unchanged |
| Posting.CrossShareTotal | services/capital_cells/netting.py:220-244 | posted whole-unit crosses leave the total of every symbol unchanged |
| Posting.DustInterruptsValidatedCrosses | services/capital_cells/netting.py:220-244 | for every holding there are two crosses, each above the matching cutoff and at a positive price, that validate and of which the second is refused half way: with sub-tolerance remainders "nothing here can raise" is false |
| ClearingCover.AcceptedBatchIsInterrupted | services/capital_cells/netting.py:133-244 | and netting produces them: it accepts a batch whose recorded crosses validate and whose posting then stops half way |
| FillAllocation.Allocate | services/capital_cells/fill_allocation.py:39-84 | the loop computes the rounded pro-rata allocation, with its three refusals |
| FillAllocation.RoundedSharesNear | services/capital_cells/fill_allocation.py:69-84 | rounding moves the sum of n shares by at most n half micro-shares |
| FillAllocation.RemainderNear | services/capital_cells/fill_allocation.py:69-84 | the last intent gets its exact share within (n-1)/2 micro-shares |
| FillAllocation.ExactIff | services/capital_cells/fill_allocation.py:39-84 | quantity sums exactly to the fill if and only if the last remainder exceeds the skip cutoff or is zero (fees: or there are none); in every case the total is within (n-1)/2 micro-shares, or the cutoff |
| FillAllocation.ExactWhenLastShareLarge | services/capital_cells/fill_allocation.py:39-84 | both sums are exact whenever the last exact share exceeds (n-1)/2 micro-shares plus the cutoff |
| FillAllocation.FeesInProportion | services/capital_cells/fill_allocation.py:69-84 | fees are handed out in exact proportion to quantity |
| FillAllocation.OverAllocation | services/capital_cells/fill_allocation.py:39-84 | a fill of 1.000001 shares owed 1, 1, 1 and 0.000001 is handed out as 1.000002 |
| FillAllocation.FullFill | services/capital_cells/fill_allocation.py:39-84 | a whole-unit fill of the whole residual gives every intent exactly what it asked for, and all the fees |
| FillAllocation.EachGetsItsShare | services/capital_cells/fill_allocation.py:39-84 | every leg is in one of the intents' own cell, symbol and side, at the fill's price, with its proportion of the fill within half a micro-unit per intent and that part of the fees; every intent owed more than rounding has such a leg |
| FillAllocation.RefusedIff | services/capital_cells/fill_allocation.py:55-67 | a fill is refused exactly when the intents mix symbols or sides, or when it exceeds their demand by more than a micro-unit |
| FillPosting.ApplyAllocationsToCells | services/capital_cells/fill_allocation.py:87-107 | posts to every cell or, when the check fails, to none; in whole units with every sale worth its fee it is never interrupted |
| ExactFills.AllocationCarriesExactlyIff | services/capital_cells/fill_allocation.py:39-84 | what the allocation produces for a whole-unit fill carries it exactly if and only if the last remainder is above the cutoff or zero |
| ExactFills.ExactTotals | services/capital_cells/fill_allocation.py:87-107 | the posted legs of an exact allocation move the fill's shares and the fill's cash in total |
| Clearing.ClearingPreservesMeaning | services/capital_cells/netting.py:133-244 | for a whole-unit batch, once crosses and full fills of every residual order are posted, each cell's position in each symbol has changed by the signed sum of the cell's own intents |
| Clearing.BatchBrings | services/capital_cells/fill_allocation.py:39-107 | crosses and full fills of all symbols together bring a cell the signed sum of its intents in a symbol |
| NettingDrift.NetNearlyPreservesMeaning | services/capital_cells/netting.py:174-217 | at any real quantities, what a cell crosses and what the broker order still owes it add up to what it asked for within four tolerances per intent of the symbol |
| ClearingDrift.FillNear | services/capital_cells/fill_allocation.py:39-84 | at any real quantities, a fill of the whole order gives every cell what it is owed within one micro-unit per residual intent and the gap between residual and fill |
| ClearingDrift.LegsMoveSharesNear | services/capital_cells/ledger.py:105-151 | at any real quantities, accepted legs move a holding by their sum within one tolerance per sale posted |
| ClearingDrift.ClearingNearlyPreservesMeaning | services/capital_cells/netting.py:133-244 | for every batch of real quantities that netting accepts, once crosses and full fills are posted, each position has changed by the signed sum of the cell's own intents within one micro-unit and five tolerances per intent of the symbol and one tolerance per sale posted |
| ClearingCover.AcceptedBatchIsCovered | services/capital_cells/netting.py:164-172 | a batch that passes the no-short check passes the share check of posting on the same cells: its crosses for all real quantities, and in whole units crosses and full fills together |
| MasterLedgers.FillEffect | packages/common/ledger.py:101-144 | with fees of 0 or more a raised fill changes nothing and an accepted one moves cash, fees and one lot |
| MasterLedgers.FillCosts | packages/common/ledger.py:101-144 | a purchase realises nothing and adds its price to the cost of the lot; a sale realises price less average cost on every share and leaves the average cost of the rest alone |
| MasterLedgers.DepositRefusedIff | packages/common/ledger.py:76-99 | a deposit or withdrawal is refused exactly when it would leave cash below the tolerance, and moves nothing else |
| MasterLedgers.MarkIsThePeak | packages/common/ledger.py:146-216 | over any run the mark is at least every snapshot's equity since the last rebase, and is one of those, or what a rebase or the opening set it to |
| MasterLedgers.RejectedFillLeavesNoTraceIff | packages/common/ledger.py:101-144 | a raised fill leaves no trace exactly when it was blocked before the first write; it is raised later exactly when a negative fee alone made it look affordable |
| MasterLedgers.NegativeFeeLeavesATrace | packages/common/ledger.py:101-144 | a purchase for 10 with a fee of -10 on no cash raises after the lot is written |
| MasterLedgers.LogReplaysToState | packages/common/ledger.py:76-173 | over any run of calls, accepted or rejected, folding the log reproduces cash, lots with average cost, profit and fees |
| MasterLedgers.HighWaterNotInLog | packages/common/ledger.py:209-216 | the high-water mark is not determined by the log |
| MasterLedgers.BookIdentity | packages/common/ledger.py:76-173 | over any run, cash plus lots at cost is deposits plus realised profit less fees, less the cost of the dust that closing sales discarded |
| MasterLedgers.DustIsDiscarded | packages/common/ledger.py:101-144 | a run of one purchase and one sale of all but half a tolerance discards a cost of 5e-9, and the books are off by exactly that |
| MasterLedgers.WholeRunsDiscardNothing | packages/common/ledger.py:76-173 | in whole units nothing is discarded, so the identity is exact |
| MasterLedgers.Ledger.AppendEntry | packages/common/ledger.py:76-93 | appends and applies one entry, or raises without a trace when cash would go negative |
| MasterLedgers.Ledger.DepositCash | packages/common/ledger.py:95-99 | a deposit is a cash entry |
| MasterLedgers.Ledger.Fill | packages/common/ledger.py:101-144 | does exactly the three writes described, in their order |
| MasterLedgers.Ledger.RebaseHighWater | packages/common/ledger.py:146-173 | needs a named approver, resets the mark to cash and logs an entry of amount 0 |
| MasterLedgers.Ledger.TakeSnapshot | packages/common/ledger.py:209-216 | raises the mark to the marked equity; with a positive mark the equity is the mark times one less the reported drawdown, which is positive exactly below the mark |
| CellReconciliation.StepKeepsConsistentIff | services/capital_cells/reconciliation.py:45-72 | one funding, budget, cross or fill event keeps both equations exactly unless the master ledger refuses what the cells accepted |
| CellReconciliation.MasterRefusesIff | packages/common/ledger.py:101-144 | after every cell has accepted its leg, the master refuses the fill if and only if cells and unallocated cash together end below the tolerance |
| CellReconciliation.ReserveSuffices | services/capital_cells/reconciliation.py:45-72 | one tolerance per further cell, held unallocated, rules the refusal out |
| CellReconciliation.NoOverdraftSuffices | services/capital_cells/reconciliation.py:45-72 | so does no overdrawn cell and no negative reserve |
| CellReconciliation.RunsStayConsistent | services/capital_cells/reconciliation.py:45-72 | over any run that keeps the reserve, cell cash plus unallocated is master cash and cell positions sum to master positions |
| CellReconciliation.MasterCanRefuse | services/capital_cells/reconciliation.py:45-72 | without the reserve two cells each at the tolerance accept a fill the master refuses, and the books part |
| CellReconciliation.NothingOff | services/capital_cells/reconciliation.py:45-72 | on consistent books the engine has nothing to report, whatever the tolerances |
| CellReconciliation.CellReconciliationEngine.Reconcile | services/capital_cells/reconciliation.py:45-72 | reports every disagreement beyond tolerance and no other, nothing at all exactly when cell cash with unallocated cash and adjustments matches master cash and every symbol's cell total matches the master position, and halts entries exactly when something is reported |
| SellReservations.SellReservationLedger.CheckCanReserve | services/capital_cells/stops.py:105-114 | passes exactly what is available plus one tolerance |
| SellReservations.SellReservationLedger.ReserveSell | services/capital_cells/stops.py:116-125 | claims the shares or, for any of its three refusals, changes nothing |
| SellReservations.SellReservationLedger.Release | services/capital_cells/stops.py:127-131 | gives one claim back |
| StopScopes.GrantedIff | services/capital_cells/stops.py:105-125 | a claim is granted exactly when it is for something, under a new id, and keeps the claims on its symbol within the master position to one tolerance |
| StopScopes.FiresIff | services/capital_cells/stops.py:168-227 | with new ids a stop fires exactly when in every symbol existing claims and planned exits fit the master position to one tolerance; otherwise it is refused whole |
| StopScopes.ExitsStayInScope | services/capital_cells/stops.py:168-227 | each exit sells just what its cell holds unclaimed; a CELL stop returns exits of its own cell and symbol only, a SYMBOL stop of its own symbol only |
| StopScopes.ScopeIsClaimed | services/capital_cells/stops.py:168-227 | a stop that fires leaves its own cell's holding (CELL), every holding of its symbol (SYMBOL) or every holding (PORTFOLIO) fully claimed to one tolerance, and changes no other claim |
| StopScopes.FinishingFrees | services/capital_cells/stops.py:127-131 | a finished exit gives back its own claim and no other |
| Stops.CommitGrants | services/capital_cells/stops.py:212-227 | once the per-symbol batch check has passed no reservation of the commit loop is refused |
| Stops.TriggerClaims | services/capital_cells/stops.py:168-227 | a trigger brings every target's claim up to its holding and touches no other |
| Stops.RefireYieldsNothing | services/capital_cells/stops.py:168-227 | afterwards any stop that reaches no further yields no exit |
| Stops.NeverDoubleClaimed | services/capital_cells/stops.py:168-227 | over any sequence of overlapping triggers, releases and syncs on unchanged cells, each cell and symbol is claimed at most its holding |
| Stops.ToleranceNeverAccumulates | services/capital_cells/stops.py:168-227 | claims stay within the master position plus one tolerance, however many triggers fire, unless a sync lowers the master position |
| Stops.ExitsInFlightPassNetting | services/capital_cells/netting.py:164-172 | all exits still in flight together pass netting's no-short check |
| Stops.CellStopRegistry.FindTargets | services/capital_cells/stops.py:190-198 | finds each reached cell and symbol once |
| Stops.CellStopRegistry.PlanExits | services/capital_cells/stops.py:200-210 | plans what is unclaimed of each target, above the tolerance |
| Stops.CellStopRegistry.CheckBatch | services/capital_cells/stops.py:212-217 | passes exactly when the summed exits of every symbol fit |
| Stops.CellStopRegistry.Trigger | services/capital_cells/stops.py:168-227 | all or nothing: the reserved exits are returned, or nothing is reserved |
| OrderStates.RunsStayFaithful | services/execution/state_machine.py:65-100 | over any run of creates, restores and transitions each record is a legal walk and the shared log holds exactly its moves |
| OrderStates.TerminalIsFinal | services/execution/state_machine.py:18-35 | a terminal order never changes again, whatever is attempted |
| OrderStates.NothingSkipsApproval | services/execution/state_machine.py:18-35 | no created order gets past submission without having been risk approved and then submitted |
| OrderStates.OrderStateMachine.Create | services/execution/state_machine.py:65-70 | opens a record at CREATED or refuses a known id |
| OrderStates.OrderStateMachine.Restore | services/execution/state_machine.py:75-85 | opens a record at the durable state, outside the whitelist |
| OrderStates.OrderStateMachine.Advance | services/execution/state_machine.py:87-100 | moves along the whitelist and logs the move, or changes nothing and tells an unknown order from a forbidden move |
| DurableStore.DurableOrderStore.RecordSubmission | packages/common/durable_store.py:63-78 | inserts a new row, or fails on a known id and writes nothing |
| DurableStore.DurableOrderStore.UpdateState | packages/common/durable_store.py:80-86 | changes the state of one row and nothing else |
| FillSchema.ExecutionConservesIff | packages/broker_adapters/paper.py:116-171 | at any legal quote an execution keeps the books sound if and only if the fill it makes has a price that does not round to zero; otherwise it raises with cash and shares moved |
| FillSchema.ReturnsIff | packages/broker_adapters/paper.py:76-203 | a call raises exactly when one of the executions it comes to makes a fill whose price rounds to zero |
| FillSchema.RunsConserveIff | packages/broker_adapters/paper.py:76-203 | over any run at legal quotes the books are sound after every call exactly when no call comes to such a fill |
| FillSchema.RunsConserve | packages/broker_adapters/paper.py:76-203 | over any such run of submits, polls, cancels and settlements under any faults, fills, cash and positions add up: filled quantity is the sum of fills and within the request, cash is opening cash plus the trades', settled cash stays above the tolerance, positions are net fills |
| FillSchema.SaneRunsReturn | packages/broker_adapters/paper.py:76-203 | quotes that stay positive after rounding never lead to such a fill |
| FillSchema.ProceedsWaitForSettlement | packages/broker_adapters/paper.py:143-176 | at any legal quotes, whether or not calls raise, until the next settlement all purchases together cost no more than the settled cash there was plus one tolerance |
| FillSchema.TinyPriceBuysAgain | packages/broker_adapters/paper.py:141-166 | a limit buy at 0.0000004 raises with cash and share moved and no fill; executing it again buys again |
| PaperBrokers.DustIsAllThatIsLost | packages/broker_adapters/paper.py:146-160 | positions differ from net fills by at most one tolerance per closing sale that dropped dust |
| FillPrices.RestsUntriggered | packages/broker_adapters/paper.py:97-124 | a limit order beyond the touch, an untouched sell stop, any buy stop and a finished order stay as they are |
| FillPrices.ExecutesExactly | packages/broker_adapters/paper.py:97-171 | any other order fills at once exactly when settled cash or shares held cover it; otherwise it is rejected if nothing of it has filled, and left alone if something has |
| FillPrices.RecordsFairFill | packages/broker_adapters/paper.py:97-171 | a market purchase pays ask plus slippage, a market sale or triggered stop gets bid less slippage and at least a cent, a limit order fills at the touch and only within its limit; all that is outstanding fills (half of it under the partial-fill fault), for the fee rate on the notional |
| FillPrices.EveryFillIsFair | packages/broker_adapters/paper.py:76-203 | so does every trade of any run of calls, at the quotes some submit or poll of the run saw |
| FillPrices.NoFillBeatsTheTouch | packages/broker_adapters/paper.py:76-203 | no fill of a run is better than the touch |
| FillPrices.PositionCosts | packages/broker_adapters/paper.py:146-160 | a purchase leaves the position at the average of old and new cost, to the nearest micro-unit; a sale leaves the average cost alone |
| BrokerOrders.FinishedOrdersStay | packages/broker_adapters/paper.py:76-203 | a filled, cancelled or rejected order never changes again in any run |
| BrokerOrders.CancelEndsWorkingOrders | packages/broker_adapters/paper.py:192-203 | a cancel ends exactly a working order, moves no money and no other order, and answers accordingly |
| BrokerOrders.SettlementReleases | packages/broker_adapters/paper.py:173-176 | a settlement turns all unsettled proceeds into settled cash and changes nothing else |
| BrokerOrders.SubmitProgresses | packages/broker_adapters/paper.py:76-95 | raised or not, a submit touches no order but the new one, which starts acknowledged and only makes progress |
| BrokerOrders.RestingPollProgresses | packages/broker_adapters/paper.py:178-190 | raised or not, a poll of the resting orders lets orders make progress and does nothing else to them |
| BrokerObjects.PaperBroker.ExecuteOrder | packages/broker_adapters/paper.py:116-171 | moves cash, shares, order and fills exactly as one execution, and raises where it does |
| BrokerObjects.PaperBroker.SubmitOrder | packages/broker_adapters/paper.py:76-95 | takes a new order in and executes it, also when the answer is lost |
| BrokerObjects.PaperBroker.PollRestingOrders | packages/broker_adapters/paper.py:178-190 | re-evaluates the resting orders, oldest first, until one raises, and returns the new fills |
| BrokerObjects.PaperBroker.CancelOrder | packages/broker_adapters/paper.py:192-203 | cancels exactly the working orders |
| BrokerObjects.PaperBroker.SettleCash | packages/broker_adapters/paper.py:173-176 | moves the unsettled proceeds to settled cash |
| Execution.RequestIsTheApprovedOrder | services/execution/engine.py:62-158 | what is sent for an accepted order is the approved intent, field by field, under a verified signature and for a new id |
| SubmissionRuns.SubmitsAtMostOnce | services/execution/engine.py:62-158 | over any run of calls at any legal quotes, returned, raised or crashed after any durable step, with restarts in between, each id reaches the broker at most once and every order the broker holds has a durable row |
| EngineRuns.FaultsIff | services/execution/engine.py:62-266 | the broker's own error reaches the caller exactly when the submission or the sync comes to a fill whose price rounds to zero |
| EngineRuns.RecoveryIsComplete | services/execution/engine.py:220-242 | after recovery every durable order is known, a new one at its durable state with its snapshot and no history; orders already known are left alone |
| StaleChecks.StaleCheckCancelsExactly | services/execution/engine.py:244-266 | a stale check sends a cancel only for orders this process submitted that are acknowledged, not protective and older than the limit; when no error ends it, for every one of them |
| StaleChecks.OnlyEntriesAreCancelled | services/execution/engine.py:62-266 | no call of the engine cancels a protective order, or one it does not remember submitting |
| StaleChecks.ProtectiveOrdersAreNeverCancelled | services/execution/engine.py:62-266 | over any run of calls, crashes and restarts, once a protective order has its row the broker never holds it as cancelled |
| BrokerOutages.SubmissionSignals | services/execution/engine.py:123-158 | an answered submission ends UNKNOWN exactly on a timeout or a disconnect, and then the controller stands at HALT_NEW_ENTRIES or FULL_BROKER_DISCONNECT accordingly; otherwise its state is untouched |
| BrokerOutages.RefusalEnds | services/execution/engine.py:123-158 | a broker that turns the order down ends it, rejected here and in its row |
| BrokerOutages.OtherCallsSignal | services/execution/engine.py:168-266 | a sync that finds the connection down sets FULL_BROKER_DISCONNECT; no other call touches the controller |
| BrokerOutages.ResolvingSettles | services/execution/engine.py:202-218 | an UNKNOWN order the broker holds takes on the broker's state, here and in its row; otherwise nothing changes |
| Simulation.CallKeepsSimIff | services/execution/engine.py:62-266 | one call under one fixed fault keeps every order's row equal to its local state and that equal to the broker's or UNKNOWN, exactly unless the broker comes to such a fill, and even then if a sync does so before any known order has moved; it never attempts an illegal transition |
| Simulation.LocalStatesSimulateTheBroker | services/execution/engine.py:62-266 | the same after every step of any run of calls that come to no such fill, settlements and clean restarts |
| CrashRecovery.CrashRunsStayConsistent | services/execution/engine.py:62-266 | with crashes anywhere and errors raised in the broker, rows, local states and broker stay within the pairs recovery can meet |
| IllegalTransitions.RaisesIff | services/execution/engine.py:62-266 | in any state such a run reaches, any call raises an illegal transition exactly when it comes to an order left behind in a listed pair of local and broker state: three pairs for a poll, one each for a sync and a stale check, none for the others |
| StuckOrders.CrashAfterSendIsStuck | services/execution/engine.py:220-242 | a crash after the broker filled and before the answer is saved leaves an order whose poll raises after recovery |
| StuckOrders.CrashInStaleCheckIsStuck | services/execution/engine.py:244-266 | so does a crash between the broker's cancel and saving it |
| ExecutionEngines.ExecutionEngine.SubmitApproved | services/execution/engine.py:62-158 | performs exactly the durable steps of a submit, row before broker call, and ends in the described memory, also when the broker raises |
| ExecutionEngines.ExecutionEngine.PollOrder | services/execution/engine.py:168-182 | performs exactly the steps of a poll |
| ExecutionEngines.ExecutionEngine.SyncOpenOrders | services/execution/engine.py:184-200 | performs exactly the steps of a sync over all local orders and returns exactly the fills the broker has added |
| ExecutionEngines.ExecutionEngine.ResolveUnknownOrder | services/execution/engine.py:202-218 | performs exactly the steps of settling an UNKNOWN order |
| ExecutionEngines.ExecutionEngine.RecoverFromStore | services/execution/engine.py:220-242 | restores exactly the unknown durable orders and counts them |
| ExecutionEngines.ExecutionEngine.CheckStaleOrders | services/execution/engine.py:244-266 | performs exactly the steps of cancelling the stale orders and returns exactly those that were stale when it began, in the order visited |
| BrokerReconciliation.BookedLedgerAgrees | services/pipeline.py:372-412 | if every fill is booked once and none is refused, ledger cash is within half a micro-unit times the sum of (qty + 1) of the broker's cash and all positions agree exactly |
| BrokerReconciliation.NoneRefusedIff | packages/common/ledger.py:101-144 | no booking is refused exactly when after every fill the opening cash covers the reported fills so far |
| BrokerReconciliation.CushionSuffices | packages/common/ledger.py:101-144 | broker cash that covers the drift after every fill is enough for that |
| BrokerReconciliation.RoundedUpPurchaseIsRefused | packages/broker_adapters/paper.py:162-166 | an account that spends all of 1.0000006 at that price is filled by the broker, refused by the ledger and reported as missing |
| BrokerReconciliation.ReconciliationStaysSilent | services/reconciliation/engine.py:40-74 | with every fill booked and the sum of (qty + 1) at most 99998, reconciliation reports nothing in any state the broker can reach |
| BrokerReconciliation.ReconciliationEngine.Reconcile | services/reconciliation/engine.py:40-74 | reports exactly the disagreements beyond tolerance, nothing at all exactly when reported cash, symbols held and every quantity agree, and sets the stop state to match |
| DecisionQuality.ExcursionIsLeast | services/pdca/decision_quality.py:183-199 | a new observation's excursion is the least of 0 and the signed returns at all target horizons due by then, though only earlier observations are consulted |
| DecisionQuality.ObserveKeeps | services/pdca/decision_quality.py:179-204 | one step of the inner loop keeps exactly the due horizons observed, each with the price, return, excursions and benchmark of its own moment |
| DecisionRuns.RunsSettle | services/pdca/decision_quality.py:141-206 | after any run of records and tracks each evaluation is determined by the latest moment looked at |
| DecisionRuns.TrackingIsScheduleFree | services/pdca/decision_quality.py:159-277 | two runs that last looked at a decision at the same moment leave the same observations, class and scores |
| DecisionRuns.OneCallIsEnough | services/pdca/decision_quality.py:159-277 | any calls before the last moment might as well not have been made |
| DecisionRuns.NoLookAhead | services/pdca/decision_quality.py:159-206 | what is recorded for a horizon does not depend on any later price or benchmark |
| DecisionRuns.GradeUsesNothingLater | services/pdca/decision_quality.py:209-277 | nor does the grade on anything after the horizon it was given at |
| DecisionRuns.ExcursionsAreThoseOfTheStance | services/pdca/decision_quality.py:183-199 | after any run an observation's adverse and favourable excursions are the least and greatest of 0 and the gains of the stance taken, a sale gaining what the price loses, at the target horizons due by then |
| Grades.PendingUntilObserved | services/pdca/decision_quality.py:209-215 | without an observation at its own horizon or at one week a decision stays pending |
| Grades.ClassFollowsAlpha | services/pdca/decision_quality.py:216-234 | a directional decision is good exactly when it beat the benchmark by the threshold and bad exactly when it fell short by it |
| Grades.StayingOutIsGraded | services/pdca/decision_quality.py:247-259 | staying out is good when the price fell by the threshold, and a missed opportunity, mixed and never bad, when it rose by it |
| Grades.ScoreHasTheSignOfAlpha | services/pdca/decision_quality.py:235-246 | scores lie in [0, 100], 50 or more with alpha of 0 or more and 50 or less with alpha of 0 or less |
| Grades.ScoreRisesWithAlpha | services/pdca/decision_quality.py:235-246 | for an increasing tanh and the same drawdown, more alpha scores no less |
| Grades.DeeperDrawdownScoresLess | services/pdca/decision_quality.py:235-246 | the same gain through a deeper drawdown scores no more |
| Grades.AvoidingMoreScoresMore | services/pdca/decision_quality.py:247-259 | staying out of a price that did worse scores no less |
| Grades.EachLapseHasItsPrice | services/pdca/decision_quality.py:260-271 | each lapse costs its own number of points, down to 0 |
| Grades.OverallBlends | services/pdca/decision_quality.py:272-277 | the overall grade is 45 parts outcome and 55 parts process to the nearest cent, capped at 40 for rule breakers |
| DecisionRuns.RuleBreakersScoreLow | services/pdca/decision_quality.py:273-277 | a decision that broke a rule is never graded above 40 overall |
| DecisionRuns.LabelIsScheduleFreeIff | services/pdca/decision_quality.py:247-259 | the avoidance label is independent of the schedule exactly when the decision's own horizon, if later than a week and due, earns a label or one week earned none |
| DecisionRuns.StaleLabelStays | services/pdca/decision_quality.py:247-259 | otherwise looking once after a week leaves a label that a single call at the end does not give |
| DecisionQualityEngines.DecisionQualityEngine.Record | services/pdca/decision_quality.py:141-150 | keeps the first snapshot of an id and refuses a different one |
| DecisionQualityEngines.DecisionQualityEngine.Track | services/pdca/decision_quality.py:159-206 | tracks every decision and returns the number of new observations |
| DecisionQualityEngines.DecisionQualityEngine.MeasureAt | services/pdca/decision_quality.py:183-203 | computes an observation from price, stance and earlier observations |
| DecisionQualityEngines.DecisionQualityEngine.Evaluate | services/pdca/decision_quality.py:209-277 | computes the grade |
| PositionSizing.QtyWithin | services/position_sizing/engine.py:50-99 | an accepted size costs no more than the cap and risks no more than the budget |
| SizingLimits.AcceptedKeepsLimits | services/position_sizing/engine.py:50-107 | an accepted size keeps risk within the throttled budget scaled by confidence and within the last loss, and holding plus cost within the position cap, cash, volume and every theme, less the correlation penalty; on a wide spread twice the size still would |
| SizingLimits.SizeIsLargest | services/position_sizing/engine.py:50-107 | no quantity that keeps those limits (half of it on a wide spread) exceeds the size by more than the last of its four decimals, and a candidate is turned away only if none is worth a unit of money |
| PositionSizing.NeverDoublesDown | services/position_sizing/engine.py:56-67 | after a loss the next entry risks no more than the losing trade, and never more than the throttled budget |
| PositionSizing.LosingStreakNeverGrows | services/position_sizing/engine.py:46-67 | through a losing streak the amount at risk never grows |
| PositionSizing.PositionSizingEngine.RecordTradeResult | services/position_sizing/engine.py:46-48 | remembers the risk of a losing trade and forgets that of a winning one |
| PositionSizing.PositionSizingEngine.SizeEntry | services/position_sizing/engine.py:50-107 | computes the size step by step and logs exactly the accepted ones |
| PositionSizing.PositionSizingEngine.LimitNotional | services/position_sizing/engine.py:69-84 | computes the cap over position, cash, liquidity and every theme |
| SizedEntries.SizedEntryPasses | services/risk/master_controller.py:172-227 | an accepted size passes the gate's price, cash, position, liquidity, theme and gap checks on the same numbers without using their tolerance |
| SizedEntries.EveryEntryPassesIff | services/position_sizing/engine.py:82-84 | all accepted sizes pass those checks exactly for the configurations whose correlation factor is at most 1, whose threshold no correlation can exceed, or whose limits admit nothing |
| SizedEntries.CorrelatedOverspends | services/position_sizing/engine.py:82-84 | otherwise the factor sizes a fully correlated candidate beyond the cash there is |
| SizedEntries.AcceptedValueNearlyFits | services/capital_allocation/engine.py:25-49 | at exact values all accepted orders exceed cash and cap by at most 1e-9 plus half a micro-unit each |
| SizedEntries.AdmittedWhereAllocatedIff | services/risk/master_controller.py:190-195 | for an accepted size and every account with positive equity, the gate upholds the allocator's exposure decision exactly when rounding did not lower the notional or the cap admits nothing |
| SizedEntries.AllocatedAndRefused | services/risk/master_controller.py:190-195 | sizing accepts 1.0001 shares at 1.0000004, the allocator finds exactly enough room, and the gate refuses the order |
| CapitalAllocation.RankedIsRanking | services/capital_allocation/engine.py:32 | ranking puts the best edge first and keeps each candidate once |
| CapitalAllocation.BetterIsConsideredFirst | services/capital_allocation/engine.py:28-35 | between equal positive middles the more confident candidate is considered first, between equal confidences the one with the higher middle |
| CapitalAllocation.RankingIsStable | services/capital_allocation/engine.py:32 | ties keep their order |
| CapitalAllocation.AllocationWithinCash | services/capital_allocation/engine.py:35-49 | all accepted notionals together stay within the settled cash and the cap plus one tolerance in all |
| CapitalAllocation.NoSkippedCandidateFits | services/capital_allocation/engine.py:39-48 | no skipped candidate would fit at the end, for the reason it was given |
| CapitalAllocation.SkippedForBetter | services/capital_allocation/engine.py:39-48 | a candidate is skipped only because of accepted ones of at least its edge |
| CapitalAllocation.EveryCandidateIsDecided | services/capital_allocation/engine.py:35-49 | every candidate is accepted or skipped, once |
| CapitalAllocation.CapitalAllocationEngine.AllocateCash | services/capital_allocation/engine.py:25-49 | the loop computes that allocation |
| RiskGate.HaltsNeverBlockExits | services/risk/master_controller.py:138-284 | no stop state short of a disconnect, drawdown, stale signal, reconciliation break, data halt, spread, gap score or closed session changes the verdict on a protective exit |
| RiskGate.DeeperNeverReopens | services/risk/master_controller.py:50-59 | a deeper drawdown never lets in an entry a shallower one kept out, however the ladder is configured |
| RiskGate.OnlyReviewedOrdersAreSent | services/risk/master_controller.py:274-284 | what the engine sends on an approval from this controller's log is an order some review passed on every check |
| RiskGate.ApprovedOrdersAreAccepted | services/execution/engine.py:62-103 | an order just approved is not refused by an engine that has not seen it, whatever take-profit its snapshot was frozen with |
| RiskGate.MasterRiskController.ReviewOrder | services/risk/master_controller.py:138-284 | runs the checks in order, approves exactly when none fails, and logs the verdict |
| Approvals.BuyApprovedIff | services/risk/master_controller.py:138-284 | a purchase is approved exactly when it has a price, the state is NORMAL, drawdown is below both entry thresholds, stop plan, gap, reconciliation, session, data, signal age and spread allow entries, and cash, leverage, exposure, position, volume and every theme can bear its value |
| Approvals.SaleApprovedIff | services/risk/master_controller.py:138-284 | a sale that is no protective exit is approved exactly when entries are open and the shares are held |
| Approvals.ExitApprovedIff | services/risk/master_controller.py:138-284 | a protective exit is approved exactly when it can be sent, the market is not halted, the state is no disconnect, and the shares are held |
| Approvals.VerdictNamesTheOrder | services/risk/master_controller.py:123-136 | an approval is signed and names id, symbol, side, quantity and payload of the order; a rejection names the order and a reason |

## Findings

Properties the code's documentation promises, or a reader would expect, that fail; each has
its input and its exact condition among the members above.

- Allocation does not always sum exactly to the fill (`ExactIff`); it can hand out more
  than was filled (`OverAllocation`).
- Applying validated crosses can raise half way when a sale leaves less than the tolerance
  and so closes the position for the next one (`PostsIff`, `DustInterruptsValidatedCrosses`,
  `AcceptedBatchIsInterrupted`).
- The master ledger can refuse a fill that every cell accepted, if several cells sit within
  their tolerance below zero (`MasterRefusesIff`, `MasterCanRefuse`).
- A fill with a negative fee can be rejected and still leave its lot behind
  (`RejectedFillLeavesNoTraceIff`, `NegativeFeeLeavesATrace`).
- The high-water mark cannot be replayed from the log (`HighWaterNotInLog`), and the book
  identity is off by the cost of discarded dust (`BookIdentity`, `DustIsDiscarded`).
- A fill whose price rounds to zero is refused by its own schema after cash and shares have
  moved (`ReturnsIff`, `RunsConserveIff`, `TinyPriceBuysAgain`); the error passes through
  the engine and leaves the order SUBMITTED here and acknowledged there (`FaultsIff`,
  `CallKeepsSimIff`).
- A purchase with the last of the cash can be filled by the broker and refused by the
  ledger, because the reported price is rounded up (`NoneRefusedIff`,
  `RoundedUpPurchaseIsRefused`).
- After a crash between the broker's answer and saving it, the recovered order cannot be
  polled: every poll raises (`RaisesIff`, `CrashAfterSendIsStuck`,
  `CrashInStaleCheckIsStuck`).
- A correlation factor above 1 is accepted by the configuration and turns the penalty into
  an overdraft of cash (`EveryEntryPassesIff`, `CorrelatedOverspends`).
- The gate can refuse an order the allocator found room for, because the allocator compares
  a rounded notional (`AdmittedWhereAllocatedIff`, `AllocatedAndRefused`).
- The avoidance label depends on when a decision was tracked, because grading never clears
  it (`LabelIsScheduleFreeIff`, `StaleLabelStays`).

## Left out

- LocalStatesSimulateTheBroker: runs in which the broker comes to no fill whose price rounds
  to zero; `CallKeepsSimIff` has the exact condition, and `CrashRunsStayConsistent` covers the
  runs that do.
- RunsConserve: the same runs; `RunsConserveIff` has the exact condition.
- ReconciliationStaysSilent: broker states with sound books, which by `RunsConserveIff` are
  those of the same runs.
- ClearingPreservesMeaning: exact in whole micro-units only; for all real quantities
  `ClearingNearlyPreservesMeaning` bounds what the two cutoffs and rounding can move. Both
  speak of clearings whose legs are all posted; `AcceptedBatchIsCovered` and `PostsIff` say
  when they are.
- RunsStayConsistent: fills are those whose allocation is exact; `AllocationCarriesExactlyIff`
  says when it is.
- TrackingIsScheduleFree: one deterministic price source and one choice of extended horizons
  for the whole run.
- AcceptedBatchIsCovered: fills only in whole units, because rounding can hand out more than
  was asked for.
- BookedLedgerAgrees: books every broker fill; a protective stop that fills inside its own
  submit and an order left UNKNOWN are not booked by the pipeline and lie outside.
- IEEE rounding: quantities are exact reals; a float sum can differ in its last bits.
- on_fill: the engine's fill callback. It hands every fill of an order over again at each
  state change, so a fill delivered at PARTIALLY_FILLED is delivered again at FILLED;
  nothing in the repository sets it.
- Hashes and signatures: injective functions of what they cover. The real payload formats
  numbers to ten significant digits, so quantities that agree to that precision share a hash.
- Approved snapshots: taken to be frozen, that is, hashed over their own fields.
- Stop ids: the random suffixes drawn for one trigger are premised to be unused and distinct.
- math.tanh: a parameter; the members of `Grades` that need it ask that it is increasing,
  and 0 at 0 where the sign of alpha is concerned.
- SQLite, JSON and pydantic: the order table is a map with an atomic unique insert, and
  schema constraints are premises.
- An engine without a durable store.
- Timestamps, notes and reasons, which nothing here depends on.
- PaperOrder and DecisionEvaluation objects: values in a map, so their aliasing is not modelled.
- Aliased cell ledgers: `Distinct` premises one ledger object per cell.
- LIMIT and STOP orders without a price, which the broker asserts against.
- Quotes: a total function, constant during one call; each engine call sees one fixed fault.
- Order of dictionary iteration: every visiting order is covered, so none is fixed.
- The factor-exposure cluster count and the combination of estimates in breadth.py.
- Monthly decision reports, pipeline glue, market data, news, regime and cost modules.
- Corporate actions: a symbol change logs no quantity and can overwrite a held lot, so the
  replay of `LogReplaysToState` does not extend to it.
