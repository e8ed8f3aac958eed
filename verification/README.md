# A verified model of the derivation-counter Datalog engine

This project models the incremental Datalog engine of `bin/Oracle/Main.cpp` and proves that it
is right: for every well-formed rule program and every sequence of message batches, maintaining
the views by signed counter folds ends each batch with exactly the stratified least model of the
facts asserted so far, with every counter the exact number of rule instances over that model, and
no internal check of the engine can fail. The independent from-scratch evaluator, the cross-check
between the two paths, the aggregates and the monotone projection are modelled and proved too.

`Engine.Oracle.RunBatch`, `Engine.Oracle.RunBatches` and `Projection.RunBoth` state the main
results.

Three neighbours of the engine are proved as well: the compiler-side scheduler of the same algorithm
(`lib/DR/DR.cpp`: join arms, hazard edges and their linearization with its validators, the stratum
lift), dead-flow elimination on the dataflow graph (`lib/DataFlow/DeadFlowElimination.cpp`), and the
hand-written incremental transitive closure the engine is measured against
(`bench/baselines/tc_random_incr.cpp`).

## How the model is laid out

- `Ground`, `Weights`, `Model`: facts, ground derivations, the two-state delta law, integer
  weights, and least models of a stratum as the intersection of its closed sets.
- `Phase`, `Overdeletion`, `Insertion`, `Passes`: the logical state of a batch in progress, the
  invariants of the two claim loops, and the stratum step. A ghost weight says how often each
  derivation is currently counted; a counter is the sum of the weights of its row's derivations
  plus one for external support. Weights may be negative in mid-batch.
- `Rules`, `Meaning`, `Grounding`: rule records as rule construction leaves them, their instances,
  what an instance is column by column, and the ground program they denote.
- `RowStore`, `Binding`, `Sources`, `Enumerate`, `Deltas`: append-only row logs with interning,
  lazily extended key indexes, per-row counters, flags and queues, and the backtracking rule
  enumerator over either kind of row source.
- `Snapshots`, `Firings`, `Reads`, `Sweeps`, `Rounds`, `Steps`, `Stages`: the logical state read
  off the views, what the read tables enumerate, and how each loop of a stratum moves the views.
- `Aggregates`, `Supports`, `Answers`, `Ingest`, `Netting`, `Settling`, `Batches`: aggregates,
  external support, what a model contains, ingest netting, commit, and the accounts kept over a batch.
- `Fixpoint`, `Scratch`, `Counting`: the LIFO worklist evaluator and the instance count.
- `Engine`, `Projection`: the engine's class, its batch loop, its cross-check, and the projection.
- `Arms`: the compiler's product and fixpoint arms against the delta law.
- `Hazards`, `Kahn`, `Linearize`: band keys, hazard edges, the key-directed topological sort, the
  six validators, and the whole pass (`Linearize.LinearizeAndValidate`).
- `Dependences`, `Strata`: the lift rules as a dependence graph, and the stratum lift
  (`Strata.DeriveStrata`).
- `FlowGraph`, `FlowRows`, `Taint`, `Folding`, `Trimming`, `Survivors`, `DeadFlow`: the dataflow
  graph, its stratified least model and the rows each node holds in it, and dead-flow elimination
  (`DeadFlow.Query.EliminateDeadFlows`).
- `Sequences`, `Closure`: reachability and the bit rows updated in place
  (`Closure.Baseline.RunBatches`).

The engine is a class whose methods update views in place. A ghost copy of the views' contents
(`Oracle.stores`) mirrors the objects, and the proofs reason about that value.

## What is assumed of a rule program

`Rules.GoodProgram` collects what rule construction guarantees or aborts on
(bin/Oracle/Main.cpp:869-1242): strata rise along rules, a negated atom is strictly lower, a
head is never among its own atoms, a rule with atoms has a positive one, positions list the lower
strata first, aggregates read strictly below their own view and head no rule, and a receive view
belongs to one message. Rows are 64-bit values, so the universe of rows is finite.

One more condition is needed, `Rules.UnmixedHeads`: a recursive rule with at least two atoms, one
of them in a lower stratum, does not share its head view with non-recursive rules, asserted facts
or an aggregate. One lower atom together with one atom of the head's own stratum is enough for
such a rule to be counted negatively in mid-batch; if its head row then survived on non-recursive
support alone, its total could reach zero and the crossing test would queue the surviving row.
The shapes that rule construction produces satisfy the condition (`Rules.ShapesAreUnmixed`).

## Where the code does less than it says

- A run without batches fires no init rule, so every view stays empty, yet it reports that its final
  state equals the monotone projection, which does evaluate all-constant tuples
  (bin/Oracle/Main.cpp:2009-2011, 2559-2615, 2661-2677). `Projection.RunBoth` proves agreement for
  every run with a batch, and without one exactly when no rule without atoms has an instance;
  `Projection.ConstantDiffers` is a run that disagrees.
- `IsTrivialCycle` means to delete a tuple that forwards its merge's columns in identical order, but
  compares the two views' own column indices, which are always equal (lib/DataFlow/Column.cpp:144).
  Any tuple of the merge's arity is deleted. In every graph deletion is safe if the tuple forwards in
  place (`Trimming.DropCycle`); in the graph of one input, one merge and one tuple that is also
  necessary (`Trimming.DeletionSafeIffInPlace`), and `Trimming.SwappedRowIsLost` loses a row there.
  `DeadFlow.Query.EliminateDeadFlows` preserves meaning under that condition.

## Model

| member | source | states |
|---|---|---|
| `Ground.DeltaLaw` | bin/Oracle/Main.cpp:1515-1533 | for any number of positions of either polarity, the gained firings minus the lost firings of one derivation (new state before the delta, old state after it) equal the change of its activity |
| `Ground.PhantomsCancel` | bin/Oracle/Main.cpp:1515-1533 | a derivation that is inactive before and after fires with both signs or with neither: phantom counts cancel |
| `Ground.FiresOnce` | bin/Oracle/Main.cpp:1748-1779 | a derivation fires at no more than one position with a given sign, so one sweep counts it at most once |
| `Model.LeastIsClosed` | bin/Oracle/Main.cpp:2141-2205 | the least model of a stratum, the intersection of all closed sets, is itself closed under the rules and the external support |
| `Model.LeastIsSupported` | bin/Oracle/Main.cpp:1843-1853 | every fact of a least model has external support or an active derivation |
| `Model.ModelUnique` | bin/Oracle/Main.cpp:2141-2205 | the stratified least model over given external support is unique |
| `Supports.ProgramModelUnique` | bin/Oracle/Main.cpp:2088-2205 | with aggregates included, asserted facts determine at most one stratified least model |
| `Rules.ShapesAreUnmixed` | bin/Oracle/Main.cpp:954-1242 | the shapes rule construction produces (a head of a rule with two or more atoms has that one rule and no outside support) imply the condition the maintenance theorem needs |
| `Rules.ApplyMapFn` | bin/Oracle/Main.cpp:406-434 | an integer division maps to nothing exactly when the divisor, read as a signed 32-bit value, is zero; what it and the addition yield is stated by the next two members |
| `Rules.MapDivides` | bin/Oracle/Main.cpp:409-421 | otherwise it maps to the 32-bit quotient truncated toward zero: the remainder has the dividend's sign and is smaller than the divisor |
| `Rules.MapAdds` | bin/Oracle/Main.cpp:422-430 | an addition maps to the sum of the arguments, wrapped to a signed 32-bit value |
| `Grounding.GroundWellFormed` | bin/Oracle/Main.cpp:869-936 | the ground program of a well-formed rule program is stratified, and heads that can be counted negatively in mid-batch have recursive support only |
| `Grounding.DerivIsInstance` | bin/Oracle/Main.cpp:1479-1640 | every ground derivation is the instance of an assignment of one row to each atom that matches the rule |
| `Grounding.InstanceIsDeriv` | bin/Oracle/Main.cpp:1479-1640 | every matching assignment is a ground derivation |
| `Grounding.InstanceInjective` | bin/Oracle/Main.cpp:1479-1640 | distinct assignments are distinct derivations, so counting derivations counts instances |
| `Overdeletion.SubFoldKeeps` | bin/Oracle/Main.cpp:1674-1684 | one counter fold of -1 keeps the overdelete invariant: counters only fall, queued or deleted rows are batch-start rows without non-recursive support, other survivors keep non-recursive support or are untouched |
| `Overdeletion.ClaimDeletesKeeps` | bin/Oracle/Main.cpp:1807-1820 | a claim round keeps the overdelete invariant |
| `Overdeletion.SurvivorsInTarget` | bin/Oracle/Main.cpp:1784-1853 | after overdeletion every surviving row is in the new least model of the stratum: no cyclically self-supporting row survives |
| `Insertion.SurvivorPositive` | bin/Oracle/Main.cpp:1660-1672 | a surviving row keeps a positive total although counters may be negative in mid-batch, so no crossing test can queue it again |
| `Insertion.RederivedInTarget` | bin/Oracle/Main.cpp:1843-1853 | a positive recursive counter after overdeletion witnesses a derivation of the new least model |
| `Insertion.AddFoldKeeps` | bin/Oracle/Main.cpp:1660-1672 | one counter fold of +1 of an active derivation keeps the insert invariant: claimed and queued rows are non-survivors of the new least model, and every positive row is in or queued |
| `Insertion.ClaimAddsKeeps` | bin/Oracle/Main.cpp:1878-1889 | a claim round keeps the insert invariant |
| `Insertion.InsertedExactly` | bin/Oracle/Main.cpp:1843-1911 | when the insert loop has drained, the rows of the stratum are exactly its new least model and a row is in exactly when its total is positive |
| `Passes.MinusSeedsWeigh` | bin/Oracle/Main.cpp:1784-1804 | after the - seeds the weights count the new lower state with the old stratum, short of the + seeds only |
| `Passes.DeleteRoundWeighs` | bin/Oracle/Main.cpp:1821-1841 | subtracting a round's firings moves the weights from the rows before the claim to the rows after it: every instance that touches D is subtracted exactly once over all rounds |
| `Passes.PlusSeedsWeigh` | bin/Oracle/Main.cpp:1855-1875 | the + seeds pay back exactly what the weights were short of |
| `Passes.InsertRoundWeighs` | bin/Oracle/Main.cpp:1877-1910 | adding a round's firings moves the weights to the rows after the claim: every instance that touches A is added exactly once over all rounds |
| `Passes.StratumStep` | bin/Oracle/Main.cpp:1784-1926 | one stratum step, for any mix of additions and removals below it, carries exact old counters to exact new counters, the old least model to the new one, and drained queues to drained queues |
| `Reads.SeedsFire` | bin/Oracle/Main.cpp:1748-1759 | the seed read table (new rows before the delta position, batch-start rows after it) over the published frontiers enumerates at every position exactly the derivations that fire there, negated positions included |
| `Reads.RoundFires` | bin/Oracle/Main.cpp:1765-1779 | the claim-round read table (rows after the claim before the delta position, rows before the claim after it, new rows below) enumerates at every position exactly the derivations the claim makes fire |
| `Firings.FiringMore` | bin/Oracle/Main.cpp:1822-1836 | positions of one rule fire disjoint sets of derivations |
| `Firings.LowerFlips` | bin/Oracle/Main.cpp:1787-1791 | a literal of a finished stratum changes truth exactly when its fact is in the net frontier its position and sign read |
| `RowStore.MatchingIds` | bin/Oracle/Main.cpp:316-327 | the ids of the rows with a key are exactly the rows that project to it, ascending |
| `RowStore.IndexTable.GetIndex` | bin/Oracle/Main.cpp:316-327 | the lazily extended index lists exactly the rows appended so far under every key |
| `RowStore.IndexesGrow` | bin/Oracle/Main.cpp:275-327 | an index over a prefix of an append-only log stays right when the log grows |
| `RowStore.FoldUpKeeps` | bin/Oracle/Main.cpp:1660-1672 | counting up changes one row's state, keeps the store's invariants and queues the row exactly when its total crosses from nonpositive to positive |
| `RowStore.FoldDownKeeps` | bin/Oracle/Main.cpp:1674-1684 | counting down changes one row's state, keeps the store's invariants and queues a batch-start row exactly when its non-recursive counter is not positive |
| `RowStore.ClaimedDelKeeps` | bin/Oracle/Main.cpp:1715-1728 | a claim for D sets the claim and frontier flags together, logs the row once and keeps the store's invariants |
| `RowStore.ClaimedAddKeeps` | bin/Oracle/Main.cpp:1730-1741 | a claim for A, likewise |
| `RowStore.ViewModel.Intern` | bin/Oracle/Main.cpp:304-314 | a row gets the id it has or the next log position, and its state is unchanged |
| `RowStore.ViewModel.AddDerivation` | bin/Oracle/Main.cpp:1660-1672 | the view becomes the one after counting the row up and queueing it on a crossing |
| `RowStore.ViewModel.SubDerivation` | bin/Oracle/Main.cpp:1674-1684 | the view becomes the one after counting the row down and queueing it when exposed |
| `RowStore.ViewModel.AddExplicit` | bin/Oracle/Main.cpp:1686-1699 | asserting an asserted row only interns it; otherwise it gains one non-recursive count and the explicit bit |
| `RowStore.ViewModel.SubExplicit` | bin/Oracle/Main.cpp:1701-1713 | retracting a row that is not asserted only interns it; otherwise it loses its count and bit |
| `RowStore.ViewModel.TryClaimDel` | bin/Oracle/Main.cpp:1715-1728 | aborts exactly when an unclaimed row has a positive non-recursive counter; otherwise claims it once |
| `RowStore.ViewModel.TryClaimAdd` | bin/Oracle/Main.cpp:1730-1741 | claims a row once and says whether it was the first claim |
| `Sources.ScratchView.Add` | bin/Oracle/Main.cpp:331-343 | adds a row unless it is there and says whether it was added |
| `Sources.ForEach` | bin/Oracle/Main.cpp:519-588 | the candidates of a position are exactly its readable rows with the wanted key, each once, from the log or from an index bucket |
| `Sources.Contains` | bin/Oracle/Main.cpp:519-588 | the absence test of a negated position decides membership in what the position reads |
| `Binding.BindRow` | bin/Oracle/Main.cpp:1479-1560 | binding a row succeeds exactly when it fits the forced columns and the equality classes, joins the classes it touches, and records what to undo |
| `Binding.Unbind` | bin/Oracle/Main.cpp:1479-1560 | undoing a binding restores the classes exactly |
| `Enumerate.WantedFits` | bin/Oracle/Main.cpp:1479-1640 | pruning is sound: every wanted instance that extends the current binding passes the class, constant and forced-column tests |
| `Enumerate.Descend` | bin/Oracle/Main.cpp:1479-1640 | the backtracking descent emits exactly the wanted instances that extend the current binding, each once, and restores the binding |
| `Enumerate.EnumerateRule` | bin/Oracle/Main.cpp:1479-1640 | emits the head of every instance of the rule over the given sources exactly once, for every delta position, positive or negated, and without one; stated over the columns: every instance found has its filtered columns in their filter's order, its classes' columns equal, its functor defined, and the head its template asks for, and nothing that has is missed |
| `Meaning.ComparisonsOrder` | bin/Oracle/Main.cpp:500-511 | of two values exactly one of equal, less and greater holds, not-equal is the negation of equal, greater the converse of less, less is transitive, and every value but the greatest is less than its successor in the signed or the unsigned reading |
| `Meaning.FilterRanks` | bin/Oracle/Main.cpp:500-511 | a filter passes exactly when its two values stand in its order among all words, for a signed filter with the upper half of the words first |
| `Meaning.YieldsIs` | bin/Oracle/Main.cpp:406-434 | the functor's result is the truncated 32-bit quotient or the wrapped 32-bit sum, characterised by remainder and congruence, for all arguments |
| `Meaning.DerivesIs` | bin/Oracle/Main.cpp:1553-1600 | an assignment matches a rule with a given head exactly when, column by column, its classes agree, its filters hold, its functor yields a value, the rows of negated atoms are the keys asked for, and the head is the template with constants, columns and the functor's result in place |
| `Deltas.EnumeratedDelta` | bin/Oracle/Main.cpp:1479-1640 | the emitted instances for one delta row are, each once, the derivations that hold the row at that position and read their tables elsewhere |
| `Deltas.EnumeratedActive` | bin/Oracle/Main.cpp:1479-1640 | without a delta position the emitted instances are, each once, the derivations active over the state read |
| `Rounds.ClaimPendDel` | bin/Oracle/Main.cpp:1807-1820 | claims everything queued for deletion in a view, each row once, or aborts on a row that cannot be claimed |
| `Rounds.ClaimPendAdd` | bin/Oracle/Main.cpp:1878-1889 | claims everything queued for insertion in a view, each row once |
| `Rounds.ClaimsReady` | bin/Oracle/Main.cpp:1806-1841 | after a claim step the named membership predicates read, at the stratum's positions, the state after and the state before the claim |
| `Rounds.AllRetired` | bin/Oracle/Main.cpp:1838-1840 | retiring the round leaves no row on a frontier and the logical state unchanged |
| `Steps.DeleteNeverAborts` | bin/Oracle/Main.cpp:1715-1728 | a queued row never has a positive non-recursive counter: claiming it for deletion cannot abort |
| `Steps.RoundRemoves` | bin/Oracle/Main.cpp:1806-1841 | a non-empty delete round strictly shrinks the set of rows that are in: the loop ends although folds refill the queue |
| `Stages.RoundAdds` | bin/Oracle/Main.cpp:1877-1910 | a non-empty insert round strictly shrinks the set of facts that are not in: the loop ends although folds intern rows and refill the queue |
| `Stages.SnapRequeued` | bin/Oracle/Main.cpp:1843-1853 | REDERIVE queues exactly the deleted rows of the stratum whose recursive counter is positive |
| `Stages.FrontiersGrow` | bin/Oracle/Main.cpp:1913-1926 | the published frontiers of finished strata are exactly D\A and A\D |
| `Stages.PublishedKeeps` | bin/Oracle/Main.cpp:1913-1926 | publishing lists each net removal and net addition of a view once and changes nothing else |
| `Engine.Oracle.constructor` | bin/Oracle/Main.cpp:758-794 | a new engine is settled: empty views, nothing asserted |
| `Engine.Oracle.EnumerateDelta` | bin/Oracle/Main.cpp:1790-1802 | enumerating one delta row over the incremental views lists exactly its delta derivations and changes no view |
| `Engine.Oracle.FireRow` | bin/Oracle/Main.cpp:1795-1802 | firing one delta row counts exactly its derivations once and keeps the invariant of the running phase |
| `Engine.Oracle.FireStratum` | bin/Oracle/Main.cpp:1787-1804 | one sweep over a stratum's rules counts exactly the derivations that fire, each once, although every fold may intern rows and queue them |
| `Engine.Oracle.Overdelete` | bin/Oracle/Main.cpp:1784-1841 | never aborts and ends with a drained delete queue, the overdelete invariant and weights short of the + seeds only |
| `Engine.Oracle.Rederive` | bin/Oracle/Main.cpp:1843-1853 | queues the deleted rows with a positive recursive counter, in every view of the stratum and no other |
| `Engine.Oracle.InsertPhase` | bin/Oracle/Main.cpp:1855-1911 | ends with a drained insert queue, the insert invariant and exact weights |
| `Engine.Oracle.BuildFrontiers` | bin/Oracle/Main.cpp:1913-1926 | publishes D\A and A\D of every view of the stratum and of no other |
| `Engine.Oracle.RunStratum` | bin/Oracle/Main.cpp:2060-2068 | one stratum never aborts and carries the batch from before stratum n to before stratum n + 1, what lies below it and the asserted facts unchanged |
| `Engine.Oracle.FireInitRules` | bin/Oracle/Main.cpp:1977-1998 | before the first batch, rules without positive atoms are counted once each and the batch may start from the empty state |
| `Engine.Oracle.IngestBatch` | bin/Oracle/Main.cpp:2014-2057 | ingesting a batch leaves the asserted facts netted and the support of every unfinished stratum in step with them |
| `Engine.Oracle.RecomputeAggregate` | bin/Oracle/Main.cpp:2088-2128 | recomputing an aggregate leaves its support, one non-recursive count each, on exactly the rows of the group-wise definition over the new input |
| `Engine.Oracle.RunStrata` | bin/Oracle/Main.cpp:2060-2068 | all strata run without an abort, and the support is accounted for at each |
| `Engine.Oracle.Commit` | bin/Oracle/Main.cpp:1931-1956 | aborts exactly when some view has an undrained queue or a touched row with a negative counter; otherwise commits every view |
| `Engine.Oracle.Maintain` | bin/Oracle/Main.cpp:2007-2070 | one batch never aborts and ends settled: the rows that are in are the stratified least model of the netted facts |
| `Engine.Oracle.CheckAgainstScratch` | bin/Oracle/Main.cpp:2207-2282 | the cross-check against the from-scratch evaluation never fails |
| `Engine.Oracle.CompareView` | bin/Oracle/Main.cpp:2253-2282 | comparing a view succeeds exactly when every row agrees in presence and both counters and every from-scratch row is materialized |
| `Engine.Oracle.RunBatch` | bin/Oracle/Main.cpp:2007-2073 | a batch never fails; the asserted facts are the netted ones, the rows that are in are the stratified least model for them, and both counters of every row are the exact numbers of rule instances over it plus one non-recursive count for support |
| `Engine.Oracle.RunBatches` | bin/Oracle/Main.cpp:2661-2663 | the same for every sequence of batches |
| `Netting.NetBatch` | bin/Oracle/Main.cpp:2025-2046 | the net map says of each message row whether the batch asserts it, retracts it or both, each key once |
| `Netting.NettingIgnoresOrder` | bin/Oracle/Main.cpp:2014-2022 | netting depends only on the set of operations, not on order or multiplicity |
| `Netting.AppliedIsNetted` | bin/Oracle/Main.cpp:2047-2057 | applying the net keys one by one in the order met gives the netted set |
| `Settling.CommitView` | bin/Oracle/Main.cpp:1931-1956 | commit of a view aborts exactly on an undrained queue or a touched row with a negative counter, and otherwise leaves every row in exactly when its total is positive, all flags and queues cleared |
| `Settling.CommitNeverAborts` | bin/Oracle/Main.cpp:1931-1956 | when all strata have run no queue holds a row and no counter is negative |
| `Settling.CommitSettles` | bin/Oracle/Main.cpp:1931-1956 | commit leaves a settled state whose rows are the current facts of the batch |
| `Settling.SettledStarts` | bin/Oracle/Main.cpp:2007-2012 | a settled state meets the boundary condition of the next batch's first stratum |
| `Batches.IngestOne` | bin/Oracle/Main.cpp:1686-1713 | one ingested operation changes the asserted set as asked and the support with it |
| `Batches.AccountedIsSupport` | bin/Oracle/Main.cpp:2060-2070 | after the last stratum the accumulated support is exactly the asserted facts and the aggregate rows of the new model |
| `Aggregates.ReduceAggregate` | bin/Oracle/Main.cpp:1389-1468 | the one-pass reduction lists, each once, exactly the rows of the group-wise definition, for sum, count, sum_above and max_above and for every order of the members; of max_above, over the input columns, the rows whose summary is the greatest value of a group and reaches the group's threshold |
| `Aggregates.ReducesOnce` | bin/Oracle/Main.cpp:1389-1468 | a group has at most one summary |
| `Aggregates.EmitsIffAbove` | bin/Oracle/Main.cpp:1414-1468 | a group has a summary, and so a row, exactly when its reduction needs no member above the gate or has one; only a gated maximum can stay silent |
| `Aggregates.MemberJoins` | bin/Oracle/Main.cpp:1414-1455 | a member that joins moves the summary of its own group only, by the columns it gives key and value: a sum by its value, a count by one, sum_above by its value if that reaches the threshold and else not at all, max_above to the greater of the two if it reaches it and else not at all |
| `Aggregates.NoMembers` | bin/Oracle/Main.cpp:1414-1468 | without members sums and counts are zero and a gated maximum has no summary |
| `Aggregates.GreatestDesired` | bin/Oracle/Main.cpp:1424-1440 | the rows of max_above are exactly those whose summary some member of the group attains, no member exceeds, and the threshold does not exceed |
| `Aggregates.ReachingMember` | bin/Oracle/Main.cpp:1424-1440 | a member whose value reaches the threshold gives its group a row whose summary is no smaller than that value |
| `Aggregates.DesiredHasMember` | bin/Oracle/Main.cpp:1389-1468 | an aggregate row is the key of a group with a member, each key column in place, followed by the group's summary |
| `Answers.ModelAnswers` | bin/Oracle/Main.cpp:2141-2205 | the facts of the model a batch ends with are exactly the asserted ones, the heads of instances whose positive rows are in the model and whose negated keys are not, and the aggregate rows over it |
| `Fixpoint.ProcessedMore` | bin/Oracle/Main.cpp:2188-2203 | a popped row fired at every position of its view while the other positions read the growing sets leaves no consequence of processed rows missing |
| `Fixpoint.StratumComplete` | bin/Oracle/Main.cpp:2141-2205 | an empty worklist means the stratum holds exactly its least model |
| `Scratch.Evaluator.FireRow` | bin/Oracle/Main.cpp:2194-2202 | firing a popped row at the positions of its view adds only rows of the least model and all its consequences |
| `Scratch.Evaluator.Drain` | bin/Oracle/Main.cpp:2188-2203 | the LIFO worklist is worked off: it ends empty with every row of the stratum processed |
| `Scratch.Evaluator.SeedAggregates` | bin/Oracle/Main.cpp:2167-2177 | each aggregate of the stratum is recomputed over its finished input |
| `Scratch.Evaluator.SeedRules` | bin/Oracle/Main.cpp:2179-2186 | rules without atoms of the stratum fire once over the finished strata |
| `Scratch.Evaluator.Evaluate` | bin/Oracle/Main.cpp:2141-2205 | the from-scratch evaluator computes the stratified least model of the asserted facts |
| `Counting.CountsMore` | bin/Oracle/Main.cpp:2213-2225 | one counted instance moves its head's expected counter by one and no other |
| `Counting.SettledIsExact` | bin/Oracle/Main.cpp:2207-2251 | between batches each counter is the number of active derivations of its class, plus one non-recursive count for support, and a row is in exactly when the total is positive |
| `Counting.CountsAreExact` | bin/Oracle/Main.cpp:2207-2251 | the counted expectations are those same numbers |
| `Counting.SettledAgrees` | bin/Oracle/Main.cpp:2253-2282 | the incremental state agrees with any exact count over the same model, row by row |
| `Projection.MonotoneProjection` | bin/Oracle/Main.cpp:2559-2615 | netting all batches into presence bits and evaluating the survivors once gives the stratified least model of the facts asserted at the end |
| `Projection.RunBoth` | bin/Oracle/Main.cpp:2559-2615 | differential-final equals monotone-projection: a maintained run with at least one batch and its projection end with the same facts; a run without batches agrees exactly when no rule without atoms has an instance |
| `Projection.NothingAsserted` | bin/Oracle/Main.cpp:1977-2013 | the model of no asserted facts is empty exactly when no rule without atoms passes its filters and its map |
| `Projection.ConstantDiffers` | bin/Oracle/Main.cpp:2643-2677 | on the program of one constant tuple a run without batches ends empty and its projection does not |
| `Arms.ProductArms` | lib/DR/DR.cpp:1005-1044 | builds, side by side, an adding arm and for a side that can lose rows a removing arm, each reading the other sides by position |
| `Arms.ProductLaw` | lib/DR/DR.cpp:1005-1044 | for any number of sides, the signed number of product arms that produce a combination is exactly the change of its presence from the old to the new state |
| `Arms.FixpointArms` | lib/DR/DR.cpp:1371-1470 | builds one arm per side of the recursive component: the component's other sides read relative to the claim, lower sides read new rows |
| `Arms.FixpointLaw` | lib/DR/DR.cpp:521-528 | in a claim round a combination that touches claimed rows, at however many sides, is produced exactly once, with the sign of the change, under the four-cell predicate matrix |
| `Arms.FixReadsAgree` | lib/DR/DR.cpp:521-528 | the compiler's matrix and the engine's own claim-round reads choose the same predicate at every position |
| `Arms.SeedReadsAgree` | lib/DR/DR.cpp:1029-1036 | a product arm reads each other side as a seed reads the position |
| `Hazards.KeysOrdered` | lib/DR/DR.cpp:3457-3464 | band keys of distinct operations are strictly and totally ordered |
| `Hazards.KeyIsPlace` | lib/DR/DR.cpp:3354-3464 | the key orders two operations by what they are: eager gates and ingest folds first, commit sweeps and then seals last, in between by stratum, and within a stratum seeds, crossovers, product arms, assembles and group updates, then single-pass drains, immediate filters, in-round claims, fires, chain folds, retires, rederives and deferred filters; at one place by table, sign and construction |
| `Hazards.PairDirected` | lib/DR/DR.cpp:3527-3615 | for two accesses in conflict there is an edge whose kind says which of them writes, directed from the lower key to the higher; a carried role refilled after it is drained has its loop-carried read as well, which goes against the key and has its drain-before-refill witness; the scope is a round exactly when both operations are repeated round by round; no other edge is made |
| `Hazards.DeriveEdges` | lib/DR/DR.cpp:3617-3674 | the edges of a list of accesses are directed by the key, cover every conflict, and come from conflicts only |
| `Kahn.WaitingEmits` | lib/DR/DR.cpp:3695-3739 | emitting an operation lowers what each other operation waits for by the number of edges between them |
| `Kahn.SmallestIsReady` | lib/DR/DR.cpp:3695-3739 | the operation with the smallest key left waits for nothing, since every edge ascends in the key |
| `Kahn.KahnOrder` | lib/DR/DR.cpp:3695-3739 | over any edges that ascend in the key, the loop emits every operation once, in key order |
| `Linearize.CheckBandHazard` | lib/DR/DR.cpp:3676-3693 | passes exactly when no edge that is not carried runs against the key |
| `Linearize.CheckLinear` | lib/DR/DR.cpp:3821-3840 | passes exactly when the order respects every edge that is not carried |
| `Linearize.CheckLoop` | lib/DR/DR.cpp:3842-3891 | passes exactly when every carried edge is a read after write with a witness in the same scope, drained before it is refilled |
| `Linearize.CheckRetire` | lib/DR/DR.cpp:3893-3926 | passes exactly when every grouped fire has a matching retire and precedes all of them |
| `Linearize.CheckReady` | lib/DR/DR.cpp:3928-3957 | passes exactly when no read is of a value produced in a strictly higher stratum |
| `Linearize.CheckOrder` | lib/DR/DR.cpp:3959-3984 | passes exactly when the order never descends in the key |
| `Linearize.PositionIsKey` | lib/DR/DR.cpp:3820-3840 | in the emitted order, one operation stands before another exactly when its key is smaller |
| `Linearize.RetirePasses` | lib/DR/DR.cpp:3893-3926 | the retire check holds for a fire exactly when a matching retire exists and none lies in a lower stratum |
| `Linearize.LinearizeAndValidate` | lib/DR/DR.cpp:3403-3985 | for any access lists and operation attributes: five of the six validators never abort, the retire check aborts exactly when a retire is missing or below its fire, and the order holds every operation once, each before another exactly when kinds, strata, tables and signs ask for it |
| `Linearize.RetiresAre` | lib/DR/DR.cpp:3893-3926 | what the retire check asks for: a retire of the fire's component whose sign is negative exactly when the fire's is, and none of them in a lower stratum |
| `Linearize.FireBeforeRetire` | lib/DR/DR.cpp:3893-3926 | in every order that passes, a fire stands before each of its retires |
| `Dependences.SolvedIffAcyclic` | lib/DR/DR.cpp:2160-2309 | strata that respect every lift rule exist exactly when no path of the dependence graph leads back to its start through a read across components; the graph's places are the units' slots and the tables, with the tables of a component joined |
| `Dependences.LevelsAscend` | lib/DR/DR.cpp:2160-2183 | along every path of the dependence graph strata never fall, and rise by one at least at each read across components |
| `Dependences.HeightRises` | lib/DR/DR.cpp:2160-2183 | without cycles the greatest number of slots entered by reads across components, over all paths to a place, rises along every such read and never falls |
| `Dependences.SolvedIsLifted` | lib/DR/DR.cpp:2158-2309 | the sweeps' rules hold exactly when each slot is no lower than its bases and strictly above the drain of whatever its unit reads, unless the read is not strict and stays inside the head's component, drains of targets are no lower than their slots, and components drain at one stratum |
| `Dependences.InnerReadIsFree` | lib/DR/DR.cpp:2165-2170 | a read that is not strict and stays inside the head's component may be taken out: the dependences are acyclic as before and the least strata are the same |
| `Dependences.LeastOnce` | lib/DR/DR.cpp:2088-2309 | there is one choice of least strata |
| `Strata.LiftUnit` | lib/DR/DR.cpp:2197-2290 | one rule raises nothing exactly when it holds already, only ever raises strata, and never above any solution |
| `Strata.PinSccs` | lib/DR/DR.cpp:2293-2308 | pinning gives each component one drain stratum, the highest of its members, and reports a change exactly when they differed |
| `Strata.Sweep` | lib/DR/DR.cpp:2197-2309 | a sweep reports a change exactly when some rule does not hold or a component is not pinned |
| `Strata.DeriveStrata` | lib/DR/DR.cpp:2088-2309 | whenever the dependences are acyclic the lift ends, in the pointwise least strata above the initial ones that respect every rule; stated over the graph: strictly above the drain of everything read, but for reads that are not strict and stay inside the head's component |
| `Strata.CyclicNeverQuiet` | lib/DR/DR.cpp:2197-2309 | on cyclic dependences every sweep from reachable strata raises something, so the lift does not end |
| `Strata.RetiresAboveFires` | lib/DR/DR.cpp:3893-3926 | strata from the lift satisfy what the linearizer's retire check asks for |
| `Closure.ReachWithEdge` | bench/baselines/tc_random_incr.cpp:8-10 | with one more edge, exactly the pairs that pass through it become reachable, cycles included |
| `Closure.ReachWithout` | bench/baselines/tc_random_incr.cpp:12-14 | a row that is not, and does not reach, the tail of a removed edge keeps its contents |
| `Closure.WalkInside` | bench/workloads/tc_random/closure.h:105-136 | a set that holds a node's successors and is closed under edges holds all that the node reaches |
| `Closure.Baseline.Remove` | bench/workloads/tc_random/closure.h:93-101 | takes one copy of an edge out of its list by swapping in the last entry, or nothing if there is none |
| `Closure.Baseline.RecomputeRow` | bench/workloads/tc_random/closure.h:105-136 | a row is rebuilt as the nodes reachable by one or more edges, by a worklist that grows while it is read; the other rows stay and the visited bits are clear again |
| `Closure.Baseline.AddEdgeIncremental` | bench/baselines/tc_random_incr.cpp:34-49 | exact rows stay exact when one edge is joined in place, although the copied row may be among those it is joined to |
| `Closure.Baseline.DeleteAffected` | bench/baselines/tc_random_incr.cpp:131-147 | recomputing only the affected rows leaves the exact closure of the remaining edges, copies counted |
| `Closure.Baseline.RunBatches` | bench/baselines/tc_random_incr.cpp:92-153 | after any batches of deletes and adds, by either delete strategy, the lists hold the edges then alive, copies counted, and the rows are exactly their transitive closure |
| `Closure.Baseline.MatchedPair` | bench/baselines/tc_random_incr.cpp:173-217 | adding a fresh edge and deleting it again restores every bit and the edges |
| `Model.ModelFacts` | lib/DataFlow/DeadFlowElimination.cpp:12-31 | a stratified model is closed under its rules and supported by them |
| `FlowGraph.FlowModelExists` | lib/DataFlow/DeadFlowElimination.cpp:12-31 | a stratified graph, aggregates included, has a model for whatever it receives |
| `FlowGraph.FlowModelUnique` | lib/DataFlow/DeadFlowElimination.cpp:12-31 | a stratified graph, aggregates included, has at most one model for what it receives |
| `FlowRows.NodeRows` | lib/DataFlow/DeadFlowElimination.cpp:12-46 | in the model every live node holds exactly what its operation makes of the rows of the views it reads: received rows, the listed views' rows, forwarded rows, rows whose key the negated view lacks, combinations of joined rows, reductions of the values' view or else the keys'; deleted and unsatisfiable nodes hold none |
| `Taint.TaintFixpoint` | lib/DataFlow/DeadFlowElimination.cpp:69-227 | the taint loop ends in the least set closed under the rules of all node kinds; it is also exactly what lies in no unfounded set, one whose live members can only take rows from members or deleted nodes |
| `Taint.UnfoundedUnreached` | lib/DataFlow/DeadFlowElimination.cpp:39-46 | nodes that only feed each other are not reached: a set whose live merges and relations list only members or deleted nodes, whose forwards, negations and reductions read such a node and whose joins have such a side, inputs and constant sources apart, is disjoint from what the inputs reach |
| `Taint.ReachedIsFounded` | lib/DataFlow/DeadFlowElimination.cpp:69-227 | and everything that is not reached belongs to such a set |
| `Taint.UntaintedEmpty` | lib/DataFlow/DeadFlowElimination.cpp:12-31 | a view left untainted holds no row in the model, whatever is received |
| `Taint.ReadersUntainted` | lib/DataFlow/DeadFlowElimination.cpp:271-274 | a view that reads the columns of an untainted view is untainted, so deletion cascades among untainted views only |
| `Trimming.DeleteEmpty` | lib/DataFlow/DeadFlowElimination.cpp:271-274 | deleting a view that is empty leaves the model as it is |
| `Trimming.PruneMerge` | lib/DataFlow/DeadFlowElimination.cpp:280-288 | a merge loses nothing with the deleted and untainted views it lists |
| `Trimming.TrivialCycleIs` | lib/DataFlow/DeadFlowElimination.cpp:314-343 | a trivial cycle is a tuple that reads a live merge of its arity which lists it, while no other live node uses it in any operand |
| `Trimming.KeepJoins` | lib/DataFlow/DeadFlowElimination.cpp:280-288 | pruning filters a merge's list entry by entry, so the views that stay keep their order and copies |
| `Trimming.DropCycle` | lib/DataFlow/DeadFlowElimination.cpp:314-343 | a tuple in a trivial cycle that forwards every column in place may be deleted: the other views hold what they held |
| `Trimming.DeletionSafeIffInPlace` | lib/DataFlow/DeadFlowElimination.cpp:314-343 | in the graph of an input, a merge and a tuple between the merge and itself, deleting the tuple keeps the meaning for all received rows exactly when it forwards its columns in place |
| `Trimming.SwappedRowIsLost` | lib/DataFlow/DeadFlowElimination.cpp:326-334 | the column test compares indices that are always equal, so a tuple that swaps two columns is deleted too, and a row is lost |
| `Folding.FoldNegation` | lib/DataFlow/DeadFlowElimination.cpp:229-269 | a negation of an empty view and the tuple that replaces it, with all uses redirected, mean the same |
| `Folding.FoldedTaintClosed` | lib/DataFlow/DeadFlowElimination.cpp:229-269 | the taint stays closed when the tuple takes over its negation's taint |
| `Survivors.FoldStep` | lib/DataFlow/DeadFlowElimination.cpp:229-269 | folding one negation more marks it dead, appends its live tuple, and makes every node read what stands for what it read |
| `Survivors.ReachedStays` | lib/DataFlow/DeadFlowElimination.cpp:271-288 | a view that was alive is alive in the end, as itself or as the tuple that replaces it, exactly when the inputs reach it and it is no trivial cycle at its turn |
| `Survivors.OthersStay` | lib/DataFlow/DeadFlowElimination.cpp:271-288 | a reached view that is neither a tuple nor a negation stays |
| `Survivors.MergesAreLive` | lib/DataFlow/DeadFlowElimination.cpp:280-288 | live merges list live views only |
| `Survivors.ChecksAreReached` | lib/DataFlow/DeadFlowElimination.cpp:229-269 | live negations test views that the inputs reach |
| `DeadFlow.NewMeaning` | lib/DataFlow/DeadFlowElimination.cpp:12-31 | the new graph's one model, for whatever it receives, is the old graph's seen through the views that stand for its own |
| `DeadFlow.Query.EliminateDeadFlows` | lib/DataFlow/DeadFlowElimination.cpp:69-291 | what is reached is what lies in no unfounded set, and every node's fate is fixed: dead exactly when it was dead or folded, is not reached, or is a trivial cycle at its turn, and otherwise the same operation on what stands for its sources, merges without the dead; for everything that can be received each surviving view holds what the view it stands for held, if cyclic tuples forward in place |

## Left out

- Building rules, messages and views from a query, parsing, printing, the command line, stress
  generation, digests and dumps: the model starts from the rule records.
- The counter magnitude check (bin/Oracle/Main.cpp:1654-1658): counters are unbounded integers,
  so the engine's 32-bit bound is not modelled.
- Signed 64-bit overflow of an aggregate's accumulator: the accumulator is unbounded and reduced
  modulo 2^64 when the row is emitted.
- Division of the smallest 32-bit integer by minus one, which the language of the original leaves
  undefined: the model wraps it.
- KV-index views (the last-writer merge): with several live values per key the result depends on
  interning order, which differs between the two evaluation paths.
- Hash maps are modelled as maps; counts of checks and batches are not kept.
- The enumerator returns its heads instead of calling a sink for each: a rule's head view is never
  among its body views, so counting after the enumeration reads the same rows as counting during it.
- The evaluator's table of rules by the view they read is replaced by a scan of the stratum's rules.
- Linearization: which accesses an operation makes is given, not derived; band keys take the strata
  as attributes; edges come out in list order instead of grouped by resource; the round shells filled
  from the order are not modelled.
- The branch and path inventory of the scheduler, the census of its operations and the suffix memo.
- Stratum lift: the initial strata, the components and the units with their tables are given, and
  every target has a drain to begin with, as its queues are minted for such tables only
  (lib/DR/DR.cpp:879, 2113-2118); copying the result onto branches and round shells is not modelled.
- Closure: a row is one bit per node; the packing into 64-bit words is not modelled.
- Trimming.DeletionSafeIffInPlace: in larger graphs a tuple that moves columns may be harmless, when
  the merge gets the same rows from elsewhere; there only sufficiency is proved.
- Dead-flow elimination: nodes are visited in list order instead of kind by kind, a pass-through node
  is a finite relation between rows, an aggregate or a key-value index an arbitrary function of its
  input's rows that maps no rows to no rows, and inserts carry no attached witness columns. Deleting
  marks a node dead; its cascade along column uses reaches untainted views only
  (`Taint.ReadersUntainted`) and is not followed. The removal of unused views afterwards is not modelled.
