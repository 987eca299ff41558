# ProcWorks kernel: a Dafny model

This project models the control-flow kernel of ProcWorks and the two protocols at its boundary, and
proves what they are built for:

* **Process schemas** (`Model`, `Blocks`, `DataFlow`, `Validator`, `Structure`, `Partition`, `Decisions`, `Pairing`). A schema is a flat
  graph: typed nodes, an edge list, branch decisions. A *block term* is the nested reading of such a
  graph; `Flattens(g, p)` says that the graph is exactly the flattening of the term.
* **Change operations** (`Edits`, `Operations`, `MatchingBlock`, `Deletion`, `Remnant`, `Design`). Each operation
  edits a copy of the graph and commits it only if the validator accepts it. Every one is proved to
  refine an edit of the term.
* **Execution** (`Marking`, `Execution`, `Lifetime`). The engine works on a mutable copy of the marking
  and propagates signals to a fixpoint. Confluence, no deadlock, proper completion, a bound on the
  number of completions and the option to complete are proved for every history of an instance,
  including ad-hoc changes and migrations. What the data-flow analysis guarantees is shown to hold at
  run time for what activities write, so that no XOR split they supply is ever stuck. Whatever was developed from
  the empty schema, with its discriminators supplied, can be instantiated and worked to its end.
* **Change under a running marking** (`Adhoc`, `Migration`). An accepted ad-hoc change keeps the marking
  invariant. For migration the exact condition is proved, with the three ways in which the checks let an
  unsound migration through, and which of them the next step of the engine repairs.
* **Boundary protocols** (`ExternalTasks`, `TaskRuntime`, `Outbox`, `Dispatcher`). Timed state machines:
  locks, retries, incidents, exactly-once completion; delivery accounting, dead letters, a circuit
  breaker. Invariants hold over every interleaving of the events.
* **Companions** (`Org`, `Metrics`, `Bpmn`). Hierarchies and deputy chains, staff rules, the nesting
  depth of the flat graph, the interchange round trip.
* **Examples**. For every gap the general results describe, one diagram that falls into it.

Objects the code updates in place are classes (`Execution.Run`, `Operations.Candidate`,
`TaskRuntime.Runtime`, `Dispatcher.OutboxDispatcher`); loops are loops with invariants. A dictionary
iteration is a loop that takes the elements in any order, so what is proved holds for every order.
Edges are keyed by the pair of their ends. Ids handed out by a generator are parameters or counters.

`dafny verify dfyconfig.toml` checks the whole project.

## Where the code and its documentation differ

* K1 is documented as "balanced gateways" (core/README.md:14-16); the code only counts them. Two joins
  of different kinds can be exchanged and the result is accepted (`Structure.MismatchedJoinsPass`).
  `Pairing.RetypedPassesIff` says exactly when retyped joins are accepted, `Pairing.RetypedFlattensIff`
  when the result is block-structured. Without block structure there is no soundness: an instance of
  some of these schemas never completes (`Structure.MismatchedJoinsNeverComplete`,
  `Examples.ExchangedNeverComplete`), of others it can complete all the same, with a join skipped whose
  split was completed (`Examples.ExchangedMayComplete`). Whether an instance completes can be read off the
  term, the types of the joins and the decisions taken (`Pairing.RetypedCompletesIff`).
* The engine relies on the modelling rules for the discriminator to be written before its split is reached
  (core/src/procworks/execution.py:284-286). The supply rule of K7
  counts the output mappings of a SUBPROCESS as writes (core/src/procworks/validator.py:511-515), but without an
  execution context the engine completes a SUBPROCESS without writing anything. So a valid schema whose
  discriminator only a SUBPROCESS is to write cannot even be instantiated, unless the data set it
  (`Examples.DelegatedDiscriminator`). The guarantee holds if every discriminator is supplied with the writes of
  activities alone: this is the condition of `Lifetime.NeverStuck`, `OutcomeExists`, `CanFinish` and of what
  builds on them.
* `_delete_single_node_branch` assumes that the branch which is left over is not empty. If it is, the
  candidate has edges to and from nodes that are gone. K1 and K2 never see that; K3 and K7 see it
  exactly if the gateway does not fill a branch of an AND gateway (`Remnant.RemnantPassesIff`, with a
  diagram in `Examples.EmptyingPassesRules`). It is never accepted, though: the data-flow analysis that
  K7 starts with looks up the type of the missing join (core/src/procworks/validator.py:525) and fails,
  so exactly these requests end in a KeyError instead of a finding (`Deletion.DeleteNode`).
* The comment at core/src/procworks/operations.py:456-458 says that dropping a branch leaves a gap in the
  partition. For a THRESHOLD decision it does not: the next cell takes the values over
  (`Partition.DropRedirects`, `Deletion.CandidateFrom`).
* M3 compares the successors of COMPLETED nodes only, and neither M2 nor M3 looks at nodes that are ACTIVATED
  or wait to be. `Migration.MigrationSoundIff` gives the exact condition under which a migrated marking is
  sound, `Migration.MigrationInvIff` the weaker one under which at least the invariant is kept, so that the
  next advance leads to a sound marking again. Three things can go wrong. A SKIPPED node gains a successor:
  an edge stays without signal and the instance never ends (`Migration.MigrationLeavesGap`,
  `GapNeverCompletes`, `Examples.GapAtAChoice`). An ACTIVATED node becomes a SUBPROCESS: the engine passes over
  it at the next completion, but if there was nothing else to work on, there is none
  (`Migration.ConvertedActivitySticks`, `Examples.ConvertedAtWork`). A join that waits becomes an activity: it is
  due and nobody is offered it until the next completion, whichever that is, repairs the marking
  (`Migration.WaitingLeftBehind`, `NextAdvanceRepairs`, `Examples.OvertakenAtAJoin`).
* A push task is documented as never fetched by a worker (core/src/procworks/integration_runtime.py:246-247).
  That holds over every history in which no worker asks for the empty topic
  (`ExternalTasks.PushesByTokenOnly`); one who does is handed any push task that is due or whose lock has
  expired (`ExternalTasks.PushTaken`).
* Resolving an incident is documented to re-queue its task. Resolving it a second time, after the task
  failed again, re-queues the task too and leaves the newer incident open (`ExternalTasks.ResolvedTwice`);
  otherwise tasks in an incident and unresolved incidents correspond one to one
  (`ExternalTasks.IncidentsExact`).
* `_nesting_depth` is documented as the block-nesting depth. A gateway with an empty branch lifts all that
  follows it by one level. The result is never below the nesting depth, and it is the nesting depth exactly
  if every block finds room in it, counting the lifts in front (`Metrics.PeakIsNestingIff`). One such
  gateway does no harm, two in a row do (`Metrics.TwoInARow`).
* BPMN import is documented as the inverse of export; a SUBPROCESS does not come back
  (`Bpmn.SubprocessRefused`), and `Bpmn.RoundTripIff` says exactly which diagrams do.

## Model

| member | source | states |
|---|---|---|
| Partition.ResolveFindsTheCell | core/src/procworks/model.py:788-857 | in a well-formed decision every placeable value lies in exactly one cell, and resolution returns that cell's target |
| Partition.ResolveFailsOnNonNumbers | core/src/procworks/model.py:827-857 | resolution of a well-formed decision fails exactly on non-numbers for a THRESHOLD |
| Partition.ResolveByValue | core/src/procworks/model.py:788-857 | which branch a number, a truth value, a text or any other value takes, in terms of the fields of the branches |
| Partition.TilesIff | core/src/procworks/validator.py:266-307 | the partition check accepts exactly the partitions: every placeable value lies in one cell and one only, no cell is empty, lists are written without repetition |
| Partition.DropTilesIff | core/src/procworks/operations.py:454-462 | dropping a branch leaves a partition exactly if the decision is not BOOLEAN and the branch is not the unbounded or catch-all one |
| Partition.DropRedirects | core/src/procworks/operations.py:454-462 | after a drop all other values keep their branch; those of the dropped cell go to the next cell or to the catch-all |
| Blocks.EdgesAscend | core/src/procworks/operations.py:317-353 | every edge of a flattened term leads upwards in the written-out order of the term |
| Blocks.PortByEntry | core/src/procworks/operations.py:317-353 | branches of one gateway are told apart by their entry edges |
| DataFlow.TopologicalOrder | core/src/procworks/validator.py:593-609 | every node and unknown edge target whose ways in all come from listed ones is listed, once, behind all of them |
| DataFlow.MustWrittenBefore | core/src/procworks/validator.py:497-531 | fails exactly if an unknown edge target is met; otherwise solves the equations: united at AND joins, intersected elsewhere |
| DataFlow.OneSolution | core/src/procworks/validator.py:497-531 | on a graph without cycle the equations of the analysis have one solution |
| Validator.Search | core/src/procworks/validator.py:357-366 | the breadth-first search returns exactly the ids reachable along edges |
| Validator.CheckReachability | core/src/procworks/validator.py:313-340 | the two searches decide K3: every node is reachable from START and reaches END |
| Validator.RaiseIfInvalid | core/src/procworks/validator.py:73-118 | the schema is returned exactly if K1, K2, K3, K7 and the other rules hold and the data-flow analysis meets known nodes only; if it does not, the failed lookup is what the caller gets |
| Validator.K1Counts | core/src/procworks/validator.py:172-187 | one gateway less, of whatever kind, and the counts differ |
| Validator.K2Means | core/src/procworks/validator.py:124-162 | K2 by roles: one START and one END; no way into START, none out of END, several into joins and out of splits only, one in all other cases |
| Decisions.K7Iff | core/src/procworks/validator.py:193-256 | K7 holds exactly if the XOR splits and no other nodes have decisions, with as many branches to a target as edges, whose cells tile the domain |
| Decisions.EveryBranchTaken | core/src/procworks/validator.py:193-256 | under K7 every edge of an XOR split is taken by some value |
| Structure.FlatteningIsStructural | core/src/procworks/validator.py:73-187 | every flattening of a block term passes K1, K2 and K3, and the data-flow analysis never fails on it |
| Structure.FlatteningDegrees | core/src/procworks/validator.py:124-162 | the degrees of a node in the flat graph are those the term gives it |
| Structure.MismatchedJoinsPass | core/src/procworks/validator.py:172-187 | swapping an XOR join and an AND join of any valid block-structured schema gives a schema that passes all structural rules |
| Structure.MismatchedJoinsNeverComplete | core/src/procworks/validator.py:172-187 | if an XOR block of the main chain has its own join exchanged with an AND join outside it, no instance of the result ever completes |
| Pairing.OneJoin | core/src/procworks/operations.py:383-421 | the join of a split is determined by the edges alone, whatever term they are read as |
| Pairing.RetypedFlattensIff | core/src/procworks/validator.py:172-187 | a block-structured schema with retyped joins is block-structured, under any term, exactly if the own join of every split is of the split's kind |
| Pairing.RetypedPassesIff | core/src/procworks/validator.py:172-187 | K1, K2, K3 and K7 accept it exactly if there are as many AND joins as before |
| Examples.ExchangedNeverComplete | core/src/procworks/validator.py:172-187 | an AND block and an XOR block in sequence with their joins exchanged: accepted, and no instance completes |
| Examples.ExchangedMayComplete | core/src/procworks/validator.py:172-187 | an XOR block inside an AND block with their joins exchanged: accepted, and instantiating and completing two activities leads to COMPLETED, with the join of the XOR block SKIPPED although its split is COMPLETED |
| Pairing.RetypedCompletesIff | core/src/procworks/execution.py:504-530 | an instance of a schema with retyped joins that has nothing left to work on is COMPLETED exactly if the term carries the signal under the decisions taken, and stuck with END SKIPPED otherwise |
| Pairing.ExchangedXorKills | core/src/procworks/execution.py:519-528 | an XOR block with an AND join never carries it, whatever was decided, if two of its branches start differently |
| Edits.EditEdges | core/src/procworks/operations.py:317-353 | editing a block deep inside a term exchanges exactly the edges of the chain that starts there |
| Edits.EditFlattens | core/src/procworks/operations.py:317-353 | a graph edit at the site of a block turns a flattening into the flattening of the edited term |
| Operations.InsertFlattens | core/src/procworks/operations.py:156-179 | splicing a chain of fresh nodes into the edge behind an anchor flattens the term with the chain inserted |
| Operations.AcceptedIsFresh | core/src/procworks/operations.py:76-77 | although ids are not checked against stored ones, the degree rule refuses every insertion whose ids collide |
| Operations.CheckAnchor | core/src/procworks/operations.py:139-153 | insertion is possible exactly behind existing nodes of a draft that are neither END nor splits; there is exactly one edge behind them |
| Operations.SerialInsert | core/src/procworks/operations.py:156-179 | an accepted insertion is the edited term: the step lies on the edge behind the anchor, and nothing else has changed; if K7 held before, it is accepted exactly for an anchor, a fresh id and the other rules; the data-flow analysis never fails |
| Operations.AddBranches | core/src/procworks/operations.py:343-351 | the branch loop adds one activity per branch and exactly the edges of the bundle |
| Operations.AddBlock | core/src/procworks/operations.py:317-353 | the new gateway block is spliced in, for both kinds of gateway |
| Operations.ParallelInsert | core/src/procworks/operations.py:182-195 | a balanced AND block, given by its nodes and edges, with one activity per branch, accepted as for the serial insertion; fewer than two branches are refused |
| Operations.ConditionalInsert | core/src/procworks/operations.py:216-314 | a balanced XOR block; the i-th new activity gets the cell of the i-th spec, and the values in that cell lead to it; all other decisions are kept; if K7 held before, it is accepted exactly if the specs tile the domain and the other rules agree; refused without a suitable discriminator |
| MatchingBlock.Find | core/src/procworks/operations.py:383-421 | for any split of a block-structured graph, at any nesting: its own join and exactly the nodes between the two |
| Deletion.RemoveFlattens | core/src/procworks/operations.py:543-568 | removing a step or a whole gateway block and closing the gap flattens the term without it |
| Deletion.DropFlattens | core/src/procworks/operations.py:451-462 | dropping the branch of a gateway that keeps at least two flattens the term without that branch |
| Deletion.DissolveFlattens | core/src/procworks/operations.py:464-480 | dissolving a gateway whose remaining branch is not empty keeps that branch inline |
| Deletion.DeletionMeans | core/src/procworks/operations.py:439-568 | what a deletion proposes is the edited term, unless it leaves an empty branch; then the data-flow analysis fails on it |
| Deletion.CandidateK7Iff | core/src/procworks/operations.py:439-568 | K7 accepts the deletion exactly if the branch that is dropped may go, or what goes does not stand directly behind an XOR split |
| Deletion.CandidateFrom | core/src/procworks/operations.py:439-568 | then nothing else is lost or changed, the gap is bridged, and all values are decided as before, but for those of the dropped cell, which the next branch or the catch-all takes over |
| Deletion.DissolveEmptyFails | core/src/procworks/operations.py:464-480 | a graph with an edge to a missing node is no flattening of any term |
| Deletion.RemnantFails | core/src/procworks/validator.py:497-531 | if the branch that is left is empty, the data-flow analysis runs into the missing join |
| Deletion.RemainingBranches | core/src/procworks/operations.py:451-454 | the remaining edges of the split count the branches that are left |
| Deletion.DissolveGateway | core/src/procworks/operations.py:464-479 | the edges after dissolving: everything that touched the three nodes is gone, the remaining branch is linked to both neighbours |
| Deletion.DeleteSoleBranch | core/src/procworks/operations.py:439-480 | drop or dissolve, as the number of remaining branches demands; it ends in the failed lookup exactly if dissolving leaves an empty branch; otherwise, if K7 held before, the answer depends on the dropped cell or the node before the gateway and on the other rules, and what is returned decides all values as described |
| Deletion.DeleteNode | core/src/procworks/operations.py:483-568 | an accepted deletion is the edited term; it ends in a failed lookup exactly if it is allowed and leaves an empty branch; otherwise, if K7 held before, it is accepted exactly if the dropped branch may go, or nothing that goes is the head of an XOR branch, and the other rules agree; every value outside the dropped cell is decided as before |
| Remnant.RemnantPassesIff | core/src/procworks/operations.py:464-480 | of that candidate K1 and K2 see nothing; K3 and K7 see nothing either exactly if the node before the gateway is an AND split and the one behind it a join; it flattens no term, and the data-flow analysis always fails on it |
| Examples.EmptyingPassesRules | core/src/procworks/operations.py:464-480 | a diagram and a deletion whose candidate passes K1, K2, K3 and K7 with edges to and from nodes that are gone |
| Design.CreateEmpty | core/src/procworks/operations.py:80-91 | the empty schema flattens the empty term and passes the structural rules |
| Design.NewRevision | core/src/procworks/operations.py:1363-1390 | exactly a RELEASED schema can be revised, to a draft of the next version with the same graph |
| Design.Release | core/src/procworks/operations.py:1337-1360 | exactly a valid draft or reviewed schema can be released |
| Design.AcceptedInsertion | core/src/procworks/operations.py:156-179 | what an insertion returns is what it proposes, accepted by the validator |
| Design.AcceptedRemoval | core/src/procworks/operations.py:483-568 | what a deletion returns is what it proposes, accepted by the validator |
| Design.DevelopedIsRunnable | core/README.md:8-12 | correctness by construction: if every step is what an operation proposes and the validator accepts, every schema developed from a block-structured one flattens a term, passes the structural rules and can be run |
| Design.RevisionTakesOver | core/src/procworks/operations.py:1363-1373 | an unchanged revision takes over every settled instance with its whole marking |
| Marking.OutcomeIsUnique | core/src/procworks/execution.py:241-275 | confluence: on an acyclic graph the marking that advancing ends in does not depend on the order of the steps |
| Marking.StuckHasNoOutcome | core/src/procworks/execution.py:278-305 | a reached split without a defined choice stops every run |
| Marking.StuckIffEndSkipped | core/src/procworks/execution.py:241-275 | on any acyclic graph a settled instance without ready activity has finished every node, and is RUNNING exactly if END was skipped |
| Marking.Through | core/src/procworks/execution.py:474-530 | the signal that leaves a chain is the signal that entered it |
| Marking.JoinAgrees | core/src/procworks/execution.py:504-530 | once its inputs are signaled a join is enabled exactly if its split completed; an AND join has seen one signal only, an XOR join at most one TRUE |
| Marking.EndNeverSkipped | core/src/procworks/execution.py:496-530 | END is never skipped in a marking that satisfies the invariant |
| Marking.NoDeadlock | core/src/procworks/execution.py:241-275 | a settled instance is COMPLETED or has an activity to work on |
| Marking.ProperCompletion | core/src/procworks/execution.py:14-16 | in a COMPLETED instance every node is COMPLETED or SKIPPED |
| Marking.FlatteningIsAcyclic | core/src/procworks/validator.py:313-340 | a block-structured schema has no cycle |
| Execution.Run.CompleteNode | core/src/procworks/execution.py:474-493 | the node is COMPLETED and exactly its outgoing edges carry its signal, for an XOR split TRUE on the chosen branch only |
| Execution.Run.SkipNode | core/src/procworks/execution.py:496-501 | the node is SKIPPED and exactly its outgoing edges carry FALSE |
| Execution.Run.EvaluateTargets | core/src/procworks/execution.py:504-530 | every node whose inputs are all signaled is activated or skipped; no change means that none is left |
| Execution.Run.Advance | core/src/procworks/execution.py:241-275 | terminates; reaches a fixpoint that extends the marking and keeps the invariant and the data, every split it completes having taken the branch whose cell holds the value of its discriminator; or raises, and then no fixpoint exists and some discriminator is missing or ill-typed |
| Execution.SplitsTakeTheirCells | core/src/procworks/execution.py:278-305 | every XOR split completed on the way has taken the branch of the cell its discriminator's value lies in: its edge is TRUE, the others are FALSE |
| Execution.NoChoiceMeans | core/src/procworks/execution.py:278-305 | under K7 a reached split cannot be resolved exactly if its discriminator has no value, or none that is a number for a THRESHOLD |
| Execution.CompleteKeepsInv | core/src/procworks/execution.py:474-493 | completing a ready node keeps the marking invariant |
| Execution.SkipKeepsInv | core/src/procworks/execution.py:496-501 | skipping a node whose inputs do not enable it keeps the marking invariant |
| Execution.Instantiate | core/src/procworks/execution.py:101-155 | an instance of a released schema is the outcome of the initial marking with the given data; its splits have taken the branches of their cells and no activity is started |
| Execution.StartActivity | core/src/procworks/execution.py:179-193 | accepted exactly for an ACTIVATED activity of a RUNNING instance, and changes that node only |
| Execution.CompleteActivity | core/src/procworks/execution.py:196-235 | the result is the outcome of completing a ready activity: its data are the old ones overwritten by those reported, no other activity that was reached changes, and splits take the branches of their cells; a refusal of a ready activity means that a split cannot be resolved |
| Execution.CompletionMeans | core/src/procworks/execution.py:196-235 | what completing an activity means for its own edges, the other nodes, the decisions and the data |
| Execution.StaysReady | core/src/procworks/execution.py:196-235 | completing one ready activity leaves the others ready |
| Execution.CompletionsCommute | core/src/procworks/execution.py:196-235 | if two ready activities write different elements and no discriminator, and one order of completing them succeeds, so does the other, with the same resulting instance and no other |
| Execution.CompletionUsesUp | core/src/procworks/execution.py:196-235 | every completion makes the set of open activities smaller |
| Execution.AdvanceEnds | core/src/procworks/execution.py:241-305 | on every schema that may be run, advancing ends in a fixpoint or at a split that cannot be resolved |
| Lifetime.StepSound | core/src/procworks/execution.py:179-235 | starts, completions, ad-hoc changes and sound migrations keep flattening, invariant and fixpoint |
| Lifetime.Soundness | core/src/procworks/execution.py:241-275 | in every state of every history: END not skipped, RUNNING means there is work, COMPLETED means all nodes finished |
| Lifetime.CompletionsBounded | core/src/procworks/execution.py:196-235 | completions plus open activities never exceed the initial open activities plus insertions |
| Lifetime.AllDone | core/src/procworks/execution.py:241-275 | after as many completions as there were open activities the instance is COMPLETED |
| Lifetime.OutcomeExists | core/src/procworks/execution.py:241-305 | with every discriminator supplied, by the data or by the writes of activities, and well typed, advancing always reaches a fixpoint |
| Lifetime.SuppliedAt | core/src/procworks/validator.py:497-531 | at every node an instance gets to, the elements guaranteed to be written before it have a value |
| Lifetime.JoinUnites | core/src/procworks/validator.py:497-531 | at an AND join everything is guaranteed that one of the branches is sure to have written |
| Lifetime.WayWithout | core/src/procworks/validator.py:497-531 | an element that is not guaranteed at a node is missing for a reason: a way leads there on which nobody is sure to write it |
| Lifetime.WriterOnWay | core/src/procworks/validator.py:497-531 | an element that is guaranteed is written on every way without AND joins |
| Lifetime.ReadsSupplied | core/src/procworks/validator.py:452-472 | rule D1 at run time: what a ready activity reads mandatorily is there |
| Lifetime.NeverStuck | core/src/procworks/validator.py:193-256 | if the writes of activities alone satisfy the supply rule of K7, no XOR split an instance gets to is without a branch |
| Lifetime.CheckSupply | core/src/procworks/validator.py:193-256 | the supply rule as it is run decides whether the analysis guarantees every discriminator |
| Lifetime.CanFinish | core/src/procworks/execution.py:241-275 | option to complete: if every discriminator is set or sure to be written by activities before its split, and activities write what they are declared to, then from every sound state completing ready activities reaches COMPLETED, in at most as many completions as there are open activities |
| Lifetime.SetIsProvided | core/src/procworks/execution.py:278-305 | if the data set every discriminator, nothing need be written |
| Lifetime.FromStartToEnd | core/src/procworks/execution.py:101-275 | a block-structured schema whose discriminators are supplied can be instantiated, and completing ready activities brings the instance to COMPLETED, in at most as many completions as it has open activities |
| Lifetime.DevelopedCompletes | core/README.md:8-12 | the same for every schema developed from the empty one |
| Examples.DelegatedDiscriminator | core/src/procworks/validator.py:477-517 | a valid schema whose discriminator the analysis finds supplied by a SUBPROCESS; it has an instance exactly if the data set the discriminator |
| Lifetime.CompletedStays | core/src/procworks/execution.py:4-9 | a COMPLETED node stays COMPLETED through every later event |
| Lifetime.StepWrites | core/src/procworks/execution.py:230-231 | every event writes what it brings over the data that were there, and nothing else |
| Lifetime.LastWriteCounts | core/src/procworks/execution.py:230-231 | over every history the value of an element is the one written last |
| Lifetime.UnwrittenStays | core/src/procworks/execution.py:230-231 | over every history an element that no event writes keeps its value |
| Adhoc.FreeId | core/src/procworks/adhoc.py:224-228 | the first numbered id that is not taken |
| Adhoc.InsertKeepsInv | core/src/procworks/adhoc.py:90-122 | an insertion ahead of the front keeps invariant, fixpoint and all other states |
| Adhoc.DeleteKeepsInv | core/src/procworks/adhoc.py:158-179 | a deletion ahead of the front keeps invariant, fixpoint and all other states |
| Adhoc.XorHeadKept | core/src/procworks/adhoc.py:158-168 | deleting the head of an XOR branch is always refused, since the decision still names it |
| Adhoc.DeleteK7Iff | core/src/procworks/adhoc.py:158-168 | K7 refuses the deletion of a step exactly if it is the head of an XOR branch |
| Adhoc.InsertActivity | core/src/procworks/adhoc.py:54-122 | if K7 held before, accepted exactly for a fresh id ahead of the front and if the other rules agree; the variant has the activity on the edge behind the anchor, its marking is sound, and states, decisions and data are as they were |
| Adhoc.DeleteActivity | core/src/procworks/adhoc.py:125-179 | accepted exactly for an activity that was not reached and is not the head of an XOR branch, if the other rules agree; the variant is the schema without it, with the gap bridged, its marking is sound, and all else is as it was |
| Migration.CheckM2 | core/src/procworks/migration.py:192-248 | exactly the findings of M2: executed nodes missing or retyped, executed edges lost or added |
| Migration.CheckM3 | core/src/procworks/migration.py:251-296 | exactly the findings of M3: completed nodes rewired, running nodes lost or no steps any more |
| Migration.PassesMeans | core/src/procworks/migration.py:192-296 | M2 and M3 find nothing exactly if the executed region is the same in both schemas, completed nodes keep their successors and running ones stay steps |
| Migration.EdgesSoundIff | core/src/procworks/migration.py:143-161 | every target edge carries what its finished source told, and nothing else is signaled, exactly if SKIPPED nodes gain no successor |
| Migration.Sync | core/src/procworks/migration.py:192-296 | source and target term agree about everything that was passed: finished joins keep their inputs, waiting ones still wait |
| Migration.MovedIsSound | core/src/procworks/migration.py:118-161 | under the three conditions the migrated marking satisfies the invariant and is a fixpoint |
| Migration.MigrationSoundIff | core/src/procworks/migration.py:118-161 | the migrated marking is sound exactly if skipped nodes gain no successor, activated nodes stay activities and waiting nodes stay joins |
| Migration.MigrationInvIff | core/src/procworks/migration.py:118-161 | the migrated marking satisfies the invariant exactly if skipped nodes gain no successor and activated nodes do not become joins |
| Migration.CheckM4 | core/src/procworks/migration.py:299-329 | exactly the findings of M4: mandatory reads of executed nodes without a value |
| Migration.M4Covers | core/src/procworks/migration.py:299-329 | M4 finds nothing exactly if the migrated instance has all that executed nodes must have read |
| Migration.CheckMigration | core/src/procworks/migration.py:53-76 | migratable exactly if the target is valid and RELEASED, no criterion M2 to M4 finds anything and the instance has neither ad-hoc deltas nor a variant of its own |
| Migration.MigrateInstance | core/src/procworks/migration.py:118-161 | accepted exactly if migratable, spelled out; every element that existed before keeps its state, new ones are fresh, the mapped data are written over the old; mandatory reads of executed nodes have values; sound exactly under the three conditions |
| Migration.MigrationLeavesGap | core/src/procworks/migration.py:251-280 | inserting an activity behind a SKIPPED node in front of one not reached passes M2 and M3 and leaves an edge without signal |
| Migration.GapNeverCompletes | core/src/procworks/migration.py:251-280 | whatever the engine does afterwards, such an instance never completes its END |
| Migration.ConvertedActivitySticks | core/src/procworks/operations.py:1465-1516 | turning the only ready activity into a SUBPROCESS passes M2 and M3 and leaves a RUNNING instance nobody can work on |
| Examples.GapAtAChoice | core/src/procworks/migration.py:251-280 | two valid diagrams and a marking for which M2 and M3 find nothing, although no run of the migrated instance finishes its END |
| Examples.ConvertedAtWork | core/src/procworks/operations.py:1465-1516 | two valid diagrams and a marking for which M2 and M3 find nothing, although the migrated instance is RUNNING with nothing to work on |
| Migration.WaitingLeftBehind | core/src/procworks/migration.py:192-296 | a join that waits may become an activity: the migrated marking keeps the invariant and has work to do, but the node is due and not offered |
| Migration.NextAdvanceRepairs | core/src/procworks/execution.py:196-275 | completing any ready activity reaches the node that is due: its advance, unless a split stops it, offers it or skips it as its edges say |
| Examples.OvertakenAtAJoin | core/src/procworks/migration.py:192-296 | two valid diagrams and a marking for which M2 and M3 find nothing, although the migrated instance does not offer an activity that is due; completing the other one repairs it |
| Migration.InsertionMovesIff | core/src/procworks/migration.py:192-296 | a serial insertion can be rolled out soundly exactly if its anchor is not finished |
| ExternalTasks.BackoffGrows | core/src/procworks/integration_runtime.py:90-94 | the back-off grows with the attempts used, between two seconds and one minute |
| ExternalTasks.BackoffExact | core/src/procworks/integration_runtime.py:90-94 | the back-off for every number of retries left |
| ExternalTasks.FailuresUseUp | core/src/procworks/integration_runtime.py:560-616 | over every history without an override and without resolution, every failure uses up a retry, and the task is in an incident exactly when as many failures as its budget, at least one, have been reported |
| ExternalTasks.TransitionKeeps | core/src/procworks/integration_runtime.py:185-689 | every event keeps the board in order: one open task per step, reports backed by completions, locks with workers, incidents visible |
| ExternalTasks.ExactlyOnce | core/src/procworks/integration_runtime.py:18-27 | in every interleaving each step has at most one open task and at most one accepted report, and the engine completes it at most once |
| ExternalTasks.LockExclusive | core/src/procworks/integration_runtime.py:673-689 | while a worker holds a lock only that worker's own reports change the task |
| ExternalTasks.LockHolds | core/src/procworks/integration_runtime.py:377-425 | a lock is held over any history until its holder gives it up or it expires |
| ExternalTasks.StaleReportRefused | core/src/procworks/integration_runtime.py:492-558 | a report on a step that was completed directly is never accepted |
| ExternalTasks.IncidentsExact | core/src/procworks/integration_runtime.py:560-669 | over every history in which no incident is resolved again after its task failed again, a task is in an incident exactly if it has exactly one unresolved incident |
| ExternalTasks.ResolveTidyIff | core/src/procworks/integration_runtime.py:648-669 | resolving an incident keeps that agreement exactly if it is unresolved or its task is not in an incident |
| ExternalTasks.ResolvedTwice | core/src/procworks/integration_runtime.py:648-669 | a history that ends with the task queued and an incident of it open |
| ExternalTasks.PushesByTokenOnly | core/src/procworks/integration_runtime.py:242-250 | over every history in which no worker asks for the empty topic, push tasks are held by callback tokens only |
| ExternalTasks.PushTaken | core/src/procworks/integration_runtime.py:377-425 | a worker who asks for the empty topic can be handed any push task that is due or whose lock has expired |
| TaskRuntime.Runtime.RequireLocked | core/src/procworks/integration_runtime.py:673-689 | succeeds exactly for the holder of a lock that has not expired |
| TaskRuntime.Runtime.MaterialiseTasks | core/src/procworks/integration_runtime.py:242-297 | every awaiting step of a running instance has exactly one open task; the new ones are queued for steps that had none, with the topic, the retries and the priority of their binding |
| TaskRuntime.Runtime.FetchAndLock | core/src/procworks/integration_runtime.py:377-425 | the most urgent free tasks of the topics are locked, as many as asked for or all; a pre-fetch failure cuts the answer short and leaves the earlier ones locked; without the empty topic no push task is handed out |
| TaskRuntime.Runtime.DrivePush | core/src/procworks/integration_runtime.py:299-368 | exactly the pending pushes that can be enqueued are locked under their callback tokens, without expiry |
| TaskRuntime.Runtime.ExtendLock | core/src/procworks/integration_runtime.py:471-477 | the holder's lock is prolonged from now; anybody else changes nothing |
| TaskRuntime.Runtime.UnlockTask | core/src/procworks/integration_runtime.py:479-488 | the holder's task goes back into the queue; anybody else changes nothing |
| TaskRuntime.Runtime.CompleteTask | core/src/procworks/integration_runtime.py:492-558 | an accepted report completes the step in the engine, writes the reported outputs and closes the task in one event; a refused one changes nothing and means that the event was impossible |
| TaskRuntime.Runtime.Failure | core/src/procworks/integration_runtime.py:560-616 | one retry less, or as many as reported; with retries left the task is queued after the given time or its back-off, otherwise it is in an incident with an operator's entry; nothing else changes |
| TaskRuntime.Runtime.BpmnError | core/src/procworks/integration_runtime.py:618-632 | the holder's task is parked with a business error |
| TaskRuntime.Runtime.ResolveIncident | core/src/procworks/integration_runtime.py:648-669 | the incident is closed and a task in an incident queued with the retries of its binding, at least one; tasks and unresolved incidents stay in step exactly if the incident was unresolved or its task not in an incident |
| Outbox.PostRecorded | core/src/procworks/outbox.py:447-458 | the breaker's update agrees with its definition as a function of the posts made so far |
| Outbox.TransitionKeeps | core/src/procworks/outbox.py:345-520 | every event keeps entries, delivery log and breaker in agreement |
| Outbox.Accounting | core/src/procworks/outbox.py:460-520 | in every history deliveries equal attempts and stay within the limit, only the last can succeed, attempts are a back-off apart |
| Outbox.HistoryContinues | core/src/procworks/outbox.py:368-382 | nothing disappears, and delivered or dead entries are never posted again |
| Outbox.CoolDown | core/src/procworks/outbox.py:442-458 | after the threshold of consecutive failures dispatches to a host are at least the cool-down apart until one succeeds |
| Outbox.OpenIff | core/src/procworks/outbox.py:442-458 | the breaker is open exactly after the threshold of consecutive failures, one at least, until the cool-down since the last one is over |
| Outbox.RetrySeconds | core/src/procworks/outbox.py:161-162 | the time until the next attempt for every number of attempts |
| Outbox.LeadsKeeps | core/src/procworks/outbox.py:289-520 | whatever a request does, the books stay in order |
| Dispatcher.OutboxDispatcher.RecordCircuit | core/src/procworks/outbox.py:447-458 | the breaker forgets a host on success and counts and opens on failure |
| Dispatcher.OutboxDispatcher.Deliver | core/src/procworks/outbox.py:460-520 | one attempt: entry, log and breaker change together |
| Dispatcher.OutboxDispatcher.Emit | core/src/procworks/outbox.py:345-366 | exactly one new pending entry for every active subscription of the event |
| Dispatcher.OutboxDispatcher.Push | core/src/procworks/outbox.py:405-438 | one new pending entry without a subscription |
| Dispatcher.OutboxDispatcher.TestDelivery | core/src/procworks/outbox.py:384-403 | an entry with a single attempt, made at once past the breaker |
| Dispatcher.OutboxDispatcher.DispatchPending | core/src/procworks/outbox.py:368-382 | every due entry is attempted exactly once, delivered, dead or failed with its next attempt set, unless its host has failed often enough in a row and recently enough; nothing else changes |
| Org.CheckAcyclic | core/src/procworks/org.py:106-123 | the full scan finds a cycle exactly if there is one |
| Org.Z1Means | core/src/procworks/org.py:50-123 | rule Z1 spelled out: roles, units, deputies, managers and parents exist, nobody is one's own deputy, and no unit is above itself |
| Org.MoveIff | core/src/procworks/org.py:246-262 | hanging a unit under another keeps the hierarchy acyclic exactly if the new parent is not within the unit |
| Org.WalkUp | core/src/procworks/org.py:256-260 | the unguarded walk ends on every acyclic hierarchy and tells whether the unit is met |
| Org.SetParent | core/src/procworks/org.py:246-262 | a move to an existing parent is accepted exactly if the full scan finds no cycle afterwards |
| Org.AddUnit | core/src/procworks/org.py:157-176 | a new unit under an existing parent is always accepted and keeps rule Z1 |
| Org.SetDeputy | core/src/procworks/org.py:265-276 | any other agent may become the deputy; rule Z1 is kept |
| Org.WithDeputies | core/src/procworks/assignment.py:144-156 | ends on cyclic chains and returns the least set that contains the base and is closed under deputies, in any order of work |
| Org.DescendantUnits | core/src/procworks/assignment.py:159-170 | exactly the units with a non-empty parent chain to the unit |
| Org.Resolve | core/src/procworks/assignment.py:116-141 | exactly the agents that match the rule |
| Org.RuleLaws | core/src/procworks/assignment.py:116-141 | who matches a role, a unit with or without those below it, a performer, and the combinations of two rules |
| Org.EligibleAgents | core/src/procworks/assignment.py:62-77 | exactly the agents that match, and all who stand in for them |
| Metrics.Pass | core/src/procworks/metrics.py:88-127 | on a graph without cycle the pass visits every node and returns the largest of the levels the edges determine |
| Metrics.FoundIsPeak | core/src/procworks/metrics.py:88-127 | on the flattening of a term those levels are the term's |
| Metrics.NestingDepth | core/src/procworks/metrics.py:88-127 | the result in every case; never below the nesting depth of the term, and equal to it exactly if every block finds room in it behind the lifts in front |
| Metrics.ExitIff | core/src/procworks/metrics.py:115-123 | a chain is left at the level it was entered at exactly if it has no empty branch |
| Metrics.EmptyBranchesAddUp | core/src/procworks/metrics.py:115-123 | a chain is left as many levels higher as its gateways lift, at least one for every gateway with an empty branch |
| Metrics.PeakIsNestingIff | core/src/procworks/metrics.py:88-127 | the exact condition under which the result is the nesting depth |
| Metrics.TwoInARow | core/src/procworks/metrics.py:88-127 | one gateway with an empty branch gives the nesting depth, two in a row give one more |
| Bpmn.Export | core/src/procworks/bpmn.py:83-126 | the element tree of a diagram: nodes, numbered flows with conditions, the decisions |
| Bpmn.MapDocument | core/src/procworks/bpmn.py:232-311 | the mapping of any document onto a diagram, or its refusal |
| Bpmn.Import | core/src/procworks/bpmn.py:232-311 | the mapped diagram exactly if the validator accepts it |
| Bpmn.ImportedMeans | core/src/procworks/bpmn.py:232-330 | a document of any origin: every node of the diagram stems from the last element with its id and has the type its tag and degrees give; the flows are the sequence flows, in order |
| Bpmn.UnsupportedRefused | core/src/procworks/bpmn.py:232-263 | a process with an element outside the subset, or one without its id or ends, is refused |
| Bpmn.SchemaMeans | core/src/procworks/bpmn.py:275-311 | the schema has the nodes of the diagram with their types and its flows as edges |
| Bpmn.RoundTripIff | core/src/procworks/bpmn.py:83-330 | import restores an exported diagram exactly if it has no SUBPROCESS, ids and conditions are non-empty and trimmed, and degrees show every gateway's role |
| Bpmn.K2Fits | core/src/procworks/bpmn.py:314-330 | the degree rule makes the import infer every role correctly |
| Bpmn.ValidRoundTrip | core/src/procworks/bpmn.py:83-311 | every valid schema without a SUBPROCESS survives export and validated import |
| Bpmn.SubprocessRefused | core/src/procworks/bpmn.py:232-263 | a schema with a SUBPROCESS never comes back |

## Left out

- Sub-process contexts, propagation to parent instances and follow-up links: a SUBPROCESS is the opaque step that completes by itself, as the engine treats it without a context.
- The other rules of the validator (data types, concurrent writes, resources, composition, integration, forms, time): they enter every contract as an arbitrary predicate `rest` on schemas. So does the supply part of K7, where no writes are at hand; it is modelled by itself in `DataFlow` and `Lifetime.CheckSupply`.
- Lifetime.CanFinish: counts the writes of activities alone; with an execution context a SUBPROCESS would write its mapped outputs, which is not modelled. The same holds for FromStartToEnd and DevelopedCompletes.
- Lifetime.OutcomeExists: see Lifetime.CanFinish.
- Lifetime.NeverStuck: see Lifetime.CanFinish.
- Execution.CompleteActivity: eligibility of agents and the record of performers are not modelled; they have no effect on markings.
- Operations.SerialInsert: labels, templates and service bindings are not modelled; the same holds for the other operations.
- Operations.ConditionalInsert: the captions regenerated from a decision are not modelled, and the element types are given as a map from discriminators to partition kinds.
- TaskRuntime.Runtime.CompleteTask: the translation and post-flush of reported variables is one input, the accepted data writes.
- TaskRuntime.Runtime.FetchAndLock: input packages are not modelled; whether a task's external data can be read is an input. Ties between equal priorities are broken in any way.
- Dispatcher.OutboxDispatcher.Deliver: bodies, signatures and HTTP status codes are not modelled; the answer of the transport is an input.
- Subscribing and unsubscribing with their URL checks: plain map updates behind network policy.
- Bpmn.Export: XML text, namespaces and the JSON text of the extension are not modelled; documents are element trees, and of the extension only the branch decisions are kept.
- Bpmn.Import: the optional arguments that override the id and the name of the imported schema are not modelled.
- Org.AddUnit: roles, agents and managers are added and updated by operations of the same shape, which are not modelled.
- Real arithmetic stands for floating-point times.
- HTTP, SQL, authentication, the web client, connectors, forms and the other evaluators have no part in this model.
