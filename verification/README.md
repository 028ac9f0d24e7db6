# MiniGraph kernel: a verified model

MiniGraph runs a graph of named nodes over a state. One loop selects edges, calls nodes, and merges
the deltas they return, under a budget of `max_steps`. A fan-out edge opens a region: its branches
run as concurrent tasks on one snapshot, all of them settle, a join decides who is admitted, reducers
fold the admitted deltas, and one commit publishes the result. An external gate is asked at every
boundary and may allow, refuse, stop, answer garbage or raise; optional hooks record starts and
settlements. A graph can be described as an immutable, content-addressed spec, linted without being
executed, watched by listeners and run in bounded batches.

The project models that kernel and proves what it promises over whole runs. Callables are arbitrary
functions of the state they are given; the gate, its hooks and the event loop's choice of the branch
that moves next are arbitrary functions of everything that has happened so far, unless a theorem says
otherwise. A run is a log of observations, gate decisions, hook calls and the moments control enters a
user callable or leaves a node. The final state of a run is the state of its last observation.

## How it is organised

| files | what they hold |
|---|---|
| `Ordering`, `Sorting`, `Values`, `ValueLaws`, `JsonTrees` | orders, stable sorting, state values, frozen and thawed JSON |
| `Protocol`, `Reducers`, `Topology`, `Engine` | the gate's vocabulary, folds, graphs, and the scheduler as a function of its environment |
| `Scheduler` | the scheduler as it works: an object per invocation, with its loops, proved equal to `Engine` |
| `Grammar`, `Consequences`, `Ledger`, `Overrun` | the trace grammar of every run and what follows from it: atomic publication, bounds, accounting, and a run beyond its budget |
| `Conduct`, `Obedience`, `Verdicts`, `RegionVerdicts` | the rule that determines a run event by event, the proof that the scheduler follows it, and what it means for gate, routers, nodes, branches, joins and reducers |
| `Mediation`, `Origins`, `HookFailure`, `Publication` | permission before every call and publication, where each call and delta comes from, failing hooks, digests under mutation |
| `JoinLaws`, `ReducerLaws`, `FoldMeaning` | which failure is reported, whom a join admits, the algebra of the folds, and what each reducer means |
| `Refinement`, `Transparency` | gated against ungated runs, and one interleaving against another, by one relational induction |
| `Spec`, `Codec`, `Reading`, `Rearrangement`, `Builder`, `Meaning` | canonical form and identity of a description, its codec, what a payload must say, the builder it comes from, and what the description says about the graph |
| `Lint`, `Findings`, `Validation`, `Confinement`, `Assurance`, `Completion`, `Tolerance` | the linter, when each finding is reported, what a clean report is equivalent to, what its verdicts mean for runs, and which graphs can exceed their budget |
| `Observer`, `Batch` | listener fan-out, and bounded batches as a state machine |

Loops and objects of the source are methods with loops and a class, each proved against a function;
the theorems are about these functions. `dafny verify dfyconfig.toml` checks everything.

## Where a promise needs a condition

- The documentation says that a gate that allows everything changes nothing. That holds exactly when
  every delta the ungated run publishes is canonical JSON (`Refinement.LenientGateIsInvisible`). It is
  enough that nodes, custom reducers and the initial state are (`Transparency.LenientGateIsInvisibleOnJson`);
  one value that is not is seen (`Transparency.LenientGateIsSeen`).
- `MaxStepsExceeded` promises to come before a node execution would exceed the budget. Failed branches do
  not count as steps, so a run can call more nodes than `max_steps`: `Overrun.ExceedsIffTolerated` gives a
  graph. It can happen exactly where edges lead to a region whose join tolerates a failed branch and which a
  node follows (`Tolerance.OverrunsIffLooseRegionIsReached`); elsewhere, and wherever all joins are strict, it
  cannot (`Tolerance.TightGraphsKeepTheBudget`, `Ledger.StrictJoinsKeepTheBudget`).
- GS102 is not sound on its own: a missing edge means END to the scheduler but not to the linter.
  `Assurance.FlaggedGraphMayComplete` gives a flagged graph whose runs complete. The flag is wrong if and
  only if something selectable has no edge (`Assurance.FlagIsWrongIffEdgeMissing` of the edges,
  `Completion.FlagIsWrongIffSomeRunCompletes` of runs).
- The order in which nodes, edges, reducers and joins are listed is irrelevant to a spec exactly when
  no two different records tie (`Rearrangement.OrderIsIrrelevantIffNoTies`); an absent and an empty
  reference tie. Descriptions of builders never hold ties.
- Default folds serialise exactly when the admitted deltas agree (`ReducerLaws.DefaultFoldSerialises`).
- The `node.end` observations of a gated region show the branches' own dicts, which are not copied, so
  they can show what was never folded (`Publication.EndShowsLaterValue`). They show what was folded
  wherever nobody else assigns to those dicts; digest, committed state and announced region delta always
  agree (`Publication.PublishRegionShared`).
- Identity is content up to collisions: the theorems about `graph_id` assume nothing of the digest and
  say "or a collision" instead.

## Model

| member | source | states |
|---|---|---|
| Grammar.RunObeysGrammar | src/perpetua_core/graph/engine.py:426-558 | every run's observations, under every gate and interleaving, are accepted by the trace automaton (selected edge, node start and end, region block, next edge, each linking up with the one before), and a terminal event is there exactly when no error is raised |
| Obedience.LawfulIsARunSoFar | src/perpetua_core/graph/engine.py:426-885 | the next-event rule determines every run, under every gate, hook and event-loop choice, regions included: the logs it allows are exactly the beginnings of the run |
| Verdicts.EveryEventIsDue | src/perpetua_core/graph/engine.py:426-885 | at every moment of every run the event that was due came next; a run ends only where nothing is due, and raises exactly the error that is |
| Verdicts.EverySelectionIsTheEdges | src/perpetua_core/graph/engine.py:536-552 | every edge shown as selected is what the edge of its node says of the state published last, which it is shown with: the declared target, a region's continuation, END without an edge, or what the router answered to exactly this state |
| Verdicts.EveryRouterIsObeyed | src/perpetua_core/graph/engine.py:984-1012 | a router that gets control is asked about the state published last; END or a registered name is selected next, its fault ends the run as it is, and any other answer raises the error that names it |
| Verdicts.EverySelectionIsFollowed | src/perpetua_core/graph/engine.py:447-461 | after a selected edge comes the end of the run, with only the status set, or the start of the named node with its name appended to the visited ones, unless the budget is spent |
| Verdicts.EveryEndLeadsOn | src/perpetua_core/graph/engine.py:525-552 | after a node's end comes what its edge says: the target, the question for its router, or the opening of its region with its checks in order; a failed settlement hook is raised instead |
| Verdicts.EveryVerdictIsCarriedOut | src/perpetua_core/graph/engine.py:560-595 | after every decision outside branch tasks: a refusal, garbage or a raising gate raises exactly that, with the nodes asked for; a stop ends the run with its reason, returning the state of the boundary; an allow hands control over, after its start marker |
| Verdicts.EveryMarkerIsCarriedOut | src/perpetua_core/graph/engine.py:583-595 | a completed start marker is followed by its call at once; one that fails outside branch tasks ends the run with the hook's own error |
| Verdicts.EveryCommitVerdictIsCarriedOut | src/perpetua_core/graph/engine.py:597-639 | the same for every commit decision; right after every allow the settlement hook runs, if there is one |
| Verdicts.EveryAnswerIsTheGates | src/perpetua_core/graph/engine.py:560-639 | every decision and hook result in a log is what the gate answers to the log before it |
| Verdicts.EveryNodeAnswerIsCarriedOut | src/perpetua_core/graph/engine.py:474-523 | a single node is asked about the state its start showed: an interrupt pauses the run with its prompt and payload in the metadata, any other fault is raised as it is, what is no dict is an error, and a delta is committed or published unless it cannot be copied or is no JSON |
| Verdicts.EveryBranchHeedsItsDecision | src/perpetua_core/graph/engine.py:852-885 | however branches interleave, each is settled by what the gate decided about it; only an allowed branch is called |
| RegionVerdicts.EveryBatchIsAsked | src/perpetua_core/graph/engine.py:668-696 | all branches are shown to start, in name order, on one snapshot, and then the gate decides on the whole batch before anything else of the region happens |
| RegionVerdicts.EveryBranchAdvances | src/perpetua_core/graph/engine.py:852-889 | while a branch has not settled the event loop's choice takes its next step: it is asked for if the gate keeps start markers, marked once allowed, entered, and left |
| RegionVerdicts.EverySettledRegionIsClosed | src/perpetua_core/graph/engine.py:698-760 | once all branches of a region of any run have settled, what they settled to decides the next event or the error: refused admissions, refused starts, failed starts together, stops, interrupts, then the join |
| RegionVerdicts.EveryJoinIsObeyed | src/perpetua_core/graph/engine.py:762-778 | a custom join that gets control decides: its error is raised, or those it admits are asked for at once, or folded if there is no gate |
| RegionVerdicts.EveryFoldDecisionIsCarriedOut | src/perpetua_core/graph/engine.py:779-790 | an allowed fold goes on field by field up to the first that needs user code, which is asked for or entered, or whose reducer fails, which is raised; without any it is committed |
| RegionVerdicts.EveryReducerIsObeyed | src/perpetua_core/graph/engine.py:947-980 | a custom reducer that gets control is asked; its fault is raised, and after its value the fold goes on with exactly the fields after its own |
| RegionVerdicts.EveryCommitIsShown | src/perpetua_core/graph/engine.py:803-827 | after the allow of a region's commit, its settlement and each of its ends, the next admitted branch is shown to end on the snapshot with the fold written over it, and after the last the commit |
| RegionVerdicts.EveryRegionLeadsOn | src/perpetua_core/graph/engine.py:525-552 | after a region's commit a failed settlement hook is raised as its own error; else the region's continuation is selected, in the committed state |
| RegionVerdicts.FoldedIsTheFold | src/perpetua_core/graph/engine.py:932-982 | a fold in which no reducer fails holds exactly the written fields, each with what its reducer makes of the writes to it, and the writers of each in order |
| Grammar.RouteTracks | src/perpetua_core/graph/engine.py:536-552 | what a router or edge selects is shown before the trace heads for it, with the state it was selected in |
| Grammar.FoldHasShape | src/perpetua_core/graph/engine.py:932-982 | a completed fold writes exactly the union of the admitted keys, and provenance lists exactly the writers of each key in branch order |
| Grammar.AdmitSelected | src/perpetua_core/graph/engine.py:891-930 | whatever a join admits, custom joins included, is an ascending selection of branches, and admitting implies that some branch succeeded |
| JoinLaws.AdmitLaw | src/perpetua_core/graph/engine.py:891-930 | a join admits if and only if its rule holds of the outcomes (all, some, n, or a custom answer naming only successful branches), then exactly the branches the rule lets in, ascending; a refusal carries all branch errors |
| JoinLaws.CustomJoinLaw | src/perpetua_core/graph/engine.py:907-930 | a custom join is shown every branch in name order, whether it succeeded and with which error it failed; its fault is raised as it is, and otherwise it admits exactly the branches it names, if it names some and all of them succeeded |
| JoinLaws.FailurePrecedence | src/perpetua_core/graph/engine.py:698-752 | admission failures outrank start failures, these outrank stops, and these outrank interrupts; of each the first branch in name order is reported, a gate's refusal before other start failures, which are raised together |
| JoinLaws.FirstAndLastLaw | src/perpetua_core/graph/reducers.py:81-84 | `first` and `last` take the write of the least and the greatest admitted branch, by name, that wrote the field |
| Consequences.OnlyPublishedStateIsObserved | src/perpetua_core/graph/engine.py:652-656 | every observed state equals the last published one except for `status`, `metadata` and `nodes_visited` |
| Consequences.UncommittedRegionPublishesNothing | src/perpetua_core/graph/engine.py:652-656 | a region that does not commit shows no branch end and no commit: only starts and at most one stop or interrupt |
| Consequences.TerminalKindIsFinalStatus | src/perpetua_core/graph/engine.py:1100-1141 | the terminal event is unique and last, and its kind is the status of the final state; a run that raises has none |
| Consequences.WorkIsBounded | src/perpetua_core/graph/engine.py:447-449 | no observation counts more than max(0, M) steps, and all regions of a run together announce at most M*M/4 branches |
| Consequences.VisitedIsStarted | src/perpetua_core/graph/engine.py:453-461 | if no published delta writes `nodes_visited`, a finished run's list is the initial one followed by the names of all starts in order |
| Origins.EveryCallHasItsStart | src/perpetua_core/graph/engine.py:453-474 | at every moment of every run each node was called at most as often as it was started at the same step count, and just before each call less often |
| Ledger.CallsAreBounded | src/perpetua_core/graph/engine.py:659-734 | over a run node callables are entered at most M times and once more for each that failed; branch callables at most M*M/4 times |
| Ledger.StrictJoinsKeepTheBudget | src/perpetua_core/graph/engine.py:211-216 | if no join tolerates a failed branch (`all`, or a quorum of all), no run enters more than M callables |
| Tolerance.OverrunsIffLooseRegionIsReached | src/perpetua_core/graph/engine.py:211-216 | for a description without errors, some run of a graph described alike, under some budget and with routers that keep to what they declare, enters more node callables than its budget has steps if and only if the edges lead to a region whose join is neither `all` nor a quorum of all and which a node follows |
| Tolerance.TightGraphsKeepTheBudget | src/perpetua_core/graph/engine.py:211-216 | if the edges lead to no such region, no run enters more callables than its budget has steps, from any state, under any gate and interleaving |
| Overrun.ExceedsIffTolerated | src/perpetua_core/graph/engine.py:734 | a concrete graph under a budget of 4 makes 6 calls if its join tolerates two failures of three, and at most 4 otherwise, in every interleaving |
| Overrun.BuiltInJoins | src/perpetua_core/graph/engine.py:895-906 | of the built-in joins exactly `any`, `first_success` and a quorum of one tolerate them |
| Ledger.StepsCountDeliveries | src/perpetua_core/graph/engine.py:734 | in a finished run `steps` is the number of callables that delivered, and starts are deliveries plus failures |
| Mediation.RunIsMediated | src/perpetua_core/graph/engine.py:560-620 | the log of every run is built only of events that were permitted at their moment, and never ends between a start marker and its call |
| Mediation.EveryCallIsAllowed | src/perpetua_core/graph/gate.py:8-33 | control enters a node, branch, router, custom join or custom reducer only after an allow covering it that is taken after the last observation; a call that is no branch of an allowed batch and no reducer of an allowed fold uses up an allow of its own, and with `before_start` every call does, directly after its completed marker |
| Mediation.EveryMarkerIsFollowedByItsCall | src/perpetua_core/graph/engine.py:583-595 | each completed start marker is directly followed by the call it announces |
| Mediation.EveryPublicationIsAllowed | src/perpetua_core/graph/engine.py:597-620 | in a gated run a node's end directly follows the allowed commit whose digest is that of exactly its delta; a region's ends follow theirs one by one in the order of its nodes, writing only fields of the hashed fold, and then the commit of exactly that fold |
| Origins.EveryPublicationHasItsOrigin | src/perpetua_core/graph/engine.py:783-827 | every node end shows what its own callable answers to the state its last start showed, and every region commit is, field by field, what the declared reducers make of exactly the branch ends before it over the common snapshot |
| Origins.EveryDefaultCommitSerialises | src/perpetua_core/graph/engine.py:932-982 | every observed commit without declared reducers has branch ends that agree, and its state is that of merging them into the snapshot one after another in every order |
| Mediation.EverySettlementFollowsItsCommit | src/perpetua_core/graph/engine.py:622-639 | a settlement hook runs directly after the allow for the same commit request |
| HookFailure.FailedSettlementIsRaisedAfterPublication | src/perpetua_core/graph/engine.py:505-523 | after a failed settlement hook only its own publication is observed, ending in the delta the hook's digest binds, and then the run raises exactly the hook's error |
| ValueLaws.CopyableLaw | src/perpetua_core/graph/engine.py:497-500 | a delta's value can be copied if and only if nothing in it, at any depth, refuses to be |
| ValueLaws.JsonLaw | src/perpetua_core/graph/engine.py:60-70 | a value is canonical JSON if and only if nothing in it, at any depth, is an object that is none |
| ValueLaws.UnpackLaw | src/perpetua_core/graph/engine.py:453-455 | a list of visited names unpacks to its items, a text to characters that join to it again, a dict to its keys, and nothing else unpacks |
| Publication.PublishShared | src/perpetua_core/graph/engine.py:497-523 | whatever other tasks assign, during both awaits, to the returned dict, to anything nested in it or to any other object, a node is published as if its delta had been immutable since it was returned |
| Publication.PublishRegionShared | src/perpetua_core/graph/engine.py:783-827 | the same for the fold of a region's dicts: digest, committed state and announced delta are that fold; the branches' own ends show what their dicts hold after both awaits, which is what was folded wherever no assignment reached |
| Publication.EndShowsLaterValue | src/perpetua_core/graph/engine.py:809-814 | two branches under a gate that allows everything: the end of the first shows 2, while 1 was folded, hashed, committed and announced |
| Publication.Copy | src/perpetua_core/graph/engine.py:497-500 | a copy of a nested object has the same value at every depth and shares no object with what existed before |
| Refinement.GatedRunIsAPrefix | src/perpetua_core/graph/gate.py:21-28 | for any gate and any two interleavings, what a gated run shows, up to a final stop, is a prefix of what the ungated run shows |
| Refinement.LenientGateIsInvisible | src/perpetua_core/graph/gate.py:26-28 | an all-allowing gate whose hooks complete leaves observations and outcome unchanged if and only if every published delta is canonical JSON |
| Transparency.LenientGateIsInvisibleOnJson | src/perpetua_core/graph/gate.py:26-28 | it does so for every graph whose nodes and custom reducers return JSON, from every JSON state |
| Transparency.LenientGateIsSeen | src/perpetua_core/graph/engine.py:60-70 | a concrete graph with one value that is no JSON raises under such a gate and ends without it |
| Refinement.InterleavingIsInvisible | src/perpetua_core/graph/engine.py:841-889 | if the gate judges requests alone, every interleaving of all regions gives the same observations, final state and error |
| Scheduler.Invocation.Execute | src/perpetua_core/graph/engine.py:426-558 | the imperative main loop produces exactly the log and the outcome of the specification run |
| Mediation.MarkThenEnterSound | src/perpetua_core/graph/engine.py:583-595 | an allowed call is entered only if its start marker completed, directly after it; otherwise the run raises and no marker waits for a call |
| Mediation.CommitSound | src/perpetua_core/graph/engine.py:597-620 | publication goes ahead only when the last event is the allow for exactly this request and its delta is JSON |
| Grammar.HaltTracks | src/perpetua_core/graph/engine.py:1128-1141 | a stop at a place where the trace may stop is accepted as the end of the trace, with the state it annotates otherwise unchanged |
| Grammar.InterruptTracks | src/perpetua_core/graph/engine.py:1100-1116 | likewise an interrupt; one whose prompt or payload cannot be copied raises and shows nothing |
| Scheduler.Invocation.SettleGated | src/perpetua_core/graph/engine.py:841-889 | interleaving the tasks in any order until all have settled gives the specified outcomes, in branch order |
| Scheduler.Invocation.Announce | src/perpetua_core/graph/engine.py:658-678 | budget, branches and target are checked before anything is announced; then the region and each branch, ascending |
| Scheduler.Invocation.Contributions | src/perpetua_core/graph/engine.py:941-945 | the grouping loop collects, for exactly the written keys, the writes in branch order |
| Scheduler.Invocation.FoldFields | src/perpetua_core/graph/engine.py:946-982 | all fields in ascending order, stopping at the first refusal or conflict |
| Scheduler.Invocation.CommitFold | src/perpetua_core/graph/engine.py:783-831 | one commit publishes the fold: an end for each admitted branch, then the commit, then a pending hook error |
| Topology.MakeFanOut | src/perpetua_core/graph/engine.py:148-161 | a region is accepted exactly for two or more unique nonempty names, a target and a satisfiable quorum, and keeps exactly these names, ascending |
| Protocol.MakeDecision | src/perpetua_core/graph/gate.py:47-62 | a decision is made exactly of a known verdict, an allow without a reason and any other with a nonempty one, and is that one |
| Reducers.RejectConflictLoop | src/perpetua_core/graph/reducers.py:72-80 | the conflict loop returns the first value exactly when all are equal |
| Reducers.ConcatLoop | src/perpetua_core/graph/reducers.py:120-124 | the base followed by all contributions, or the failure for a non-list |
| Reducers.UnionLoop | src/perpetua_core/graph/reducers.py:127-138 | list and dict unions as specified, with each failure |
| Reducers.UnionDictLoop | src/perpetua_core/graph/reducers.py:141-161 | the nested loops find a conflict with a key's first writer or build the merged dict |
| ReducerLaws.ListUnionLaw | src/perpetua_core/graph/reducers.py:131-137 | list union succeeds exactly for lists; the base stays a prefix, and then every unseen item comes once, in order of first occurrence |
| ReducerLaws.UnionIsIdempotent | src/perpetua_core/graph/reducers.py:131-137 | folding the same contributions into the result changes nothing |
| ReducerLaws.UnionComposes | src/perpetua_core/graph/reducers.py:131-137 | contributions may be folded in two rounds |
| ReducerLaws.ConcatComposes | src/perpetua_core/graph/reducers.py:120-124 | concat may be folded in two rounds and keeps its base as a prefix |
| ReducerLaws.DictUnionLaw | src/perpetua_core/graph/reducers.py:141-161 | dict union succeeds if and only if the base is a dict or absent and all writers of each key agree; then it is the base overwritten with these keys |
| ReducerLaws.DictUnionIgnoresOrder | src/perpetua_core/graph/reducers.py:141-161 | permuting the contributions changes neither success nor result |
| ReducerLaws.DefaultFieldLaw | src/perpetua_core/graph/reducers.py:72-80 | the default reducer succeeds if and only if all writers of the field agree, with their value |
| ReducerLaws.DefaultFoldSerialises | src/perpetua_core/graph/engine.py:932-982 | without declared reducers a region folds if and only if its deltas agree, and then its state is that of merging them one after another in every order |
| FoldMeaning.ConcatLaw | src/perpetua_core/graph/reducers.py:120-124 | by position: concat succeeds if and only if the base is a list or absent and every contribution is a list; the result is the base and then item j of contribution i after all items of those before it |
| FoldMeaning.UnionOfLists | src/perpetua_core/graph/reducers.py:131-137 | list union keeps the base and then holds, once each and in order of first occurrence in the contributions laid end to end, the items the base has not |
| FoldMeaning.CustomLaw | src/perpetua_core/graph/reducers.py:94-103 | a custom reducer is called with the base and the contributions in branch order, if all can be copied, and its answer is the result |
| FoldMeaning.ReduceMeans | src/perpetua_core/graph/reducers.py:50-161 | each reducer returns what its kind means of the base and the contributed values, and returns something whenever that exists |
| FoldMeaning.FailureLaw | src/perpetua_core/graph/reducers.py:50-161 | how each fold fails: all disagreeing branches are named; of disagreeing dicts the first writer of the key and a later one with another value; what is no list or dict where one is needed is a bad value; a custom fault is raised as it is |
| FoldMeaning.EveryCommittedFieldIsFolded | src/perpetua_core/graph/engine.py:932-982 | every field of every committed region of every run holds what its reducer means of the value it had in the snapshot and of exactly what the branches shown to end before wrote to it, in their order |
| JsonTrees.FreezeLoop | src/perpetua_core/graph/spec.py:35-52 | the recursive freezing loops accept and build what the specification says |
| JsonTrees.FreezeIsFrozen | src/perpetua_core/graph/spec.py:35-52 | what freezing returns holds no mutable container, at any depth |
| JsonTrees.FreezeThaw | src/perpetua_core/graph/spec.py:35-60 | thawing frozen metadata gives plain JSON that freezes back to it |
| JsonTrees.ThawFreeze | src/perpetua_core/graph/spec.py:35-60 | freezing plain JSON succeeds and thaws back to it |
| Spec.MadeEdgeIsValid | src/perpetua_core/graph/spec.py:105-134 | every edge record satisfies the shape rules of its kind, with ascending targets and frozen metadata |
| Spec.CanonicalIsNormal | src/perpetua_core/graph/spec.py:307-332 | canonical parts are sorted, frozen and free of implied joins, even counted anew |
| Spec.CreatedIsNormal | src/perpetua_core/graph/spec.py:299-368 | a created spec holds canonical parts, a schema that fits its features, and the identity of exactly this content |
| Spec.CreateIsIdempotent | src/perpetua_core/graph/spec.py:299-368 | creating from the parts of a created spec, with its schema, gives it back |
| Spec.NodeOrderLaw | src/perpetua_core/graph/spec.py:201-202 | nodes are ordered by name, then by reference-or-empty, then by the text of their metadata |
| Spec.EdgeOrderLaw | src/perpetua_core/graph/spec.py:205-213 | edges are ordered by source, kind, target, router, declared targets and metadata, in this order of precedence |
| Spec.SchemaFollowsFeatures | src/perpetua_core/graph/spec.py:307-349 | for all parts and requests creating fails exactly for bad metadata or a requested schema that does not fit the features of the parts as given, and an inferred schema is 2 exactly if they use regions, although implied joins are dropped |
| Codec.CountJoinsLoop | src/perpetua_core/graph/spec.py:314-316 | the counting loop counts the joins of every source |
| Codec.CreateLoop | src/perpetua_core/graph/spec.py:288-368 | the imperative `create` computes the specified spec or error |
| Codec.CheckLoop | src/perpetua_core/graph/spec.py:255-261 | the record check passes exactly when every record is an object of known fields, else it reports the first fault |
| Codec.FromDict | src/perpetua_core/graph/spec.py:390-480 | the imperative loader accepts and rejects exactly as specified, in the source's order |
| Codec.RoundTrip | src/perpetua_core/graph/spec.py:384-480 | loading the dump of any created spec gives the spec: implied joins, inferred schema, order and frozen metadata included |
| Codec.LoadNormalises | src/perpetua_core/graph/spec.py:390-480 | whatever loads is a created spec whose dump loads to itself, with the supplied identity |
| Reading.LoadLaw | src/perpetua_core/graph/spec.py:390-480 | a payload loads to a spec if and only if it says that spec: known fields only, each record by its own names and kinds, an absent field standing for its default alone, parts that create exactly this spec under its identity |
| Codec.IdentityIsContent | src/perpetua_core/graph/spec.py:251-252 | two created specs share a `graph_id` if and only if they are equal or their payloads are a collision of the digest |
| Codec.TamperingIsRefused | src/perpetua_core/graph/spec.py:473-479 | a payload that keeps a spec's identity loads to that spec or not at all, unless it exhibits a collision |
| Codec.ImpliedJoinIsInvisible | src/perpetua_core/graph/spec.py:317-332 | declaring the sole `all` join of a region creates the spec that omitting it creates |
| Rearrangement.OrderIsIrrelevantIffNoTies | src/perpetua_core/graph/spec.py:201-239 | every rearrangement of the parts creates the same spec if and only if no two different records tie in the sort keys |
| Rearrangement.AbsentAndEmptyTie | src/perpetua_core/graph/spec.py:201-202 | two nodes that differ only by an absent and an empty reference make the order in which they are listed show in the spec |
| Builder.MiniGraph.constructor | src/perpetua_core/graph/engine.py:1018-1023 | an empty builder with its budget |
| Builder.MiniGraph.AddNode | src/perpetua_core/graph/engine.py:1025-1028 | sets one node and nothing else |
| Builder.MiniGraph.AddEdge | src/perpetua_core/graph/engine.py:1030-1035 | sets one edge, except that START cannot fan out, which changes nothing |
| Builder.MiniGraph.AddReducer | src/perpetua_core/graph/engine.py:1037-1046 | sets one reducer and nothing else |
| Builder.MiniGraph.Compile | src/perpetua_core/graph/engine.py:1052-1056 | a snapshot of the three maps whose regions are well formed |
| Builder.MiniGraph.DescribeEdges | src/perpetua_core/graph/engine.py:239-277 | the describing loop makes one edge record for each edge and one join record for each region, and no constructor raises |
| Builder.MiniGraph.DescribeTopology | src/perpetua_core/graph/engine.py:228-292 | describing fails only for a reducer with an empty field name; otherwise it is the specified description |
| Builder.DescriptionIgnoresOrder | src/perpetua_core/graph/engine.py:228-292 | builders of the same topology describe to the same spec, whatever the order of their calls |
| Builder.DescriptionIsCreated | src/perpetua_core/graph/engine.py:228-292 | every describable builder gives a created spec, which survives the codec |
| Builder.GraphIdIsTopology | src/perpetua_core/graph/engine.py:228-292 | two graphs share a `graph_id` if and only if they have the same nodes, references, edges, regions, joins, reducers and budget, or their descriptions are a collision |
| Meaning.DescriptionMeans | src/perpetua_core/graph/engine.py:228-292 | read by the literal names and kinds of its records, the dump of a builder's description gives back the nodes with their references, the edges with their targets, and exactly the join of every region and the reducer of every field that the graph runs with |
| Builder.BranchOrderIsInvisible | src/perpetua_core/graph/engine.py:136-161 | regions authored with their branches in any order are equal |
| Findings.EveryFindingIsJustified | src/perpetua_core/graph/lint.py:77-481 | each finding, of every code, severity, node and edge, is in the report if and only if the condition of its code holds of the spec |
| Lint.LintGraph | src/perpetua_core/graph/lint.py:77-308 | the imperative linter reports exactly the specified findings, in report order |
| Lint.LintNodes | src/perpetua_core/graph/lint.py:111-149 | the loop over nodes, with the names seen so far |
| Lint.LintEdges | src/perpetua_core/graph/lint.py:162-255 | the loop over edges, with the sources seen so far |
| Lint.LintBranches | src/perpetua_core/graph/lint.py:360-403 | the loop over a region's branches, with the claims made so far |
| Lint.LintFanOuts | src/perpetua_core/graph/lint.py:339-405 | the loop over regions, and the branch counts joins are checked against |
| Lint.LintJoins | src/perpetua_core/graph/lint.py:406-450 | the loop over joins |
| Lint.LintReducers | src/perpetua_core/graph/lint.py:452-472 | the loop over reducers |
| Lint.LintRegions | src/perpetua_core/graph/lint.py:311-481 | all findings about regions, reducers, joins and the schema they need |
| Lint.BuildAdjacency | src/perpetua_core/graph/lint.py:259-273 | the adjacency built in place holds exactly the declared links, and the opaque sources exactly the routers without declared targets |
| Lint.Expand | src/perpetua_core/graph/lint.py:278-282 | one worklist turn marks all neighbours and queues exactly the new ones |
| Lint.Reach | src/perpetua_core/graph/lint.py:275-282 | the worklist terminates with exactly the reflexive and transitive closure of START |
| Lint.LintReachability | src/perpetua_core/graph/lint.py:257-303 | GS101 for each unreached node and GS102 for an unreached END, unless an opaque router is reached |
| Validation.CleanIffWellFormed | src/perpetua_core/graph/lint.py:77-308 | a report has no error if and only if the description is well formed: identity, schema, names, sources, targets, disjoint regions, joins, quorums and reducers |
| Validation.FanOutsClean | src/perpetua_core/graph/lint.py:339-403 | the claiming loop finds no error if and only if every region is well formed and no branch belongs to regions of two sources |
| Validation.ReportIsOrdered | src/perpetua_core/graph/lint.py:51-62 | a report holds exactly the findings, errors before warnings, each by ascending code |
| Confinement.NeverLeavesAClosedArea | src/perpetua_core/graph/engine.py:426-558 | an area closed under edges and routers is never left by any run, and without END in it no run completes |
| Confinement.NeverGoesAstray | src/perpetua_core/graph/engine.py:984-1012 | in a closed area of registered nodes no run fails for an unknown node or for an empty, unknown or non-string route |
| Assurance.ReportedExactly | src/perpetua_core/graph/lint.py:91-303 | GS101, GS102 and GS014 are in the full report if and only if their conditions hold |
| Assurance.CreatedIsNeverForged | src/perpetua_core/graph/lint.py:91-109 | no spec made by `create`, duplicates and ties included, is reported with GS014 |
| Assurance.ValidatedRunsNeverGoAstray | src/perpetua_core/graph/engine.py:1058-1064 | if the linter reports no error and routers keep to what they declare, no run under any gate and interleaving fails for an unknown node or route, inside regions included |
| Assurance.FlaggedNodesNeverStart | src/perpetua_core/graph/lint.py:284-294 | a node flagged GS101 is never started in any run, as long as routers that declare targets select no other |
| Assurance.FlaggedGraphsNeverComplete | src/perpetua_core/graph/lint.py:296-303 | a graph flagged GS102 in which everything selectable has an edge never completes |
| Assurance.FlagIsWrongIffEdgeMissing | src/perpetua_core/graph/lint.py:259-303 | the edges of a flagged graph lead the scheduler to END if and only if something selectable has no edge |
| Completion.FlagIsWrongIffSomeRunCompletes | src/perpetua_core/graph/lint.py:296-303 | for a description without errors GS102 is wrong, in that some run of a graph described alike completes under some budget with routers that keep to what they declare, if and only if something selectable has no edge |
| Completion.WalksComplete | src/perpetua_core/graph/engine.py:447-552 | whatever walk of the scheduler's edges leads to END, callables exist that make a run of the same topology complete along it |
| Assurance.FlaggedGraphMayComplete | src/perpetua_core/graph/engine.py:525 | without that condition it may: a concrete flagged graph whose runs complete |
| Observer.Deliver | src/perpetua_core/graph/plugins/observer.py:81-88 | each listener is shown the same observation at every depth, whatever any listener assigned to anything that was ever handed out, and nothing else is ever written |
| Observer.RunWithPlugins | src/perpetua_core/graph/plugins/observer.py:49-103 | the calls are a prefix of the observation-by-listener product; a failing listener is the last call and nothing more is drawn from the run; otherwise all heard everything and the run's own outcome is returned, joined with a cleanup failure if there is one |
| Observer.Watch | src/perpetua_core/graph/engine.py:396-407 | watching changes nothing: unless a listener raises, the outcome is that of `ainvoke` |
| Batch.Limit | src/perpetua_core/graph/adapters/langchain_adapter.py:86-97 | only an absent or a positive integer bound is accepted |
| Batch.ConcurrencyIsBounded | src/perpetua_core/graph/adapters/langchain_adapter.py:98-104 | in every state of every interleaving at most the limit is in flight, and no input is started or finished twice |
| Batch.SomeTaskCanMove | src/perpetua_core/graph/adapters/langchain_adapter.py:98-104 | under a positive limit some task can move exactly until all have finished; under zero nothing could ever move |
| Batch.EveryExecutionEnds | src/perpetua_core/graph/adapters/langchain_adapter.py:98-104 | every interleaving ends within two steps for each input |
| Batch.ResultsBelongToInputs | src/perpetua_core/graph/adapters/langchain_adapter.py:100-104 | once settled every input ran exactly once, result i is that of input i, and the batch fails exactly when some run fails, with the error of one that did |

## Left out

- Refinement.InterleavingIsInvisible: gates and hooks must depend on the request alone; a gate with a memory of its own can see the order in which branches ask.
- Assurance.FlaggedGraphsNeverComplete: one direction; the equivalence is Completion.FlagIsWrongIffSomeRunCompletes.
- Publication.Copy: objects shared inside what is copied are copied once each time they occur, which has the same value; cyclic objects are no finite dict and are not modelled.
- Batch.ConcurrencyIsBounded: any waiting task may enter next, which includes the first-come order of `asyncio.Semaphore`.
- Codec.FromDict: optional references that are no strings, metadata given as a list of pairs and declared targets given as one string are rejected as ill-typed, where the code lets some of them through.
- Codec.LoadNormalises: of the payloads Codec.FromDict admits; an ill-typed optional field that the code lets through is outside it.
- Reading.LoadLaw: the same; such a field says nothing here.
- Reducers.UnionLoop: values are compared structurally, so `1 == True` and list-to-tuple comparisons are not modelled.
- Reducers.UnionDictLoop: dict entries are visited in ascending key order instead of insertion order, which can only change which of several conflicting keys is reported.
- Lint.LintGraph: messages are left out, so findings that differ in their message alone are equal.
- Attributes of the state object that are no fields, which `getattr` could find when a reducer's base is read.
- Mutation of the state object a single node is given, which is not copied for it.
- Cancellation and other exceptions that are no `Exception`, and the identity of exception objects beyond the three families the scheduler tells apart.
- Field validation of the state model: a state is a map from field to value.
- SHA-256 and JSON text: the digest of a delta stands for its content; that of a spec is any function.
- `batch_id` is an opaque function of the step count; its randomness is not modelled.
- `stable_callable_ref`: references are given optional strings.
- An initial state that cannot be copied.
- `stream`, `invoke` and `batch` bridges, `ChainedRunnable`, the langgraph adapter, `resume_policy`, `LabelRouter`, `Validated`, `as_node`, `parallel_dispatch`: thin wrappers over the modelled calls.
- SQLite storage, the LLM client, subprocess nodes, structured-output retry, discovery and policy: I/O, lookups, or code of other packages.
