# Verification of the UFO core

A Dafny model of the parts of the UFO data processing framework that decide which item goes where: the
threads of a running task graph and the queues between them, the expansion of a task graph for several
GPUs, the places of a buffer's data, the in-place conversion of raw pixels, and the pipeline language of
`ufo-launch`. `dafny verify dfyconfig.toml` checks the whole project.

## What is modelled

**The streaming runtime** (`Progression`, `Channel`, `Network`, `Runtime`, `Invariant`, `Steps`, `Runs`).
`Network` is a task graph whose queues are set up, together with its meaning without threads: the value
that every task computes in each iteration. `Runtime` gives every task a thread with a program counter. One
step is one queue operation, one call of `process` or `generate`, or the test for the end of all inputs; a
pop is enabled when its queue has an element; a run is any interleaving. One step relation covers the
default scheduler with scattering and broadcasting groups and the fixed scheduler. The theorems hold for
every network that is `Balanced`: the numbers that setup fixes (positions in the lists of targets and
in-groups, and their lengths) let both ends of every edge work on the same index of the stream. `Invariant`
states what every reachable state satisfies, `Steps` proves that every step keeps it, and `Runs` derives
deadlock freedom, a bound on all runs, ownership, and determinism of what the sinks see. `Flow` needs no
balance: it counts, for every network and every interleaving, the items that pass along each edge, which is
enough to tell that a network delivers too many or too few.

**Graphs and setup** (`Graph`, `NodeTable`, `UfoGraph`, `TaskNode`, `Setup`, `GroupSetup`). The graph is a
class whose lists of nodes, edges and copies are changed in place, and whose queries are loops over these
lists. The orders of the lists are kept exactly: successors come latest edge first, and a group that is added
to an input port comes first there. `Setup.NetOf` is the network of a graph; the loops of `setup_groups` are
proved to build its lists.

**Expansion** (`Expand`, `Attach`, `Fan`, `FanNet`, `Preserves`, `Covering`, `Branches`, `Imbalance`,
`Faithfulness`, `Unfaithful`, `Sharing`, `PathSearch`, `SearchOrder`, `LongestWalk`, `TaskGraph`, `Instances`,
`Duplication`, `PipelineExpansion`, `Mapping`, `GpuWays`, `FanMapping`). An expansion is a covering of the graph; repeated expansion makes a fan of branches
that the head and the tail list in the same order; the network of a fanned graph is `Balanced` and covers that
of the original one; hence all sinks end with the same items in the same order. `Faithfulness` says exactly
when this holds, `Unfaithful` gives the smallest graphs in which it does not, and
`PipelineExpansion.TaskExpansionPreserves` states it for the path that `ufo_task_graph_expand` itself chooses.
`Duplication` says in terms of the found path and the edges which tasks that is, `SearchOrder` which path is
found, `Sharing` what an expansion adds on any path, and `GpuWays` which GPU every task gets; `FanMapping` adds
that the branches get different ones.

**The fixed scheduler** (`Fixed`) on every acyclic graph whose ports are a permutation.

**Groups, queues and reductors** (`Group`, `Sending`, `Reductor`, `QueueRefinement`) as classes and loops in
the form of the source, proved against functions that say what every target is sent; the operations of the
queue object are those of the runtime: `QueueRefinement` calls each of them.

**Buffers** (`Coherence`, `Convert`) and **the pipeline language** (`Tokenizer`, `Launch`, `RoundTrip`).
`Wrappers` holds the type of values that may be absent.

## When expansion preserves meaning

`ufo_graph_expand` gives a copy one edge, to the next node of the branch, and a group that broadcasts serves
every branch. So expansion is harmless exactly when the head of the path scatters and no inner node has a
successor beside the path (`ForkFree`). For every graph that can be set up, whose ports read one edge and
whose scattering tasks have one target, for every path in it whose inner nodes have one input, any number of
expansions n >= 1 and streams of at least one item, `Faithfulness.FaithfulIffForkFree` proves that the
expanded graph is `Faithful` if and only if the path is `ForkFree`. `Faithful` says that it `Delivers` -
bounded runs, all threads finish, every sink has processed exactly the items of the original graph, in order,
under every interleaving - and that no task ever goes on when only some of its inputs have ended.

The second part is needed where an inner node forks. The side successor then gets too few items. If it has
another input, it goes on with a buffer that it has released already (ufo/ufo-scheduler.c:139-152), and if that
buffer holds what the missing item would have held, as it may when all items are equal, its sink cannot tell. So
`Delivers` alone is not claimed to imply `ForkFree` there. Elsewhere it does: a head that does not scatter never
delivers (`Faithfulness.ScatterNeeded`), and where no task has several inputs `Delivers` decides alone
(`Faithfulness.DeliversIffForkFree`). Expansion happens under the default scheduler only
(ufo/ufo-scheduler.c:568-580), so no task serves its targets queue by queue.

## Where the code differs from its documentation

`ufo_graph_find_longest_path` is documented to find the longest path that fulfils the predicate. It follows,
from the first match below every root, always the first matching successor, which is the one that was
connected last. `PathSearch.WalkCanBeShort` is a graph with four nodes in which it misses a longer path.
`LongestWalk.SearchIsLongestIff` says exactly when the result is a longest matching path: when some start is
as high as any matching node and every step of the walk from it goes to a highest matching successor, where
the height of a node is the length of the longest matching path from it. `LongestWalk.SearchIsLongest` is a
condition on edges and predicate that can be checked before the search: no matching node has two matching
successors, and every matching node behind no other one has a root from which it is reached first on every
way. `LongestWalk.FirstRunOnly` is the everyday input that fails: in the linear pipeline match, no match,
match, match the search returns the first run, which is shorter than the second. The theorems about expansion
do not assume that the path is longest.

The comment in `convert_data` says that converting back to front works for sources at most half as wide as
the target. `Convert.ConvertData` shows that it also works for 32-bit sources.

## Model

| member | source | states |
|---|---|---|
| Network.IndexAgrees | ufo/ufo-task-node.c:227-239 | in a balanced network the producer and the consumer of an item work on the same index of the stream |
| Invariant.InitInv | ufo/ufo-scheduler.c:541-633 | the invariant of all threads and queues holds before the first step |
| Steps.StepKeeps | ufo/ufo-scheduler.c:98-283 | every step of every thread keeps the invariant: positions, ownership, counts and contents of every queue |
| Runs.NoDeadlock | ufo/ufo-scheduler.c:154-283 | in every reachable state in which some thread has not finished, some thread can move |
| Runs.Terminates | ufo/ufo-scheduler.c:154-283 | no run is longer than a bound that depends on the network and the number of items only |
| Runs.CanComplete | ufo/ufo-scheduler.c:154-283 | every run can be continued to one in which no thread can move |
| Runs.Delivery | ufo/ufo-scheduler.c:154-283 | when no thread can move, all have finished, and every sink has processed exactly the inputs of the iterations within the stream, in order |
| Runs.Deterministic | ufo/ufo-scheduler.c:154-283 | any two complete runs have shown every sink the same items in the same order |
| Runs.AlwaysPrefix | ufo/ufo-scheduler.c:154-283 | in every reachable state a sink has processed a prefix of its stream, nothing else and nothing twice |
| Runs.EndLosesNothing | ufo/ufo-scheduler.c:98-152 | when a port meets an end of the stream, the task has completed every iteration within the stream and all queues of the port hold nothing but ends |
| Runs.Ownership | ufo/ufo-two-way-queue.c:78-130 | every buffer inserted in a queue is in exactly one place (free side, full side, producer, consumer) of that queue, no other buffer is; a queue of a group gets at most one buffer more than the group has targets, one of the fixed scheduler at most two |
| Runs.InTransit | ufo/ufo-group.c:142-155 | what a queue holds is the next part of the stream of its edge, in order, with at most one end behind it |
| Flow.StepFlow | ufo/ufo-scheduler.c:98-283 | in every network, balanced or not, every step of every thread keeps the counts: what an edge has carried is the number of turns that its producer gave it, what was taken the number of turns of its port, and a port has ended only where an edge was used up |
| Flow.SingleTogether | ufo/ufo-scheduler.c:98-152 | where every task has at most one input, no task goes on when only some of its inputs have ended |
| Flow.BalancedTogether | ufo/ufo-scheduler.c:98-152 | nor in a balanced network |
| Channel.PushFullKeeps | ufo/ufo-two-way-queue.c:104-108 | a producer's push keeps the invariant of the queue and advances its stream by one item |
| Channel.PopFullKeeps | ufo/ufo-two-way-queue.c:78-82 | a consumer's pop of data keeps the invariant and hands over the next item |
| Channel.PushFreeKeeps | ufo/ufo-two-way-queue.c:84-88 | returning a buffer keeps the invariant; the buffer goes back to the queue it came from |
| Channel.GrownKeeps | ufo/ufo-group.c:98-117 | growing the pool up to its cap keeps the invariant and the contents of all other buffers |
| Covering.UniformBalanced | ufo/ufo-group.c:142-155 | a network without parallel branches whose generators make equally many items has no rate conflict |
| Covering.CoverVal | ufo/ufo-graph.c:485-545 | an iteration of a copy computes what the original computes for the index that the copy works on |
| Covering.CoverMeaning | ufo/ufo-graph.c:485-545 | a log is complete for a sink of the covering network exactly when it is complete for the sink it stands for |
| Covering.CoverRuns | ufo/ufo-graph.c:485-545 | complete runs of a covering network and of the covered one show their sinks the same |
| Graph.OutIdxDescends | ufo/ufo-graph.c:748-762 | the edges that leave a node are listed latest first |
| Graph.SuccessorsAt | ufo/ufo-graph.c:437-458 | the successors of a node are the targets of its edges in that order |
| Graph.PredecessorsHas | ufo/ufo-graph.c:388-409 | the predecessors are exactly the nodes that are connected to the node |
| Graph.LabelFound | ufo/ufo-graph.c:764-778 | the label of a connection is that of an existing edge, and edges added later do not change it |
| NodeTable.CopiedNumbered | ufo/ufo-node.c:103-121 | copying keeps the numbering of families: the members have the indices 0..total-1, each exactly once |
| NodeTable.UfoNodes.New | ufo/ufo-node.c:200-209 | a new node is its own original, with index 0 of 1 |
| NodeTable.UfoNodes.Copy | ufo/ufo-node.c:103-121 | a copy joins the family of its original with the next free index, and the families stay numbered |
| UfoGraph.UfoGraph.FindEdge | ufo/ufo-graph.c:764-778 | finds the first edge between two nodes if there is one |
| UfoGraph.UfoGraph.IsConnected | ufo/ufo-graph.c:79-91 | true exactly if there is an edge |
| UfoGraph.UfoGraph.GetEdgeLabel | ufo/ufo-graph.c:275-292 | the label of the first edge, or that of a null pointer |
| UfoGraph.UfoGraph.ConnectNodes | ufo/ufo-graph.c:113-139 | appends the edge and the missing nodes, unless the first edge of the pair has this label already |
| UfoGraph.UfoGraph.FindAllData | ufo/ufo-graph.c:748-762 | the matching edges in reverse order |
| UfoGraph.UfoGraph.GetSuccessors | ufo/ufo-graph.c:437-458 | the targets of a node's edges, latest edge first |
| UfoGraph.UfoGraph.GetPredecessors | ufo/ufo-graph.c:388-409 | the sources of the edges into a node, earliest edge first |
| UfoGraph.UfoGraph.GetNumPredecessors | ufo/ufo-graph.c:411-425 | the number of edges into a node |
| UfoGraph.UfoGraph.HasNoPredecessor | ufo/ufo-graph.c:294-308 | true exactly if no node is connected to the node |
| UfoGraph.UfoGraph.GetRoots | ufo/ufo-graph.c:319-324 | the nodes without predecessor, in the order of nodes |
| UfoGraph.UfoGraph.Branch | ufo/ufo-graph.c:509-539 | a node with at most one input is copied, any other is shared; the branch goes on under the label of the original edge |
| UfoGraph.UfoGraph.Expand | ufo/ufo-graph.c:485-545 | the loop adds exactly the branch that `Expanded` describes, records the copies and numbers them |
| Expand.ExpandCovers | ufo/ufo-graph.c:485-545 | for every path, also with shared nodes: all old edges survive, and mapping copies to originals maps every edge to an old edge with the same label |
| Sharing.ExpandedBranch | ufo/ufo-graph.c:485-545 | on any path of an acyclic graph, also with shared nodes, exactly the edges of the new branch are added, each between the branch nodes of two neighbours of the path and with the label of the path's own edge; copied are, in the order of the path, the nodes between head and tail that have at most one input |
| Sharing.CopiedAre | ufo/ufo-graph.c:516-536 | a node is copied exactly if it lies between head and tail and has at most one input |
| Sharing.ExpandedNodes | ufo/ufo-graph.c:485-545 | the nodes of the expanded graph are the old ones and the copies |
| Expand.ExpandAcyclic | ufo/ufo-graph.c:485-545 | an acyclic graph stays acyclic |
| Expand.ExpandedForm | ufo/ufo-graph.c:485-545 | on a path of length L > 2 whose inner nodes have one input exactly L - 2 nodes and L - 1 edges are appended, in the order of the path; on shorter paths nothing |
| Expand.AgainDuplicable | ufo/ufo-graph.c:485-545 | after an expansion the path can be expanded again |
| Expand.ExpandTimesCopies | ufo/ufo-task-graph.c:405-411 | every expansion of the same path copies each inner node once |
| TaskNode.UfoTaskNode.AddInGroup | ufo/ufo-task-node.c:173-182 | a group is prepended to its port and becomes the current one |
| TaskNode.UfoTaskNode.GetCurrentInGroup | ufo/ufo-task-node.c:217-225 | the group that was added k mod n additions before the last one, if n groups were added to the port and it was switched k times since |
| TaskNode.UfoTaskNode.SwitchInGroup | ufo/ufo-task-node.c:227-239 | the cursor of one port advances, and starts over behind the last group |
| TaskNode.SwitchedCycles | ufo/ufo-task-node.c:227-239 | after k switches a port with n groups stands on group k mod n |
| TaskNode.CurrentAfter | ufo/ufo-task-node.c:173-239 | in the list that additions leave, the position after k switches holds the group added k mod n before the last: the last addition is read first |
| Setup.SetupWellFormed | ufo/ufo-scheduler.c:418-472 | setup makes a network in which the positions that the two ends of every edge use agree |
| GroupSetup.AddGroup | ufo/ufo-scheduler.c:441-468 | one node's group is added to all its targets, at the port that the edge is labelled with |
| GroupSetup.SetupGroups | ufo/ufo-scheduler.c:418-472 | all groups have their successors as targets, and every port lists its groups as they were prepended |
| GroupSetup.FeedersAreInputs | ufo/ufo-scheduler.c:454-464 | the groups at a port are those of the sources of its edges, later nodes first |
| GroupSetup.SetupMakesNetwork | ufo/ufo-scheduler.c:418-472 | the lists that setup builds are those of the network that the runtime theorems are about |
| Fan.ExpandTimesFans | ufo/ufo-graph.c:485-545 | alignment: after any number of expansions of a path, the successors of its head and the in-groups at its tail list the branches in the same order, latest first |
| FanNet.FannedGraphOk | ufo/ufo-task-graph.c:405-411 | the expanded graph can be set up: simple, acyclic, every port fed |
| Preserves.FannedBalanced | ufo/ufo-group.c:142-155 | with n branches, branch b works on the indices congruent to n - 1 - b, on every edge and at both ends |
| Preserves.FannedCovers | ufo/ufo-graph.c:485-545 | the network of the expanded graph covers that of the original graph |
| Preserves.UnitDelivers | ufo/ufo-scheduler.c:154-283 | a graph without parallel branches delivers its meaning: bounded runs, all threads finish, every sink processes exactly its N items in order |
| Preserves.ExpansionPreservesMeaning | ufo/ufo-graph.c:485-545 | after any number of expansions of a path free of forks, under every interleaving all threads finish, and every sink has processed exactly the items that the original graph gives it, in order; no sink is lost or added |
| Branches.SpreadTimes | ufo/ufo-graph.c:485-545 | whatever the tasks do with their results: after n expansions the head has n more targets, all before the old ones, the port where the branches meet has n more groups, all other nodes keep their lists, and the graph can be set up with the copies running the tasks of their originals |
| Imbalance.TooMany | ufo/ufo-scheduler.c:98-137 | in every complete run, a port that cycles through several groups, each with a whole stream, takes more items than a stream has |
| Imbalance.ServedLast | ufo/ufo-group.c:152-155 | in every complete run, the target that a scatter over several targets serves last goes through fewer iterations than the scattering task |
| Faithfulness.ScatterNeeded | ufo/ufo-graph.c:485-545 | if an expanded graph delivers the meaning of the original one, the head of the path scatters |
| Faithfulness.ForkFreeNeeded | ufo/ufo-graph.c:485-545 | if it does so without any task going on when only some of its inputs have ended, the path is free of forks |
| Faithfulness.ForkFreeSuffices | ufo/ufo-graph.c:485-545 | a path free of forks can be expanded any number of times without harm |
| Faithfulness.FaithfulIffForkFree | ufo/ufo-graph.c:485-545 | the exact condition, for one expansion or more and streams of one item or more: expansion preserves meaning if and only if the head scatters and every inner node has one successor |
| Faithfulness.DeliversIffForkFree | ufo/ufo-graph.c:485-545 | where no task has several inputs, the streams that the sinks see decide it alone |
| Unfaithful.BroadcastingGenerator | ufo/ufo-group.c:156-170 | a generator that broadcasts, one stage, one sink, one item, one expansion: the sink does not see its stream |
| Unfaithful.SideSink | ufo/ufo-graph.c:509-539 | a stage that also feeds a side sink, one item, one expansion: the sinks do not see their streams |
| Unfaithful.PathHarm | ufo/ufo-graph.c:485-545 | the same for any number of side sinks, items and expansions |
| PipelineExpansion.TaskExpansionPreserves | ufo/ufo-task-graph.c:347-419 | the exact condition for any number of GPUs and the path that the search finds in any task graph: meaning is preserved if and only if the chosen target is not expanded at all or free of forks, whatever the tasks beside it do; the copies run the tasks of their originals |
| PipelineExpansion.PipelineHarmless | ufo/ufo-task-graph.c:347-419 | in pipelines that join but do not fork, whatever the search finds meets the condition |
| Fixed.FixedBalanced | ufo/ufo-fixed-scheduler.c:165-198 | a graph whose ports are a permutation has no rate conflict under the fixed scheduler |
| Fixed.FixedLive | ufo/ufo-fixed-scheduler.c:211-328 | no reachable unfinished state is stuck, and all runs are bounded |
| Fixed.TwoBuffers | ufo/ufo-fixed-scheduler.c:147-163 | no edge ever has more than two buffers |
| Fixed.FixedStream | ufo/ufo-fixed-scheduler.c:253-328 | in every reachable state every queue holds the next items of the meaning of the task that feeds it, so all successors see the same stream, and an end is last |
| Fixed.FixedDelivers | ufo/ufo-fixed-scheduler.c:200-328 | when no thread can move, every edge has carried exactly N items and one end, and every sink has processed exactly the meaning of its inputs |
| Fixed.IterationMeans | ufo/ufo-fixed-scheduler.c:253-328 | iteration k of a task computes item k of its meaning, which is defined on the graph alone |
| PathSearch.FindFirstMatch | ufo/ufo-graph.c:547-574 | the first match below a node, depth first in the order of successors |
| PathSearch.FollowPath | ufo/ufo-graph.c:576-602 | extends a path by the greedy walk from its end |
| PathSearch.FindStarts | ufo/ufo-graph.c:629-642 | exactly the first matches below the roots |
| PathSearch.FindLongestPath | ufo/ufo-graph.c:616-662 | one of the longest of the greedy walks from all starts, whatever the order of the hash table; nothing exactly if there is no start |
| SearchOrder.FirstMatchIff | ufo/ufo-graph.c:547-574 | a node is found below a root exactly if the depth-first way ends there: over nodes that do not match, always to the first successor with a match below it |
| SearchOrder.FoundIs | ufo/ufo-graph.c:547-662 | the result starts where a depth-first way from a root ends, and goes to the first matching successor at every step, until there is none |
| SearchOrder.FoundIsLongest | ufo/ufo-graph.c:616-662 | no other such walk is longer |
| PathSearch.FoundPath | ufo/ufo-graph.c:616-662 | the result is a path of matching nodes that cannot be extended at its end |
| PathSearch.NothingFound | ufo/ufo-graph.c:616-662 | nothing is found exactly if no node of the graph matches |
| PathSearch.WayDown | ufo/ufo-graph.c:294-324 | in an acyclic graph every node lies below a root |
| PathSearch.WalkCanBeShort | ufo/ufo-graph.c:604-662 | a graph in which the search does not find the longest matching path |
| LongestWalk.HeightBounds | ufo/ufo-graph.c:604-615 | no matching path from a node is longer than its height |
| LongestWalk.HeightReached | ufo/ufo-graph.c:604-615 | some matching path from a node is as long as its height |
| LongestWalk.WalkHeight | ufo/ufo-graph.c:576-602 | the walk from a node is a longest matching path from it exactly if all its steps go to highest successors |
| LongestWalk.SearchIsLongestIff | ufo/ufo-graph.c:604-662 | the result is a longest matching path of the graph exactly if some start is as high as any matching node and all steps of its walk are highest |
| LongestWalk.SearchIsLongest | ufo/ufo-graph.c:604-662 | the result is a longest matching path if no matching node has two matching successors and every matching node behind no other one is entered from a root of its own; a condition on edges and predicate alone |
| LongestWalk.FirstRunOnly | ufo/ufo-graph.c:547-574 | in the linear pipeline match, no match, match, match the search returns the first node although the last two make a longer path |
| TaskGraph.NodesWithCommonAncestries | ufo/ufo-task-graph.c:322-334 | the nodes of a path that have several inputs, in order |
| TaskGraph.Prune | ufo/ufo-task-graph.c:370-384 | what is left of a path behind the first occurrence of a node |
| TaskGraph.Extend | ufo/ufo-task-graph.c:386-403 | the path with the first predecessor of its head and the first successor of its tail, where they exist |
| TaskGraph.ChooseTarget | ufo/ufo-task-graph.c:360-403 | the path that is expanded; none if it has several nodes with several inputs or nothing is left |
| TaskGraph.ExpandForGpus | ufo/ufo-task-graph.c:405-411 | one expansion for every GPU but the first, and the families of all copies |
| TaskGraph.ExpandTaskGraph | ufo/ufo-task-graph.c:347-419 | the whole operation: the graph and the families afterwards are those of expanding the chosen target of the path that the search finds |
| Instances.TwoCommonUnchanged | ufo/ufo-task-graph.c:363-368 | with two nodes with several inputs on the path the graph stays as it is |
| Instances.ManyInputsNotCopied | ufo/ufo-task-graph.c:347-419 | a node with several inputs is never copied |
| Instances.TargetDuplicable | ufo/ufo-task-graph.c:370-403 | the chosen target is a path of the graph none of whose inner nodes has several inputs |
| Instances.InnerInstances | ufo/ufo-task-graph.c:405-411 | every inner node of the target ends with exactly one instance per GPU: the family of a fresh node has the indices 0..n-1, each once, and total n |
| Duplication.ExtendedIs | ufo/ufo-task-graph.c:386-403 | the path that is extended gets the source of the earliest edge into its head and the target of the latest edge out of its tail, if there are such edges |
| Duplication.PathExpanded | ufo/ufo-task-graph.c:357-411 | for any found path: with k the position behind its only node with several inputs (0 if there is none), what is expanded, n_gpus - 1 times, is the source of the earliest edge into node k, the nodes from k to the end, and the target of the latest edge out of the last |
| Duplication.NothingExpanded | ufo/ufo-task-graph.c:360-386 | nothing is expanded if nothing is left behind that node, or if two nodes of the path have several inputs |
| Duplication.PathInstances | ufo/ufo-task-graph.c:357-411 | after the expansion every node of the path from k on, except an end that no edge enters or leaves, has exactly one instance per GPU with the indices 0..n-1, and every other node of the graph is alone |
| Mapping.ProcNodes.MapProcNode | ufo/ufo-task-graph.c:434-465 | the recursion, which ends on every acyclic graph, computes the assignment of the recursive definition |
| Mapping.ProcNodes.MapTaskGraph | ufo/ufo-task-graph.c:535-549 | the assignment after visiting all roots with the first GPU |
| Mapping.MappingComplete | ufo/ufo-task-graph.c:434-465 | existing assignments are kept, new ones come from the list and only for tasks that want one, and with at least one GPU every such task of the graph has one |
| GpuWays.MappedAlongWay | ufo/ufo-task-graph.c:434-465 | every task that gets a GPU gets the one that a way from a root counts up to: from 0, a turn to successor number j advances by j, modulo the number of GPUs |
| FanMapping.VisitAgain | ufo/ufo-task-graph.c:446-453 | visiting a node below which everything is mapped changes nothing |
| FanMapping.BranchesGetGpus | ufo/ufo-task-graph.c:434-465 | in a pipeline expanded for at most as many branches as there are GPUs, all tasks of branch b get GPU n - 1 - b: one GPU per branch, different ones for different branches |
| Sending.SequentialBlocks | ufo/ufo-group.c:171-181 | with positive expected counts and any number of items target i is sent exactly the block of the stream that starts at e_0 + .. + e_(i-1) and then an end |
| Sending.SequentialSends | ufo/ufo-group.c:171-181 | with at most the sum of the counts, target i is sent its block, an end if the block is complete, and the end of the stream, and nothing else |
| Sending.NothingExpected | ufo/ufo-group.c:174-180 | a target that expects nothing, as it is without a call of `set_num_expected`, keeps all further items |
| Sending.BlocksMakeStream | ufo/ufo-group.c:171-181 | the blocks, in order, are the stream |
| Sending.BroadcastAll | ufo/ufo-group.c:156-170 | every target of a broadcast is sent the whole stream and one end |
| Sending.ScatterDeals | ufo/ufo-group.c:152-155 | target i of a scatter is sent the items i, i + n, i + 2n, ... and one end |
| Sending.DealtAre | ufo/ufo-group.c:152-155 | item j of what target i gets is item i + j n of the stream, and none is left out |
| Sending.FinishedStream | ufo/ufo-group.c:142-245 | from any state of the group: behind what a target was sent come all items of a broadcast, or every n-th from its turn on of a scatter, and then one end |
| Group.UfoTwoWayQueue.constructor | ufo/ufo-two-way-queue.c:43-59 | a queue with the given elements on its free side |
| Group.UfoTwoWayQueue.Insert | ufo/ufo-two-way-queue.c:124-130 | a buffer joins the free side, the list of inserted buffers and the capacity |
| Group.UfoTwoWayQueue.ProducerPop | ufo/ufo-two-way-queue.c:98-102 | the oldest free buffer goes to the producer; every inserted buffer stays in exactly one place |
| Group.UfoTwoWayQueue.ProducerPush | ufo/ufo-two-way-queue.c:104-108 | a buffer of the producer joins the full side |
| Group.UfoTwoWayQueue.ConsumerPop | ufo/ufo-two-way-queue.c:78-82 | the oldest full item goes to the consumer |
| Group.UfoTwoWayQueue.ConsumerPush | ufo/ufo-two-way-queue.c:84-88 | a buffer of the consumer goes back to the free side |
| Group.UfoGroup.constructor | ufo/ufo-group.c:65-89 | one empty queue for every target; a sink's group has none |
| Group.UfoGroup.PopOrAllocBuffer | ufo/ufo-group.c:98-117 | a buffer of that target's queue, fresh as long as the queue has fewer than n_targets + 1; no queue exceeds that, and no two share a buffer |
| Group.UfoGroup.PopOutputBuffer | ufo/ufo-group.c:127-140 | a buffer for the target that the next result goes to first |
| Group.UfoGroup.PushOutputBuffer | ufo/ufo-group.c:142-182 | one result is sent as the pattern says: the class refines the sender that the theorems about sending are about |
| Group.UfoGroup.SetNumExpected | ufo/ufo-group.c:184-196 | sets the expected count of one target |
| Group.UfoGroup.PopInputBuffer | ufo/ufo-group.c:206-219 | the next item of the target's queue, or nothing for a node that is no target |
| Group.UfoGroup.PushInputBuffer | ufo/ufo-group.c:221-234 | a buffer returns to the queue it came from |
| Group.UfoGroup.Finish | ufo/ufo-group.c:236-245 | what every target was sent before, and one end |
| Group.UfoGroup.NotShared | ufo/ufo-group.c:98-117 | no buffer is in the queues of two targets |
| QueueRefinement.Insert | ufo/ufo-group.c:105-109 | an object that is a queue of the runtime is, after a blank buffer was inserted, the queue after the growing step |
| QueueRefinement.ProducerPop | ufo/ufo-two-way-queue.c:98-102 | the object and the runtime wait together; the object hands over the buffer that the runtime hands over, and is the queue after that step |
| QueueRefinement.ProducerPush | ufo/ufo-two-way-queue.c:104-108 | after a push of a filled buffer the object is the queue after the runtime's push |
| QueueRefinement.ProducerPushEnd | ufo/ufo-group.c:236-245 | after a push of the end the object is the queue after the runtime's push of the end |
| QueueRefinement.ConsumerPop | ufo/ufo-two-way-queue.c:78-82 | the object and the runtime wait together; the object hands over the same buffer with the same content, or an end where the runtime does, and is the queue after that step |
| QueueRefinement.ConsumerPush | ufo/ufo-two-way-queue.c:84-88 | after a buffer was returned the object is the queue after the runtime's step |
| QueueRefinement.InsertRefines | ufo/ufo-group.c:105-109 | what inserting does to the two sides is the growing step of the runtime |
| QueueRefinement.FillRefines | ufo/ufo-scheduler.c:206-213 | filling the buffer that the producer holds changes nothing that waits in the queue |
| QueueRefinement.ProducerPushRefines | ufo/ufo-two-way-queue.c:104-108 | what a producer's push does to the two sides is the runtime's step |
| QueueRefinement.EndRefines | ufo/ufo-group.c:236-245 | what pushing the end does to the two sides is the runtime's step |
| QueueRefinement.ConsumerPopRefines | ufo/ufo-two-way-queue.c:78-82 | a consumer's pop is enabled exactly when the runtime's is, and hands over the same buffer with the same content |
| Reductor.RunReductor | ufo/ufo-scheduler.c:215-240 | every input is processed exactly once and in order and released, and every target is sent, behind what it got before, its share of the results and one end |
| Reductor.ProcessUntilPause | ufo/ufo-scheduler.c:219-229 | inputs are processed until the task pauses or the stream ends |
| Reductor.GenerateAll | ufo/ufo-scheduler.c:231-238 | pushed are exactly the answers of `generate`, called again and again until it has none; the state is that behind this last call |
| Reductor.ResultsAre | ufo/ufo-scheduler.c:231-238 | call number i of `generate` answers result number i, the call behind the last result answers FALSE, and the drained state is the one behind that call |
| Reductor.LoopComputes | ufo/ufo-scheduler.c:215-240 | the loop as a machine that makes one call of `process` or `generate` at a time takes every input, stops, and has pushed exactly what the recursive definition says |
| Reductor.NoPause | ufo/ufo-scheduler.c:215-240 | a reductor that never pauses sends the results of its state after the whole stream |
| Reductor.AlwaysPause | ufo/ufo-scheduler.c:215-240 | one that pauses after every input sends the results of every input in turn |
| Reductor.PauseSplits | ufo/ufo-scheduler.c:215-240 | a pause splits the stream and its results |
| Coherence.UfoBuffer.GetHostArray | ufo/ufo-buffer.c:925-947 | the host array with the contents of the buffer, which are then in host memory |
| Coherence.UfoBuffer.GetDeviceArray | ufo/ufo-buffer.c:998-1020 | the same for the device array |
| Coherence.UfoBuffer.GetDeviceImage | ufo/ufo-buffer.c:1193-1216 | the same for the device image |
| Coherence.UfoBuffer.UpdateLocation | ufo/ufo-buffer.c:128-134 | the old location is remembered |
| Coherence.CopyBuffer | ufo/ufo-buffer.c:647-687 | for all nine pairs of locations, for fresh buffers and for a copy to itself: both buffers have the same contents, and the destination keeps its location unless it has none |
| Coherence.Coherent | ufo/ufo-buffer.c:647-687 | under any sequence of accesses, writes and copies on any number of buffers, every buffer behaves like one logical array |
| Coherence.AccessReturns | ufo/ufo-buffer.c:925-1216 | every access returns the last contents written, at the place that was asked for |
| Coherence.LastWriteStays | ufo/ufo-buffer.c:925-1216 | what was written stays until the next write or copy to the buffer |
| Coherence.CopiesAreApart | ufo/ufo-buffer.c:647-687 | after a copy, later changes of the source do not show in the destination |
| Convert.Convert8U | ufo/ufo-buffer.c:1284-1289 | all bytes become floats, also in place |
| Convert.Convert12U | ufo/ufo-buffer.c:1290-1315 | all packed 12-bit values become floats, also in place, for even and odd counts, with 32-bit counters that do not overflow up to (2^31 - 1) / 3 pixels |
| Convert.Convert16U | ufo/ufo-buffer.c:1316-1321 | all unsigned 16-bit values become floats, also in place |
| Convert.Convert16S | ufo/ufo-buffer.c:1322-1327 | all signed 16-bit values become floats, also in place |
| Convert.Convert32S | ufo/ufo-buffer.c:1328-1333 | all signed 32-bit values become floats, also in place |
| Convert.Convert32U | ufo/ufo-buffer.c:1334-1339 | all unsigned 32-bit values become floats, also in place |
| Convert.ConvertData | ufo/ufo-buffer.c:1270-1340 | the result is the conversion of what the source held before the call, whether source and destination are one array or two; other depths change nothing |
| Convert.ConvertInPlace | ufo/ufo-buffer.c:1350-1361 | converting the host data where they are gives the floats of the old host data |
| Convert.ConvertFromData | ufo/ufo-buffer.c:1374-1388 | the host array, which is made if there is none, holds the conversion of the raw data, which stay as they are unless they are that array |
| Convert.PixelHolds | ufo/ufo-buffer.c:1284-1339 | for 8, 16 and 32 bits, with and without sign, and every value v of the type: the pixel is v exactly if its bytes, wherever they lie in the data, are v / 256^k mod 256, in two's complement for negative values |
| Convert.PixelsAreBytes | ufo/ufo-buffer.c:1284-1339 | every pixel is a value of its type, and the bytes of the data are those of the pixels |
| Convert.ConvertsValues | ufo/ufo-buffer.c:1270-1340 | data that hold the bytes of values are converted to the floats of these values, in order |
| Convert.UnpackingInvertsPacking | ufo/ufo-buffer.c:1290-1315 | reading packed 12-bit values gives back every value, for even and odd counts |
| Convert.PackingInvertsUnpacking | ufo/ufo-buffer.c:1290-1315 | packing the values that were read gives back the bytes |
| Tokenizer.TokenizeArgs | bin/ufo-launch.c:102-163 | the loop computes the tokens of the recursive definition |
| Tokenizer.TokensAreText | bin/ufo-launch.c:102-163 | for every text the tokens concatenate to the text minus its quotes, no two strings are adjacent, no string is empty, and there is one stop, at the end |
| Tokenizer.SymbolIsToken | bin/ufo-launch.c:110-141 | every one of the six symbols outside quotes, wherever it stands in a text, is a token of its own, of its kind |
| Launch.Environment.ConsumeSpaces | bin/ufo-launch.c:225-230 | all spaces are skipped |
| Launch.Environment.ConsumeMaybe | bin/ufo-launch.c:232-246 | a token of the given kind is consumed; otherwise only spaces are |
| Launch.Environment.TryConsumeAssignment | bin/ufo-launch.c:250-314 | succeeds exactly on key, equal sign and value, and then sets the property; a failure sets nothing |
| Launch.Environment.TryConsumeTask | bin/ufo-launch.c:316-348 | reads a known task with all its properties and backtracks behind the last one; an unknown task is an error |
| Launch.Environment.ReadConnection | bin/ufo-launch.c:396-450 | reads one chain and connects its tasks in order, at the default port |
| Launch.Environment.Parse | bin/ufo-launch.c:452-479 | reads chains until there is none or a task is unknown |
| RoundTrip.LexChain | bin/ufo-launch.c:102-163 | tokenizing a printed chain gives the tokens of the chain |
| RoundTrip.LexChains | bin/ufo-launch.c:102-163 | the same for several chains, one behind the other |
| RoundTrip.ParseChain | bin/ufo-launch.c:396-450 | a chain of known tasks is read, whatever follows it that is no property |
| RoundTrip.DanglingMark | bin/ufo-launch.c:416-422 | an exclamation mark with another symbol behind it ends the chain, the symbol is dropped, and there is no error |
| RoundTrip.ChainRoundTrip | bin/ufo-launch.c:102-479 | printing, tokenizing and parsing any bracket-free chain of known tasks with quote-free words rebuilds exactly that chain |
| RoundTrip.ChainsRoundTrip | bin/ufo-launch.c:102-479 | several chains, printed one behind the other, are read as exactly these chains, with no connection between them |
| RoundTrip.RefusedIffUnknown | bin/ufo-launch.c:326-329 | a printed chain is refused exactly if one of its tasks is unknown |
| RoundTrip.UnknownTask | bin/ufo-launch.c:326-479 | then exactly the tasks before the first unknown one were read and connected, and the parser stands behind its name |
| RoundTrip.PrintedIsStopped | bin/ufo-launch.c:155-163 | the tokens of printed chains meet what the parser expects of them |
| RoundTrip.LinksAre | bin/ufo-launch.c:422-424 | a chain of n tasks has n - 1 connections, between neighbours, with label 0 |
| RoundTrip.LinksMakeChain | ufo/ufo-task-graph.c:560-566 | connecting the tasks in turn gives the graph with all tasks as nodes, in order, and one edge between neighbours |

## Left out

- OpenCL, GObject reference counts, signals, profiling, tracing and metadata. A transfer between two places of a buffer is an exact copy of its contents; `process` and `generate` are arbitrary functions of their inputs.
- The plugin manager, the resources and the JSON layer: whether a task name is known is a parameter of the parser.
- Abort, errors, and a `process` that answers FALSE in a task that is no reductor: such a thread exits without releasing its inputs (ufo/ufo-scheduler.c:264-269), so liveness is claimed for runs without them only.
- What a task computes when its inputs end at different times: `release_inputs` then returns the last buffer of the finished input again (ufo/ufo-scheduler.c:139-152). `Balanced` makes all inputs of a task end together; `Flow` counts iterations also where they do not.
- Buffers of different sizes: `ufo_buffer_cmp_dimensions` adds up signed differences (ufo/ufo-buffer.c:822-840), so equal sums pass for equal sizes. All buffers have the same requisition here, and resizing does not occur.
- `ufo_buffer_resize`, `ufo_buffer_discard_location`, `ufo_buffer_set_host_array` and `ufo_buffer_set_device_array`: they let the location and the arrays fall out of step.
- Several edges between the same two nodes: `find_edge` sees the first one only (ufo/ufo-graph.c:764-778). The graph class models this as it is; setup and everything that runs assumes at most one edge per pair.
- `ufo_graph_remove_edge`: it drops both endpoints even if other edges use them.
- `reduce_loop` of the fixed scheduler and `check_target_connections`, which read or write positions that are never set.
- Generators with several successors under the fixed scheduler: `generate_loop` deals items out to them instead of giving all of them the same stream, so the theorems ask for one successor.
- Reductors, several results per input, and sequential sending inside the concurrent runtime. `Reductor` and `Sending` treat them for one thread. That the methods of the queue class do what the steps of the runtime do is proved operation by operation in `QueueRefinement`.
- Preserves.ExpansionPreservesMeaning: asks for the condition that `Faithfulness.FaithfulIffForkFree` proves necessary, that the head scatters and the nodes before the tail have one successor.
- Faithfulness.FaithfulIffForkFree: asks, as `PipelineExpansion.TaskExpansionPreserves` does, that every port of the graph reads one edge and that a task that scatters has one target before the expansion. Where tasks scatter already, the rates of the graph are not uniform.
- UfoGraph.UfoGraph.Branch: copying a node is assumed to succeed; the original returns early when it fails.
- UfoGraph.UfoGraph.Expand: the same.
- TaskGraph.ExpandForGpus: the same; the original stops at the first expansion that fails.
- GroupSetup.AddGroup: the expected counts that setup copies from the task nodes to the groups, which only sequential sending reads, are not part of it.
- GroupSetup.SetupGroups: the same.
- Group.UfoTwoWayQueue.ProducerPop: that the free side is not empty is a precondition, because the original waits.
- Group.UfoTwoWayQueue.ConsumerPop: the same for the full side.
- Group.UfoGroup.PopOrAllocBuffer: that a full pool has a free buffer is a precondition, because the original waits.
- Group.UfoGroup.PopOutputBuffer: the same. A group without targets, which only sinks have, gives no buffer.
- Group.UfoGroup.PushOutputBuffer: that the pops from the queues of the other targets of a broadcast do not wait is a precondition.
- Group.UfoGroup.PopInputBuffer: that the queue is not empty is a precondition, because the original waits; `Runs.NoDeadlock` is about the waiting.
- Group.UfoGroup.SetNumExpected: a node that is no target has position -1 in the original and is excluded.
- Reductor.RunReductor: the pop of the next output buffer after every push is not part of it, and `generate` is assumed to answer FALSE in the end.
- Reductor.GenerateAll: the same pop is left out.
- Coherence.CopyBuffer: source and destination have the same requisition; the original resizes a destination that differs.
- PathSearch.FindLongestPath: the order in which the hash table gives the candidates is not known; the contract holds for every order.
- TaskGraph.ExpandTaskGraph: copying a task is assumed to succeed; acyclicity is certified by ghost parameters, which no caller has to compute.
- Convert.ConvertData: multi-byte pixels are little-endian, and the float of an integer is a parameter, four bytes long; rounding of large 32-bit values is not modelled.
- Launch.Environment.Parse: bracketed inputs and array-valued properties are left out, because `read_params` does not always advance and the array loop consumes the token behind the last value (bin/ufo-launch.c:281-298 and 350-394). Setting a property records its text; the conversion to the property's type, and the warning about unknown properties, are not modelled.
- Launch.Environment.TryConsumeAssignment: arrays as values, and the conversion of the text to the type of the property.
- Launch.Environment.TryConsumeTask: arrays as values of properties.
- Launch.Environment.ReadConnection: bracketed inputs.
- RoundTrip.LinksMakeChain: starts at two tasks, because a description with one task makes no connection and so a graph without nodes.
- Positions of tokens in the text, which are used for messages only.
- The local and the group scheduler, the MATLAB and Python bindings, and the basic operations on buffers.
