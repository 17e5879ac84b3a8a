/** Counting in an expanded graph whose path should not have been expanded: a sink gets more items than
    it should, or fewer. */
module Imbalance {
  import opened G = Graph
  import opened Expand
  import opened Setup
  import opened Fan
  import opened Branches
  import N = Network
  import P = Progression
  import F = Flow
  import R = Runtime
  import Runs

  /** The state `s` is one in which all threads of the graph have finished. */
  ghost predicate Ended<V>(h: Topology, job: Job<V>, s: R.State<V>, clean: bool) {
    && GraphOk(h, job) && N.WellFormed(NetOf(h, job))
    && F.FlowInv(NetOf(h, job), s, clean) && R.AllDone(NetOf(h, job), s)
  }

  /** The number of iterations that the task of node `v` has gone through. */
  function Iterations<V>(h: Topology, s: R.State<V>, v: nat): nat {
    var i := Pos(h.nodes, v);
    if i < |s.threads| then s.threads[i].k else 0
  }

  /** Every item of the task goes to all its targets. */
  predicate ToAll<V>(h: Topology, job: Job<V>, v: nat) {
    job.task(v).send.Scatter? ==> |Outs(h, v)| <= 1
  }

  lemma Counted(k: nat, n: nat)
    requires P.Counts(0, 1, k, n)
    ensures k == n
  {
    P.Closed(0, 1, n);
    if n > 0 {
      P.Closed(0, 1, n - 1);
    }
  }

  /** How edge `j` counts the iterations of its source. */
  lemma MadeCounts<V>(h: Topology, job: Job<V>, s: R.State<V>, clean: bool, j: nat)
    requires Ended(h, job, s, clean) && j < |h.edges| && j < |s.queues|
    ensures var v, k := h.edges[j].source, Iterations(h, s, h.edges[j].source);
            && Pos(Outs(h, v), j) < |Outs(h, v)|
            && if job.task(v).send.Scatter? then P.Counts(Pos(Outs(h, v), j), |Outs(h, v)|, k, s.queues[j].made)
               else P.Counts(0, 1, k, s.queues[j].made)
  {
    EdgePlaced(h, job, j);
    F.AllMade(NetOf(h, job), s, clean, j);
  }

  lemma MadeAll<V>(h: Topology, job: Job<V>, s: R.State<V>, clean: bool, j: nat)
    requires Ended(h, job, s, clean) && j < |h.edges| && j < |s.queues| && ToAll(h, job, h.edges[j].source)
    ensures s.queues[j].made == Iterations(h, s, h.edges[j].source)
  {
    MadeCounts(h, job, s, clean, j);
    Counted(Iterations(h, s, h.edges[j].source), s.queues[j].made);
  }

  /** Some edge into the port has been used up. */
  lemma UsedBy<V>(h: Topology, job: Job<V>, s: R.State<V>, clean: bool, v: nat, p: nat) returns (j: nat)
    requires Ended(h, job, s, clean) && v in h.nodes && p < job.task(v).inputs
    ensures j < |h.edges| && j < |s.queues| && h.edges[j].target == v && h.edges[j].lab == p && j in Ins(h, v, p)
    ensures P.At(Pos(Ins(h, v, p), j), |Ins(h, v, p)|, s.queues[j].made) <= Iterations(h, s, v)
    ensures clean ==> P.At(Pos(Ins(h, v, p), j), |Ins(h, v, p)|, s.queues[j].made) == Iterations(h, s, v)
  {
    var i := Pos(h.nodes, v);
    j := F.PortUsed(NetOf(h, job), s, clean, i, p);
    EdgePlaced(h, job, j);
    PosUnique(h.nodes, NetOf(h, job).edges[j].dst);
    InsHas(h, v, p, j);
  }

  /** An edge that has a port for itself hands over all its items. */
  lemma UsedAll<V>(h: Topology, job: Job<V>, s: R.State<V>, clean: bool, j: nat)
    requires Ended(h, job, s, clean) && j < |h.edges| && j < |s.queues|
    requires |Ins(h, h.edges[j].target, h.edges[j].lab)| == 1
    ensures s.queues[j].made <= Iterations(h, s, h.edges[j].target)
    ensures clean ==> s.queues[j].made == Iterations(h, s, h.edges[j].target)
  {
    var v, p := h.edges[j].target, h.edges[j].lab;
    InsHas(h, v, p, j);
    var i := UsedBy(h, job, s, clean, v, p);
    assert Ins(h, v, p) == [j];
    P.Closed(0, 1, s.queues[j].made);
  }

  /** An item passes along the edge for every iteration of its source. */
  lemma Passes<V>(h: Topology, job: Job<V>, s: R.State<V>, clean: bool, j: nat)
    requires Ended(h, job, s, clean) && j < |h.edges| && ToAll(h, job, h.edges[j].source)
    requires |Ins(h, h.edges[j].target, h.edges[j].lab)| == 1
    ensures Iterations(h, s, h.edges[j].source) <= Iterations(h, s, h.edges[j].target)
    ensures clean ==> Iterations(h, s, h.edges[j].source) == Iterations(h, s, h.edges[j].target)
  {
    assert j < |s.queues|;
    MadeAll(h, job, s, clean, j);
    UsedAll(h, job, s, clean, j);
  }

  lemma GeneratorEnds<V>(h: Topology, job: Job<V>, s: R.State<V>, clean: bool, v: nat, items: nat)
    requires Ended(h, job, s, clean) && v in h.nodes && Steady(h, job, items) && job.task(v).kind.Generator?
    ensures Iterations(h, s, v) == items
  {
    F.DoneThread(NetOf(h, job), s, clean, Pos(h.nodes, v));
  }

  lemma SinkEnds<V>(h: Topology, job: Job<V>, s: R.State<V>, clean: bool, v: nat)
    requires Ended(h, job, s, clean) && v in h.nodes && job.task(v).kind.Sink?
    ensures Pos(h.nodes, v) < |s.threads| && Iterations(h, s, v) == |s.threads[Pos(h.nodes, v)].log|
  {
    F.DoneThread(NetOf(h, job), s, clean, Pos(h.nodes, v));
  }

  // When no task deals out its items, no task has fewer iterations than the streams have items.

  ghost predicate AllToAll<V>(h: Topology, job: Job<V>) {
    forall v {:trigger ToAll(h, job, v)} :: v in h.nodes ==> ToAll(h, job, v)
  }

  lemma {:induction false} AtLeast<V>(h: Topology, job: Job<V>, s: R.State<V>, items: nat, v: nat)
    requires Ended(h, job, s, false) && AllToAll(h, job) && Steady(h, job, items) && v in h.nodes
    ensures Iterations(h, s, v) >= items
    decreases job.rank(v)
  {
    TaskAt(h, job, v);
    if job.task(v).kind.Generator? {
      GeneratorEnds(h, job, s, false, v, items);
    } else {
      var j := UsedBy(h, job, s, false, v, 0);
      var u := h.edges[j].source;
      assert job.rank(u) < job.rank(v);
      AtLeast(h, job, s, items, u);
      assert ToAll(h, job, u);
      MadeAll(h, job, s, false, j);
      Runs.Dense(Pos(Ins(h, v, 0), j), |Ins(h, v, 0)|, s.queues[j].made);
    }
  }

  lemma {:induction false} Sparse(off: nat, step: nat, m: nat)
    requires step >= 2
    ensures P.At(off, step, m) >= m + m
  {
    if m > 0 {
      Sparse(off, step, m - 1);
    }
  }

  /** A port that cycles through several complete streams takes too many items. */
  lemma TooMany<V>(h: Topology, job: Job<V>, s: R.State<V>, items: nat, v: nat, p: nat)
    requires Ended(h, job, s, false) && AllToAll(h, job) && Steady(h, job, items)
    requires v in h.nodes && p < job.task(v).inputs && |Ins(h, v, p)| >= 2 && items >= 1
    ensures Iterations(h, s, v) > items
  {
    var j := UsedBy(h, job, s, false, v, p);
    var u := h.edges[j].source;
    AtLeast(h, job, s, items, u);
    assert ToAll(h, job, u);
    MadeAll(h, job, s, false, j);
    Sparse(Pos(Ins(h, v, p), j), |Ins(h, v, p)|, s.queues[j].made);
  }

  // From a node with a wrong number of iterations to a sink.

  lemma {:induction false} Highest(s: set<nat>, rank: nat -> nat) returns (v: nat)
    requires s != {}
    ensures v in s && forall u :: u in s ==> rank(u) <= rank(v)
  {
    v :| v in s;
    if s != {v} {
      var u := Highest(s - {v}, rank);
      if rank(u) > rank(v) {
        v := u;
      }
    }
  }

  /** The original graph inside the expanded one: nodes other than the head keep their targets, ports
      other than the one where the branches meet their sources, all nodes their tasks. */
  ghost predicate Inside<V>(g: Topology, job: Job<V>, path: seq<nat>, h: Topology, job': Job<V>) {
    && |path| >= 3 && GraphOk(g, job) && UnitGraph(g, job)
    && FanBase(g, h) && KeepsOuts(g, path, h) && KeepsIns(g, path, h)
    && forall v :: v in g.nodes ==> SameTask(job, job', v, v)
  }

  lemma FirstOut<V>(g: Topology, job: Job<V>, v: nat) returns (j: nat)
    requires GraphOk(g, job) && v in g.nodes && !job.task(v).kind.Sink?
    ensures j < |g.edges| && g.edges[j].source == v
  {
    TaskAt(g, job, v);
    j := Outs(g, v)[0];
    OutIdxHas(g.edges, v, |g.edges|, j);
  }

  /** An edge of the original graph that no expansion has touched. */
  lemma Untouched<V>(g: Topology, job: Job<V>, path: seq<nat>, h: Topology, job': Job<V>, j: nat)
    requires Inside(g, job, path, h, job') && j < |g.edges| && g.edges[j].source != path[0]
    requires !Meeting(g, path, g.edges[j].target, g.edges[j].lab)
    ensures j < |h.edges| && h.edges[j] == g.edges[j] && ToAll(h, job', g.edges[j].source)
    ensures |Ins(h, g.edges[j].target, g.edges[j].lab)| == 1
  {
    var v, t, p := g.edges[j].source, g.edges[j].target, g.edges[j].lab;
    assert h.edges[j] == h.edges[..|g.edges|][j];
    assert OutsKept(g, h, v) && InsKept(g, h, t, p) && SameTask(job, job', v, v);
    TaskAt(g, job, t);
  }

  /** The items of a node flow on along such an edge. */
  lemma FlowsOn<V>(g: Topology, job: Job<V>, path: seq<nat>, h: Topology, job': Job<V>, s: R.State<V>, clean: bool, j: nat)
    requires Inside(g, job, path, h, job') && Ended(h, job', s, clean) && j < |g.edges| && g.edges[j].source != path[0]
    requires !Meeting(g, path, g.edges[j].target, g.edges[j].lab)
    ensures Iterations(h, s, g.edges[j].source) <= Iterations(h, s, g.edges[j].target)
    ensures clean ==> Iterations(h, s, g.edges[j].source) == Iterations(h, s, g.edges[j].target)
  {
    Untouched(g, job, path, h, job', j);
    Passes(h, job', s, clean, j);
  }

  /** Too many items at the tail reach a sink. */
  lemma ExcessReaches<V>(g: Topology, job: Job<V>, path: seq<nat>, h: Topology, job': Job<V>, s: R.State<V>, items: nat)
    returns (v: nat)
    requires Inside(g, job, path, h, job') && Ended(h, job', s, false)
    requires path[|path| - 1] in g.nodes && job.rank(path[0]) < job.rank(path[|path| - 1])
    requires Iterations(h, s, path[|path| - 1]) > items
    ensures v in g.nodes && job.task(v).kind.Sink? && Iterations(h, s, v) > items
  {
    var tail := path[|path| - 1];
    var over := set u | u in g.nodes && Iterations(h, s, u) > items && job.rank(u) >= job.rank(tail);
    assert tail in over;
    v := Highest(over, job.rank);
    if !job.task(v).kind.Sink? {
      var j := FirstOut(g, job, v);
      assert g.edges[j].target !in over;
      FlowsOn(g, job, path, h, job', s, false, j);
    }
  }

  // When the head deals out its items and an inner node has another successor, too few reach it.

  /** Up to the head every task has as many iterations as the streams have items. */
  lemma {:induction false} Exactly<V>(g: Topology, job: Job<V>, path: seq<nat>, h: Topology, job': Job<V>, s: R.State<V>,
                                      items: nat, v: nat)
    requires Inside(g, job, path, h, job') && Ended(h, job', s, true) && Steady(g, job, items)
    requires v in g.nodes && job.rank(v) <= job.rank(path[0]) < job.rank(path[|path| - 1])
    ensures Iterations(h, s, v) == items
    decreases job.rank(v)
  {
    TaskAt(g, job, v);
    if job.task(v).kind.Generator? {
      GeneratorInside(g, job, path, h, job', s, items, v);
    } else {
      assert Fed(g, v, 0);
      var j :| 0 <= j < |g.edges| && g.edges[j].target == v && g.edges[j].lab == 0;
      assert job.rank(g.edges[j].source) < job.rank(v);
      Exactly(g, job, path, h, job', s, items, g.edges[j].source);
      FlowsOn(g, job, path, h, job', s, true, j);
    }
  }

  lemma GeneratorInside<V>(g: Topology, job: Job<V>, path: seq<nat>, h: Topology, job': Job<V>, s: R.State<V>, items: nat, v: nat)
    requires Inside(g, job, path, h, job') && Ended(h, job', s, true) && Steady(g, job, items)
    requires v in g.nodes && job.task(v).kind.Generator?
    ensures Iterations(h, s, v) == items
  {
    BaseInside(g, h, v);
    assert SameTask(job, job', v, v);
    var i :| 0 <= i < |g.nodes| && g.nodes[i] == v;
    F.DoneThread(NetOf(h, job'), s, true, Pos(h.nodes, v));
  }

  lemma {:induction false} Behind(n: nat, m: nat)
    requires n >= 1
    ensures P.At(n, n + 1, m) >= m + 1
  {
    if m > 0 {
      Behind(n, m - 1);
    }
  }

  lemma LastTurns(n: nat, k: nat, made: nat)
    requires P.Counts(n, n + 1, k, made) && n >= 1 && k >= 1
    ensures made < k
  {
    if made > 0 {
      Behind(n, made - 1);
    }
  }

  /** The branch that is served last gets fewer items than the head has. */
  lemma ServedLast<V>(h: Topology, job: Job<V>, s: R.State<V>, j: nat, n: nat)
    requires Ended(h, job, s, true) && j < |h.edges| && job.task(h.edges[j].source).send.Scatter?
    requires |Outs(h, h.edges[j].source)| == n + 1 && Outs(h, h.edges[j].source)[n] == j && n >= 1
    requires Iterations(h, s, h.edges[j].source) >= 1 && |Ins(h, h.edges[j].target, h.edges[j].lab)| == 1
    ensures Iterations(h, s, h.edges[j].target) < Iterations(h, s, h.edges[j].source)
  {
    assert j < |s.queues|;
    var v := h.edges[j].source;
    MadeCounts(h, job, s, true, j);
    OutsDistinct(h.edges, v, |h.edges|);
    PosUnique(Outs(h, v), n);
    LastTurns(n, Iterations(h, s, v), s.queues[j].made);
    UsedAll(h, job, s, true, j);
  }

  /** Nodes behind the head that are not inner nodes of the path. */
  ghost predicate Aside<V>(job: Job<V>, path: seq<nat>, v: nat)
    requires |path| >= 3
  {
    job.rank(v) > job.rank(path[0]) && forall k :: 0 < k < |path| - 1 ==> v != path[k]
  }

  /** The inner nodes have one input, from their predecessor on the path, and so has the port where the
      branches meet. */
  ghost predicate Sealed(g: Topology, path: seq<nat>) {
    && |path| >= 3
    && forall j, k {:trigger g.edges[j], path[k]} :: 0 <= j < |g.edges| && 0 < k < |path| ==>
         g.edges[j].target == path[k] && (k == |path| - 1 ==> g.edges[j].lab == MeetingPort(g, path)) ==>
           g.edges[j].source == path[k - 1]
  }

  /** An edge from a node aside leads to a node aside, and not to where the branches meet. */
  lemma StaysAside<V>(g: Topology, job: Job<V>, path: seq<nat>, j: nat)
    requires Sealed(g, path) && Ranked(g.edges, job.rank) && j < |g.edges| && Aside(job, path, g.edges[j].source)
    ensures Aside(job, path, g.edges[j].target) && !Meeting(g, path, g.edges[j].target, g.edges[j].lab)
  {
    var v, t := g.edges[j].source, g.edges[j].target;
    forall k | 0 < k < |path| - 1
      ensures t != path[k]
    {
      assert v != path[k - 1];
    }
    assert v != path[|path| - 2];
  }

  /** Too few items at a node aside reach a sink. */
  lemma LackReaches<V>(g: Topology, job: Job<V>, path: seq<nat>, h: Topology, job': Job<V>, s: R.State<V>, items: nat, w: nat)
    returns (v: nat)
    requires Inside(g, job, path, h, job') && Ended(h, job', s, true) && Sealed(g, path)
    requires w in g.nodes && Aside(job, path, w) && Iterations(h, s, w) < items
    ensures v in g.nodes && job.task(v).kind.Sink? && Iterations(h, s, v) < items
  {
    var under := set u | u in g.nodes && Iterations(h, s, u) < items && Aside(job, path, u);
    assert w in under;
    v := Highest(under, job.rank);
    if !job.task(v).kind.Sink? {
      var j := FirstOut(g, job, v);
      assert g.edges[j].target !in under;
      StaysAside(g, job, path, j);
      FlowsOn(g, job, path, h, job', s, true, j);
    }
  }

  lemma AlongEdge<V>(g: Topology, job: Job<V>, path: seq<nat>, h: Topology, job': Job<V>, s: R.State<V>, k: nat)
    requires Inside(g, job, path, h, job') && Ended(h, job', s, true)
    requires IsPath(g.edges, path) && 1 < k < |path| - 1
    ensures Iterations(h, s, path[k]) == Iterations(h, s, path[k - 1])
  {
    assert Linked(g.edges, path, k);
    var j :| 0 <= j < |g.edges| && g.edges[j].source == path[k - 1] && g.edges[j].target == path[k];
    RankGrows(g.edges, job.rank, path, 0, k - 1);
    RankGrows(g.edges, job.rank, path, k, |path| - 1);
    FlowsOn(g, job, path, h, job', s, true, j);
  }

  /** The inner nodes up to one all have as many iterations as the first. */
  lemma {:induction false} AlongPath<V>(g: Topology, job: Job<V>, path: seq<nat>, h: Topology, job': Job<V>,
                                        s: R.State<V>, k: nat)
    requires Inside(g, job, path, h, job') && Ended(h, job', s, true)
    requires IsPath(g.edges, path) && 0 < k < |path| - 1
    ensures Iterations(h, s, path[k]) == Iterations(h, s, path[1])
  {
    if k > 1 {
      AlongPath(g, job, path, h, job', s, k - 1);
      AlongEdge(g, job, path, h, job', s, k);
    }
  }
}
