/** The two ways in which an expansion does harm, each at its smallest graph. */
module Unfaithful {
  import opened G = Graph
  import opened Expand
  import opened Setup
  import opened Fan
  import opened Preserves
  import opened Branches
  import opened Faithfulness
  import N = Network

  /** One generator of `items` items, one stage, and sinks from node 2 on; `head` and `inner` say how 0 and 1
      send. */
  function StageTask<V>(item: nat -> V, items: nat, fn: seq<V> -> V, head: N.Discipline, inner: N.Discipline, v: nat): Task<V> {
    if v == 0 then Task(N.Generator(item, items), 0, head)
    else if v == 1 then Task(N.Processor(fn), 1, inner)
    else Task(N.Sink, 1, N.Scatter)
  }

  function Stages<V>(item: nat -> V, items: nat, fn: seq<V> -> V, zero: V, head: N.Discipline, inner: N.Discipline): Job<V> {
    Job((v: nat) => StageTask(item, items, fn, head, inner, v), (v: nat) => v, zero)
  }

  /** The only edge into a port. */
  lemma OnlyIn(g: Topology, v: nat, p: nat, e: nat)
    requires Closed(g) && Simple(g.edges) && e < |g.edges|
    requires forall d :: 0 <= d < |g.edges| ==> (g.edges[d].target == v && g.edges[d].lab == p <==> d == e)
    ensures Ins(g, v, p) == [e] && Fed(g, v, p)
  {
    InIdxDistinct(g, v, p, |g.nodes|);
    forall d: nat
      ensures d in Ins(g, v, p) <==> d == e
    {
      InsHas(g, v, p, d);
    }
    OnlyMember(Ins(g, v, p), e);
    assert g.edges[e].target == v && g.edges[e].lab == p;
  }

  /** The first two edges of both graphs below are those of the path 0 -> 1 -> 2. */
  const PATH: seq<nat> := [0, 1, 2]

  ghost predicate StartsAsPath(g: Topology) {
    && |g.edges| >= 2 && g.edges[0] == Edge(0, 1, 0) && g.edges[1] == Edge(1, 2, 0)
    && (forall v :: 0 <= v < |g.nodes| ==> g.nodes[v] == v) && |g.nodes| == |g.edges| + 1
    && forall j :: 1 < j < |g.edges| ==> g.edges[j] == Edge(1, j + 1, 0)
  }

  lemma {:induction false} OnePredecessor(edges: seq<Edge>, n: nat)
    requires 0 < n <= |edges| && edges[0].target == 1 && forall j :: 0 < j < |edges| ==> edges[j].target != 1
    ensures |Predecessors(edges[..n], 1)| == 1
  {
    assert edges[..n] == edges[..n - 1] + [edges[n - 1]];
    PredecessorsAppend(edges[..n - 1], edges[n - 1], 1);
    if n > 1 {
      OnePredecessor(edges, n - 1);
    }
  }

  lemma PathDuplicable(g: Topology)
    requires StartsAsPath(g)
    ensures Duplicable(g, PATH)
  {
    forall i | 0 < i < |PATH|
      ensures Linked(g.edges, PATH, i)
    {
      assert g.edges[i - 1].source == PATH[i - 1] && g.edges[i - 1].target == PATH[i];
    }
    OnePredecessor(g.edges, |g.edges|);
    assert g.edges[..|g.edges|] == g.edges;
    assert g.nodes[0] == 0 && g.nodes[1] == 1 && g.nodes[2] == 2;
  }

  lemma PathClosed(g: Topology)
    requires StartsAsPath(g)
    ensures Closed(g) && Simple(g.edges) && Ranked(g.edges, (v: nat) => v)
  {
    assert g.nodes[0] == 0 && g.nodes[1] == 1;
    forall j | 0 <= j < |g.edges|
      ensures g.edges[j].source in g.nodes && g.edges[j].target in g.nodes
    {
      assert g.nodes[j + 1] == j + 1;
    }
  }

  /** Node `v > 0` is fed by edge `v - 1`. */
  lemma PathIns(g: Topology, v: nat)
    requires StartsAsPath(g) && 0 < v < |g.nodes|
    ensures Ins(g, v, 0) == [v - 1] && Fed(g, v, 0)
  {
    PathClosed(g);
    OnlyIn(g, v, 0, v - 1);
  }

  /** How many targets the nodes have. */
  ghost predicate Sends(g: Topology, inner: nat) {
    forall v :: 0 <= v < |g.nodes| ==> |Outs(g, v)| == if v == 0 then 1 else if v == 1 then inner else 0
  }

  lemma PathTask<V>(g: Topology, job: Job<V>, item: nat -> V, items: nat, fn: seq<V> -> V, zero: V, head: N.Discipline,
                    inner: N.Discipline, i: nat)
    requires StartsAsPath(g) && Sends(g, |g.edges| - 1) && job == Stages(item, items, fn, zero, head, inner)
    requires !head.EachQueue? && i < |g.nodes|
    ensures TaskOk(g, job, g.nodes[i])
  {
    if i > 0 {
      PathIns(g, i);
    }
  }

  lemma PathGraphOk<V>(g: Topology, job: Job<V>, item: nat -> V, items: nat, fn: seq<V> -> V, zero: V,
                       head: N.Discipline, inner: N.Discipline)
    requires StartsAsPath(g) && Sends(g, |g.edges| - 1) && job == Stages(item, items, fn, zero, head, inner)
    requires !head.EachQueue? && !inner.EachQueue? && (inner.Scatter? ==> |g.edges| == 2)
    ensures GraphOk(g, job) && UnitGraph(g, job)
  {
    PathClosed(g);
    forall i | 0 <= i < |g.nodes|
      ensures TaskOk(g, job, g.nodes[i])
    {
      PathTask(g, job, item, items, fn, zero, head, inner, i);
    }
    forall v, p | v in g.nodes && 0 <= p < job.task(v).inputs
      ensures |Ins(g, v, p)| == 1
    {
      PathIns(g, v);
    }
  }

  lemma PathCandidate<V>(g: Topology, job: Job<V>, item: nat -> V, items: nat, fn: seq<V> -> V, zero: V,
                         head: N.Discipline, inner: N.Discipline)
    requires StartsAsPath(g) && Sends(g, |g.edges| - 1) && job == Stages(item, items, fn, zero, head, inner)
    requires !head.EachQueue? && !inner.EachQueue? && (inner.Scatter? ==> |g.edges| == 2)
    ensures Candidate(g, job, PATH) && SingleInputs(g, job) && Steady(g, job, items)
  {
    PathDuplicable(g);
    PathGraphOk(g, job, item, items, fn, zero, head, inner);
  }

  lemma Harm<V(!new)>(g: Topology, job: Job<V>, first: nat, n: nat, items: nat, x: Growth)
    requires Candidate(g, job, PATH) && SingleInputs(g, job) && Steady(g, job, items) && Below(g, first) && !ForkFree(g, job, PATH)
    requires x == ExpandTimes(g, first, PATH, n) && n >= 1 && items >= 1
    ensures !Delivers(x.graph, CopyJob(job, first, x.made), g, job, items)
  {
    var y := DeliversIffForkFree(g, job, PATH, first, n, items);
  }

  /** Expansions of such a graph do harm if the head broadcasts or the inner node forks. */
  lemma PathHarm<V(!new)>(g: Topology, job: Job<V>, item: nat -> V, items: nat, fn: seq<V> -> V, zero: V, head: N.Discipline,
                          inner: N.Discipline, first: nat, n: nat, x: Growth)
    requires StartsAsPath(g) && Sends(g, |g.edges| - 1) && job == Stages(item, items, fn, zero, head, inner)
    requires !head.EachQueue? && !inner.EachQueue? && (inner.Scatter? ==> |g.edges| == 2)
    requires head.Broadcast? || |g.edges| >= 3
    requires Below(g, first) && x == ExpandTimes(g, first, PATH, n) && n >= 1 && items >= 1
    ensures !Delivers(x.graph, CopyJob(job, first, x.made), g, job, items)
  {
    PathCandidate(g, job, item, items, fn, zero, head, inner);
    assert !ForkFree(g, job, PATH) by {
      assert ForkFree(g, job, PATH) ==> OneOut(g, PATH[1]);
    }
    Harm(g, job, first, n, items, x);
  }

  // A generator that broadcasts, one inner stage, one sink: 0 -> 1 -> 2.

  const LINE := Topology([0, 1, 2], [Edge(0, 1, 0), Edge(1, 2, 0)])

  lemma LineSends()
    ensures StartsAsPath(LINE) && Sends(LINE, 1)
  {
    var es := LINE.edges;
    assert OutIdx(es, 0, 1) == [0] && OutIdx(es, 1, 1) == [] && OutIdx(es, 2, 1) == [];
  }

  /** One expansion of a generator that broadcasts one item through one stage to a sink: the item
      reaches the sink over both branches. */
  lemma BroadcastingGenerator<V(!new)>(item: nat -> V, fn: seq<V> -> V, zero: V, g: Topology, first: nat, x: Growth)
    requires g == LINE && first >= 3 && x == ExpandTimes(g, first, PATH, 1)
    ensures !Delivers(x.graph, CopyJob(Stages(item, 1, fn, zero, N.Broadcast, N.Scatter), first, x.made),
                      g, Stages(item, 1, fn, zero, N.Broadcast, N.Scatter), 1)
  {
    LineSends();
    PathHarm(g, Stages(item, 1, fn, zero, N.Broadcast, N.Scatter), item, 1, fn, zero, N.Broadcast, N.Scatter, first, 1, x);
  }

  // An inner stage that also feeds a side sink: 0 -> 1 -> 2 and 1 -> 3.

  const FORK := Topology([0, 1, 2, 3], [Edge(0, 1, 0), Edge(1, 2, 0), Edge(1, 3, 0)])

  lemma ForkSends()
    ensures StartsAsPath(FORK) && Sends(FORK, 2)
  {
    var es := FORK.edges;
    assert OutIdx(es, 0, 1) == [0] && OutIdx(es, 1, 1) == [] && OutIdx(es, 2, 1) == [] && OutIdx(es, 3, 1) == [];
    assert OutIdx(es, 0, 2) == [0] && OutIdx(es, 1, 2) == [1] && OutIdx(es, 2, 2) == [] && OutIdx(es, 3, 2) == [];
  }

  /** One expansion of a stage that also feeds a side sink: the only item goes to the copy, which the
      side sink does not hear of. */
  lemma SideSink<V(!new)>(item: nat -> V, fn: seq<V> -> V, zero: V, g: Topology, first: nat, x: Growth)
    requires g == FORK && first >= 4 && x == ExpandTimes(g, first, PATH, 1)
    ensures !Delivers(x.graph, CopyJob(Stages(item, 1, fn, zero, N.Scatter, N.Broadcast), first, x.made),
                      g, Stages(item, 1, fn, zero, N.Scatter, N.Broadcast), 1)
  {
    ForkSends();
    PathHarm(g, Stages(item, 1, fn, zero, N.Scatter, N.Broadcast), item, 1, fn, zero, N.Scatter, N.Broadcast, first, 1, x);
  }
}
