/** The fixed scheduler: one two-way queue with at most two buffers for every edge, and tasks that
    serve all their successors in every iteration. */
module Fixed {
  import opened G = Graph
  import opened Setup
  import N = Network
  import C = Covering
  import Ch = Channel
  import R = Runtime
  import I = Invariant
  import Progression
  import Runs

  /** The edges into a task have different ports. With the number of predecessors as the number of
      inputs, the ports are a permutation of 0..n_inputs-1. */
  ghost predicate PortsDiffer(edges: seq<Edge>) {
    forall d, e :: 0 <= d < e < |edges| && edges[d].target == edges[e].target ==> edges[d].lab != edges[e].lab
  }

  /** The graphs that the fixed scheduler runs: its threads allocate as many inputs as a task has
      predecessors, and serve each outgoing queue in turn. */
  ghost predicate FixedGraph<V>(g: Topology, job: Job<V>) {
    && GraphOk(g, job) && PortsDiffer(g.edges)
    && forall v :: v in g.nodes ==> job.task(v).send.EachQueue? && job.task(v).inputs == |Predecessors(g.edges, v)|
  }

  lemma FixedUnit<V>(g: Topology, job: Job<V>)
    requires FixedGraph(g, job)
    ensures UnitGraph(g, job)
  {
    forall v, p | v in g.nodes && 0 <= p < job.task(v).inputs
      ensures |Ins(g, v, p)| == 1
    {
      var i := Pos(g.nodes, v);
      PortFed(g, job, i, p);
      InIdxDistinct(g, v, p, |g.nodes|);
      if |Ins(g, v, p)| >= 2 {
        var d, e := Ins(g, v, p)[0], Ins(g, v, p)[1];
        InsHas(g, v, p, d);
        InsHas(g, v, p, e);
      }
    }
  }

  /** The node that feeds port `p`. */
  function Feeder<V>(g: Topology, job: Job<V>, v: nat, p: nat): (u: nat)
    requires GraphOk(g, job) && v in g.nodes && p < job.task(v).inputs
    ensures u in g.nodes && job.rank(u) < job.rank(v)
    ensures Ins(g, v, p) != [] && Ins(g, v, p)[0] < |g.edges| && u == g.edges[Ins(g, v, p)[0]].source
  {
    PortFed(g, job, Pos(g.nodes, v), p);
    InPlaced(g, job, Pos(g.nodes, v), p, 0);
    g.edges[Ins(g, v, p)[0]].source
  }

  /** The meaning of a task graph without threads and queues: item `k` of task `v` is computed from
      item `k` of the tasks that feed it. */
  function Meaning<V>(g: Topology, job: Job<V>, v: nat, k: nat): V
    requires GraphOk(g, job) && v in g.nodes
    decreases job.rank(v), 1
  {
    match job.task(v).kind
    case Generator(item, _) => item(k)
    case Processor(fn) => fn(Inputs(g, job, v, k))
    case Sink => job.zero
  }

  /** The inputs of task `v` for item `k`. */
  function Inputs<V>(g: Topology, job: Job<V>, v: nat, k: nat): (r: seq<V>)
    requires GraphOk(g, job) && v in g.nodes
    ensures |r| == job.task(v).inputs
    decreases job.rank(v), 0
  {
    seq(job.task(v).inputs, p requires 0 <= p < job.task(v).inputs => Meaning(g, job, Feeder(g, job, v, p), k))
  }

  /** The inputs of task `v` for the items of the whole stream. */
  function Stream<V>(g: Topology, job: Job<V>, v: nat, items: nat): seq<seq<V>>
    requires GraphOk(g, job) && v in g.nodes
  {
    seq(items, k requires 0 <= k < items => Inputs(g, job, v, k))
  }

  /** In a graph without parallel branches every iteration computes the item of its number. */
  lemma {:induction false} IterationMeans<V>(g: Topology, job: Job<V>, i: nat, k: nat)
    requires GraphOk(g, job) && UnitGraph(g, job) && N.WellFormed(NetOf(g, job)) && i < |g.nodes|
    ensures N.Val(NetOf(g, job), i, k) == Meaning(g, job, g.nodes[i], k)
    decreases job.rank(g.nodes[i]), 1
  {
    IterationInputs(g, job, i, k);
  }

  lemma {:induction false} IterationInputs<V>(g: Topology, job: Job<V>, i: nat, k: nat)
    requires GraphOk(g, job) && UnitGraph(g, job) && N.WellFormed(NetOf(g, job)) && i < |g.nodes|
    ensures N.Args(NetOf(g, job), i, k) == Inputs(g, job, g.nodes[i], k)
    decreases job.rank(g.nodes[i]), 0
  {
    forall p | 0 <= p < job.task(g.nodes[i]).inputs
      ensures N.Args(NetOf(g, job), i, k)[p] == Inputs(g, job, g.nodes[i], k)[p]
    {
      IterationInput(g, job, i, k, p);
    }
  }

  lemma {:induction false} IterationInput<V>(g: Topology, job: Job<V>, i: nat, k: nat, p: nat)
    requires GraphOk(g, job) && UnitGraph(g, job) && N.WellFormed(NetOf(g, job)) && i < |g.nodes|
    requires p < job.task(g.nodes[i]).inputs
    ensures N.Args(NetOf(g, job), i, k)[p] == Inputs(g, job, g.nodes[i], k)[p]
    decreases job.rank(g.nodes[i]), 0, 0
  {
    var net := NetOf(g, job);
    assert |Ins(g, g.nodes[i], p)| == 1;
    var e := N.InEdge(net, i, p, k);
    assert e == Ins(g, g.nodes[i], p)[0];
    EdgePlaced(g, job, e);
    UnitUniform(g, job);
    C.UniformMade(net, e, k);
    assert k / 1 == k;
    var u := net.edges[e].src;
    assert g.nodes[u] == Feeder(g, job, g.nodes[i], p);
    IterationMeans(g, job, u, k);
  }

  function FixedPlan(g: Topology, items: nat): N.Plan {
    C.UnitPlan(|g.nodes|, items)
  }

  lemma FixedBalanced<V>(g: Topology, job: Job<V>, items: nat)
    requires FixedGraph(g, job) && Steady(g, job, items)
    ensures N.Balanced(NetOf(g, job), FixedPlan(g, items)) && UnitGraph(g, job)
  {
    FixedUnit(g, job);
    SetupWellFormed(g, job);
    UnitUniform(g, job);
    C.UniformBalanced(NetOf(g, job), items);
  }

  /** No deadlock, and an end: in every reachable state that is not final some thread can move, and
      no run is longer than a bound that depends on the graph only. */
  lemma FixedLive<V>(g: Topology, job: Job<V>, items: nat, run: seq<nat>, s: R.State<V>)
    requires FixedGraph(g, job) && Steady(g, job, items)
    requires N.WellFormed(NetOf(g, job)) && Runs.Reachable(NetOf(g, job), run, s)
    ensures var net := NetOf(g, job);
            && N.Balanced(net, FixedPlan(g, items))
            && R.Shaped(net, s)
            && (!R.AllDone(net, s) ==> exists v :: 0 <= v < |net.nodes| && R.Enabled(net, s, v))
            && |run| <= Runs.Total(net, FixedPlan(g, items), R.Init(net).threads, |net.nodes|)
  {
    FixedBalanced(g, job, items);
    Runs.NoDeadlock(NetOf(g, job), FixedPlan(g, items), run, s);
    Runs.Terminates(NetOf(g, job), FixedPlan(g, items), run, s);
  }

  /** Two buffers are enough for every edge: there are never more. */
  lemma TwoBuffers<V>(g: Topology, job: Job<V>, items: nat, run: seq<nat>, s: R.State<V>, e: nat)
    requires FixedGraph(g, job) && Steady(g, job, items)
    requires N.WellFormed(NetOf(g, job)) && Runs.Reachable(NetOf(g, job), run, s)
    requires e < |g.edges| && e < |s.queues|
    ensures s.queues[e].capacity <= 2
  {
    FixedBalanced(g, job, items);
    Runs.Ownership(NetOf(g, job), FixedPlan(g, items), run, s, e, Ch.Buffer(e, 0));
    EdgePlaced(g, job, e);
    assert g.edges[e].source in g.nodes;
  }

  /** Every successor sees the same stream: in every reachable state, a queue holds the next items of
      the stream of the task that feeds it, in order, and at most one end of the stream behind them. */
  lemma FixedStream<V>(g: Topology, job: Job<V>, items: nat, run: seq<nat>, s: R.State<V>, e: nat, j: nat)
    requires FixedGraph(g, job) && Steady(g, job, items)
    requires N.WellFormed(NetOf(g, job)) && Runs.Reachable(NetOf(g, job), run, s)
    requires e < |g.edges| && e < |s.queues| && j < |s.queues[e].full|
    ensures s.queues[e].full[j].Data? ==>
              Ch.Read(job.zero, s.mem, s.queues[e].full[j].buf) == Meaning(g, job, g.edges[e].source, s.queues[e].taken + j)
    ensures s.queues[e].full[j].End? ==> j == |s.queues[e].full| - 1
  {
    var net := NetOf(g, job);
    FixedBalanced(g, job, items);
    UnitUniform(g, job);
    Runs.InTransit(net, FixedPlan(g, items), run, s, e, j);
    EdgePlaced(g, job, e);
    C.UniformMade(net, e, s.queues[e].taken + j);
    IterationMeans(g, job, net.edges[e].src, s.queues[e].taken + j);
  }

  /** Thread `v` is done: it has made all its iterations and met the end on every input. */
  lemma FixedDone<V>(net: N.Net<V>, plan: N.Plan, s: R.State<V>, v: nat)
    requires I.Inv(net, plan, s) && v < |net.nodes| && R.Done(net, v, s.threads[v])
    requires plan.stride[v] == 1 && plan.off[v] == 0
    ensures s.threads[v].k == plan.items && forall p :: 0 <= p < |net.nodes[v].ins| ==> s.threads[v].finished[p]
  {
    var t := s.threads[v];
    assert I.ThreadInv(net, plan, v, t);
    Progression.Closed(0, 1, t.k);
    if t.k > 0 {
      Progression.Closed(0, 1, t.k - 1);
    }
  }

  /** What an edge has carried when both its threads are done. */
  lemma FixedDrained<V>(net: N.Net<V>, plan: N.Plan, s: R.State<V>, e: nat)
    requires I.Inv(net, plan, s) && C.Uniform(net) && plan == C.UnitPlan(|net.nodes|, plan.items) && e < |net.edges|
    requires R.AllDone(net, s)
    ensures var q := s.queues[e]; q.made == plan.items && q.taken == plan.items && q.closed && q.sawEnd && q.full == []
  {
    assert N.EdgeOk(net, e) && I.EdgeInvAt(net, s, e);
    var x := net.edges[e];
    FixedDone(net, plan, s, x.src);
    FixedDone(net, plan, s, x.dst);
    C.UniformMade(net, e, 0);
    Counted(plan.items, s.queues[e].made);
    Counted(plan.items, s.queues[e].taken);
  }

  lemma Counted(k: nat, n: nat)
    ensures Progression.Counts(0, 1, k, n) <==> k == n
  {
    Progression.Closed(0, 1, n);
    if n > 0 {
      Progression.Closed(0, 1, n - 1);
    }
  }

  /** Delivery: when no thread can move, all are done, every edge has carried exactly the `items` items
      of its stream and one end, and every sink has processed exactly the meaning of its inputs. */
  lemma FixedDelivers<V>(g: Topology, job: Job<V>, items: nat, run: seq<nat>, s: R.State<V>)
    requires FixedGraph(g, job) && Steady(g, job, items) && Runs.Complete(NetOf(g, job), run, s)
    ensures R.AllDone(NetOf(g, job), s)
    ensures forall e :: 0 <= e < |g.edges| ==>
              var q := s.queues[e]; q.made == items && q.taken == items && q.closed && q.sawEnd && q.full == []
    ensures forall i :: 0 <= i < |g.nodes| && job.task(g.nodes[i]).kind.Sink? ==>
              s.threads[i].log == Stream(g, job, g.nodes[i], items)
  {
    var net, plan := NetOf(g, job), FixedPlan(g, items);
    FixedBalanced(g, job, items);
    UnitUniform(g, job);
    Runs.Delivery(net, plan, run, s);
    Runs.ReachableInv(net, plan, run, s);
    forall e | 0 <= e < |g.edges|
      ensures var q := s.queues[e]; q.made == items && q.taken == items && q.closed && q.sawEnd && q.full == []
    {
      FixedDrained(net, plan, s, e);
    }
    forall i | 0 <= i < |g.nodes| && job.task(g.nodes[i]).kind.Sink?
      ensures s.threads[i].log == Stream(g, job, g.nodes[i], items)
    {
      SinkSees(g, job, items, i, s.threads[i].log);
    }
  }

  lemma SinkSees<V>(g: Topology, job: Job<V>, items: nat, i: nat, log: seq<seq<V>>)
    requires GraphOk(g, job) && UnitGraph(g, job) && i < |g.nodes|
    requires N.Balanced(NetOf(g, job), FixedPlan(g, items)) && Runs.Delivered(NetOf(g, job), FixedPlan(g, items), i, log)
    ensures log == Stream(g, job, g.nodes[i], items)
  {
    Progression.Closed(0, 1, |log|);
    if |log| > 0 {
      Progression.Closed(0, 1, |log| - 1);
    }
    forall k | 0 <= k < |log|
      ensures log[k] == Inputs(g, job, g.nodes[i], k)
    {
      IterationInputs(g, job, i, k);
    }
  }
}
