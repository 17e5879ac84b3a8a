/** A task graph as the schedulers see it once its queues are set up: tasks, and one two-way queue
    for every edge. The module also gives a network its meaning without any thread: the value that
    every task computes in each of its iterations. */
module Network {
  import opened Progression

  /** How a task hands over its results. `Scatter` and `Broadcast` are the send patterns of a group;
      `EachQueue` is the loop of the fixed scheduler, which processes the inputs once for every
      outgoing queue. */
  datatype Discipline = Scatter | Broadcast | EachQueue

  /** What a task computes: `process` and `generate` are arbitrary functions. A generator answers
      FALSE after `len` items. */
  datatype Kind<!V> = Generator(item: nat -> V, len: nat) | Processor(fn: seq<V> -> V) | Sink

  /** `outs` lists the outgoing edges in the order of the group's targets. `ins` lists, for every
      input port, the incoming edges in the order in which the port cycles through its groups. */
  datatype Node<!V> = Node(kind: Kind<V>, send: Discipline, ins: seq<seq<nat>>, outs: seq<nat>)

  /** Target number `at` of task `src`, which is in-group number `turn` of input `port` of task `dst`. */
  datatype Edge = Edge(src: nat, at: nat, dst: nat, port: nat, turn: nat)

  /** `rank` certifies that the graph has no cycle; `zero` is the content of a fresh buffer. */
  datatype Net<!V> = Net(nodes: seq<Node<V>>, edges: seq<Edge>, rank: seq<nat>, zero: V)

  ghost predicate EdgeOk<V>(net: Net<V>, e: nat)
    requires e < |net.edges|
  {
    var x := net.edges[e];
    && x.src < |net.nodes| && x.dst < |net.nodes|
    && x.at < |net.nodes[x.src].outs| && net.nodes[x.src].outs[x.at] == e
    && x.port < |net.nodes[x.dst].ins|
    && x.turn < |net.nodes[x.dst].ins[x.port]| && net.nodes[x.dst].ins[x.port][x.turn] == e
  }

  ghost predicate NodeOk<V>(net: Net<V>, v: nat)
    requires v < |net.nodes|
  {
    var x := net.nodes[v];
    && (forall i :: 0 <= i < |x.outs| ==>
          x.outs[i] < |net.edges| && net.edges[x.outs[i]].src == v && net.edges[x.outs[i]].at == i)
    && (forall p :: 0 <= p < |x.ins| ==> |x.ins[p]| >= 1)
    && (forall p, q :: 0 <= p < |x.ins| && 0 <= q < |x.ins[p]| ==>
          && x.ins[p][q] < |net.edges| && net.edges[x.ins[p][q]].dst == v
          && net.edges[x.ins[p][q]].port == p && net.edges[x.ins[p][q]].turn == q)
    && (x.kind.Generator? <==> |x.ins| == 0)
    && (x.kind.Sink? <==> |x.outs| == 0)
    && (x.kind.Generator? && x.send.EachQueue? ==> |x.outs| == 1)
  }

  /** Queues and cursors agree, every input port is fed, generators and only they have no input,
      sinks and only they have no output, and there is no cycle. */
  ghost predicate WellFormed<V>(net: Net<V>) {
    && |net.rank| == |net.nodes|
    && (forall e :: 0 <= e < |net.edges| ==>
          && EdgeOk(net, e)
          && net.rank[net.edges[e].src] < net.rank[net.edges[e].dst])
    && (forall v :: 0 <= v < |net.nodes| ==> NodeOk(net, v))
  }

  /** The producer serves edge `e` in its iterations MadeOff, MadeOff + MadeStep, ... */
  function MadeStep<V>(net: Net<V>, e: nat): nat
    requires WellFormed(net) && e < |net.edges|
  {
    var x := net.nodes[net.edges[e].src];
    if x.send.Scatter? then |x.outs| else 1
  }

  function MadeOff<V>(net: Net<V>, e: nat): nat
    requires WellFormed(net) && e < |net.edges|
  {
    if net.nodes[net.edges[e].src].send.Scatter? then net.edges[e].at else 0
  }

  /** The consumer turns to edge `e` in its iterations turn, turn + UsedStep, ... */
  function UsedStep<V>(net: Net<V>, e: nat): nat
    requires WellFormed(net) && e < |net.edges|
  {
    |net.nodes[net.edges[e].dst].ins[net.edges[e].port]|
  }

  /** The iteration of the producer that makes item `j` of edge `e`. */
  function Made<V>(net: Net<V>, e: nat, j: nat): nat
    requires WellFormed(net) && e < |net.edges|
  {
    At(MadeOff(net, e), MadeStep(net, e), j)
  }

  /** The iteration of the consumer that uses item `j` of edge `e`. */
  function Used<V>(net: Net<V>, e: nat, j: nat): nat
    requires WellFormed(net) && e < |net.edges|
  {
    At(net.edges[e].turn, UsedStep(net, e), j)
  }

  /** The incoming edge that port `p` of task `v` turns to in iteration `k`. */
  function InEdge<V>(net: Net<V>, v: nat, p: nat, k: nat): (e: nat)
    requires WellFormed(net) && v < |net.nodes| && p < |net.nodes[v].ins|
    ensures e < |net.edges| && net.edges[e].dst == v && net.edges[e].port == p
    ensures net.edges[e].turn == k % |net.nodes[v].ins[p]|
    ensures net.edges[e].src < |net.nodes| && net.rank[net.edges[e].src] < net.rank[v]
    ensures net.nodes[net.edges[e].src].outs != []
  {
    assert NodeOk(net, v);
    var e := net.nodes[v].ins[p][k % |net.nodes[v].ins[p]|];
    assert EdgeOk(net, e);
    e
  }

  /** Meaning of the network: what task `v` computes in iteration `k`. */
  function Val<V>(net: Net<V>, v: nat, k: nat): V
    requires WellFormed(net) && v < |net.nodes|
    decreases net.rank[v], 1
  {
    match net.nodes[v].kind
    case Generator(item, _) => item(k)
    case Processor(fn) => fn(Args(net, v, k))
    case Sink => net.zero
  }

  /** The inputs of task `v` in iteration `k`, one for every port. */
  function Args<V>(net: Net<V>, v: nat, k: nat): (r: seq<V>)
    requires WellFormed(net) && v < |net.nodes|
    ensures |r| == |net.nodes[v].ins|
    decreases net.rank[v], 0
  {
    seq(|net.nodes[v].ins|, p requires 0 <= p < |net.nodes[v].ins| =>
      var e := InEdge(net, v, p, k);
      Val(net, net.edges[e].src, Made(net, e, k / |net.nodes[v].ins[p]|)))
  }

  /** Item `j` of the stream on edge `e`. */
  function EdgeVal<V>(net: Net<V>, e: nat, j: nat): V
    requires WellFormed(net) && e < |net.edges|
  {
    assert EdgeOk(net, e);
    Val(net, net.edges[e].src, Made(net, e, j))
  }

  /** When a network is free of rate conflicts, every iteration of every task works on one index of
      the stream: iteration `k` of task `v` on index off[v] + stride[v] * k. Streams have the indices
      0..items-1. A branch of an n-fold expanded path has stride n. */
  datatype Plan = Plan(stride: seq<nat>, off: seq<nat>, items: nat)

  function Idx(plan: Plan, v: nat, k: nat): nat
    requires v < |plan.stride| == |plan.off|
  {
    At(plan.off[v], plan.stride[v], k)
  }

  /** Iteration `k` of task `v` works on an index of the stream; the first that does not meets
      the end of the stream. */
  ghost predicate Live(plan: Plan, v: nat, k: nat)
    requires v < |plan.stride| == |plan.off|
  {
    Idx(plan, v, k) < plan.items
  }

  /** Both ends of every edge agree on the index of every item, and all generators make the same
      number of items. Each condition is an equation between numbers that setup already fixes. */
  ghost predicate Balanced<V>(net: Net<V>, plan: Plan) {
    && WellFormed(net)
    && |plan.stride| == |plan.off| == |net.nodes|
    && (forall v :: 0 <= v < |net.nodes| ==> plan.stride[v] >= 1)
    && (forall v :: 0 <= v < |net.nodes| && net.nodes[v].kind.Generator? ==>
          plan.stride[v] == 1 && plan.off[v] == 0 && net.nodes[v].kind.len == plan.items)
    && (forall e :: 0 <= e < |net.edges| ==> EdgeBalanced(net, plan, e))
  }

  ghost predicate EdgeBalanced<V>(net: Net<V>, plan: Plan, e: nat)
    requires WellFormed(net) && |plan.stride| == |plan.off| == |net.nodes| && e < |net.edges|
  {
    assert EdgeOk(net, e);
    var x := net.edges[e];
    && plan.stride[x.src] * MadeStep(net, e) == plan.stride[x.dst] * UsedStep(net, e)
    && plan.off[x.src] + plan.stride[x.src] * MadeOff(net, e) == plan.off[x.dst] + plan.stride[x.dst] * x.turn
  }

  /** Producer and consumer of an item work on the same index of the stream. */
  lemma IndexAgrees<V>(net: Net<V>, plan: Plan, e: nat, j: nat)
    requires Balanced(net, plan) && e < |net.edges|
    ensures net.edges[e].src < |net.nodes| && net.edges[e].dst < |net.nodes|
    ensures Idx(plan, net.edges[e].src, Made(net, e, j)) == Idx(plan, net.edges[e].dst, Used(net, e, j))
  {
    assert EdgeOk(net, e) && EdgeBalanced(net, plan, e);
    var x := net.edges[e];
    Compose(plan.off[x.src], plan.stride[x.src], MadeOff(net, e), MadeStep(net, e), j);
    Compose(plan.off[x.dst], plan.stride[x.dst], x.turn, UsedStep(net, e), j);
  }
}
