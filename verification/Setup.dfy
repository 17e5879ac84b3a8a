/** Setting up the queues of a task graph: every task gets a group of targets, and every input port
    a list of groups that it cycles through. */
module Setup {
  import opened G = Graph
  import Expand
  import N = Network
  import C = Covering

  /** What is known of a node's task: its kind, its number of inputs and its send pattern. */
  datatype Task<!V> = Task(kind: N.Kind<V>, inputs: nat, send: N.Discipline)

  /** Tasks by node. `rank` certifies that the graph has no cycle. */
  datatype Job<!V> = Job(task: nat -> Task<V>, rank: nat -> nat, zero: V)

  function Pos(s: seq<nat>, x: nat): (i: nat)
    ensures x in s ==> i < |s| && s[i] == x
  {
    if s == [] || s[0] == x then 0 else 1 + Pos(s[1..], x)
  }

  lemma PosUnique(s: seq<nat>, i: nat)
    requires Distinct(s) && i < |s|
    ensures Pos(s, s[i]) == i
  {
    assert s[i] in s;
  }

  /** The edges from `w` to port `p` of `t`, in the order in which setup prepends their groups. */
  function Hits(edges: seq<Edge>, w: nat, t: nat, p: nat, n: nat): seq<nat>
    requires n <= |edges|
  {
    if n == 0 then []
    else Hits(edges, w, t, p, n - 1) + if edges[n - 1] == Edge(w, t, p) then [n - 1] else []
  }

  /** The edges into port `p` of `t` in the order in which the port cycles through their groups:
      setup visits the nodes in their order and prepends. */
  function InIdx(g: Topology, t: nat, p: nat, k: nat): seq<nat>
    requires k <= |g.nodes|
  {
    if k == 0 then [] else Hits(g.edges, g.nodes[k - 1], t, p, |g.edges|) + InIdx(g, t, p, k - 1)
  }

  function Outs(g: Topology, v: nat): seq<nat> { OutIdx(g.edges, v, |g.edges|) }

  function Ins(g: Topology, v: nat, p: nat): seq<nat> { InIdx(g, v, p, |g.nodes|) }

  ghost predicate Fed(g: Topology, v: nat, p: nat) {
    exists j :: 0 <= j < |g.edges| && g.edges[j].target == v && g.edges[j].lab == p
  }

  /** The task graphs that are set up: at most one edge between two nodes, no cycle, every edge leads
      to an existing port, every port is fed, generators and only they have no input, sinks and only
      they have no successor. */
  ghost predicate GraphOk<V>(g: Topology, job: Job<V>) {
    && Closed(g) && Simple(g.edges) && Expand.Ranked(g.edges, job.rank)
    && (forall j :: 0 <= j < |g.edges| ==> g.edges[j].lab < job.task(g.edges[j].target).inputs)
    && (forall i {:trigger TaskOk(g, job, g.nodes[i])} :: 0 <= i < |g.nodes| ==> TaskOk(g, job, g.nodes[i]))
  }

  ghost predicate TaskOk<V>(g: Topology, job: Job<V>, v: nat) {
    var x := job.task(v);
    && (forall p :: 0 <= p < x.inputs ==> Fed(g, v, p))
    && (x.kind.Generator? <==> x.inputs == 0)
    && (x.kind.Sink? <==> Outs(g, v) == [])
    && (x.kind.Generator? && x.send.EachQueue? ==> |Outs(g, v)| == 1)
  }

  function NodeOf<V>(g: Topology, job: Job<V>, v: nat): N.Node<V> {
    var x := job.task(v);
    N.Node(x.kind, x.send, seq(x.inputs, p requires 0 <= p < x.inputs => Ins(g, v, p)), Outs(g, v))
  }

  function EdgeOf(g: Topology, j: nat): N.Edge
    requires j < |g.edges|
  {
    var e := g.edges[j];
    N.Edge(Pos(g.nodes, e.source), Pos(Outs(g, e.source), j), Pos(g.nodes, e.target), e.lab, Pos(Ins(g, e.target, e.lab), j))
  }

  /** The network that runs. */
  function NetOf<V>(g: Topology, job: Job<V>): N.Net<V> {
    N.Net(seq(|g.nodes|, i requires 0 <= i < |g.nodes| => NodeOf(g, job, g.nodes[i])),
          seq(|g.edges|, j requires 0 <= j < |g.edges| => EdgeOf(g, j)),
          seq<nat>(|g.nodes|, i requires 0 <= i < |g.nodes| => job.rank(g.nodes[i])), job.zero)
  }

  lemma {:induction false} HitsHas(edges: seq<Edge>, w: nat, t: nat, p: nat, n: nat, j: nat)
    requires n <= |edges|
    ensures j in Hits(edges, w, t, p, n) <==> j < n && edges[j] == Edge(w, t, p)
  {
    if n > 0 {
      HitsHas(edges, w, t, p, n - 1, j);
    }
  }

  lemma {:induction false} InIdxHas(g: Topology, t: nat, p: nat, k: nat, j: nat)
    requires k <= |g.nodes|
    ensures j in InIdx(g, t, p, k) <==>
            j < |g.edges| && g.edges[j].target == t && g.edges[j].lab == p && g.edges[j].source in g.nodes[..k]
  {
    if k > 0 {
      InIdxHas(g, t, p, k - 1, j);
      HitsHas(g.edges, g.nodes[k - 1], t, p, |g.edges|, j);
      assert g.nodes[..k] == g.nodes[..k - 1] + [g.nodes[k - 1]];
    }
  }

  lemma {:induction false} HitsOne(edges: seq<Edge>, w: nat, t: nat, p: nat, n: nat)
    requires n <= |edges| && Simple(edges)
    ensures |Hits(edges, w, t, p, n)| <= 1
  {
    if n > 0 {
      HitsOne(edges, w, t, p, n - 1);
      if edges[n - 1] == Edge(w, t, p) && Hits(edges, w, t, p, n - 1) != [] {
        var j := Hits(edges, w, t, p, n - 1)[0];
        HitsHas(edges, w, t, p, n - 1, j);
      }
    }
  }

  lemma {:induction false} InIdxDistinct(g: Topology, t: nat, p: nat, k: nat)
    requires k <= |g.nodes| && Closed(g) && Simple(g.edges)
    ensures Distinct(InIdx(g, t, p, k))
  {
    if k > 0 {
      InIdxDistinct(g, t, p, k - 1);
      var head, rest := Hits(g.edges, g.nodes[k - 1], t, p, |g.edges|), InIdx(g, t, p, k - 1);
      HitsOne(g.edges, g.nodes[k - 1], t, p, |g.edges|);
      if head != [] {
        HitsHas(g.edges, g.nodes[k - 1], t, p, |g.edges|, head[0]);
        forall i | 0 <= i < |rest|
          ensures rest[i] != head[0]
        {
          assert rest[i] in rest;
          InIdxHas(g, t, p, k - 1, rest[i]);
        }
      }
    }
  }

  lemma OutsDistinct(edges: seq<Edge>, v: nat, n: nat)
    requires n <= |edges|
    ensures Distinct(OutIdx(edges, v, n))
  {
    forall a, b | 0 <= a < b < |OutIdx(edges, v, n)|
      ensures OutIdx(edges, v, n)[a] != OutIdx(edges, v, n)[b]
    {
      OutIdxDescends(edges, v, n, a, b);
    }
  }

  lemma InsHas(g: Topology, t: nat, p: nat, j: nat)
    requires Closed(g)
    ensures j in Ins(g, t, p) <==> j < |g.edges| && g.edges[j].target == t && g.edges[j].lab == p
  {
    InIdxHas(g, t, p, |g.nodes|, j);
    assert g.nodes[..|g.nodes|] == g.nodes;
  }

  /** Where edge `j` stands in the lists of its two ends. */
  lemma EdgePlaced<V>(g: Topology, job: Job<V>, j: nat)
    requires GraphOk(g, job) && j < |g.edges|
    ensures var e, x := g.edges[j], EdgeOf(g, j);
            && x.src < |g.nodes| && g.nodes[x.src] == e.source && x.dst < |g.nodes| && g.nodes[x.dst] == e.target
            && x.at < |Outs(g, e.source)| && Outs(g, e.source)[x.at] == j
            && x.turn < |Ins(g, e.target, e.lab)| && Ins(g, e.target, e.lab)[x.turn] == j
  {
    OutIdxHas(g.edges, g.edges[j].source, |g.edges|, j);
    InsHas(g, g.edges[j].target, g.edges[j].lab, j);
  }

  lemma OutPlaced<V>(g: Topology, job: Job<V>, v: nat, i: nat)
    requires GraphOk(g, job) && v < |g.nodes| && i < |Outs(g, g.nodes[v])|
    ensures var j := Outs(g, g.nodes[v])[i];
            && j < |g.edges| && g.edges[j].source == g.nodes[v]
            && EdgeOf(g, j).src == v && EdgeOf(g, j).at == i
  {
    var outs := Outs(g, g.nodes[v]);
    assert outs[i] in outs;
    OutIdxHas(g.edges, g.nodes[v], |g.edges|, outs[i]);
    OutsDistinct(g.edges, g.nodes[v], |g.edges|);
    PosUnique(outs, i);
    PosUnique(g.nodes, v);
  }

  lemma InPlaced<V>(g: Topology, job: Job<V>, v: nat, p: nat, q: nat)
    requires GraphOk(g, job) && v < |g.nodes| && q < |Ins(g, g.nodes[v], p)|
    ensures var j := Ins(g, g.nodes[v], p)[q];
            && j < |g.edges| && g.edges[j].target == g.nodes[v] && g.edges[j].lab == p
            && EdgeOf(g, j).dst == v && EdgeOf(g, j).port == p && EdgeOf(g, j).turn == q
  {
    var ins := Ins(g, g.nodes[v], p);
    assert ins[q] in ins;
    InsHas(g, g.nodes[v], p, ins[q]);
    InIdxDistinct(g, g.nodes[v], p, |g.nodes|);
    PosUnique(ins, q);
    PosUnique(g.nodes, v);
  }

  lemma PortFed<V>(g: Topology, job: Job<V>, v: nat, p: nat)
    requires GraphOk(g, job) && v < |g.nodes| && p < job.task(g.nodes[v]).inputs
    ensures |Ins(g, g.nodes[v], p)| >= 1
  {
    assert TaskOk(g, job, g.nodes[v]) && Fed(g, g.nodes[v], p);
    var j :| 0 <= j < |g.edges| && g.edges[j].target == g.nodes[v] && g.edges[j].lab == p;
    InsHas(g, g.nodes[v], p, j);
  }

  lemma NodePlaced<V>(g: Topology, job: Job<V>, v: nat)
    requires GraphOk(g, job) && v < |g.nodes|
    ensures N.NodeOk(NetOf(g, job), v)
  {
    var net := NetOf(g, job);
    var x := net.nodes[v];
    assert TaskOk(g, job, g.nodes[v]);
    forall i | 0 <= i < |x.outs|
      ensures x.outs[i] < |net.edges| && net.edges[x.outs[i]].src == v && net.edges[x.outs[i]].at == i
    {
      OutPlaced(g, job, v, i);
    }
    forall p | 0 <= p < |x.ins|
      ensures |x.ins[p]| >= 1
    {
      PortFed(g, job, v, p);
    }
    forall p, q | 0 <= p < |x.ins| && 0 <= q < |x.ins[p]|
      ensures && x.ins[p][q] < |net.edges| && net.edges[x.ins[p][q]].dst == v
              && net.edges[x.ins[p][q]].port == p && net.edges[x.ins[p][q]].turn == q
    {
      InPlaced(g, job, v, p, q);
    }
  }

  /** Setup makes a well-formed network: the positions that producers and consumers use agree. */
  lemma SetupWellFormed<V>(g: Topology, job: Job<V>)
    requires GraphOk(g, job)
    ensures N.WellFormed(NetOf(g, job))
  {
    var net := NetOf(g, job);
    forall v | 0 <= v < |net.nodes|
      ensures N.NodeOk(net, v)
    {
      NodePlaced(g, job, v);
    }
    forall e | 0 <= e < |net.edges|
      ensures N.EdgeOk(net, e) && net.rank[net.edges[e].src] < net.rank[net.edges[e].dst]
    {
      EdgePlaced(g, job, e);
    }
  }

  // Graphs without parallel branches.

  /** Every port reads one edge, and a task that scatters has one target. */
  ghost predicate UnitGraph<V>(g: Topology, job: Job<V>) {
    && (forall v, p :: v in g.nodes && 0 <= p < job.task(v).inputs ==> |Ins(g, v, p)| == 1)
    && (forall v :: v in g.nodes && job.task(v).send.Scatter? ==> |Outs(g, v)| <= 1)
  }

  /** All generators of a job make equally many items. */
  ghost predicate Steady<V>(g: Topology, job: Job<V>, items: nat) {
    forall i :: 0 <= i < |g.nodes| && job.task(g.nodes[i]).kind.Generator? ==> job.task(g.nodes[i]).kind.len == items
  }

  lemma UnitUniform<V>(g: Topology, job: Job<V>)
    requires GraphOk(g, job) && UnitGraph(g, job) && N.WellFormed(NetOf(g, job))
    ensures C.Uniform(NetOf(g, job))
  {
    var net := NetOf(g, job);
    forall v, p | 0 <= v < |net.nodes| && 0 <= p < |net.nodes[v].ins|
      ensures |net.nodes[v].ins[p]| == 1
    {
      assert g.nodes[v] in g.nodes;
    }
  }

  /** Where the sources of an input stand in the list of nodes. */
  lemma SourceOf<V>(g: Topology, job: Job<V>, v: nat, p: nat, q: nat)
    requires GraphOk(g, job) && N.WellFormed(NetOf(g, job))
    requires v < |g.nodes| && p < job.task(g.nodes[v]).inputs && q < |Ins(g, g.nodes[v], p)|
    ensures var e := Ins(g, g.nodes[v], p)[q];
            && e < |g.edges| && g.edges[e].target == g.nodes[v] && g.edges[e].lab == p
            && C.Source(NetOf(g, job), v, p, q) < |g.nodes|
            && g.nodes[C.Source(NetOf(g, job), v, p, q)] == g.edges[e].source
            && C.Source(NetOf(g, job), v, p, q) == Pos(g.nodes, g.edges[e].source)
  {
    InPlaced(g, job, v, p, q);
    EdgePlaced(g, job, Ins(g, g.nodes[v], p)[q]);
  }
}
