/** The graph of a pipeline: an ordered list of nodes and an ordered list of labelled edges. The
    orders matter, because they decide the order of targets and groups at run time. */
module Graph {

  datatype Edge = Edge(source: nat, target: nat, lab: nat)

  /** Nodes are handles. */
  datatype Topology = Topology(nodes: seq<nat>, edges: seq<Edge>)

  predicate Joined(edges: seq<Edge>, s: nat, t: nat) {
    exists j :: 0 <= j < |edges| && edges[j].source == s && edges[j].target == t
  }

  /** The label of the first edge between two nodes; no edge has the label of a null pointer. */
  function Label(edges: seq<Edge>, s: nat, t: nat): nat {
    if edges == [] then 0
    else if edges[0].source == s && edges[0].target == t then edges[0].lab
    else Label(edges[1..], s, t)
  }

  function WithNode(nodes: seq<nat>, v: nat): seq<nat> {
    if v in nodes then nodes else nodes + [v]
  }

  function Connect(g: Topology, s: nat, t: nat, lab: nat): Topology {
    if Joined(g.edges, s, t) && Label(g.edges, s, t) == lab then g
    else Topology(WithNode(WithNode(g.nodes, s), t), g.edges + [Edge(s, t, lab)])
  }

  /** The edges that leave `v`, latest first. */
  function OutIdx(edges: seq<Edge>, v: nat, n: nat): seq<nat>
    requires n <= |edges|
  {
    if n == 0 then []
    else (if edges[n - 1].source == v then [n - 1] else []) + OutIdx(edges, v, n - 1)
  }

  /** The nodes that `v` is connected to, in the order in which its group serves them. */
  function Successors(edges: seq<Edge>, v: nat): seq<nat> {
    if edges == [] then []
    else Successors(edges[1..], v) + if edges[0].source == v then [edges[0].target] else []
  }

  function Predecessors(edges: seq<Edge>, v: nat): seq<nat> {
    if edges == [] then []
    else (if edges[0].target == v then [edges[0].source] else []) + Predecessors(edges[1..], v)
  }

  ghost predicate Simple(edges: seq<Edge>) {
    forall i, j :: 0 <= i < j < |edges| ==> edges[i].source != edges[j].source || edges[i].target != edges[j].target
  }

  ghost predicate Distinct(s: seq<nat>) {
    forall i, j :: 0 <= i < j < |s| ==> s[i] != s[j]
  }

  ghost predicate Closed(g: Topology) {
    && Distinct(g.nodes)
    && forall j :: 0 <= j < |g.edges| ==> g.edges[j].source in g.nodes && g.edges[j].target in g.nodes
  }

  // Facts about the orders.

  lemma {:induction false} OutIdxHas(edges: seq<Edge>, v: nat, n: nat, j: nat)
    requires n <= |edges|
    ensures j in OutIdx(edges, v, n) <==> j < n && edges[j].source == v
  {
    if n > 0 {
      OutIdxHas(edges, v, n - 1, j);
    }
  }

  lemma {:induction false} OutIdxDescends(edges: seq<Edge>, v: nat, n: nat, a: nat, b: nat)
    requires n <= |edges| && a < b < |OutIdx(edges, v, n)|
    ensures OutIdx(edges, v, n)[a] > OutIdx(edges, v, n)[b]
  {
    var rest := OutIdx(edges, v, n - 1);
    if edges[n - 1].source == v {
      if a == 0 {
        assert rest[b - 1] in rest;
        OutIdxHas(edges, v, n - 1, rest[b - 1]);
      } else {
        OutIdxDescends(edges, v, n - 1, a - 1, b - 1);
      }
    } else {
      OutIdxDescends(edges, v, n - 1, a, b);
    }
  }

  /** Later edges do not change the order of earlier ones. */
  lemma {:induction false} OutIdxPrefix(edges: seq<Edge>, more: seq<Edge>, v: nat, n: nat)
    requires n <= |edges|
    ensures OutIdx(edges + more, v, n) == OutIdx(edges, v, n)
  {
    if n > 0 {
      OutIdxPrefix(edges, more, v, n - 1);
    }
  }

  lemma {:induction false} OutIdxNone(edges: seq<Edge>, v: nat, m: nat, n: nat)
    requires m <= n <= |edges|
    requires forall j :: m <= j < n ==> edges[j].source != v
    ensures OutIdx(edges, v, n) == OutIdx(edges, v, m)
  {
    if m < n {
      OutIdxNone(edges, v, m, n - 1);
    }
  }

  /** Exactly one more edge leaves `v`: it comes first. */
  lemma OutIdxOne(edges: seq<Edge>, v: nat, m: nat, n: nat, e: nat)
    requires m <= e < n <= |edges|
    requires forall j :: m <= j < n ==> (edges[j].source == v <==> j == e)
    ensures OutIdx(edges, v, n) == [e] + OutIdx(edges, v, m)
  {
    OutIdxNone(edges, v, e + 1, n);
    OutIdxNone(edges, v, m, e);
  }

  lemma {:induction false} SuccessorsAppend(edges: seq<Edge>, e: Edge, v: nat)
    ensures Successors(edges + [e], v) == (if e.source == v then [e.target] else []) + Successors(edges, v)
  {
    if edges == [] {
      assert edges + [e] == [e];
    } else {
      assert (edges + [e])[1..] == edges[1..] + [e];
      SuccessorsAppend(edges[1..], e, v);
    }
  }

  /** The successors are the targets of the outgoing edges, in the same order. */
  lemma {:induction false} SuccessorsAt(edges: seq<Edge>, v: nat, n: nat)
    requires n <= |edges|
    ensures |Successors(edges[..n], v)| == |OutIdx(edges, v, n)|
    ensures forall i :: 0 <= i < |OutIdx(edges, v, n)| ==>
              && OutIdx(edges, v, n)[i] < n
              && Successors(edges[..n], v)[i] == edges[OutIdx(edges, v, n)[i]].target
  {
    if n > 0 {
      SuccessorsAt(edges, v, n - 1);
      assert edges[..n] == edges[..n - 1] + [edges[n - 1]];
      SuccessorsAppend(edges[..n - 1], edges[n - 1], v);
    }
  }

  lemma {:induction false} PredecessorsAppend(edges: seq<Edge>, e: Edge, v: nat)
    ensures Predecessors(edges + [e], v) == Predecessors(edges, v) + if e.target == v then [e.source] else []
  {
    if edges == [] {
      assert edges + [e] == [e];
    } else {
      assert (edges + [e])[1..] == edges[1..] + [e];
      PredecessorsAppend(edges[1..], e, v);
      var head, last := if edges[0].target == v then [edges[0].source] else [], if e.target == v then [e.source] else [];
      assert head + (Predecessors(edges[1..], v) + last) == (head + Predecessors(edges[1..], v)) + last;
    }
  }

  lemma {:induction false} PredecessorsHas(edges: seq<Edge>, v: nat, u: nat)
    ensures u in Predecessors(edges, v) <==> Joined(edges, u, v)
  {
    if edges == [] {
    } else {
      PredecessorsHas(edges[1..], v, u);
      if Joined(edges, u, v) {
        var j :| 0 <= j < |edges| && edges[j].source == u && edges[j].target == v;
        assert j > 0 ==> edges[1..][j - 1] == edges[j];
      }
      if Joined(edges[1..], u, v) {
        var j :| 0 <= j < |edges[1..]| && edges[1..][j].source == u && edges[1..][j].target == v;
        assert edges[j + 1] == edges[1..][j];
      }
    }
  }

  lemma {:induction false} SuccessorsHas(edges: seq<Edge>, v: nat, u: nat)
    ensures u in Successors(edges, v) <==> Joined(edges, v, u)
  {
    if edges == [] {
    } else {
      SuccessorsHas(edges[1..], v, u);
      if Joined(edges, v, u) {
        var j :| 0 <= j < |edges| && edges[j].source == v && edges[j].target == u;
        assert j > 0 ==> edges[1..][j - 1] == edges[j];
      }
      if Joined(edges[1..], v, u) {
        var j :| 0 <= j < |edges[1..]| && edges[1..][j].source == v && edges[1..][j].target == u;
        assert edges[j + 1] == edges[1..][j];
      }
    }
  }

  /** The label of the first matching edge is the label of an edge; later edges do not change it. */
  lemma {:induction false} LabelFound(edges: seq<Edge>, more: seq<Edge>, s: nat, t: nat) returns (j: nat)
    requires Joined(edges, s, t)
    ensures j < |edges| && edges[j] == Edge(s, t, Label(edges, s, t))
    ensures Label(edges + more, s, t) == Label(edges, s, t)
    ensures Joined(edges + more, s, t)
  {
    assert (edges + more)[1..] == edges[1..] + more;
    if edges[0].source == s && edges[0].target == t {
      j := 0;
    } else {
      var i :| 0 <= i < |edges| && edges[i].source == s && edges[i].target == t;
      assert edges[1..][i - 1] == edges[i];
      var k := LabelFound(edges[1..], more, s, t);
      j := k + 1;
    }
    assert (edges + more)[j] == edges[j];
  }

  /** In a graph with at most one edge between two nodes, the label is the one of that edge. */
  lemma LabelOfEdge(edges: seq<Edge>, j: nat)
    requires Simple(edges) && j < |edges|
    ensures Label(edges, edges[j].source, edges[j].target) == edges[j].lab
  {
    assert Joined(edges, edges[j].source, edges[j].target);
    var i := LabelFound(edges, [], edges[j].source, edges[j].target);
  }
}
