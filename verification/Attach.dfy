/** Adding one branch of fresh nodes between two nodes of a graph. It comes first among the targets
    of the head and first among the groups of the tail's port. */
module Attach {
  import opened Graph
  import opened Expand
  import opened Setup

  /** A branch of `|labs| - 1` fresh nodes, the first of which has the handle `first`. */
  datatype Twig = Twig(head: nat, tail: nat, first: nat, labs: seq<nat>)

  function TwigNode(x: Twig, j: int): nat
    requires -1 <= j < |x.labs|
  {
    if j == -1 then x.head else if j == |x.labs| - 1 then x.tail else x.first + j
  }

  function TwigEdge(x: Twig, j: nat): Edge
    requires j < |x.labs|
  {
    Edge(TwigNode(x, j - 1), TwigNode(x, j), x.labs[j])
  }

  function TwigEdges(x: Twig): (r: seq<Edge>)
    ensures |r| == |x.labs| && forall j :: 0 <= j < |x.labs| ==> r[j] == TwigEdge(x, j)
  {
    seq(|x.labs|, j requires 0 <= j < |x.labs| => TwigEdge(x, j))
  }

  function Attached(g: Topology, x: Twig): Topology
    requires |x.labs| >= 2
  {
    Topology(g.nodes + BranchNodes(x.first, |x.labs| - 1), g.edges + TwigEdges(x))
  }

  ghost predicate Fits(g: Topology, x: Twig) {
    && |x.labs| >= 2 && Closed(g) && Below(g, x.first)
    && x.head in g.nodes && x.tail in g.nodes && x.head != x.tail
  }

  /** An edge that is new has number `j` of the twig. */
  lemma NewEdge(g: Topology, x: Twig, d: nat) returns (j: nat)
    requires Fits(g, x) && |g.edges| <= d < |Attached(g, x).edges|
    ensures d == |g.edges| + j && j < |x.labs|
    ensures Attached(g, x).edges[d] == TwigEdge(x, j)
    ensures TwigEdge(x, j).source == if j == 0 then x.head else x.first + j - 1
    ensures TwigEdge(x, j).target == if j == |x.labs| - 1 then x.tail else x.first + j
  {
    j := d - |g.edges|;
  }

  lemma OldEdge(g: Topology, x: Twig, d: nat)
    requires |x.labs| >= 2 && d < |g.edges|
    ensures Attached(g, x).edges[d] == g.edges[d]
  {
  }

  lemma HeadFirst(g: Topology, x: Twig)
    requires Fits(g, x)
    ensures Outs(Attached(g, x), x.head) == [|g.edges|] + Outs(g, x.head)
  {
    var edges := Attached(g, x).edges;
    forall d | |g.edges| <= d < |edges|
      ensures edges[d].source == x.head <==> d == |g.edges|
    {
      var j := NewEdge(g, x, d);
    }
    OutIdxOne(edges, x.head, |g.edges|, |edges|, |g.edges|);
    OutIdxPrefix(g.edges, TwigEdges(x), x.head, |g.edges|);
  }

  lemma {:induction false} HitsNone(edges: seq<Edge>, w: nat, t: nat, p: nat, m: nat, n: nat)
    requires m <= n <= |edges|
    requires forall j :: m <= j < n ==> edges[j] != Edge(w, t, p)
    ensures Hits(edges, w, t, p, n) == Hits(edges, w, t, p, m)
  {
    if m < n {
      HitsNone(edges, w, t, p, m, n - 1);
    }
  }

  lemma {:induction false} HitsPrefix(edges: seq<Edge>, more: seq<Edge>, w: nat, t: nat, p: nat, n: nat)
    requires n <= |edges|
    ensures Hits(edges + more, w, t, p, n) == Hits(edges, w, t, p, n)
  {
    if n > 0 {
      HitsPrefix(edges, more, w, t, p, n - 1);
    }
  }

  lemma LastTwigNode(g: Topology, x: Twig, w: nat, d: nat)
    requires Fits(g, x) && |g.edges| <= d < |Attached(g, x).edges|
    ensures Attached(g, x).edges[d] == Edge(w, x.tail, x.labs[|x.labs| - 1]) <==>
            d == |g.edges| + |x.labs| - 1 && w == x.first + |x.labs| - 2
  {
    var j := NewEdge(g, x, d);
  }

  lemma TailHits(g: Topology, x: Twig, w: nat)
    requires Fits(g, x)
    ensures var p, edges := x.labs[|x.labs| - 1], Attached(g, x).edges;
            Hits(edges, w, x.tail, p, |edges|) ==
              Hits(g.edges, w, x.tail, p, |g.edges|) + if w == x.first + |x.labs| - 2 then [|edges| - 1] else []
  {
    var p, edges := x.labs[|x.labs| - 1], Attached(g, x).edges;
    var last := |edges| - 1;
    forall d | |g.edges| <= d < |edges|
      ensures edges[d] == Edge(w, x.tail, p) <==> d == last && w == x.first + |x.labs| - 2
    {
      LastTwigNode(g, x, w, d);
    }
    HitsNone(edges, w, x.tail, p, |g.edges|, last);
    HitsPrefix(g.edges, TwigEdges(x), w, x.tail, p, |g.edges|);
  }

  /** The groups after the first `k` nodes have been visited. */
  lemma {:induction false} TailUpTo(g: Topology, x: Twig, k: nat)
    requires Fits(g, x) && k <= |g.nodes|
    ensures InIdx(Attached(g, x), x.tail, x.labs[|x.labs| - 1], k) == InIdx(g, x.tail, x.labs[|x.labs| - 1], k)
  {
    if k > 0 {
      TailUpTo(g, x, k - 1);
      TailHits(g, x, g.nodes[k - 1]);
      assert g.nodes[k - 1] in g.nodes;
    }
  }

  lemma {:induction false} TailBeyond(g: Topology, x: Twig, k: nat)
    requires Fits(g, x) && |g.nodes| <= k < |g.nodes| + |x.labs| - 1
    ensures InIdx(Attached(g, x), x.tail, x.labs[|x.labs| - 1], k) == Ins(g, x.tail, x.labs[|x.labs| - 1])
  {
    if k == |g.nodes| {
      TailUpTo(g, x, k);
    } else {
      TailBeyond(g, x, k - 1);
      var w := Attached(g, x).nodes[k - 1];
      assert w == x.first + (k - 1 - |g.nodes|);
      TailHits(g, x, w);
      HitsNone(g.edges, w, x.tail, x.labs[|x.labs| - 1], 0, |g.edges|);
    }
  }

  lemma TailFirst(g: Topology, x: Twig)
    requires Fits(g, x)
    ensures Ins(Attached(g, x), x.tail, x.labs[|x.labs| - 1])
         == [|g.edges| + |x.labs| - 1] + Ins(g, x.tail, x.labs[|x.labs| - 1])
  {
    var k := |g.nodes| + |x.labs| - 1;
    TailBeyond(g, x, k - 1);
    var w := Attached(g, x).nodes[k - 1];
    assert w == x.first + |x.labs| - 2;
    TailHits(g, x, w);
    HitsNone(g.edges, w, x.tail, x.labs[|x.labs| - 1], 0, |g.edges|);
  }

  // All other lists stay as they are.

  lemma OutsElse(g: Topology, x: Twig, v: nat)
    requires Fits(g, x) && v < x.first && v != x.head
    ensures Outs(Attached(g, x), v) == Outs(g, v)
  {
    var edges := Attached(g, x).edges;
    forall d | |g.edges| <= d < |edges|
      ensures edges[d].source != v
    {
      var j := NewEdge(g, x, d);
    }
    OutIdxNone(edges, v, |g.edges|, |edges|);
    OutIdxPrefix(g.edges, TwigEdges(x), v, |g.edges|);
  }

  lemma OutsTwig(g: Topology, x: Twig, j: nat)
    requires Fits(g, x) && j < |x.labs| - 1
    ensures |Outs(Attached(g, x), x.first + j)| == 1
  {
    var edges, v, e := Attached(g, x).edges, x.first + j, |g.edges| + j + 1;
    forall d | 0 <= d < |edges|
      ensures edges[d].source == v <==> d == e
    {
      if d < |g.edges| {
        OldEdge(g, x, d);
      } else {
        var i := NewEdge(g, x, d);
      }
    }
    OutIdxOne(edges, v, 0, |edges|, e);
    assert OutIdx(edges, v, 0) == [];
  }

  lemma HitsElse(g: Topology, x: Twig, w: nat, v: nat, p: nat)
    requires Fits(g, x) && v < x.first && !(v == x.tail && p == x.labs[|x.labs| - 1])
    ensures Hits(Attached(g, x).edges, w, v, p, |Attached(g, x).edges|) == Hits(g.edges, w, v, p, |g.edges|)
  {
    var edges := Attached(g, x).edges;
    forall d | |g.edges| <= d < |edges|
      ensures edges[d] != Edge(w, v, p)
    {
      var j := NewEdge(g, x, d);
    }
    HitsNone(edges, w, v, p, |g.edges|, |edges|);
    HitsPrefix(g.edges, TwigEdges(x), w, v, p, |g.edges|);
  }

  lemma {:induction false} InsUpTo(g: Topology, x: Twig, v: nat, p: nat, k: nat)
    requires Fits(g, x) && v < x.first && !(v == x.tail && p == x.labs[|x.labs| - 1]) && k <= |g.nodes|
    ensures InIdx(Attached(g, x), v, p, k) == InIdx(g, v, p, k)
  {
    if k > 0 {
      InsUpTo(g, x, v, p, k - 1);
      HitsElse(g, x, g.nodes[k - 1], v, p);
    }
  }

  lemma {:induction false} InsBeyond(g: Topology, x: Twig, v: nat, p: nat, k: nat)
    requires Fits(g, x) && v < x.first && !(v == x.tail && p == x.labs[|x.labs| - 1]) && |g.nodes| <= k <= |Attached(g, x).nodes|
    ensures InIdx(Attached(g, x), v, p, k) == Ins(g, v, p)
  {
    if k == |g.nodes| {
      InsUpTo(g, x, v, p, k);
    } else {
      InsBeyond(g, x, v, p, k - 1);
      var w := Attached(g, x).nodes[k - 1];
      assert w == x.first + (k - 1 - |g.nodes|);
      HitsElse(g, x, w, v, p);
      HitsNone(g.edges, w, v, p, 0, |g.edges|);
    }
  }

  lemma InsElse(g: Topology, x: Twig, v: nat, p: nat)
    requires Fits(g, x) && v < x.first && !(v == x.tail && p == x.labs[|x.labs| - 1])
    ensures Ins(Attached(g, x), v, p) == Ins(g, v, p)
  {
    InsBeyond(g, x, v, p, |Attached(g, x).nodes|);
  }

  lemma AttachedNodes(g: Topology, x: Twig)
    requires Fits(g, x)
    ensures Distinct(Attached(g, x).nodes)
    ensures forall v :: v in Attached(g, x).nodes <==> v in g.nodes || x.first <= v < x.first + |x.labs| - 1
  {
    var nodes := Attached(g, x).nodes;
    forall v: nat
      ensures v in nodes <==> v in g.nodes || x.first <= v < x.first + |x.labs| - 1
    {
      if x.first <= v < x.first + |x.labs| - 1 {
        assert nodes[|g.nodes| + (v - x.first)] == v;
      }
    }
    forall i, j | 0 <= i < j < |nodes|
      ensures nodes[i] != nodes[j]
    {
      if i < |g.nodes| {
        assert g.nodes[i] in g.nodes;
      }
    }
  }

  lemma AttachedClosed(g: Topology, x: Twig)
    requires Fits(g, x)
    ensures Closed(Attached(g, x)) && Below(Attached(g, x), x.first + |x.labs| - 1)
  {
    var g' := Attached(g, x);
    AttachedNodes(g, x);
    forall d | 0 <= d < |g'.edges|
      ensures g'.edges[d].source in g'.nodes && g'.edges[d].target in g'.nodes
    {
      if d < |g.edges| {
        OldEdge(g, x, d);
      } else {
        var j := NewEdge(g, x, d);
      }
    }
  }

  lemma AttachedSimple(g: Topology, x: Twig)
    requires Fits(g, x) && Simple(g.edges)
    ensures Simple(Attached(g, x).edges)
  {
    var edges := Attached(g, x).edges;
    forall c, d | 0 <= c < d < |edges|
      ensures edges[c].source != edges[d].source || edges[c].target != edges[d].target
    {
      if d < |g.edges| {
        OldEdge(g, x, c);
        OldEdge(g, x, d);
      } else {
        var j := NewEdge(g, x, d);
        if c < |g.edges| {
          OldEdge(g, x, c);
        } else {
          var i := NewEdge(g, x, c);
        }
      }
    }
  }
}
