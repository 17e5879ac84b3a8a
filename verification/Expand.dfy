/** Expansion of a path: the nodes between its head and its tail are duplicated and inserted
    alongside. A node with several inputs is not copied but shared. */
module Expand {
  import opened Graph

  /** An expansion under way: the graph so far, the path nodes copied so far, and the node that the
      new branch has got to. Copy number `k` has the handle `first + k`. */
  datatype Growth = Growth(graph: Topology, made: seq<nat>, current: nat)

  /** The branch moves on to position `i` of the path. */
  function Advance(first: nat, x: Growth, path: seq<nat>, i: nat): Growth
    requires 1 <= i < |path|
  {
    var lab := Label(x.graph.edges, path[i - 1], path[i]);
    if |Predecessors(x.graph.edges, path[i])| <= 1 then
      var copy := first + |x.made|;
      Growth(Connect(x.graph, x.current, copy, lab), x.made + [path[i]], copy)
    else
      Growth(Connect(x.graph, x.current, path[i], lab), x.made, path[i])
  }

  /** The branch joins the tail. */
  function Close(x: Growth, path: seq<nat>): Growth
    requires |path| >= 2
  {
    var last := |path| - 1;
    x.(graph := Connect(x.graph, x.current, path[last], Label(x.graph.edges, path[last - 1], path[last])))
  }

  function ExpandFrom(first: nat, x: Growth, path: seq<nat>, i: nat): Growth
    requires 1 <= i < |path|
    decreases |path| - i
  {
    if i == |path| - 1 then Close(x, path) else ExpandFrom(first, Advance(first, x, path, i), path, i + 1)
  }

  /** The graph after one expansion of `path`, and what was copied. */
  function Expanded(g: Topology, first: nat, path: seq<nat>): Growth {
    if |path| < 2 then Growth(g, [], 0) else ExpandFrom(first, Growth(g, [], path[0]), path, 1)
  }

  /** The graph after `n` expansions of the same path, and everything that was copied. */
  function ExpandTimes(g: Topology, first: nat, path: seq<nat>, n: nat): Growth {
    if n == 0 then Growth(g, [], 0)
    else
      var x := ExpandTimes(g, first, path, n - 1);
      var y := Expanded(x.graph, first + |x.made|, path);
      Growth(y.graph, x.made + y.made, 0)
  }

  predicate Linked(edges: seq<Edge>, path: seq<nat>, i: nat) {
    0 < i < |path| && Joined(edges, path[i - 1], path[i])
  }

  ghost predicate IsPath(edges: seq<Edge>, path: seq<nat>) {
    forall i :: 0 < i < |path| ==> Linked(edges, path, i)
  }

  ghost predicate Ranked(edges: seq<Edge>, rank: nat -> nat) {
    forall j :: 0 <= j < |edges| ==> rank(edges[j].source) < rank(edges[j].target)
  }

  lemma {:induction false} RankGrows(edges: seq<Edge>, rank: nat -> nat, path: seq<nat>, a: nat, b: nat)
    requires IsPath(edges, path) && Ranked(edges, rank) && a < b < |path|
    ensures rank(path[a]) < rank(path[b])
  {
    assert Linked(edges, path, b);
    if a < b - 1 {
      RankGrows(edges, rank, path, a, b - 1);
    }
  }

  lemma StillPath(edges: seq<Edge>, g: Topology, path: seq<nat>)
    requires IsPath(edges, path) && |edges| <= |g.edges| && g.edges[..|edges|] == edges
    ensures IsPath(g.edges, path)
  {
    forall i | 0 < i < |path|
      ensures Linked(g.edges, path, i)
    {
      assert Linked(edges, path, i);
      assert g.edges == edges + g.edges[|edges|..];
      var j := LabelFound(edges, g.edges[|edges|..], path[i - 1], path[i]);
    }
  }

  // Every expansion is a covering: mapping copies to what they copy maps edges to edges.

  /** The original of a copy that an expansion has made, and every other node itself. */
  function Base(next: nat, made: seq<nat>, v: nat): nat {
    if next <= v < next + |made| then made[v - next] else v
  }

  /** Nodes from `next` on are not in use. */
  ghost predicate Below(g: Topology, next: nat) {
    && (forall v :: v in g.nodes ==> v < next)
    && forall j :: 0 <= j < |g.edges| ==> g.edges[j].source < next && g.edges[j].target < next
  }

  function Image(next: nat, made: seq<nat>, e: Edge): Edge {
    Edge(Base(next, made, e.source), Base(next, made, e.target), e.lab)
  }

  /** `edges` extends `orig` by edges whose images are edges of `orig` with the same label. */
  ghost predicate Maps(orig: seq<Edge>, edges: seq<Edge>, next: nat, made: seq<nat>) {
    && |orig| <= |edges| && edges[..|orig|] == orig
    && forall j :: 0 <= j < |edges| ==> Lands(orig, edges, next, made, j)
  }

  ghost predicate Lands(orig: seq<Edge>, edges: seq<Edge>, next: nat, made: seq<nat>, j: nat) {
    j < |edges| && Image(next, made, edges[j]) in orig
  }

  lemma ConnectGrows(g: Topology, s: nat, t: nat, lab: nat)
    ensures var g' := Connect(g, s, t, lab);
            && (g'.edges == g.edges || g'.edges == g.edges + [Edge(s, t, lab)])
            && (forall v :: v in g'.nodes ==> v in g.nodes || v == s || v == t)
  {
  }

  /** Adding an edge whose image exists keeps the covering; so does a copy that no edge uses yet. */
  lemma MapsConnect(orig: seq<Edge>, g: Topology, first: nat, done: seq<nat>, s: nat, t: nat, lab: nat)
    requires Maps(orig, g.edges, first, done)
    requires Image(first, done, Edge(s, t, lab)) in orig
    ensures Maps(orig, Connect(g, s, t, lab).edges, first, done)
  {
    ConnectGrows(g, s, t, lab);
    var edges := Connect(g, s, t, lab).edges;
    forall j | 0 <= j < |edges|
      ensures Lands(orig, edges, first, done, j)
    {
      assert j < |g.edges| ==> Lands(orig, g.edges, first, done, j) && edges[j] == g.edges[j];
    }
  }

  lemma MapsExtend(orig: seq<Edge>, g: Topology, first: nat, done: seq<nat>, c: nat)
    requires Maps(orig, g.edges, first, done) && Below(g, first + |done|)
    ensures Maps(orig, g.edges, first, done + [c])
  {
    forall j | 0 <= j < |g.edges|
      ensures Lands(orig, g.edges, first, done + [c], j)
    {
      assert Lands(orig, g.edges, first, done, j);
      assert Image(first, done + [c], g.edges[j]) == Image(first, done, g.edges[j]);
    }
  }

  lemma PathLabel(orig: seq<Edge>, edges: seq<Edge>, path: seq<nat>, i: nat)
    requires 1 <= i < |path| && IsPath(orig, path)
    requires |orig| <= |edges| && edges[..|orig|] == orig
    ensures Edge(path[i - 1], path[i], Label(edges, path[i - 1], path[i])) in orig
    ensures Label(edges, path[i - 1], path[i]) == Label(orig, path[i - 1], path[i])
  {
    assert Linked(orig, path, i);
    assert edges == orig + edges[|orig|..];
    var j := LabelFound(orig, edges[|orig|..], path[i - 1], path[i]);
  }

  /** What holds throughout an expansion of `path` that has got to position `i`. */
  ghost predicate Covering(orig: Topology, first: nat, x: Growth, path: seq<nat>, i: nat) {
    && 1 <= i < |path| && IsPath(orig.edges, path) && (forall k :: 0 <= k < |path| ==> path[k] < first)
    && (forall c :: c in x.made ==> c in path)
    && Below(x.graph, first + |x.made|) && x.current < first + |x.made|
    && Maps(orig.edges, x.graph.edges, first, x.made)
    && Base(first, x.made, x.current) == path[i - 1]
  }

  /** What holds when the expansion is complete. */
  ghost predicate Covered(orig: Topology, first: nat, y: Growth, path: seq<nat>) {
    && Below(y.graph, first + |y.made|) && Maps(orig.edges, y.graph.edges, first, y.made)
    && (forall c :: c in y.made ==> c in path)
  }

  lemma BelowConnect(g: Topology, next: nat, next': nat, s: nat, t: nat, lab: nat)
    requires Below(g, next) && next <= next' && s < next' && t < next'
    ensures Below(Connect(g, s, t, lab), next')
  {
    ConnectGrows(g, s, t, lab);
  }

  lemma MapsCopy(orig: seq<Edge>, g: Topology, first: nat, made: seq<nat>, current: nat, before: nat, c: nat, lab: nat)
    requires Maps(orig, g.edges, first, made) && Below(g, first + |made|) && current < first + |made|
    requires Base(first, made, current) == before && Edge(before, c, lab) in orig
    ensures Maps(orig, Connect(g, current, first + |made|, lab).edges, first, made + [c])
  {
    assert Base(first, made + [c], current) == before;
    assert Base(first, made + [c], first + |made|) == c;
    MapsExtend(orig, g, first, made, c);
    MapsConnect(orig, g, first, made + [c], current, first + |made|, lab);
  }

  lemma CopyMaps(orig: Topology, first: nat, x: Growth, path: seq<nat>, i: nat, lab: nat)
    requires Covering(orig, first, x, path, i) && i + 1 < |path|
    requires Edge(path[i - 1], path[i], lab) in orig.edges
    ensures Maps(orig.edges, Connect(x.graph, x.current, first + |x.made|, lab).edges, first, x.made + [path[i]])
  {
    MapsCopy(orig.edges, x.graph, first, x.made, x.current, path[i - 1], path[i], lab);
  }

  lemma CopyCovers(orig: Topology, first: nat, x: Growth, path: seq<nat>, i: nat, lab: nat, copy: nat, y: Growth)
    requires Covering(orig, first, x, path, i) && i + 1 < |path| && copy == first + |x.made|
    requires Edge(path[i - 1], path[i], lab) in orig.edges
    requires y.graph == Connect(x.graph, x.current, copy, lab) && y.made == x.made + [path[i]] && y.current == copy
    ensures Covering(orig, first, y, path, i + 1)
  {
    CopyMaps(orig, first, x, path, i, lab);
    BelowConnect(x.graph, copy, copy + 1, x.current, copy, lab);
  }

  lemma ShareCovers(orig: Topology, first: nat, x: Growth, path: seq<nat>, i: nat, lab: nat)
    requires Covering(orig, first, x, path, i)
    requires Edge(path[i - 1], path[i], lab) in orig.edges
    ensures Below(Connect(x.graph, x.current, path[i], lab), first + |x.made|)
    ensures Maps(orig.edges, Connect(x.graph, x.current, path[i], lab).edges, first, x.made)
  {
    MapsConnect(orig.edges, x.graph, first, x.made, x.current, path[i], lab);
    BelowConnect(x.graph, first + |x.made|, first + |x.made|, x.current, path[i], lab);
  }

  lemma AdvanceIsCopy(first: nat, x: Growth, path: seq<nat>, i: nat, lab: nat, y: Growth)
    requires 1 <= i < |path| && |Predecessors(x.graph.edges, path[i])| <= 1
    requires lab == Label(x.graph.edges, path[i - 1], path[i]) && y == Advance(first, x, path, i)
    ensures y.graph == Connect(x.graph, x.current, first + |x.made|, lab)
    ensures y.made == x.made + [path[i]] && y.current == first + |x.made|
  {
  }

  lemma AdvanceCopies(orig: Topology, first: nat, x: Growth, path: seq<nat>, i: nat, lab: nat, y: Growth)
    requires Covering(orig, first, x, path, i) && i + 1 < |path| && |Predecessors(x.graph.edges, path[i])| <= 1
    requires lab == Label(x.graph.edges, path[i - 1], path[i]) && y == Advance(first, x, path, i)
    ensures Covering(orig, first, y, path, i + 1)
  {
    PathLabel(orig.edges, x.graph.edges, path, i);
    AdvanceIsCopy(first, x, path, i, lab, y);
    CopyCovers(orig, first, x, path, i, lab, first + |x.made|, y);
  }

  lemma AdvanceShares(orig: Topology, first: nat, x: Growth, path: seq<nat>, i: nat)
    requires Covering(orig, first, x, path, i) && i + 1 < |path| && |Predecessors(x.graph.edges, path[i])| > 1
    ensures Covering(orig, first, Advance(first, x, path, i), path, i + 1)
  {
    assert Edge(path[i - 1], path[i], Label(x.graph.edges, path[i - 1], path[i])) in orig.edges by {
      PathLabel(orig.edges, x.graph.edges, path, i);
    }
    ShareCovers(orig, first, x, path, i, Label(x.graph.edges, path[i - 1], path[i]));
  }

  lemma AdvanceCovers(orig: Topology, first: nat, x: Growth, path: seq<nat>, i: nat)
    requires Covering(orig, first, x, path, i) && i + 1 < |path|
    ensures Covering(orig, first, Advance(first, x, path, i), path, i + 1)
  {
    if |Predecessors(x.graph.edges, path[i])| <= 1 {
      AdvanceCopies(orig, first, x, path, i, Label(x.graph.edges, path[i - 1], path[i]), Advance(first, x, path, i));
    } else {
      AdvanceShares(orig, first, x, path, i);
    }
  }

  lemma CloseCovers(orig: Topology, first: nat, x: Growth, path: seq<nat>)
    requires |path| >= 2 && Covering(orig, first, x, path, |path| - 1)
    ensures Covered(orig, first, Close(x, path), path)
  {
    var i := |path| - 1;
    PathLabel(orig.edges, x.graph.edges, path, i);
    ShareCovers(orig, first, x, path, i, Label(x.graph.edges, path[i - 1], path[i]));
  }

  lemma {:induction false} ExpandFromCovers(orig: Topology, first: nat, x: Growth, path: seq<nat>, i: nat)
    requires 1 <= i < |path| && Covering(orig, first, x, path, i)
    ensures Covered(orig, first, ExpandFrom(first, x, path, i), path)
    decreases |path| - i
  {
    if i == |path| - 1 {
      CloseCovers(orig, first, x, path);
    } else {
      AdvanceCovers(orig, first, x, path, i);
      ExpandFromCovers(orig, first, Advance(first, x, path, i), path, i + 1);
    }
  }

  /** One expansion of any path, also when some of its nodes have several inputs and are shared: all
      edges survive, and mapping copies to their originals maps every edge to an edge with the same
      label. */
  lemma ExpandCovers(g: Topology, first: nat, path: seq<nat>)
    requires Below(g, first) && IsPath(g.edges, path) && forall k :: 0 <= k < |path| ==> path[k] < first
    ensures Covered(g, first, Expanded(g, first, path), path)
  {
    forall k | 0 <= k < |g.edges|
      ensures Lands(g.edges, g.edges, first, [], k)
    {
      assert Image(first, [], g.edges[k]) == g.edges[k];
    }
    if |path| >= 2 {
      ExpandFromCovers(g, first, Growth(g, [], path[0]), path, 1);
    }
  }

  /** An acyclic graph stays acyclic. */
  lemma ExpandAcyclic(g: Topology, first: nat, path: seq<nat>, rank: nat -> nat) returns (rank': nat -> nat)
    requires Below(g, first) && IsPath(g.edges, path) && (forall k :: 0 <= k < |path| ==> path[k] < first)
    requires Ranked(g.edges, rank)
    ensures Ranked(Expanded(g, first, path).graph.edges, rank')
    ensures forall v: nat :: v < first ==> rank'(v) == rank(v)
  {
    var y := Expanded(g, first, path);
    ExpandCovers(g, first, path);
    rank' := (v: nat) => rank(Base(first, y.made, v));
    RankThrough(g.edges, y.graph.edges, first, y.made, rank);
  }

  lemma RankThrough(orig: seq<Edge>, edges: seq<Edge>, first: nat, made: seq<nat>, rank: nat -> nat)
    requires Maps(orig, edges, first, made) && Ranked(orig, rank)
    ensures Ranked(edges, (v: nat) => rank(Base(first, made, v)))
  {
    forall j | 0 <= j < |edges|
      ensures rank(Base(first, made, edges[j].source)) < rank(Base(first, made, edges[j].target))
    {
      assert Lands(orig, edges, first, made, j);
    }
  }

  // The graph after an expansion, when no node between head and tail has several inputs.

  /** Copy number `j` of the nodes between head and tail, between the head (-1) and the tail. */
  function BranchNode(first: nat, path: seq<nat>, j: int): nat
    requires |path| >= 3 && -1 <= j <= |path| - 2
  {
    if j == -1 then path[0] else if j == |path| - 2 then path[|path| - 1] else first + j
  }

  function BranchEdge(edges: seq<Edge>, first: nat, path: seq<nat>, j: nat): Edge
    requires |path| >= 3 && j < |path| - 1
  {
    Edge(BranchNode(first, path, j - 1), BranchNode(first, path, j), Label(edges, path[j], path[j + 1]))
  }

  function BranchNodes(first: nat, n: nat): (r: seq<nat>)
    ensures |r| == n && forall j :: 0 <= j < n ==> r[j] == first + j
  {
    seq(n, j requires 0 <= j < n => first + j)
  }

  function BranchEdges(edges: seq<Edge>, first: nat, path: seq<nat>, n: nat): (r: seq<Edge>)
    requires |path| >= 3 && n <= |path| - 1
    ensures |r| == n && forall j :: 0 <= j < n ==> r[j] == BranchEdge(edges, first, path, j)
  {
    seq(n, j requires 0 <= j < n => BranchEdge(edges, first, path, j))
  }

  /** The path runs through the graph and its inner nodes have one input. */
  ghost predicate Duplicable(g: Topology, path: seq<nat>) {
    && |path| >= 3 && IsPath(g.edges, path)
    && (forall k :: 0 <= k < |path| ==> path[k] in g.nodes)
    && (forall k :: 0 < k < |path| - 1 ==> |Predecessors(g.edges, path[k])| <= 1)
  }

  /** Position `i` of such an expansion: `i - 1` copies are in place. */
  function PartialGrowth(g: Topology, first: nat, path: seq<nat>, i: nat): Growth
    requires |path| >= 3 && 1 <= i <= |path| - 1
  {
    Growth(Topology(g.nodes + BranchNodes(first, i - 1), g.edges + BranchEdges(g.edges, first, path, i - 1)),
           path[1..i], BranchNode(first, path, i - 2))
  }

  lemma {:induction false} PredecessorsNone(edges: seq<Edge>, more: seq<Edge>, v: nat)
    requires forall j :: 0 <= j < |more| ==> more[j].target != v
    ensures Predecessors(edges + more, v) == Predecessors(edges, v)
  {
    if more == [] {
      assert edges + more == edges;
    } else {
      var n := |more| - 1;
      PredecessorsNone(edges, more[..n], v);
      assert edges + more == (edges + more[..n]) + [more[n]];
      PredecessorsAppend(edges + more[..n], more[n], v);
    }
  }

  lemma ConnectFresh(g: Topology, s: nat, t: nat, lab: nat)
    requires s in g.nodes && t !in g.nodes && s != t && forall j :: 0 <= j < |g.edges| ==> g.edges[j].target != t
    ensures Connect(g, s, t, lab) == Topology(g.nodes + [t], g.edges + [Edge(s, t, lab)])
  {
    assert !Joined(g.edges, s, t);
  }

  /** What position `i` has beyond position `i - 1`. */
  lemma PartialStep(g: Topology, first: nat, path: seq<nat>, i: nat)
    requires |path| >= 3 && 1 <= i < |path| - 1
    ensures var x, y := PartialGrowth(g, first, path, i), PartialGrowth(g, first, path, i + 1);
            && y.graph.nodes == x.graph.nodes + [first + (i - 1)] && y.made == x.made + [path[i]] && y.current == first + (i - 1)
            && y.graph.edges == x.graph.edges + [Edge(x.current, first + (i - 1), Label(g.edges, path[i - 1], path[i]))]
  {
    assert BranchEdges(g.edges, first, path, i) == BranchEdges(g.edges, first, path, i - 1) + [BranchEdge(g.edges, first, path, i - 1)];
    assert BranchNodes(first, i) == BranchNodes(first, i - 1) + [first + (i - 1)];
  }

  lemma PartialInside(g: Topology, first: nat, path: seq<nat>, i: nat)
    requires Duplicable(g, path) && Below(g, first) && 1 <= i < |path| - 1
    ensures var x, copy := PartialGrowth(g, first, path, i), first + (i - 1);
            && x.current in x.graph.nodes && copy !in x.graph.nodes && x.current != copy
            && forall j :: 0 <= j < |x.graph.edges| ==> x.graph.edges[j].target != copy
  {
    var x := PartialGrowth(g, first, path, i);
    if i > 1 {
      assert x.graph.nodes[|g.nodes| + i - 2] == x.current;
    }
  }

  /** Advancing with a copy. */
  lemma AdvanceFresh(first: nat, x: Growth, path: seq<nat>, i: nat, copy: nat, y: Growth)
    requires 1 <= i < |path| && |Predecessors(x.graph.edges, path[i])| <= 1 && copy == first + |x.made|
    requires x.current in x.graph.nodes && copy !in x.graph.nodes && x.current != copy
    requires forall j :: 0 <= j < |x.graph.edges| ==> x.graph.edges[j].target != copy
    requires y.graph.nodes == x.graph.nodes + [copy] && y.made == x.made + [path[i]] && y.current == copy
    requires y.graph.edges == x.graph.edges + [Edge(x.current, copy, Label(x.graph.edges, path[i - 1], path[i]))]
    ensures Advance(first, x, path, i) == y
  {
    ConnectFresh(x.graph, x.current, copy, Label(x.graph.edges, path[i - 1], path[i]));
  }

  lemma AdvancePartial(g: Topology, first: nat, path: seq<nat>, i: nat)
    requires Duplicable(g, path) && Below(g, first) && 1 <= i < |path| - 1
    ensures Advance(first, PartialGrowth(g, first, path, i), path, i) == PartialGrowth(g, first, path, i + 1)
  {
    var x := PartialGrowth(g, first, path, i);
    assert Label(x.graph.edges, path[i - 1], path[i]) == Label(g.edges, path[i - 1], path[i]) by {
      PathLabel(g.edges, x.graph.edges, path, i);
    }
    assert |Predecessors(x.graph.edges, path[i])| <= 1 by {
      PredecessorsNone(g.edges, BranchEdges(g.edges, first, path, i - 1), path[i]);
    }
    PartialInside(g, first, path, i);
    PartialStep(g, first, path, i);
    AdvanceFresh(first, x, path, i, first + (i - 1), PartialGrowth(g, first, path, i + 1));
  }

  lemma ClosePartial(g: Topology, first: nat, path: seq<nat>)
    requires Duplicable(g, path) && Below(g, first)
    ensures Close(PartialGrowth(g, first, path, |path| - 1), path).graph
         == Topology(g.nodes + BranchNodes(first, |path| - 2), g.edges + BranchEdges(g.edges, first, path, |path| - 1))
  {
    var i := |path| - 1;
    var x := PartialGrowth(g, first, path, i);
    PathLabel(g.edges, x.graph.edges, path, i);
    assert !Joined(x.graph.edges, x.current, path[i]);
    assert x.graph.nodes[|g.nodes| + i - 2] == x.current;
    assert path[i] in x.graph.nodes;
    assert BranchEdges(g.edges, first, path, i) == BranchEdges(g.edges, first, path, i - 1) + [BranchEdge(g.edges, first, path, i - 1)];
  }

  lemma {:induction false} ExpandFromPartial(g: Topology, first: nat, path: seq<nat>, i: nat)
    requires Duplicable(g, path) && Below(g, first) && 1 <= i <= |path| - 1
    ensures var y := ExpandFrom(first, PartialGrowth(g, first, path, i), path, i);
            && y.graph == Topology(g.nodes + BranchNodes(first, |path| - 2), g.edges + BranchEdges(g.edges, first, path, |path| - 1))
            && y.made == path[1..|path| - 1]
    decreases |path| - i
  {
    if i == |path| - 1 {
      ClosePartial(g, first, path);
    } else {
      AdvancePartial(g, first, path, i);
      ExpandFromPartial(g, first, path, i + 1);
    }
  }

  /** On a path of length L > 2 whose inner nodes have one input, an expansion adds exactly L - 2
      nodes and L - 1 edges: one more branch from head to tail. On shorter paths it adds nothing. */
  lemma ExpandedForm(g: Topology, first: nat, path: seq<nat>)
    requires Below(g, first)
    ensures Duplicable(g, path) ==>
              && Expanded(g, first, path).graph
                 == Topology(g.nodes + BranchNodes(first, |path| - 2), g.edges + BranchEdges(g.edges, first, path, |path| - 1))
              && Expanded(g, first, path).made == path[1..|path| - 1]
    ensures |path| <= 2 && IsPath(g.edges, path) ==> Expanded(g, first, path).graph == g
  {
    if Duplicable(g, path) {
      ExpandFromPartial(g, first, path, 1);
      assert PartialGrowth(g, first, path, 1) == Growth(g, [], path[0]) by {
        assert g.nodes + BranchNodes(first, 0) == g.nodes;
        assert g.edges + BranchEdges(g.edges, first, path, 0) == g.edges;
      }
    }
    if |path| == 2 && IsPath(g.edges, path) {
      assert Linked(g.edges, path, 1);
    }
  }

  // Repeated expansion.

  /** `x` is what one more expansion makes of `z`. */
  ghost predicate Next(first: nat, path: seq<nat>, z: Growth, x: Growth) {
    var y := Expanded(z.graph, first + |z.made|, path);
    x.graph == y.graph && x.made == z.made + y.made
  }

  /** All graphs on the way from `g` through one expansion after the other. */
  ghost predicate Chain(g: Topology, first: nat, path: seq<nat>, xs: seq<Growth>) {
    && xs != [] && xs[0].graph == g && xs[0].made == []
    && forall i :: 0 < i < |xs| ==> NextAt(first, path, xs, i)
  }

  ghost predicate NextAt(first: nat, path: seq<nat>, xs: seq<Growth>, i: nat)
    requires 0 < i < |xs|
  {
    Next(first, path, xs[i - 1], xs[i])
  }

  lemma {:induction false} TimesChain(g: Topology, first: nat, path: seq<nat>, n: nat) returns (xs: seq<Growth>)
    ensures |xs| == n + 1 && Chain(g, first, path, xs) && xs[n] == ExpandTimes(g, first, path, n)
  {
    if n == 0 {
      xs := [Growth(g, [], 0)];
    } else {
      var zs := TimesChain(g, first, path, n - 1);
      xs := zs + [ExpandTimes(g, first, path, n)];
      forall i | 0 < i < |xs|
        ensures NextAt(first, path, xs, i)
      {
        if i < n {
          assert NextAt(first, path, zs, i);
        }
      }
    }
  }

  function Rounds(s: seq<nat>, n: nat): seq<nat> {
    if n == 0 then [] else Rounds(s, n - 1) + s
  }

  /** No inner node of the path is its tail; in an acyclic graph none is. */
  ghost predicate TailApart(path: seq<nat>) {
    forall k :: 0 <= k < |path| - 1 ==> path[k] != path[|path| - 1]
  }

  lemma AcyclicTail(edges: seq<Edge>, rank: nat -> nat, path: seq<nat>)
    requires IsPath(edges, path) && Ranked(edges, rank)
    ensures TailApart(path)
  {
    forall k | 0 <= k < |path| - 1
      ensures path[k] != path[|path| - 1]
    {
      RankGrows(edges, rank, path, k, |path| - 1);
    }
  }

  lemma BranchAway(g: Topology, first: nat, path: seq<nat>, k: nat)
    requires Duplicable(g, path) && Below(g, first) && TailApart(path) && 0 < k < |path| - 1
    ensures Predecessors(g.edges + BranchEdges(g.edges, first, path, |path| - 1), path[k]) == Predecessors(g.edges, path[k])
  {
    PredecessorsNone(g.edges, BranchEdges(g.edges, first, path, |path| - 1), path[k]);
  }

  /** After an expansion the path can be expanded again. */
  lemma AgainDuplicable(g: Topology, first: nat, path: seq<nat>, y: Growth)
    requires Duplicable(g, path) && Below(g, first) && TailApart(path) && y == Expanded(g, first, path)
    ensures Duplicable(y.graph, path) && y.made == path[1..|path| - 1] && Below(y.graph, first + |y.made|)
    ensures |g.edges| <= |y.graph.edges| && y.graph.edges[..|g.edges|] == g.edges
  {
    ExpandedForm(g, first, path);
    assert y.graph.edges[..|g.edges|] == g.edges;
    StillPath(g.edges, y.graph, path);
    forall k | 0 < k < |path| - 1
      ensures |Predecessors(y.graph.edges, path[k])| <= 1
    {
      BranchAway(g, first, path, k);
    }
    assert forall k :: 0 <= k < |path| ==> path[k] in y.graph.nodes;
  }

  /** Every expansion of the path copies each of its inner nodes once, in the order of the path. */
  lemma {:induction false} ExpandTimesCopies(g: Topology, first: nat, path: seq<nat>, n: nat) returns (x: Growth)
    requires Duplicable(g, path) && Below(g, first) && TailApart(path)
    ensures x == ExpandTimes(g, first, path, n)
    ensures x.made == Rounds(path[1..|path| - 1], n)
    ensures Duplicable(x.graph, path) && Below(x.graph, first + |x.made|)
  {
    if n == 0 {
      x := Growth(g, [], 0);
    } else {
      var z := ExpandTimesCopies(g, first, path, n - 1);
      var y := Expanded(z.graph, first + |z.made|, path);
      AgainDuplicable(z.graph, first + |z.made|, path, y);
      x := Growth(y.graph, z.made + y.made, 0);
    }
  }
}
