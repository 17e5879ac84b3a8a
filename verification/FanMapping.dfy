/** Mapping an expanded pipeline: every branch gets its own GPU, and all tasks of a branch share it. */
module FanMapping {
  import opened G = Graph
  import opened Expand
  import opened Setup
  import opened Fan
  import opened FanNet
  import opened Preserves
  import opened PathSearch
  import opened Mapping
  import PipelineExpansion
  import U = UfoGraph

  /** The GPU that a node is to have: that of its branch, in the order in which the head lists the
      branches; the first one for nodes outside the branches. */
  function GpuOf(brs: seq<Branch>, v: nat): nat { Off(brs, v) }

  /** A node other than the head has at most one successor; outside the branches it leads on outside
      the branches, and on a branch it leads on along the branch or to the tail. */
  ghost predicate NextOk(g: Topology, path: seq<nat>, brs: seq<Branch>, v: nat)
    requires |path| >= 3
  {
    var s := Successors(g.edges, v);
    && |s| <= 1
    && (|s| == 1 ==> BranchNo(brs, s[0]) == BranchNo(brs, v) || (BranchNo(brs, v) > 0 && s[0] == path[|path| - 1]))
  }

  ghost predicate Way(g: Topology, p: seq<nat>, v: nat, u: nat) {
    p != [] && p[0] == v && p[|p| - 1] == u && AllIn(g, p) && IsPath(g.edges, p)
  }

  /** What a visit needs to know of the graph. */
  ghost predicate Shape(g: Topology, path: seq<nat>, brs: seq<Branch>) {
    && |path| >= 3 && |brs| >= 1 && BranchNo(brs, path[0]) == 0 && BranchNo(brs, path[|path| - 1]) == 0
    && (forall v {:trigger NextOk(g, path, brs, v)} :: v in g.nodes && v != path[0] ==> NextOk(g, path, brs, v))
    && HeadOk(g, path, brs)
    && (forall v {:trigger U.IsRoot(g, v)} :: v in g.nodes && BranchNo(brs, v) > 0 ==> !U.IsRoot(g, v))
  }

  ghost predicate HeadOk(g: Topology, path: seq<nat>, brs: seq<Branch>)
    requires |path| >= 3 && |brs| >= 1
  {
    var s := Successors(g.edges, path[0]);
    && |s| == |brs| && (forall i :: 0 <= i < |s| ==> BranchNo(brs, s[i]) == |brs| - i)
    && HasWay(g, s[0], path[|path| - 1])
  }

  ghost predicate HasWay(g: Topology, v: nat, u: nat) {
    exists q :: Way(g, q, v, u)
  }

  ghost predicate Agrees(brs: seq<Branch>, m: Assignment) {
    forall v :: v in m ==> m[v] == GpuOf(brs, v)
  }

  /** Every node below `v` that wants a GPU has one. */
  ghost predicate Saturated(g: Topology, d: Gpus, m: Assignment, v: nat) {
    forall p, u :: Way(g, p, v, u) && d.wants(u) ==> u in m
  }

  lemma WayOn(g: Topology, rank: nat -> nat, top: nat, v: nat, u: nat, p: seq<nat>, w: nat)
    requires Acyclic(g, rank, top) && v in g.nodes && u in Successors(g.edges, v) && Way(g, p, u, w)
    ensures Way(g, [v] + p, v, w)
  {
    SuccessorsHas(g.edges, v, u);
    forall i | 0 < i < |[v] + p|
      ensures Linked(g.edges, [v] + p, i)
    {
      assert i > 1 ==> Linked(g.edges, p, i - 1);
    }
  }

  lemma SaturatedBelow(g: Topology, rank: nat -> nat, top: nat, d: Gpus, m: Assignment, v: nat, u: nat)
    requires Acyclic(g, rank, top) && v in g.nodes && u in Successors(g.edges, v) && Saturated(g, d, m, v)
    ensures Saturated(g, d, m, u)
  {
    forall p, w | Way(g, p, u, w) && d.wants(w)
      ensures w in m
    {
      WayOn(g, rank, top, v, u, p, w);
    }
  }

  lemma SaturatedSelf(g: Topology, d: Gpus, m: Assignment, v: nat)
    requires v in g.nodes && Saturated(g, d, m, v) && d.wants(v)
    ensures v in m
  {
    assert Way(g, [v], v, v);
  }

  lemma StaysSaturated(g: Topology, d: Gpus, m: Assignment, m': Assignment, v: nat)
    requires Saturated(g, d, m, v) && Extends(d, m, m')
    ensures Saturated(g, d, m', v)
  {
  }

  /** Another visit changes nothing. */
  lemma {:induction false} VisitAgain(g: Topology, rank: nat -> nat, top: nat, d: Gpus, m: Assignment, v: nat, index: nat)
    requires Acyclic(g, rank, top) && v in g.nodes && Saturated(g, d, m, v)
    ensures MapFrom(g, rank, top, d, m, v, index) == m
    decreases top - rank(v), |Successors(g.edges, v)| + 1
  {
    if d.wants(v) {
      SaturatedSelf(g, d, m, v);
    }
    VisitBelowAgain(g, rank, top, d, m, v, index, |Successors(g.edges, v)|);
  }

  lemma {:induction false} VisitBelowAgain(g: Topology, rank: nat -> nat, top: nat, d: Gpus, m: Assignment, v: nat,
                                           index: nat, k: nat)
    requires Acyclic(g, rank, top) && v in g.nodes && Saturated(g, d, m, v) && k <= |Successors(g.edges, v)|
    ensures MapBelow(g, rank, top, d, m, v, index, k) == m
    decreases top - rank(v), k
  {
    if k > 0 {
      var u, m1, r := NextVisit(g, rank, top, d, m, v, index, k);
      SaturatedBelow(g, rank, top, d, m, v, u);
      VisitAgain(g, rank, top, d, m, u, index);
      VisitBelowAgain(g, rank, top, d, m, v, NextGpu(d, index), k - 1);
    }
  }

  /** After a visit everything below is mapped. */
  lemma VisitSaturates(g: Topology, rank: nat -> nat, top: nat, d: Gpus, m: Assignment, v: nat, index: nat, q: seq<nat>, w: nat)
    requires Acyclic(g, rank, top) && v in g.nodes && index < d.count && Way(g, q, v, w)
    ensures Saturated(g, d, MapFrom(g, rank, top, d, m, v, index), w)
  {
    forall p, u | Way(g, p, w, u) && d.wants(u)
      ensures u in MapFrom(g, rank, top, d, m, v, index)
    {
      JoinWays(g, q, v, w, p, u);
      MapFromReaches(g, rank, top, d, m, q + p[1..], index);
    }
  }

  lemma JoinWays(g: Topology, q: seq<nat>, v: nat, w: nat, p: seq<nat>, u: nat)
    requires Way(g, q, v, w) && Way(g, p, w, u)
    ensures Way(g, q + p[1..], v, u)
  {
    var r := q + p[1..];
    forall i | 0 < i < |r|
      ensures Linked(g.edges, r, i)
    {
      if i < |q| {
        assert Linked(g.edges, q, i);
      } else {
        assert Linked(g.edges, p, i - |q| + 1);
      }
    }
  }

  /** A visit with the right GPU. On any branch but the first that is visited, the nodes from the tail
      on must have been mapped before. */
  ghost predicate Right(g: Topology, path: seq<nat>, brs: seq<Branch>, d: Gpus, m: Assignment, v: nat, index: nat)
    requires |path| >= 3
  {
    index == GpuOf(brs, v) && (BranchNo(brs, v) > 0 && index > 0 ==> Saturated(g, d, m, path[|path| - 1]))
  }

  lemma AssignAgrees(brs: seq<Branch>, d: Gpus, m: Assignment, v: nat, index: nat)
    requires Agrees(brs, m) && index == GpuOf(brs, v)
    ensures Agrees(brs, Assigned(d, m, v, index)) && Extends(d, m, Assigned(d, m, v, index))
  {
  }

  /** Visiting a node with at most one successor. */
  lemma MapFromChain(g: Topology, rank: nat -> nat, top: nat, d: Gpus, m: Assignment, v: nat, index: nat)
    requires Acyclic(g, rank, top) && v in g.nodes && |Successors(g.edges, v)| <= 1
    ensures var s, m1 := Successors(g.edges, v), Assigned(d, m, v, index);
            if |s| == 0 then MapFrom(g, rank, top, d, m, v, index) == m1
            else s[0] in g.nodes && rank(v) < rank(s[0]) <= top
                 && MapFrom(g, rank, top, d, m, v, index) == MapFrom(g, rank, top, d, m1, s[0], index)
  {
    if |Successors(g.edges, v)| == 1 {
      var u, m1, r := NextVisit(g, rank, top, d, Assigned(d, m, v, index), v, index, 1);
    }
  }

  lemma {:induction false} Visit(g: Topology, rank: nat -> nat, top: nat, path: seq<nat>, brs: seq<Branch>, d: Gpus,
                                 m: Assignment, v: nat, index: nat)
    requires Acyclic(g, rank, top) && Shape(g, path, brs) && |brs| <= d.count && v in g.nodes
    requires Agrees(brs, m) && Right(g, path, brs, d, m, v, index)
    ensures Agrees(brs, MapFrom(g, rank, top, d, m, v, index))
    decreases top - rank(v), |brs| + 1
  {
    var m1 := Assigned(d, m, v, index);
    AssignAgrees(brs, d, m, v, index);
    if v == path[0] {
      VisitHead(g, rank, top, path, brs, d, m1, 0);
    } else {
      assert NextOk(g, path, brs, v);
      var s := Successors(g.edges, v);
      MapFromChain(g, rank, top, d, m, v, index);
      if |s| == 1 {
        VisitNext(g, rank, top, path, brs, d, m, m1, v, index, s[0]);
      }
    }
  }

  lemma {:induction false} VisitNext(g: Topology, rank: nat -> nat, top: nat, path: seq<nat>, brs: seq<Branch>, d: Gpus,
                                     m: Assignment, m1: Assignment, v: nat, index: nat, u: nat)
    requires Acyclic(g, rank, top) && Shape(g, path, brs) && |brs| <= d.count && v in g.nodes && u in g.nodes && rank(v) < rank(u) <= top
    requires BranchNo(brs, u) == BranchNo(brs, v) || (BranchNo(brs, v) > 0 && u == path[|path| - 1])
    requires Right(g, path, brs, d, m, v, index) && Extends(d, m, m1) && Agrees(brs, m1)
    ensures Agrees(brs, MapFrom(g, rank, top, d, m1, u, index))
    decreases top - rank(v), 0
  {
    if BranchNo(brs, v) > 0 && index > 0 {
      StaysSaturated(g, d, m, m1, path[|path| - 1]);
    }
    if BranchNo(brs, u) == BranchNo(brs, v) || index == 0 {
      Visit(g, rank, top, path, brs, d, m1, u, index);
    } else {
      VisitAgain(g, rank, top, d, m1, u, index);
    }
  }

  /** One successor of the head: its branch is mapped right, and so is everything from the tail on. */
  lemma {:induction false} VisitBranch(g: Topology, rank: nat -> nat, top: nat, path: seq<nat>, brs: seq<Branch>,
                                       d: Gpus, m: Assignment,
                                       v: nat, i: nat)
    requires Acyclic(g, rank, top) && Shape(g, path, brs) && |brs| <= d.count && path[0] in g.nodes && i < |brs|
    requires i < |Successors(g.edges, path[0])| && v == Successors(g.edges, path[0])[i]
    requires Agrees(brs, m) && (i > 0 ==> Saturated(g, d, m, path[|path| - 1]))
    ensures v in g.nodes && rank(path[0]) < rank(v) <= top
    ensures Agrees(brs, MapFrom(g, rank, top, d, m, v, i)) && Saturated(g, d, MapFrom(g, rank, top, d, m, v, i), path[|path| - 1])
    decreases top - rank(path[0]), |brs| - i, 0
  {
    SuccessorBelow(g, rank, top, path[0], v);
    Visit(g, rank, top, path, brs, d, m, v, i);
    if i == 0 {
      var q :| Way(g, q, v, path[|path| - 1]);
      VisitSaturates(g, rank, top, d, m, v, 0, q, path[|path| - 1]);
    } else {
      MapFromExtends(g, rank, top, d, m, v, i);
      StaysSaturated(g, d, m, MapFrom(g, rank, top, d, m, v, i), path[|path| - 1]);
    }
  }

  lemma {:induction false} VisitHead(g: Topology, rank: nat -> nat, top: nat, path: seq<nat>, brs: seq<Branch>, d: Gpus,
                                     m: Assignment, i: nat)
    requires Acyclic(g, rank, top) && Shape(g, path, brs) && |brs| <= d.count && path[0] in g.nodes
    requires Agrees(brs, m) && i <= |brs| && (i > 0 ==> Saturated(g, d, m, path[|path| - 1]))
    ensures |Successors(g.edges, path[0])| == |brs|
    ensures Agrees(brs, MapBelow(g, rank, top, d, m, path[0], if i < d.count then i else 0, |brs| - i))
    decreases top - rank(path[0]), |brs| - i, 1
  {
    if i < |brs| {
      var v, m1, r := NextVisit(g, rank, top, d, m, path[0], i, |brs| - i);
      VisitBranch(g, rank, top, path, brs, d, m, v, i);
      NextIndex(d, i);
      VisitHead(g, rank, top, path, brs, d, m1, i + 1);
    }
  }

  lemma NextIndex(d: Gpus, i: nat)
    requires i < d.count
    ensures NextGpu(d, i) == if i + 1 < d.count then i + 1 else 0
  {
    if i + 1 == d.count {
      assert (i + 1) % d.count == 0;
    }
  }

  lemma {:induction false} VisitRoots(g: Topology, rank: nat -> nat, top: nat, path: seq<nat>, brs: seq<Branch>, d: Gpus,
                                      roots: seq<nat>)
    requires Acyclic(g, rank, top) && Shape(g, path, brs) && |brs| <= d.count
    requires AllIn(g, roots) && forall i :: 0 <= i < |roots| ==> BranchNo(brs, roots[i]) == 0
    ensures Agrees(brs, MapRoots(g, rank, top, d, map[], roots))
  {
    if roots != [] {
      var n := |roots| - 1;
      VisitRoots(g, rank, top, path, brs, d, roots[..n]);
      Visit(g, rank, top, path, brs, d, MapRoots(g, rank, top, d, map[], roots[..n]), roots[n], 0);
    }
  }

  lemma RootsOutside(g: Topology, path: seq<nat>, brs: seq<Branch>)
    requires Shape(g, path, brs)
    ensures AllIn(g, U.Roots(g)) && forall i :: 0 <= i < |U.Roots(g)| ==> BranchNo(brs, U.Roots(g)[i]) == 0
  {
    RootsAreNodes(g);
    forall i | 0 <= i < |U.Roots(g)|
      ensures BranchNo(brs, U.Roots(g)[i]) == 0
    {
      assert U.Roots(g)[i] in U.Roots(g);
      RootsInside(g, g.nodes, U.Roots(g)[i]);
    }
  }

  // An expanded pipeline has that shape.

  lemma SuccessorEdge(g: Topology, v: nat, i: nat)
    requires i < |Successors(g.edges, v)|
    ensures |Outs(g, v)| == |Successors(g.edges, v)| && Outs(g, v)[i] < |g.edges|
    ensures g.edges[Outs(g, v)[i]].source == v && g.edges[Outs(g, v)[i]].target == Successors(g.edges, v)[i]
  {
    SuccessorsAt(g.edges, v, |g.edges|);
    assert g.edges[..|g.edges|] == g.edges;
    assert Outs(g, v)[i] in Outs(g, v);
    OutIdxHas(g.edges, v, |g.edges|, Outs(g, v)[i]);
  }

  lemma SuccessorCount(g: Topology, v: nat)
    ensures |Successors(g.edges, v)| == |Outs(g, v)|
  {
    SuccessorsAt(g.edges, v, |g.edges|);
    assert g.edges[..|g.edges|] == g.edges;
  }

  /** An edge from a node other than the head leads on outside the branches, along a branch, or to the tail. */
  lemma EdgeLeads<V>(g0: Topology, job: Job<V>, path: seq<nat>, g: Topology, brs: seq<Branch>, e: nat)
    requires Splittable(g0, job, path) && Fanned(g0, path, g, brs) && e < |g.edges| && g.edges[e].source != path[0]
    ensures var v, u := g.edges[e].source, g.edges[e].target;
            BranchNo(brs, u) == BranchNo(brs, v) || (BranchNo(brs, v) > 0 && u == path[|path| - 1])
  {
    var b, j := ClassifyEdge(g0, job, path, g, brs, e);
    if OnBranch(path, brs, e, b, j) {
      BranchEdgeIs(g0, path, g, brs, b, j);
      BranchLeads(g0, job, path, g, brs, b, j);
    }
  }

  lemma BranchLeads<V>(g0: Topology, job: Job<V>, path: seq<nat>, g: Topology, brs: seq<Branch>, b: nat, j: nat)
    requires Splittable(g0, job, path) && Fanned(g0, path, g, brs) && b < |brs| && 0 < j < |path| - 1
    ensures BranchSize(path, brs[b]) && BranchNo(brs, At(path, brs[b], j - 1)) == b + 1
    ensures At(path, brs[b], j) == path[|path| - 1] || BranchNo(brs, At(path, brs[b], j)) == b + 1
  {
    InnerNode(g0, job, path, g, brs, b, j - 1);
    BranchEdgeIs(g0, path, g, brs, b, j);
    if j < |path| - 2 {
      InnerNode(g0, job, path, g, brs, b, j);
    }
  }

  lemma FewSuccessors<V>(g0: Topology, job: Job<V>, path: seq<nat>, g: Topology, brs: seq<Branch>, v: nat)
    requires PipelineExpansion.Pipeline(g0, job) && Splittable(g0, job, path) && Fanned(g0, path, g, brs)
    requires v in g.nodes && v != path[0]
    ensures |Successors(g.edges, v)| <= 1
  {
    SuccessorCount(g, v);
    var b, j := Classify(g0, job, path, g, brs, v);
    if Plain(g0, brs, v) {
      PlainOuts(g0, path, g, brs, v);
    } else {
      InnerLists(g0, path, g, brs, b, j);
    }
  }

  lemma LeadsOn<V>(g0: Topology, job: Job<V>, path: seq<nat>, g: Topology, brs: seq<Branch>, v: nat)
    requires PipelineExpansion.Pipeline(g0, job) && Splittable(g0, job, path) && Fanned(g0, path, g, brs)
    requires v in g.nodes && v != path[0]
    ensures NextOk(g, path, brs, v)
  {
    FewSuccessors(g0, job, path, g, brs, v);
    if |Successors(g.edges, v)| == 1 {
      SuccessorEdge(g, v, 0);
      EdgeLeads(g0, job, path, g, brs, Outs(g, v)[0]);
    }
  }

  /** Target `i` of the head is the first node of branch `b`. */
  lemma HeadTarget(g0: Topology, path: seq<nat>, g: Topology, brs: seq<Branch>, i: nat, b: nat)
    requires Fanned(g0, path, g, brs) && b + i + 1 == |brs|
    ensures |Successors(g.edges, path[0])| == |brs| && BranchSize(path, brs[b])
    ensures Successors(g.edges, path[0])[i] == brs[b].ns[0]
  {
    SuccessorCount(g, path[0]);
    SuccessorEdge(g, path[0], i);
    assert Outs(g, path[0])[|brs| - 1 - b] == brs[b].es[0];
    BranchEdgeIs(g0, path, g, brs, b, 0);
  }

  lemma StartsBranch(brs: seq<Branch>, b: nat, successors: seq<nat>, i: nat)
    requires Disjoint(brs) && b < |brs| && i < |successors| == |brs| && b + i + 1 == |brs|
    requires brs[b].ns != [] && successors[i] == brs[b].ns[0]
    ensures BranchNo(brs, successors[i]) == |brs| - i
  {
    BranchNoUnique(brs, b, brs[b].ns[0]);
  }

  /** The way along a branch. */
  lemma {:induction false} BranchWay(g0: Topology, path: seq<nat>, g: Topology, brs: seq<Branch>, b: nat, j: nat)
    returns (q: seq<nat>)
    requires Fanned(g0, path, g, brs) && b < |brs| && j < |path| - 1
    ensures BranchSize(path, brs[b]) && Way(g, q, At(path, brs[b], j), path[|path| - 1])
    decreases |path| - j
  {
    BranchEdgeIs(g0, path, g, brs, b, j);
    EndsInside(g, brs[b].es[j]);
    if j == |path| - 2 {
      q := [path[|path| - 1]];
    } else {
      BranchEdgeIs(g0, path, g, brs, b, j + 1);
      EndsInside(g, brs[b].es[j + 1]);
      var r := BranchWay(g0, path, g, brs, b, j + 1);
      q := [At(path, brs[b], j)] + r;
      StepWay(g, At(path, brs[b], j), r, path[|path| - 1], brs[b].es[j + 1]);
    }
  }

  lemma EndsInside(g: Topology, e: nat)
    requires Closed(g) && e < |g.edges|
    ensures g.edges[e].source in g.nodes && g.edges[e].target in g.nodes
  {
  }

  lemma StepWay(g: Topology, v: nat, r: seq<nat>, u: nat, e: nat)
    requires v in g.nodes && e < |g.edges| && g.edges[e].source == v && Way(g, r, g.edges[e].target, u)
    ensures Way(g, [v] + r, v, u)
  {
    forall i | 0 < i < |[v] + r|
      ensures Linked(g.edges, [v] + r, i)
    {
      assert i > 1 ==> Linked(g.edges, r, i - 1);
    }
  }

  lemma HeadStarts(g0: Topology, path: seq<nat>, g: Topology, brs: seq<Branch>, i: nat, b: nat)
    requires Fanned(g0, path, g, brs) && b + i + 1 == |brs|
    ensures |Successors(g.edges, path[0])| == |brs| && BranchNo(brs, Successors(g.edges, path[0])[i]) == |brs| - i
  {
    HeadTarget(g0, path, g, brs, i, b);
    StartsBranch(brs, b, Successors(g.edges, path[0]), i);
  }

  lemma HeadHasWay(g0: Topology, path: seq<nat>, g: Topology, brs: seq<Branch>)
    requires Fanned(g0, path, g, brs)
    ensures |Successors(g.edges, path[0])| == |brs| && HasWay(g, Successors(g.edges, path[0])[0], path[|path| - 1])
  {
    HeadTarget(g0, path, g, brs, 0, |brs| - 1);
    var q := BranchWay(g0, path, g, brs, |brs| - 1, 0);
  }

  lemma HeadLeads(g0: Topology, path: seq<nat>, g: Topology, brs: seq<Branch>)
    requires Fanned(g0, path, g, brs)
    ensures HeadOk(g, path, brs)
  {
    forall i | 0 <= i < |brs|
      ensures |Successors(g.edges, path[0])| == |brs| && BranchNo(brs, Successors(g.edges, path[0])[i]) == |brs| - i
    {
      HeadStarts(g0, path, g, brs, i, |brs| - 1 - i);
    }
    HeadHasWay(g0, path, g, brs);
  }

  lemma InnerNoRoot<V>(g0: Topology, job: Job<V>, path: seq<nat>, g: Topology, brs: seq<Branch>, v: nat)
    requires Splittable(g0, job, path) && Fanned(g0, path, g, brs) && v in g.nodes && BranchNo(brs, v) > 0
    ensures !U.IsRoot(g, v)
  {
    var b, j := Classify(g0, job, path, g, brs, v);
    BranchEdgeIs(g0, path, g, brs, b, j);
    EndsInside(g, brs[b].es[j]);
    assert Joined(g.edges, g.edges[brs[b].es[j]].source, v);
  }

  lemma FannedShape<V>(g0: Topology, job: Job<V>, path: seq<nat>, g: Topology, brs: seq<Branch>)
    requires PipelineExpansion.Pipeline(g0, job) && Splittable(g0, job, path) && Fanned(g0, path, g, brs)
    ensures Shape(g, path, brs)
  {
    PathEndPlain(g0, job, path, g, brs, path[0]);
    PathEndPlain(g0, job, path, g, brs, path[|path| - 1]);
    HeadLeads(g0, path, g, brs);
    forall v | v in g.nodes && v != path[0]
      ensures NextOk(g, path, brs, v)
    {
      LeadsOn(g0, job, path, g, brs, v);
    }
    forall v | v in g.nodes && BranchNo(brs, v) > 0
      ensures !U.IsRoot(g, v)
    {
      InnerNoRoot(g0, job, path, g, brs, v);
    }
  }

  /** In a pipeline expanded for at most as many branches as there are GPUs, all tasks of branch `b`
      get GPU |brs| - 1 - b: different branches have different GPUs, and all other tasks get GPU 0. */
  lemma BranchesGetGpus<V>(g0: Topology, job: Job<V>, path: seq<nat>, g: Topology, brs: seq<Branch>, rank: nat -> nat,
                           top: nat, d: Gpus)
    requires PipelineExpansion.Pipeline(g0, job) && Splittable(g0, job, path) && Fanned(g0, path, g, brs)
    requires Acyclic(g, rank, top) && |brs| <= d.count
    ensures AllIn(g, U.Roots(g))
    ensures var r := MapRoots(g, rank, top, d, map[], U.Roots(g));
            && (forall v :: v in g.nodes && d.wants(v) ==> v in r)
            && (forall v :: v in r && BranchNo(brs, v) == 0 ==> r[v] == 0)
            && (forall b, v :: 0 <= b < |brs| && v in brs[b].ns && v in r ==> r[v] == |brs| - 1 - b)
  {
    FannedShape(g0, job, path, g, brs);
    RootsOutside(g, path, brs);
    VisitRoots(g, rank, top, path, brs, d, U.Roots(g));
    MappingComplete(g, rank, top, d, map[]);
    forall b, v | 0 <= b < |brs| && v in brs[b].ns
      ensures BranchNo(brs, v) == b + 1
    {
      BranchNoUnique(brs, b, v);
    }
  }
}
