/** Assigning GPUs to the nodes of a task graph: from every root down, every further successor of a
    node gets the next GPU. */
module Mapping {
  import opened G = Graph
  import opened Expand
  import opened PathSearch
  import U = UfoGraph

  /** The GPU of every node that has one. */
  type Assignment = map<nat, nat>

  /** What is mapped: the number of GPUs, and the nodes that can have one, which are GPU tasks and
      input tasks. */
  datatype Gpus = Gpus(count: nat, wants: nat -> bool)

  function Assigned(d: Gpus, m: Assignment, v: nat, index: nat): Assignment {
    if d.wants(v) && v !in m && index < d.count then m[v := index] else m
  }

  function NextGpu(d: Gpus, index: nat): nat {
    if d.count > 0 then (index + 1) % d.count else 0
  }

  /** The assignment after node `v` and everything below it was visited with GPU `index`. */
  ghost function MapFrom(g: Topology, rank: nat -> nat, top: nat, d: Gpus, m: Assignment, v: nat, index: nat): Assignment
    requires Acyclic(g, rank, top) && v in g.nodes
    decreases top - rank(v), |Successors(g.edges, v)| + 1
  {
    MapBelow(g, rank, top, d, Assigned(d, m, v, index), v, index, |Successors(g.edges, v)|)
  }

  /** The same for the last `k` successors of `v`; the first of these gets GPU `index`. */
  ghost function MapBelow(g: Topology, rank: nat -> nat, top: nat, d: Gpus, m: Assignment, v: nat, index: nat, k: nat): Assignment
    requires Acyclic(g, rank, top) && v in g.nodes && k <= |Successors(g.edges, v)|
    decreases top - rank(v), k
  {
    if k == 0 then m
    else
      var u := Successors(g.edges, v)[|Successors(g.edges, v)| - k];
      SuccessorBelow(g, rank, top, v, u);
      MapBelow(g, rank, top, d, MapFrom(g, rank, top, d, m, u, index), v, NextGpu(d, index), k - 1)
  }

  /** The assignment after all roots in `roots` were visited with the first GPU. */
  ghost function MapRoots(g: Topology, rank: nat -> nat, top: nat, d: Gpus, m: Assignment, roots: seq<nat>): Assignment
    requires Acyclic(g, rank, top) && AllIn(g, roots)
  {
    if roots == [] then m
    else MapFrom(g, rank, top, d, MapRoots(g, rank, top, d, m, roots[..|roots| - 1]), roots[|roots| - 1], 0)
  }

  /** The first of the last `k` visits to the successors of `v`. */
  lemma NextVisit(g: Topology, rank: nat -> nat, top: nat, d: Gpus, m: Assignment, v: nat, index: nat, k: nat)
    returns (u: nat, m1: Assignment, r: Assignment)
    requires Acyclic(g, rank, top) && v in g.nodes && 0 < k <= |Successors(g.edges, v)|
    ensures u == Successors(g.edges, v)[|Successors(g.edges, v)| - k] && u in g.nodes && rank(v) < rank(u) <= top
    ensures m1 == MapFrom(g, rank, top, d, m, u, index)
    ensures r == MapBelow(g, rank, top, d, m, v, index, k) && r == MapBelow(g, rank, top, d, m1, v, NextGpu(d, index), k - 1)
  {
    u := Successors(g.edges, v)[|Successors(g.edges, v)| - k];
    SuccessorBelow(g, rank, top, v, u);
    m1 := MapFrom(g, rank, top, d, m, u, index);
    r := MapBelow(g, rank, top, d, m1, v, NextGpu(d, index), k - 1);
  }

  class ProcNodes {
    var gpuOf: Assignment

    constructor ()
      ensures gpuOf == map[]
    {
      gpuOf := map[];
    }

    method MapProcNode(graph: U.UfoGraph, v: nat, start: nat, d: Gpus, ghost rank: nat -> nat, ghost top: nat)
      requires Acyclic(graph.Value(), rank, top) && v in graph.nodes
      modifies this
      ensures gpuOf == MapFrom(old(graph.Value()), rank, top, d, old(gpuOf), v, start)
      decreases top - rank(v), 2
    {
      ghost var r := MapFrom(graph.Value(), rank, top, d, gpuOf, v, start);
      if d.wants(v) && v !in gpuOf && start < d.count {
        gpuOf := gpuOf[v := start];
      }
      MapSuccessors(graph, v, start, d, rank, top, r);
    }

    method MapSuccessors(graph: U.UfoGraph, v: nat, start: nat, d: Gpus, ghost rank: nat -> nat, ghost top: nat,
                         ghost r: Assignment)
      requires Acyclic(graph.Value(), rank, top) && v in graph.nodes
      requires r == MapBelow(graph.Value(), rank, top, d, gpuOf, v, start, |Successors(graph.edges, v)|)
      modifies this
      ensures gpuOf == r
      decreases top - rank(v), 1
    {
      var index: nat := start;
      var successors := graph.GetSuccessors(v);
      var i := 0;
      while i < |successors|
        invariant i <= |successors| && r == MapBelow(graph.Value(), rank, top, d, gpuOf, v, index, |successors| - i)
      {
        MapSuccessor(graph, v, successors[i], index, d, rank, top, |successors| - i, r);
        index := NextGpu(d, index);
        i := i + 1;
      }
    }

    /** Maps the first of the last `k` successors of `v`. */
    method MapSuccessor(graph: U.UfoGraph, v: nat, u: nat, index: nat, d: Gpus, ghost rank: nat -> nat, ghost top: nat,
                        ghost k: nat,
                        ghost r: Assignment)
      requires Acyclic(graph.Value(), rank, top) && v in graph.nodes && 0 < k <= |Successors(graph.edges, v)|
      requires u == Successors(graph.edges, v)[|Successors(graph.edges, v)| - k]
      requires r == MapBelow(graph.Value(), rank, top, d, gpuOf, v, index, k)
      modifies this
      ensures r == MapBelow(graph.Value(), rank, top, d, gpuOf, v, NextGpu(d, index), k - 1)
      decreases top - rank(v), 0
    {
      ghost var w, m, r' := NextVisit(graph.Value(), rank, top, d, gpuOf, v, index, k);
      MapProcNode(graph, u, index, d, rank, top);
    }

    /** Maps all nodes of a task graph. */
    method MapTaskGraph(graph: U.UfoGraph, d: Gpus, ghost rank: nat -> nat, ghost top: nat)
      requires Acyclic(graph.Value(), rank, top)
      modifies this
      ensures AllIn(graph.Value(), U.Roots(graph.Value()))
      ensures gpuOf == MapRoots(graph.Value(), rank, top, d, old(gpuOf), U.Roots(graph.Value()))
    {
      ghost var g := graph.Value();
      var roots := graph.GetRoots();
      RootsAreNodes(g);
      for i := 0 to |roots|
        invariant graph.Value() == g
        invariant AllIn(g, roots[..i]) && gpuOf == MapRoots(g, rank, top, d, old(gpuOf), roots[..i])
      {
        assert roots[..i + 1][..i] == roots[..i];
        assert AllIn(g, roots[..i + 1]);
        MapProcNode(graph, roots[i], 0, d, rank, top);
      }
      assert roots[..|roots|] == roots;
    }
  }

  lemma RootsAreNodes(g: Topology)
    ensures AllIn(g, U.Roots(g))
  {
    var roots := U.Roots(g);
    forall i | 0 <= i < |roots|
      ensures roots[i] in g.nodes
    {
      assert roots[i] in roots;
      RootsInside(g, g.nodes, roots[i]);
    }
  }

  // What every visit keeps and what it achieves.

  /** `r` extends `m` by GPUs of the list, and only for nodes that want one. */
  ghost predicate Extends(d: Gpus, m: Assignment, r: Assignment) {
    && (forall v :: v in m ==> v in r && r[v] == m[v])
    && (forall v :: v in r && v !in m ==> r[v] < d.count && d.wants(v))
  }

  lemma ExtendsOn(d: Gpus, m: Assignment, m1: Assignment, m2: Assignment)
    requires Extends(d, m, m1) && Extends(d, m1, m2)
    ensures Extends(d, m, m2)
  {
  }

  lemma {:induction false} MapFromExtends(g: Topology, rank: nat -> nat, top: nat, d: Gpus, m: Assignment, v: nat, index: nat)
    requires Acyclic(g, rank, top) && v in g.nodes
    ensures Extends(d, m, MapFrom(g, rank, top, d, m, v, index))
    ensures d.wants(v) && index < d.count ==> v in MapFrom(g, rank, top, d, m, v, index)
    decreases top - rank(v), |Successors(g.edges, v)| + 1
  {
    var m1 := Assigned(d, m, v, index);
    MapBelowExtends(g, rank, top, d, m1, v, index, |Successors(g.edges, v)|);
    ExtendsOn(d, m, m1, MapBelow(g, rank, top, d, m1, v, index, |Successors(g.edges, v)|));
  }

  lemma {:induction false} MapBelowExtends(g: Topology, rank: nat -> nat, top: nat, d: Gpus, m: Assignment, v: nat,
                                           index: nat, k: nat)
    requires Acyclic(g, rank, top) && v in g.nodes && k <= |Successors(g.edges, v)|
    ensures Extends(d, m, MapBelow(g, rank, top, d, m, v, index, k))
    decreases top - rank(v), k
  {
    if k > 0 {
      var u, m1, r := NextVisit(g, rank, top, d, m, v, index, k);
      MapFromExtends(g, rank, top, d, m, u, index);
      MapBelowExtends(g, rank, top, d, m1, v, NextGpu(d, index), k - 1);
      ExtendsOn(d, m, m1, r);
    }
  }

  /** Every node on a way down from `p[0]` that wants a GPU has one after `p[0]` was visited. */
  lemma {:induction false} MapFromReaches(g: Topology, rank: nat -> nat, top: nat, d: Gpus, m: Assignment, p: seq<nat>, index: nat)
    requires Acyclic(g, rank, top) && p != [] && AllIn(g, p) && IsPath(g.edges, p) && index < d.count && d.wants(p[|p| - 1])
    ensures p[|p| - 1] in MapFrom(g, rank, top, d, m, p[0], index)
    decreases |p|, 1, 0, 0
  {
    MapFromExtends(g, rank, top, d, m, p[0], index);
    if |p| > 1 {
      assert Linked(g.edges, p, 1);
      SuccessorsHas(g.edges, p[0], p[1]);
      var s := Successors(g.edges, p[0]);
      var i :| 0 <= i < |s| && s[i] == p[1];
      MapBelowReaches(g, rank, top, d, Assigned(d, m, p[0], index), p, index, |s|, i, MapFrom(g, rank, top, d, m, p[0], index));
    }
  }

  lemma {:induction false} MapBelowReaches(g: Topology, rank: nat -> nat, top: nat, d: Gpus, m: Assignment, p: seq<nat>, index: nat,
                                           k: nat, i: nat, r: Assignment)
    requires Acyclic(g, rank, top) && |p| > 1 && AllIn(g, p) && IsPath(g.edges, p) && index < d.count && d.wants(p[|p| - 1])
    requires k <= |Successors(g.edges, p[0])| && |Successors(g.edges, p[0])| - k <= i < |Successors(g.edges, p[0])|
    requires Successors(g.edges, p[0])[i] == p[1] && r == MapBelow(g, rank, top, d, m, p[0], index, k)
    ensures p[|p| - 1] in r
    decreases |p|, 0, k, 1
  {
    var u, m1, r' := NextVisit(g, rank, top, d, m, p[0], index, k);
    if i == |Successors(g.edges, p[0])| - k {
      FirstReaches(g, rank, top, d, m, p, index, k, m1, r');
    } else {
      NextInRange(d, index);
      MapBelowReaches(g, rank, top, d, m1, p, NextGpu(d, index), k - 1, i, r');
    }
  }

  lemma {:induction false} FirstReaches(g: Topology, rank: nat -> nat, top: nat, d: Gpus, m: Assignment, p: seq<nat>,
                                        index: nat, k: nat,
                                        m1: Assignment, r: Assignment)
    requires Acyclic(g, rank, top) && |p| > 1 && AllIn(g, p) && IsPath(g.edges, p) && index < d.count && d.wants(p[|p| - 1])
    requires 0 < k <= |Successors(g.edges, p[0])| && m1 == MapFrom(g, rank, top, d, m, p[1], index)
    requires r == MapBelow(g, rank, top, d, m1, p[0], NextGpu(d, index), k - 1)
    ensures p[|p| - 1] in r
    decreases |p|, 0, k, 0
  {
    TailWay(g, p);
    MapFromReaches(g, rank, top, d, m, p[1..], index);
    MapBelowExtends(g, rank, top, d, m1, p[0], NextGpu(d, index), k - 1);
  }

  lemma NextInRange(d: Gpus, index: nat)
    requires index < d.count
    ensures NextGpu(d, index) < d.count
  {
  }

  lemma TailWay(g: Topology, p: seq<nat>)
    requires |p| > 1 && AllIn(g, p) && IsPath(g.edges, p)
    ensures AllIn(g, p[1..]) && IsPath(g.edges, p[1..])
  {
    forall i | 0 < i < |p[1..]|
      ensures Linked(g.edges, p[1..], i)
    {
      assert Linked(g.edges, p, i + 1);
    }
  }

  lemma {:induction false} MapRootsExtends(g: Topology, rank: nat -> nat, top: nat, d: Gpus, m: Assignment, roots: seq<nat>)
    requires Acyclic(g, rank, top) && AllIn(g, roots)
    ensures Extends(d, m, MapRoots(g, rank, top, d, m, roots))
  {
    if roots != [] {
      var n := |roots| - 1;
      MapRootsExtends(g, rank, top, d, m, roots[..n]);
      MapFromExtends(g, rank, top, d, MapRoots(g, rank, top, d, m, roots[..n]), roots[n], 0);
    }
  }

  lemma {:induction false} MapRootsReach(g: Topology, rank: nat -> nat, top: nat, d: Gpus, m: Assignment,
                                         roots: seq<nat>, p: seq<nat>)
    requires Acyclic(g, rank, top) && AllIn(g, roots) && p != [] && AllIn(g, p) && IsPath(g.edges, p) && p[0] in roots
    requires d.count > 0 && d.wants(p[|p| - 1])
    ensures p[|p| - 1] in MapRoots(g, rank, top, d, m, roots)
  {
    var n := |roots| - 1;
    var m1 := MapRoots(g, rank, top, d, m, roots[..n]);
    if p[0] == roots[n] {
      MapFromReaches(g, rank, top, d, m1, p, 0);
    } else {
      assert roots == roots[..n] + [roots[n]];
      MapRootsReach(g, rank, top, d, m, roots[..n], p);
      MapFromExtends(g, rank, top, d, m1, roots[n], 0);
    }
  }

  /** Mapping keeps the assignments that were there, takes GPUs from the list only, and with at least
      one GPU every node that wants one has one. */
  lemma MappingComplete(g: Topology, rank: nat -> nat, top: nat, d: Gpus, m: Assignment)
    requires Acyclic(g, rank, top)
    ensures AllIn(g, U.Roots(g))
    ensures var r := MapRoots(g, rank, top, d, m, U.Roots(g));
            && Extends(d, m, r)
            && (d.count > 0 ==> forall v :: v in g.nodes && d.wants(v) ==> v in r)
  {
    RootsAreNodes(g);
    MapRootsExtends(g, rank, top, d, m, U.Roots(g));
    forall v | d.count > 0 && v in g.nodes && d.wants(v)
      ensures v in MapRoots(g, rank, top, d, m, U.Roots(g))
    {
      var p := WayDown(g, rank, top, v);
      MapRootsReach(g, rank, top, d, m, U.Roots(g), p);
    }
  }
}
