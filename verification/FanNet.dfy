/** What the nodes and edges of a fanned graph stand for in the original one. Every edge is on a branch or
    an original edge between nodes outside the branches, mapping copies to originals maps edges to edges,
    and the fanned graph can be set up. */
module FanNet {
  import opened G = Graph
  import opened Expand
  import opened Setup
  import opened Fan

  /** The number of the branch that `v` is an inner node of, counted from 1; 0 if there is none. */
  function BranchNo(brs: seq<Branch>, v: nat): (r: nat)
    ensures r <= |brs|
    ensures r > 0 ==> v in brs[r - 1].ns
  {
    if brs == [] then 0
    else if v in brs[|brs| - 1].ns then |brs|
    else BranchNo(brs[..|brs| - 1], v)
  }

  /** The node of the original graph that `v` stands for. */
  function Original(path: seq<nat>, brs: seq<Branch>, v: nat): nat {
    var b := BranchNo(brs, v);
    if b == 0 then v
    else
      var j := Pos(brs[b - 1].ns, v);
      if j + 1 < |path| then path[j + 1] else v
  }

  lemma {:induction false} BranchNoUnique(brs: seq<Branch>, b: nat, v: nat)
    requires b < |brs| && v in brs[b].ns && Disjoint(brs)
    ensures BranchNo(brs, v) == b + 1
  {
    var n := |brs| - 1;
    if b < n {
      assert v !in brs[n].ns;
      assert brs[..n][b] == brs[b];
      forall c, d, w | 0 <= c < d < n && w in brs[..n][c].ns
        ensures w !in brs[..n][d].ns
      {
        assert brs[..n][c] == brs[c] && brs[..n][d] == brs[d];
      }
      BranchNoUnique(brs[..n], b, v);
    }
  }

  lemma {:induction false} BranchNoNone(brs: seq<Branch>, v: nat)
    requires forall b :: 0 <= b < |brs| ==> v !in brs[b].ns
    ensures BranchNo(brs, v) == 0
  {
    if brs != [] {
      var n := |brs| - 1;
      forall b | 0 <= b < n
        ensures v !in brs[..n][b].ns
      {
        assert brs[..n][b] == brs[b];
      }
      BranchNoNone(brs[..n], v);
    }
  }

  /** A node outside the branches: it stands for itself. */
  ghost predicate Plain(g0: Topology, brs: seq<Branch>, v: nat) {
    v in g0.nodes && BranchNo(brs, v) == 0
  }

  /** Node `j` of branch `b`. */
  ghost predicate Inner(path: seq<nat>, brs: seq<Branch>, b: nat, j: nat, v: nat) {
    b < |brs| && j < |brs[b].ns| && j + 2 < |path| && v == brs[b].ns[j]
    && BranchNo(brs, v) == b + 1 && Original(path, brs, v) == path[j + 1]
  }

  lemma InnerAt(path: seq<nat>, brs: seq<Branch>, b: nat, j: nat)
    requires b < |brs| && Disjoint(brs) && Distinct(brs[b].ns) && j < |brs[b].ns| && j + 2 < |path|
    ensures Inner(path, brs, b, j, brs[b].ns[j])
  {
    BranchNoUnique(brs, b, brs[b].ns[j]);
    PosUnique(brs[b].ns, j);
  }

  lemma InnerNode<V>(g0: Topology, job: Job<V>, path: seq<nat>, g: Topology, brs: seq<Branch>, b: nat, j: nat)
    requires Splittable(g0, job, path) && Fanned(g0, path, g, brs) && b < |brs| && j < |path| - 2
    ensures |brs[b].ns| == |path| - 2 && Inner(path, brs, b, j, brs[b].ns[j])
  {
    assert BranchOk(g0, path, g, brs[b]);
    InnerAt(path, brs, b, j);
  }

  lemma PathEndPlain<V>(g0: Topology, job: Job<V>, path: seq<nat>, g: Topology, brs: seq<Branch>, v: nat)
    requires Splittable(g0, job, path) && Fanned(g0, path, g, brs) && (v == path[0] || v == path[|path| - 1])
    ensures Plain(g0, brs, v)
  {
    forall b | 0 <= b < |brs|
      ensures v !in brs[b].ns
    {
      assert BranchOk(g0, path, g, brs[b]);
      forall j | 0 <= j < |brs[b].ns|
        ensures brs[b].ns[j] != v
      {
        assert Alone(path, g, brs[b], j);
      }
    }
    BranchNoNone(brs, v);
  }

  /** Every node is plain or inner. */
  lemma Classify<V>(g0: Topology, job: Job<V>, path: seq<nat>, g: Topology, brs: seq<Branch>, v: nat) returns (b: nat, j: nat)
    requires Splittable(g0, job, path) && Fanned(g0, path, g, brs) && v in g.nodes
    ensures Plain(g0, brs, v) || (Inner(path, brs, b, j, v) && j < |path| - 2)
  {
    var i :| 0 <= i < |g.nodes| && g.nodes[i] == v;
    b, j := 0, 0;
    var no := BranchNo(brs, v);
    if no > 0 {
      b := no - 1;
      j := Pos(brs[b].ns, v);
      assert BranchOk(g0, path, g, brs[b]);
      InnerNode(g0, job, path, g, brs, b, j);
    } else {
      if i >= |g0.nodes| {
        assert NodeInBranch(brs, v);
        var c :| 0 < c < |brs| && v in brs[c].ns;
        BranchNoUnique(brs, c, v);
      }
      assert g.nodes[i] == g.nodes[..|g0.nodes|][i];
    }
  }

  /** Edge `e` is edge `j` of branch `b`. */
  ghost predicate OnBranch(path: seq<nat>, brs: seq<Branch>, e: nat, b: nat, j: nat) {
    b < |brs| && j < |path| - 1 && |brs[b].es| == |path| - 1 && brs[b].es[j] == e
  }

  /** Every edge is on a branch, or an edge of the original graph between plain nodes that is neither
      the head's nor one into the port where the branches meet. */
  ghost predicate Ordinary(g0: Topology, path: seq<nat>, g: Topology, brs: seq<Branch>, e: nat)
    requires |path| >= 3
  {
    && e < |g0.edges| && e < |g.edges| && g.edges[e] == g0.edges[e]
    && Plain(g0, brs, g.edges[e].source) && Plain(g0, brs, g.edges[e].target)
    && g.edges[e].source != path[0]
    && (g.edges[e].target == path[|path| - 1] ==> g.edges[e].lab != PathLab(g0, path, |path| - 2))
  }

  lemma InList(s: seq<nat>, e: nat) returns (i: nat)
    requires e in s
    ensures i < |s| && s[i] == e
  {
    i :| 0 <= i < |s| && s[i] == e;
  }

  /** Members of a list that names one edge of every branch. */
  lemma OnSomeBranch(g0: Topology, path: seq<nat>, g: Topology, brs: seq<Branch>, list: seq<nat>, e: nat, j: nat) returns (b: nat)
    requires FanBranches(g0, path, g, brs) && LatestFirst(list, brs, j) && e in list && j < |path| - 1
    ensures OnBranch(path, brs, e, b, j)
  {
    var i := InList(list, e);
    b := |brs| - 1 - i;
    assert BranchOk(g0, path, g, brs[b]);
  }

  lemma HeadEdge(g0: Topology, path: seq<nat>, g: Topology, brs: seq<Branch>, e: nat) returns (b: nat)
    requires Fanned(g0, path, g, brs) && e < |g.edges| && g.edges[e].source == path[0]
    ensures OnBranch(path, brs, e, b, 0)
  {
    OutIdxHas(g.edges, path[0], |g.edges|, e);
    b := OnSomeBranch(g0, path, g, brs, Outs(g, path[0]), e, 0);
  }

  lemma TailEdge(g0: Topology, path: seq<nat>, g: Topology, brs: seq<Branch>, e: nat) returns (b: nat)
    requires Fanned(g0, path, g, brs) && e < |g.edges|
    requires g.edges[e].target == path[|path| - 1] && g.edges[e].lab == PathLab(g0, path, |path| - 2)
    ensures OnBranch(path, brs, e, b, |path| - 2)
  {
    InsHas(g, path[|path| - 1], PathLab(g0, path, |path| - 2), e);
    b := OnSomeBranch(g0, path, g, brs, Ins(g, path[|path| - 1], PathLab(g0, path, |path| - 2)), e, |path| - 2);
  }

  /** An edge that touches an inner node is on its branch. */
  lemma InnerEdge(g0: Topology, path: seq<nat>, g: Topology, brs: seq<Branch>, b: nat, j: nat, e: nat)
    requires Fanned(g0, path, g, brs) && b < |brs| && j < |path| - 2 && e < |g.edges|
    ensures |brs[b].ns| == |path| - 2
    ensures g.edges[e].source == brs[b].ns[j] ==> OnBranch(path, brs, e, b, j + 1)
    ensures g.edges[e].target == brs[b].ns[j] ==> OnBranch(path, brs, e, b, j)
  {
    assert BranchOk(g0, path, g, brs[b]) && Alone(path, g, brs[b], j);
  }

  lemma PlainEdge<V>(g0: Topology, job: Job<V>, path: seq<nat>, g: Topology, brs: seq<Branch>, e: nat)
    requires Splittable(g0, job, path) && Fanned(g0, path, g, brs) && e < |g.edges|
    requires var x := g.edges[e];
             && x.source != path[0] && !(x.target == path[|path| - 1] && x.lab == PathLab(g0, path, |path| - 2))
             && Plain(g0, brs, x.source) && Plain(g0, brs, x.target)
    ensures Ordinary(g0, path, g, brs, e)
  {
    OldOnly(g0, path, g, brs, e);
  }

  lemma InnerOrPlainEdge<V>(g0: Topology, job: Job<V>, path: seq<nat>, g: Topology, brs: seq<Branch>, e: nat)
    returns (b: nat, j: nat)
    requires Splittable(g0, job, path) && Fanned(g0, path, g, brs) && e < |g.edges|
    ensures OnBranch(path, brs, e, b, j) || (Plain(g0, brs, g.edges[e].source) && Plain(g0, brs, g.edges[e].target))
  {
    var x := g.edges[e];
    var bs, js := Classify(g0, job, path, g, brs, x.source);
    b, j := Classify(g0, job, path, g, brs, x.target);
    if !Plain(g0, brs, x.source) {
      InnerEdge(g0, path, g, brs, bs, js, e);
      b, j := bs, js + 1;
    } else if !Plain(g0, brs, x.target) {
      InnerEdge(g0, path, g, brs, b, j, e);
    }
  }

  /** Where every edge of the fanned graph stands. */
  ghost predicate Sorted(g0: Topology, path: seq<nat>, g: Topology, brs: seq<Branch>, e: nat)
    requires |path| >= 3
  {
    Ordinary(g0, path, g, brs, e) || exists b, j :: OnBranch(path, brs, e, b, j)
  }

  lemma SortedOther<V>(g0: Topology, job: Job<V>, path: seq<nat>, g: Topology, brs: seq<Branch>, e: nat)
    requires Splittable(g0, job, path) && Fanned(g0, path, g, brs) && e < |g.edges|
    requires var x := g.edges[e]; x.source != path[0] && !(x.target == path[|path| - 1] && x.lab == PathLab(g0, path, |path| - 2))
    ensures Sorted(g0, path, g, brs, e)
  {
    var b, j := InnerOrPlainEdge(g0, job, path, g, brs, e);
    if !OnBranch(path, brs, e, b, j) {
      PlainEdge(g0, job, path, g, brs, e);
    }
  }

  lemma EdgeSorted<V>(g0: Topology, job: Job<V>, path: seq<nat>, g: Topology, brs: seq<Branch>, e: nat)
    requires Splittable(g0, job, path) && Fanned(g0, path, g, brs) && e < |g.edges|
    ensures Sorted(g0, path, g, brs, e)
  {
    var x := g.edges[e];
    if x.source == path[0] {
      var b := HeadEdge(g0, path, g, brs, e);
    } else if x.target == path[|path| - 1] && x.lab == PathLab(g0, path, |path| - 2) {
      var b := TailEdge(g0, path, g, brs, e);
    } else {
      SortedOther(g0, job, path, g, brs, e);
    }
  }

  lemma ClassifyEdge<V>(g0: Topology, job: Job<V>, path: seq<nat>, g: Topology, brs: seq<Branch>, e: nat) returns (b: nat, j: nat)
    requires Splittable(g0, job, path) && Fanned(g0, path, g, brs) && e < |g.edges|
    ensures OnBranch(path, brs, e, b, j) || Ordinary(g0, path, g, brs, e)
  {
    EdgeSorted(g0, job, path, g, brs, e);
    b, j := 0, 0;
    if !Ordinary(g0, path, g, brs, e) {
      b, j :| OnBranch(path, brs, e, b, j);
    }
  }

  lemma OldOnly(g0: Topology, path: seq<nat>, g: Topology, brs: seq<Branch>, e: nat)
    requires Fanned(g0, path, g, brs) && e < |g.edges|
    requires g.edges[e].source != path[0] && BranchNo(brs, g.edges[e].source) == 0
    ensures e < |g0.edges| && g.edges[e] == g0.edges[e]
  {
    if e >= |g0.edges| {
      assert EdgeInBranch(brs, e);
      var b :| 0 < b < |brs| && e in brs[b].es;
      assert BranchOk(g0, path, g, brs[b]);
      var j :| 0 <= j < |brs[b].es| && brs[b].es[j] == e;
      assert EdgeIs(g0, path, g, brs[b], j);
      assert j > 0;
      BranchNoUnique(brs, b, brs[b].ns[j - 1]);
    }
    assert g.edges[e] == g.edges[..|g0.edges|][e];
  }

  // The fanned graph is a proper task graph.

  function JobOf<V>(job: Job<V>, path: seq<nat>, brs: seq<Branch>): Job<V> {
    Job((v: nat) => job.task(Original(path, brs, v)), (v: nat) => job.rank(Original(path, brs, v)), job.zero)
  }

  /** Mapping nodes to what they stand for maps edges to edges of the original graph. */
  lemma EdgeImage<V>(g0: Topology, job: Job<V>, path: seq<nat>, g: Topology, brs: seq<Branch>, e: nat) returns (d: nat)
    requires Splittable(g0, job, path) && Fanned(g0, path, g, brs) && e < |g.edges|
    ensures d < |g0.edges|
    ensures g0.edges[d] == Edge(Original(path, brs, g.edges[e].source), Original(path, brs, g.edges[e].target), g.edges[e].lab)
  {
    var b, j := ClassifyEdge(g0, job, path, g, brs, e);
    if Ordinary(g0, path, g, brs, e) {
      d := e;
    } else {
      assert BranchOk(g0, path, g, brs[b]) && EdgeIs(g0, path, g, brs[b], j);
      EndsOf(g0, job, path, g, brs, b, j);
      assert Linked(g0.edges, path, j + 1);
      d := LabelFound(g0.edges, [], path[j], path[j + 1]);
    }
  }

  /** Node `j` of branch `b`, from the head (-1) to the tail, stands for node `j + 1` of the path. */
  ghost predicate StandsRight(path: seq<nat>, brs: seq<Branch>, b: nat, j: int)
    requires b < |brs| && BranchSize(path, brs[b]) && -1 <= j <= |path| - 2
  {
    Original(path, brs, At(path, brs[b], j)) == path[j + 1]
  }

  lemma InnerStandsFor<V>(g0: Topology, job: Job<V>, path: seq<nat>, g: Topology, brs: seq<Branch>, b: nat, j: nat)
    requires Splittable(g0, job, path) && Fanned(g0, path, g, brs) && b < |brs| && j < |path| - 2
    ensures BranchSize(path, brs[b]) && StandsRight(path, brs, b, j)
  {
    assert BranchOk(g0, path, g, brs[b]);
    InnerNode(g0, job, path, g, brs, b, j);
  }

  lemma EndStandsFor<V>(g0: Topology, job: Job<V>, path: seq<nat>, g: Topology, brs: seq<Branch>, b: nat)
    requires Splittable(g0, job, path) && Fanned(g0, path, g, brs) && b < |brs|
    ensures BranchSize(path, brs[b]) && StandsRight(path, brs, b, -1) && StandsRight(path, brs, b, |path| - 2)
  {
    assert BranchOk(g0, path, g, brs[b]);
    PathEndPlain(g0, job, path, g, brs, path[0]);
    PathEndPlain(g0, job, path, g, brs, path[|path| - 1]);
  }

  lemma NodeStandsFor<V>(g0: Topology, job: Job<V>, path: seq<nat>, g: Topology, brs: seq<Branch>, b: nat, j: int)
    requires Splittable(g0, job, path) && Fanned(g0, path, g, brs) && b < |brs| && -1 <= j <= |path| - 2
    ensures BranchSize(path, brs[b]) && StandsRight(path, brs, b, j)
  {
    if 0 <= j < |path| - 2 {
      InnerStandsFor(g0, job, path, g, brs, b, j);
    } else {
      EndStandsFor(g0, job, path, g, brs, b);
    }
  }

  /** What the ends of an edge on a branch stand for. */
  lemma EndsOf<V>(g0: Topology, job: Job<V>, path: seq<nat>, g: Topology, brs: seq<Branch>, b: nat, j: nat)
    requires Splittable(g0, job, path) && Fanned(g0, path, g, brs) && b < |brs| && j < |path| - 1
    ensures BranchSize(path, brs[b])
    ensures Original(path, brs, At(path, brs[b], j - 1)) == path[j]
    ensures Original(path, brs, At(path, brs[b], j)) == path[j + 1]
  {
    NodeStandsFor(g0, job, path, g, brs, b, j - 1);
    NodeStandsFor(g0, job, path, g, brs, b, j);
  }

  lemma PlainOuts(g0: Topology, path: seq<nat>, g: Topology, brs: seq<Branch>, v: nat)
    requires Fanned(g0, path, g, brs) && Plain(g0, brs, v) && v != path[0]
    ensures Outs(g, v) == Outs(g0, v)
  {
    forall e | |g0.edges| <= e < |g.edges|
      ensures g.edges[e].source != v
    {
      if g.edges[e].source == v {
        OldOnly(g0, path, g, brs, e);
      }
    }
    OutIdxNone(g.edges, v, |g0.edges|, |g.edges|);
    OutIdxPrefix(g0.edges, g.edges[|g0.edges|..], v, |g0.edges|);
    assert g.edges == g0.edges + g.edges[|g0.edges|..];
  }

  lemma InnerLists(g0: Topology, path: seq<nat>, g: Topology, brs: seq<Branch>, b: nat, j: nat)
    requires Fanned(g0, path, g, brs) && b < |brs| && j < |path| - 2
    ensures BranchSize(path, brs[b])
    ensures Outs(g, brs[b].ns[j]) == [brs[b].es[j + 1]]
    ensures Ins(g, brs[b].ns[j], PathLab(g0, path, j)) == [brs[b].es[j]]
  {
    var br := brs[b];
    assert BranchOk(g0, path, g, br) && Alone(path, g, br, j) && EdgeIs(g0, path, g, br, j) && EdgeIs(g0, path, g, br, j + 1);
    OutsDistinct(g.edges, br.ns[j], |g.edges|);
    InIdxDistinct(g, br.ns[j], PathLab(g0, path, j), |g.nodes|);
    forall d: nat
      ensures d in Outs(g, br.ns[j]) <==> d == br.es[j + 1]
      ensures d in Ins(g, br.ns[j], PathLab(g0, path, j)) <==> d == br.es[j]
    {
      OutIdxHas(g.edges, br.ns[j], |g.edges|, d);
      InsHas(g, br.ns[j], PathLab(g0, path, j), d);
    }
    OnlyMember(Outs(g, br.ns[j]), br.es[j + 1]);
    OnlyMember(Ins(g, br.ns[j], PathLab(g0, path, j)), br.es[j]);
  }

  lemma InnerTask<V>(g0: Topology, job: Job<V>, path: seq<nat>, j: nat)
    requires Splittable(g0, job, path) && j < |path| - 2
    ensures job.task(path[j + 1]).inputs == 1 && !job.task(path[j + 1]).kind.Sink? && !job.task(path[j + 1]).kind.Generator?
    ensures PathLab(g0, path, j) == 0
  {
    TaskOkAt(g0, job, path[j + 1]);
    assert |Outs(g0, path[j + 1])| == 1;
    assert Linked(g0.edges, path, j + 1);
    var e := LabelFound(g0.edges, [], path[j], path[j + 1]);
  }

  lemma FannedTask<V>(g0: Topology, job: Job<V>, path: seq<nat>, g: Topology, brs: seq<Branch>, v: nat)
    requires Splittable(g0, job, path) && Fanned(g0, path, g, brs) && v in g.nodes
    ensures TaskOk(g, JobOf(job, path, brs), v)
  {
    var b, j := Classify(g0, job, path, g, brs, v);
    if Plain(g0, brs, v) {
      PlainTask(g0, job, path, g, brs, v);
    } else {
      InnerLists(g0, path, g, brs, b, j);
      InnerTask(g0, job, path, j);
      assert BranchOk(g0, path, g, brs[b]) && EdgeIs(g0, path, g, brs[b], j);
      assert Fed(g, v, 0);
    }
  }

  lemma StillFed(g0: Topology, g: Topology, v: nat, p: nat)
    requires FanBase(g0, g) && Fed(g0, v, p)
    ensures Fed(g, v, p)
  {
    var e :| 0 <= e < |g0.edges| && g0.edges[e].target == v && g0.edges[e].lab == p;
    assert g.edges[e] == g.edges[..|g0.edges|][e];
  }

  lemma HeadOuts<V>(g0: Topology, job: Job<V>, path: seq<nat>, g: Topology, brs: seq<Branch>)
    requires Splittable(g0, job, path) && Fanned(g0, path, g, brs)
    ensures |Outs(g, path[0])| == |brs| && |Outs(g0, path[0])| == 1
  {
    assert 0 < |path| - 1;
  }

  /** A plain node keeps its task, and its lists are as long as before except at the head. */
  lemma KeptTask<V>(g0: Topology, job: Job<V>, path: seq<nat>, g: Topology, brs: seq<Branch>, v: nat)
    requires TaskOk(g0, job, v) && BranchNo(brs, v) == 0
    requires forall p :: 0 <= p < job.task(v).inputs ==> Fed(g, v, p)
    requires Outs(g, v) == [] <==> Outs(g0, v) == []
    requires job.task(v).send.EachQueue? ==> |Outs(g, v)| == |Outs(g0, v)|
    ensures TaskOk(g, JobOf(job, path, brs), v)
  {
    assert Original(path, brs, v) == v;
  }

  lemma PlainOutsKept<V>(g0: Topology, job: Job<V>, path: seq<nat>, g: Topology, brs: seq<Branch>, v: nat)
    requires Splittable(g0, job, path) && Fanned(g0, path, g, brs) && Plain(g0, brs, v)
    ensures Outs(g, v) == [] <==> Outs(g0, v) == []
    ensures job.task(v).send.EachQueue? ==> |Outs(g, v)| == |Outs(g0, v)|
  {
    if v == path[0] {
      HeadOuts(g0, job, path, g, brs);
    } else {
      PlainOuts(g0, path, g, brs, v);
    }
  }

  lemma TaskOkAt<V>(g: Topology, job: Job<V>, v: nat)
    requires GraphOk(g, job) && v in g.nodes
    ensures TaskOk(g, job, v)
  {
    var i :| 0 <= i < |g.nodes| && g.nodes[i] == v;
    assert TaskOk(g, job, g.nodes[i]);
  }

  lemma PlainTask<V>(g0: Topology, job: Job<V>, path: seq<nat>, g: Topology, brs: seq<Branch>, v: nat)
    requires Splittable(g0, job, path) && Fanned(g0, path, g, brs) && Plain(g0, brs, v)
    ensures TaskOk(g, JobOf(job, path, brs), v)
  {
    TaskOkAt(g0, job, v);
    forall p | 0 <= p < job.task(v).inputs
      ensures Fed(g, v, p)
    {
      StillFed(g0, g, v, p);
    }
    PlainOutsKept(g0, job, path, g, brs, v);
    KeptTask(g0, job, path, g, brs, v);
  }

  lemma FannedGraphOk<V>(g0: Topology, job: Job<V>, path: seq<nat>, g: Topology, brs: seq<Branch>)
    requires Splittable(g0, job, path) && Fanned(g0, path, g, brs)
    ensures GraphOk(g, JobOf(job, path, brs))
  {
    var job' := JobOf(job, path, brs);
    forall e | 0 <= e < |g.edges|
      ensures job'.rank(g.edges[e].source) < job'.rank(g.edges[e].target)
      ensures g.edges[e].lab < job'.task(g.edges[e].target).inputs
    {
      var d := EdgeImage(g0, job, path, g, brs, e);
    }
    forall i | 0 <= i < |g.nodes|
      ensures TaskOk(g, job', g.nodes[i])
    {
      FannedTask(g0, job, path, g, brs, g.nodes[i]);
    }
  }
}
