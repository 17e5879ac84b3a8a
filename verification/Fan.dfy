/** The graph after any number of expansions of one path: parallel branches between its head and its
    tail. The head's targets and the tail's groups list the branches in the same order, latest first,
    which is why scattering and gathering agree. */
module Fan {
  import opened Graph
  import opened Expand
  import opened Setup
  import opened Attach

  /** One branch: its nodes, and the positions of its edges from the head to the tail. */
  datatype Branch = Branch(ns: seq<nat>, es: seq<nat>)

  /** What is expanded: a task graph in which every port reads one edge and a task that scatters has
      one target, and a path in it whose nodes before the tail have one successor, whose inner nodes
      have one input, and whose head scatters. */
  ghost predicate Splittable<V>(g: Topology, job: Job<V>, path: seq<nat>) {
    && GraphOk(g, job) && UnitGraph(g, job)
    && |path| >= 3 && IsPath(g.edges, path)
    && (forall k :: 0 <= k < |path| ==> path[k] in g.nodes)
    && job.task(path[0]).send.Scatter?
    && (forall k :: 0 <= k < |path| - 1 ==> |Outs(g, path[k])| == 1)
    && (forall k :: 0 < k < |path| - 1 ==> job.task(path[k]).inputs == 1)
  }

  function PathLab(g: Topology, path: seq<nat>, j: nat): nat
    requires j < |path| - 1
  {
    Label(g.edges, path[j], path[j + 1])
  }

  /** Node `j` of a branch, from the head (-1) to the tail. */
  function At(path: seq<nat>, br: Branch, j: int): nat
    requires |path| >= 3 && |br.ns| == |path| - 2 && -1 <= j <= |path| - 2
  {
    if j == -1 then path[0] else if j == |path| - 2 then path[|path| - 1] else br.ns[j]
  }

  ghost predicate BranchSize(path: seq<nat>, br: Branch) {
    |path| >= 3 && |br.ns| == |path| - 2 && |br.es| == |path| - 1
  }

  ghost predicate EdgeIs(g0: Topology, path: seq<nat>, g: Topology, br: Branch, j: nat)
    requires BranchSize(path, br) && j < |path| - 1
  {
    br.es[j] < |g.edges| && g.edges[br.es[j]] == Edge(At(path, br, j - 1), At(path, br, j), PathLab(g0, path, j))
  }

  /** No other edge touches inner node `j` of the branch. */
  ghost predicate Alone(path: seq<nat>, g: Topology, br: Branch, j: nat)
    requires BranchSize(path, br) && j < |path| - 2
  {
    && br.ns[j] in g.nodes && br.ns[j] != path[0] && br.ns[j] != path[|path| - 1]
    && OnlySource(g, br.ns[j], br.es[j + 1]) && OnlyTarget(g, br.ns[j], br.es[j])
  }

  ghost predicate BranchOk(g0: Topology, path: seq<nat>, g: Topology, br: Branch) {
    && BranchSize(path, br)
    && (forall j :: 0 <= j < |path| - 1 ==> EdgeIs(g0, path, g, br, j))
    && (forall j :: 0 <= j < |path| - 2 ==> Alone(path, g, br, j))
  }

  /** An edge or a node that an expansion has added belongs to a branch. */
  ghost predicate EdgeInBranch(brs: seq<Branch>, e: nat) {
    exists b :: 0 < b < |brs| && e in brs[b].es
  }

  ghost predicate NodeInBranch(brs: seq<Branch>, v: nat) {
    exists b :: 0 < b < |brs| && v in brs[b].ns
  }

  ghost predicate Disjoint(brs: seq<Branch>) {
    forall b, c, v :: 0 <= b < c < |brs| && v in brs[b].ns ==> v !in brs[c].ns
  }

  /** Lists that name one edge of every branch, latest branch first. */
  ghost predicate LatestFirst(list: seq<nat>, brs: seq<Branch>, j: nat) {
    && |list| == |brs|
    && forall b :: 0 <= b < |brs| ==> j < |brs[b].es| && list[|brs| - 1 - b] == brs[b].es[j]
  }

  ghost predicate FanBase(g0: Topology, g: Topology) {
    && |g0.edges| <= |g.edges| && g.edges[..|g0.edges|] == g0.edges
    && |g0.nodes| <= |g.nodes| && g.nodes[..|g0.nodes|] == g0.nodes
    && Closed(g) && Simple(g.edges)
  }

  ghost predicate FanBranches(g0: Topology, path: seq<nat>, g: Topology, brs: seq<Branch>) {
    forall b {:trigger BranchOk(g0, path, g, brs[b])} :: 0 <= b < |brs| ==> BranchOk(g0, path, g, brs[b])
  }

  ghost predicate FanMembers(g0: Topology, g: Topology, brs: seq<Branch>) {
    && Disjoint(brs) && (forall b :: 0 <= b < |brs| ==> Distinct(brs[b].ns))
    && (forall e :: |g0.edges| <= e < |g.edges| ==> EdgeInBranch(brs, e))
    && (forall i {:trigger NodeInBranch(brs, g.nodes[i])} :: |g0.nodes| <= i < |g.nodes| ==> NodeInBranch(brs, g.nodes[i]))
    && (forall b, v :: 0 < b < |brs| && v in brs[b].ns ==> v !in g0.nodes)
  }

  /** The alignment of scattering and gathering. */
  ghost predicate FanOrders(g0: Topology, path: seq<nat>, g: Topology, brs: seq<Branch>)
    requires |path| >= 3
  {
    && LatestFirst(Outs(g, path[0]), brs, 0)
    && LatestFirst(Ins(g, path[|path| - 1], PathLab(g0, path, |path| - 2)), brs, |path| - 2)
  }

  /** `g` is `g0` with the branches `brs`, the first of which is the original path. */
  ghost predicate Fanned(g0: Topology, path: seq<nat>, g: Topology, brs: seq<Branch>) {
    && |path| >= 3 && |brs| >= 1 && brs[0].ns == path[1..|path| - 1]
    && FanBase(g0, g) && FanBranches(g0, path, g, brs) && FanMembers(g0, g, brs) && FanOrders(g0, path, g, brs)
  }

  // The original path is a branch.

  /** A duplicate-free list with one member. */
  lemma OnlyMember(s: seq<nat>, e: nat)
    requires Distinct(s) && forall j :: j in s <==> j == e
    ensures s == [e]
  {
    assert e in s;
    forall i | 0 <= i < |s|
      ensures s[i] == e
    {
      assert s[i] in s;
    }
    assert s[|s| - 1] == s[0];
  }

  lemma SingleMember(s: seq<nat>, e: nat)
    requires |s| == 1 && e in s
    ensures s == [e]
  {
  }

  /** `e` is edge `j` of the original path: the only one that leaves its source and, before the
      tail, the only one that enters its target. */
  ghost predicate PathEdgeOk(g: Topology, path: seq<nat>, j: nat, e: nat)
    requires j < |path| - 1
  {
    && e < |g.edges| && g.edges[e] == Edge(path[j], path[j + 1], PathLab(g, path, j))
    && Outs(g, path[j]) == [e] && Ins(g, path[j + 1], PathLab(g, path, j)) == [e]
    && OnlySource(g, path[j], e)
    && (j + 1 < |path| - 1 ==> OnlyTarget(g, path[j + 1], e))
  }

  ghost predicate OnlySource(g: Topology, v: nat, e: nat) {
    forall d :: 0 <= d < |g.edges| ==> (g.edges[d].source == v <==> d == e)
  }

  ghost predicate OnlyTarget(g: Topology, v: nat, e: nat) {
    forall d :: 0 <= d < |g.edges| ==> (g.edges[d].target == v <==> d == e)
  }

  lemma PathEdge<V>(g: Topology, job: Job<V>, path: seq<nat>, j: nat) returns (e: nat)
    requires Splittable(g, job, path) && j < |path| - 1
    ensures PathEdgeOk(g, path, j, e)
  {
    assert Linked(g.edges, path, j + 1);
    e := LabelFound(g.edges, [], path[j], path[j + 1]);
    OutIdxHas(g.edges, path[j], |g.edges|, e);
    SingleMember(Outs(g, path[j]), e);
    InsHas(g, path[j + 1], PathLab(g, path, j), e);
    assert |Ins(g, path[j + 1], PathLab(g, path, j))| == 1;
    SingleMember(Ins(g, path[j + 1], PathLab(g, path, j)), e);
    forall d | 0 <= d < |g.edges|
      ensures g.edges[d].source == path[j] <==> d == e
      ensures j + 1 < |path| - 1 ==> (g.edges[d].target == path[j + 1] <==> d == e)
    {
      OutIdxHas(g.edges, path[j], |g.edges|, d);
      if g.edges[d].target == path[j + 1] && j + 1 < |path| - 1 {
        assert g.edges[d].lab == g.edges[e].lab;
        InsHas(g, path[j + 1], PathLab(g, path, j), d);
      }
    }
  }

  lemma {:induction false} PathEdges<V>(g: Topology, job: Job<V>, path: seq<nat>, n: nat) returns (es: seq<nat>)
    requires Splittable(g, job, path) && n <= |path| - 1
    ensures |es| == n
    ensures forall j :: 0 <= j < n ==> PathEdgeOk(g, path, j, es[j])
  {
    if n == 0 {
      es := [];
    } else {
      es := PathEdges(g, job, path, n - 1);
      var e := PathEdge(g, job, path, n - 1);
      es := es + [e];
    }
  }

  lemma StartBranch<V>(g: Topology, job: Job<V>, path: seq<nat>, br: Branch)
    requires Splittable(g, job, path)
    requires BranchSize(path, br) && br.ns == path[1..|path| - 1]
    requires forall j :: 0 <= j < |path| - 1 ==> PathEdgeOk(g, path, j, br.es[j])
    ensures BranchOk(g, path, g, br)
  {
    forall j | 0 <= j < |path| - 1
      ensures EdgeIs(g, path, g, br, j)
    {
      assert PathEdgeOk(g, path, j, br.es[j]);
    }
    forall j | 0 <= j < |path| - 2
      ensures Alone(path, g, br, j)
    {
      assert PathEdgeOk(g, path, j, br.es[j]) && PathEdgeOk(g, path, j + 1, br.es[j + 1]);
      RankGrows(g.edges, job.rank, path, 0, j + 1);
      RankGrows(g.edges, job.rank, path, j + 1, |path| - 1);
    }
  }

  lemma FanStart<V>(g: Topology, job: Job<V>, path: seq<nat>) returns (br: Branch)
    requires Splittable(g, job, path)
    ensures Fanned(g, path, g, [br])
  {
    var es := PathEdges(g, job, path, |path| - 1);
    br := Branch(path[1..|path| - 1], es);
    StartBranch(g, job, path, br);
    assert FanBranches(g, path, g, [br]);
    assert PathEdgeOk(g, path, 0, es[0]) && PathEdgeOk(g, path, |path| - 2, es[|path| - 2]);
    assert FanOrders(g, path, g, [br]);
    PathDistinct(g, job, path);
    assert FanMembers(g, g, [br]);
  }

  lemma PathDistinct<V>(g: Topology, job: Job<V>, path: seq<nat>)
    requires Splittable(g, job, path)
    ensures Distinct(path[1..|path| - 1])
  {
    var inner := path[1..|path| - 1];
    forall i, j | 0 <= i < j < |inner|
      ensures inner[i] != inner[j]
    {
      RankGrows(g.edges, job.rank, path, i + 1, j + 1);
    }
  }

  // Another expansion adds another branch.

  function Labs(g0: Topology, path: seq<nat>): (r: seq<nat>)
    requires |path| >= 3
    ensures |r| == |path| - 1 && forall j :: 0 <= j < |r| ==> r[j] == PathLab(g0, path, j)
  {
    seq<nat>(|path| - 1, j requires 0 <= j < |path| - 1 => PathLab(g0, path, j))
  }

  function TwigOf(g0: Topology, path: seq<nat>, first: nat): Twig
    requires |path| >= 3
  {
    Twig(path[0], path[|path| - 1], first, Labs(g0, path))
  }

  /** The branch that an expansion of `g` adds. */
  function NewBranch(path: seq<nat>, g: Topology, first: nat): Branch
    requires |path| >= 3
  {
    Branch(BranchNodes(first, |path| - 2), seq(|path| - 1, j requires 0 <= j < |path| - 1 => |g.edges| + j))
  }

  lemma PathInside<V>(g0: Topology, job: Job<V>, path: seq<nat>, g: Topology, brs: seq<Branch>, k: nat)
    requires Splittable(g0, job, path) && Fanned(g0, path, g, brs) && k < |path|
    ensures path[k] in g.nodes
  {
    assert path[k] in g0.nodes;
    assert path[k] in g.nodes[..|g0.nodes|];
  }

  lemma EndsFit(g0: Topology, path: seq<nat>, g: Topology, first: nat)
    requires |path| >= 3 && FanBase(g0, g) && Below(g, first)
    requires path[0] in g0.nodes && path[|path| - 1] in g0.nodes && path[0] != path[|path| - 1]
    ensures Fits(g, TwigOf(g0, path, first))
  {
    assert path[0] in g.nodes[..|g0.nodes|] && path[|path| - 1] in g.nodes[..|g0.nodes|];
  }

  lemma TwigFits<V>(g0: Topology, job: Job<V>, path: seq<nat>, g: Topology, brs: seq<Branch>, first: nat)
    requires Splittable(g0, job, path) && Fanned(g0, path, g, brs) && Below(g, first)
    ensures Fits(g, TwigOf(g0, path, first))
  {
    RankGrows(g0.edges, job.rank, path, 0, |path| - 1);
    EndsFit(g0, path, g, first);
  }

  lemma OldEdgeIs(g0: Topology, path: seq<nat>, g: Topology, x: Twig, br: Branch, j: nat)
    requires BranchSize(path, br) && j < |path| - 1 && |x.labs| >= 2
    requires EdgeIs(g0, path, g, br, j)
    ensures EdgeIs(g0, path, Attached(g, x), br, j)
  {
  }

  lemma OldAlone(g0: Topology, path: seq<nat>, g: Topology, x: Twig, br: Branch, j: nat)
    requires BranchSize(path, br) && j < |path| - 2 && Fits(g, x) && x.head == path[0] && x.tail == path[|path| - 1]
    requires EdgeIs(g0, path, g, br, j) && EdgeIs(g0, path, g, br, j + 1) && Alone(path, g, br, j)
    ensures Alone(path, Attached(g, x), br, j)
  {
    var g' := Attached(g, x);
    forall d | 0 <= d < |g'.edges|
      ensures g'.edges[d].source == br.ns[j] <==> d == br.es[j + 1]
      ensures g'.edges[d].target == br.ns[j] <==> d == br.es[j]
    {
      if d < |g.edges| {
        OldEdge(g, x, d);
      } else {
        var i := NewEdge(g, x, d);
      }
    }
  }

  lemma OldBranch(g0: Topology, path: seq<nat>, g: Topology, x: Twig, br: Branch)
    requires BranchOk(g0, path, g, br) && Fits(g, x) && x.head == path[0] && x.tail == path[|path| - 1]
    ensures BranchOk(g0, path, Attached(g, x), br)
  {
    forall j | 0 <= j < |path| - 1
      ensures EdgeIs(g0, path, Attached(g, x), br, j)
    {
      OldEdgeIs(g0, path, g, x, br, j);
    }
    forall j | 0 <= j < |path| - 2
      ensures Alone(path, Attached(g, x), br, j)
    {
      OldAlone(g0, path, g, x, br, j);
    }
  }

  lemma NewAlone(g0: Topology, path: seq<nat>, g: Topology, first: nat, j: nat)
    requires |path| >= 3 && j < |path| - 2 && Fits(g, TwigOf(g0, path, first))
    ensures Alone(path, Attached(g, TwigOf(g0, path, first)), NewBranch(path, g, first), j)
  {
    var x, br := TwigOf(g0, path, first), NewBranch(path, g, first);
    var g' := Attached(g, x);
    AttachedNodes(g, x);
    assert br.ns[j] == first + j;
    forall d | 0 <= d < |g'.edges|
      ensures g'.edges[d].source == br.ns[j] <==> d == br.es[j + 1]
      ensures g'.edges[d].target == br.ns[j] <==> d == br.es[j]
    {
      if d < |g.edges| {
        OldEdge(g, x, d);
      } else {
        var i := NewEdge(g, x, d);
      }
    }
  }

  lemma AddedBranch(g0: Topology, path: seq<nat>, g: Topology, first: nat)
    requires |path| >= 3 && Fits(g, TwigOf(g0, path, first))
    ensures BranchOk(g0, path, Attached(g, TwigOf(g0, path, first)), NewBranch(path, g, first))
  {
    var x, br := TwigOf(g0, path, first), NewBranch(path, g, first);
    forall j | 0 <= j < |path| - 1
      ensures EdgeIs(g0, path, Attached(g, x), br, j)
    {
      var i := NewEdge(g, x, |g.edges| + j);
    }
    forall j | 0 <= j < |path| - 2
      ensures Alone(path, Attached(g, x), br, j)
    {
      NewAlone(g0, path, g, first, j);
    }
  }

  lemma EdgeInMore(brs: seq<Branch>, br: Branch, e: nat)
    requires EdgeInBranch(brs, e) || (|brs| >= 1 && e in br.es)
    ensures EdgeInBranch(brs + [br], e)
  {
    if EdgeInBranch(brs, e) {
      var b :| 0 < b < |brs| && e in brs[b].es;
      assert (brs + [br])[b] == brs[b];
    } else {
      assert (brs + [br])[|brs|] == br;
    }
  }

  lemma NodeInMore(brs: seq<Branch>, br: Branch, v: nat)
    requires NodeInBranch(brs, v) || (|brs| >= 1 && v in br.ns)
    ensures NodeInBranch(brs + [br], v)
  {
    if NodeInBranch(brs, v) {
      var b :| 0 < b < |brs| && v in brs[b].ns;
      assert (brs + [br])[b] == brs[b];
    } else {
      assert (brs + [br])[|brs|] == br;
    }
  }

  lemma BranchesBelow(g0: Topology, path: seq<nat>, g: Topology, brs: seq<Branch>, first: nat, b: nat, v: nat)
    requires Fanned(g0, path, g, brs) && Below(g, first) && b < |brs| && v in brs[b].ns
    ensures v < first && v in g.nodes
  {
    assert BranchOk(g0, path, g, brs[b]);
    var j :| 0 <= j < |brs[b].ns| && brs[b].ns[j] == v;
    assert Alone(path, g, brs[b], j);
  }

  lemma MembersGrow(g0: Topology, path: seq<nat>, g: Topology, brs: seq<Branch>, first: nat)
    requires Fanned(g0, path, g, brs) && Below(g, first)
    ensures var g', brs' := Attached(g, TwigOf(g0, path, first)), brs + [NewBranch(path, g, first)];
            FanMembers(g0, g', brs')
  {
    StaysDisjoint(g0, path, g, brs, first);
    var g', br := Attached(g, TwigOf(g0, path, first)), NewBranch(path, g, first);
    forall e | |g0.edges| <= e < |g'.edges|
      ensures EdgeInBranch(brs + [br], e)
    {
      if e >= |g.edges| {
        assert br.es[e - |g.edges|] == e;
      }
      EdgeInMore(brs, br, e);
    }
    forall i | |g0.nodes| <= i < |g'.nodes|
      ensures NodeInBranch(brs + [br], g'.nodes[i])
    {
      if i >= |g.nodes| {
        assert br.ns[i - |g.nodes|] == g'.nodes[i];
      }
      NodeInMore(brs, br, g'.nodes[i]);
    }
  }

  lemma StaysDisjoint(g0: Topology, path: seq<nat>, g: Topology, brs: seq<Branch>, first: nat)
    requires Fanned(g0, path, g, brs) && Below(g, first)
    ensures var brs' := brs + [NewBranch(path, g, first)];
            && Disjoint(brs') && (forall b :: 0 <= b < |brs'| ==> Distinct(brs'[b].ns))
            && forall b, v :: 0 < b < |brs'| && v in brs'[b].ns ==> v !in g0.nodes
  {
    var br := NewBranch(path, g, first);
    forall b, v | 0 <= b < |brs| && v in brs[b].ns
      ensures v < first
    {
      BranchesBelow(g0, path, g, brs, first, b, v);
    }
    forall v | v in g0.nodes
      ensures v < first
    {
      assert v in g.nodes[..|g0.nodes|];
      assert v in g.nodes;
    }
    assert forall v :: v in br.ns ==> v >= first;
  }

  lemma LatestGrows(list: seq<nat>, brs: seq<Branch>, br: Branch, j: nat, e: nat)
    requires LatestFirst(list, brs, j) && j < |br.es| && br.es[j] == e
    ensures LatestFirst([e] + list, brs + [br], j)
  {
  }

  lemma BaseGrows(g0: Topology, g: Topology, x: Twig)
    requires FanBase(g0, g) && Fits(g, x)
    ensures FanBase(g0, Attached(g, x))
  {
    var g' := Attached(g, x);
    AttachedClosed(g, x);
    AttachedSimple(g, x);
    assert g'.edges[..|g0.edges|] == g.edges[..|g0.edges|];
    assert g'.nodes[..|g0.nodes|] == g.nodes[..|g0.nodes|];
  }

  /** One expansion of a fanned graph adds one branch. */
  lemma GrownFanned<V>(g0: Topology, job: Job<V>, path: seq<nat>, g: Topology, brs: seq<Branch>, first: nat)
    requires Splittable(g0, job, path) && Fanned(g0, path, g, brs) && Below(g, first)
    ensures var g' := Attached(g, TwigOf(g0, path, first));
            Fanned(g0, path, g', brs + [NewBranch(path, g, first)]) && Below(g', first + |path| - 2)
  {
    var x, br := TwigOf(g0, path, first), NewBranch(path, g, first);
    var g', brs' := Attached(g, x), brs + [br];
    TwigFits(g0, job, path, g, brs, first);
    assert FanBase(g0, g') by {
      BaseGrows(g0, g, x);
    }
    assert Below(g', first + |path| - 2) by {
      AttachedClosed(g, x);
    }
    assert FanMembers(g0, g', brs') by {
      MembersGrow(g0, path, g, brs, first);
    }
    assert FanBranches(g0, path, g', brs') by {
      BranchesStay(g0, path, g, brs, first);
    }
    assert FanOrders(g0, path, g', brs') by {
      OrdersGrow(g0, path, g, brs, first);
    }
    assert brs'[0] == brs[0];
  }

  lemma OrdersGrow(g0: Topology, path: seq<nat>, g: Topology, brs: seq<Branch>, first: nat)
    requires |path| >= 3 && Fits(g, TwigOf(g0, path, first)) && FanOrders(g0, path, g, brs)
    ensures FanOrders(g0, path, Attached(g, TwigOf(g0, path, first)), brs + [NewBranch(path, g, first)])
  {
    var x, br := TwigOf(g0, path, first), NewBranch(path, g, first);
    HeadFirst(g, x);
    LatestGrows(Outs(g, path[0]), brs, br, 0, |g.edges|);
    TailFirst(g, x);
    LatestGrows(Ins(g, x.tail, PathLab(g0, path, |path| - 2)), brs, br, |path| - 2, |g.edges| + |x.labs| - 1);
  }

  lemma BranchesStay(g0: Topology, path: seq<nat>, g: Topology, brs: seq<Branch>, first: nat)
    requires Fanned(g0, path, g, brs) && Fits(g, TwigOf(g0, path, first))
    ensures var g', brs' := Attached(g, TwigOf(g0, path, first)), brs + [NewBranch(path, g, first)];
            FanBranches(g0, path, g', brs')
  {
    var brs' := brs + [NewBranch(path, g, first)];
    forall b | 0 <= b < |brs'|
      ensures BranchOk(g0, path, Attached(g, TwigOf(g0, path, first)), brs'[b])
    {
      if b < |brs| {
        assert BranchOk(g0, path, g, brs[b]);
        OldBranch(g0, path, g, TwigOf(g0, path, first), brs[b]);
      } else {
        AddedBranch(g0, path, g, first);
      }
    }
  }

  // The expansion does that.

  lemma {:induction false} PredecessorsOne(edges: seq<Edge>, v: nat, n: nat, e: nat)
    requires n <= |edges|
    requires forall d :: 0 <= d < n ==> (edges[d].target == v <==> d == e)
    ensures |Predecessors(edges[..n], v)| == if e < n then 1 else 0
  {
    if n > 0 {
      PredecessorsOne(edges, v, n - 1, e);
      assert edges[..n] == edges[..n - 1] + [edges[n - 1]];
      PredecessorsAppend(edges[..n - 1], edges[n - 1], v);
    }
  }

  lemma StillOneInput(g0: Topology, path: seq<nat>, g: Topology, br: Branch, k: nat)
    requires BranchOk(g0, path, g, br) && 0 < k < |path| - 1 && br.ns == path[1..|path| - 1]
    ensures |Predecessors(g.edges, path[k])| <= 1
  {
    assert Alone(path, g, br, k - 1);
    assert br.ns[k - 1] == path[k];
    PredecessorsOne(g.edges, path[k], |g.edges|, br.es[k - 1]);
    assert g.edges[..|g.edges|] == g.edges;
  }

  lemma FannedDuplicable<V>(g0: Topology, job: Job<V>, path: seq<nat>, g: Topology, brs: seq<Branch>)
    requires Splittable(g0, job, path) && Fanned(g0, path, g, brs)
    ensures Duplicable(g, path)
  {
    assert IsPath(g.edges, path) by {
      StillPath(g0.edges, g, path);
    }
    forall k | 0 <= k < |path|
      ensures path[k] in g.nodes
    {
      PathInside(g0, job, path, g, brs, k);
    }
    forall k | 0 < k < |path| - 1
      ensures |Predecessors(g.edges, path[k])| <= 1
    {
      assert BranchOk(g0, path, g, brs[0]);
      StillOneInput(g0, path, g, brs[0], k);
    }
  }

  lemma SameBranch(edges: seq<Edge>, g: Topology, g0: Topology, path: seq<nat>, first: nat)
    requires edges == g0.edges && IsPath(edges, path) && |edges| <= |g.edges| && g.edges[..|edges|] == edges && |path| >= 3
    ensures BranchEdges(g.edges, first, path, |path| - 1) == TwigEdges(TwigOf(g0, path, first))
  {
    forall j | 0 <= j < |path| - 1
      ensures BranchEdge(g.edges, first, path, j) == TwigEdge(TwigOf(g0, path, first), j)
    {
      PathLabel(edges, g.edges, path, j + 1);
    }
  }

  lemma AttachedForm(g0: Topology, path: seq<nat>, g: Topology, first: nat)
    requires Duplicable(g, path) && Below(g, first)
    requires IsPath(g0.edges, path) && |g0.edges| <= |g.edges| && g.edges[..|g0.edges|] == g0.edges
    ensures Expanded(g, first, path).graph == Attached(g, TwigOf(g0, path, first))
    ensures |Expanded(g, first, path).made| == |path| - 2
  {
    ExpandedForm(g, first, path);
    SameBranch(g0.edges, g, g0, path, first);
  }

  /** Expanding a fanned graph attaches one more branch. */
  lemma ExpandAttaches<V>(g0: Topology, job: Job<V>, path: seq<nat>, g: Topology, brs: seq<Branch>, first: nat)
    requires Splittable(g0, job, path) && Fanned(g0, path, g, brs) && Below(g, first)
    ensures Expanded(g, first, path).graph == Attached(g, TwigOf(g0, path, first))
    ensures |Expanded(g, first, path).made| == |path| - 2
  {
    FannedDuplicable(g0, job, path, g, brs);
    AttachedForm(g0, path, g, first);
  }

  /** `n` times `w`. */
  function Stacked(n: nat, w: nat): nat {
    if n == 0 then 0 else Stacked(n - 1, w) + w
  }

  /** The nodes of the branches that `|brs| - 1` expansions have made are consecutive handles. */
  ghost predicate Consecutive(first: nat, w: nat, brs: seq<Branch>) {
    |brs| <= 1
    || (brs[|brs| - 1].ns == BranchNodes(first + Stacked(|brs| - 2, w), w) && Consecutive(first, w, brs[..|brs| - 1]))
  }

  lemma MoreConsecutive(first: nat, w: nat, brs: seq<Branch>, br: Branch)
    requires |brs| >= 1 && Consecutive(first, w, brs) && br.ns == BranchNodes(first + Stacked(|brs| - 1, w), w)
    ensures Consecutive(first, w, brs + [br])
  {
    assert (brs + [br])[..|brs|] == brs;
  }

  /** The list of branches after every expansion of the chain `xs`. */
  ghost predicate Lists(path: seq<nat>, first: nat, xs: seq<Growth>, lists: seq<seq<Branch>>)
    requires |path| >= 3
  {
    0 < |lists| <= |xs| && |lists[0]| == 1 && forall i :: 0 < i < |lists| ==> ListAt(path, first, xs, lists, i)
  }

  ghost predicate ListAt(path: seq<nat>, first: nat, xs: seq<Growth>, lists: seq<seq<Branch>>, i: nat)
    requires |path| >= 3 && 0 < i < |lists| <= |xs|
  {
    lists[i] == lists[i - 1] + [NewBranch(path, xs[i - 1].graph, first + |xs[i - 1].made|)]
  }

  lemma {:induction false} AllLists(path: seq<nat>, first: nat, xs: seq<Growth>, br: Branch, n: nat)
    returns (lists: seq<seq<Branch>>)
    requires |path| >= 3 && 0 < n <= |xs|
    ensures |lists| == n && lists[0] == [br] && Lists(path, first, xs, lists)
  {
    if n == 1 {
      lists := [[br]];
    } else {
      var earlier := AllLists(path, first, xs, br, n - 1);
      lists := earlier + [earlier[n - 2] + [NewBranch(path, xs[n - 2].graph, first + |xs[n - 2].made|)]];
      forall i | 0 < i < |lists|
        ensures ListAt(path, first, xs, lists, i)
      {
        if i < n - 1 {
          assert ListAt(path, first, xs, earlier, i);
        }
      }
    }
  }

  lemma ChainStep(g: Topology, first: nat, path: seq<nat>, z: Growth, x: Growth)
    requires Duplicable(z.graph, path) && Below(z.graph, first + |z.made|) && TailApart(path) && Next(first, path, z, x)
    ensures Duplicable(x.graph, path) && Below(x.graph, first + |x.made|) && |x.made| == |z.made| + (|path| - 2)
  {
    AgainDuplicable(z.graph, first + |z.made|, path, Expanded(z.graph, first + |z.made|, path));
  }

  /** Every expansion makes as many copies. */
  lemma {:induction false} ChainCounts(g: Topology, first: nat, path: seq<nat>, xs: seq<Growth>, n: nat)
    requires Chain(g, first, path, xs) && Duplicable(g, path) && Below(g, first) && TailApart(path) && n < |xs|
    ensures Duplicable(xs[n].graph, path) && Below(xs[n].graph, first + |xs[n].made|) && |xs[n].made| == Stacked(n, |path| - 2)
  {
    if n > 0 {
      ChainCounts(g, first, path, xs, n - 1);
      assert NextAt(first, path, xs, n);
      ChainStep(g, first, path, xs[n - 1], xs[n]);
    }
  }

  /** There is one branch more than expansions, and their nodes are consecutive. */
  lemma {:induction false} ListsCount(g: Topology, first: nat, path: seq<nat>, xs: seq<Growth>, lists: seq<seq<Branch>>, n: nat)
    requires Chain(g, first, path, xs) && Duplicable(g, path) && Below(g, first) && TailApart(path)
    requires Lists(path, first, xs, lists) && n < |lists|
    ensures |lists[n]| == n + 1 && Consecutive(first, |path| - 2, lists[n])
  {
    if n > 0 {
      ListsCount(g, first, path, xs, lists, n - 1);
      ChainCounts(g, first, path, xs, n - 1);
      assert ListAt(path, first, xs, lists, n);
      MoreConsecutive(first, |path| - 2, lists[n - 1], NewBranch(path, xs[n - 1].graph, first + |xs[n - 1].made|));
    }
  }

  /** One more expansion of a fanned graph. */
  lemma FanStep<V>(g0: Topology, job: Job<V>, path: seq<nat>, g: Topology, brs: seq<Branch>, next: nat, y: Growth,
                   brs': seq<Branch>)
    requires Splittable(g0, job, path) && Fanned(g0, path, g, brs) && Below(g, next)
    requires y == Expanded(g, next, path) && brs' == brs + [NewBranch(path, g, next)]
    ensures Fanned(g0, path, y.graph, brs') && Below(y.graph, next + |y.made|)
  {
    ExpandAttaches(g0, job, path, g, brs, next);
    GrownFanned(g0, job, path, g, brs, next);
  }

  lemma FanNext<V>(g: Topology, job: Job<V>, path: seq<nat>, first: nat, z: Growth, brs: seq<Branch>, x: Growth,
                   brs': seq<Branch>)
    requires Splittable(g, job, path) && Fanned(g, path, z.graph, brs) && Below(z.graph, first + |z.made|)
    requires Next(first, path, z, x) && brs' == brs + [NewBranch(path, z.graph, first + |z.made|)]
    ensures Fanned(g, path, x.graph, brs') && Below(x.graph, first + |x.made|)
  {
    FanStep(g, job, path, z.graph, brs, first + |z.made|, Expanded(z.graph, first + |z.made|, path), brs');
  }

  /** The last step of the chain up to `n`. */
  lemma LastStep(g: Topology, path: seq<nat>, first: nat, xs: seq<Growth>, lists: seq<seq<Branch>>, n: nat, z: Growth,
                 brs: seq<Branch>)
    requires |path| >= 3 && Chain(g, first, path, xs) && Lists(path, first, xs, lists) && 0 < n < |lists|
    requires z == xs[n - 1] && brs == lists[n - 1]
    ensures Next(first, path, z, xs[n]) && lists[n] == brs + [NewBranch(path, z.graph, first + |z.made|)]
  {
    assert NextAt(first, path, xs, n) && ListAt(path, first, xs, lists, n);
  }

  lemma {:induction false} FansFrom<V>(g: Topology, job: Job<V>, path: seq<nat>, first: nat, xs: seq<Growth>,
                                       lists: seq<seq<Branch>>, n: nat)
    returns (x: Growth, brs: seq<Branch>)
    requires Splittable(g, job, path) && Below(g, first) && Chain(g, first, path, xs) && Lists(path, first, xs, lists)
    requires n < |lists| && Fanned(g, path, g, lists[0])
    ensures x == xs[n] && brs == lists[n] && Fanned(g, path, x.graph, brs) && Below(x.graph, first + |x.made|)
  {
    x, brs := xs[n], lists[n];
    if n > 0 {
      var z, earlier := FansFrom(g, job, path, first, xs, lists, n - 1);
      LastStep(g, path, first, xs, lists, n, z, earlier);
      FanNext(g, job, path, first, z, earlier, x, brs);
    }
  }

  /** Alignment after any number of expansions: the head lists its targets and the tail's port its
      groups in the same order of branches. */
  lemma ExpandTimesFans<V>(g: Topology, job: Job<V>, path: seq<nat>, first: nat, n: nat) returns (brs: seq<Branch>, x: Growth)
    requires Splittable(g, job, path) && Below(g, first)
    ensures x == ExpandTimes(g, first, path, n)
    ensures |brs| == n + 1 && Consecutive(first, |path| - 2, brs) && |x.made| == Stacked(n, |path| - 2)
    ensures Fanned(g, path, x.graph, brs) && Below(x.graph, first + |x.made|)
  {
    var br := FanStart(g, job, path);
    FannedDuplicable(g, job, path, g, [br]);
    AcyclicTail(g.edges, job.rank, path);
    var xs := TimesChain(g, first, path, n);
    var lists := AllLists(path, first, xs, br, n + 1);
    x, brs := FansFrom(g, job, path, first, xs, lists, n);
    ListsCount(g, first, path, xs, lists, n);
    ChainCounts(g, first, path, xs, n);
  }
}
