/** Expansion preserves meaning: the network of an expanded graph covers that of the original one, so
    under every interleaving its sinks see the same streams. */
module Preserves {
  import opened G = Graph
  import opened Expand
  import opened Setup
  import opened Fan
  import opened FanNet
  import N = Network
  import C = Covering
  import F = Fixed
  import R = Runtime
  import Runs

  // Rates: a task on branch `b` works on every |brs|-th index, from |brs| - 1 - b on.

  function Stride(brs: seq<Branch>, v: nat): (r: nat) {
    if BranchNo(brs, v) == 0 then 1 else |brs|
  }

  function Off(brs: seq<Branch>, v: nat): nat {
    if BranchNo(brs, v) == 0 then 0 else |brs| - BranchNo(brs, v)
  }

  /** The first iteration of `v` that serves edge `e`, and the distance to the next. */
  function OutFirst<V>(g: Topology, job: Job<V>, v: nat, e: nat): nat {
    if job.task(v).send.Scatter? then Pos(Outs(g, v), e) else 0
  }

  function OutStep<V>(g: Topology, job: Job<V>, v: nat): nat {
    if job.task(v).send.Scatter? then |Outs(g, v)| else 1
  }

  lemma OnlyPos(s: seq<nat>, e: nat)
    requires s == [e]
    ensures Pos(s, e) == 0
  {
  }

  lemma LatestPos(list: seq<nat>, brs: seq<Branch>, j: nat, b: nat)
    requires LatestFirst(list, brs, j) && Distinct(list) && b < |brs|
    ensures |list| == |brs| && j < |brs[b].es| && Pos(list, brs[b].es[j]) == |brs| - 1 - b
  {
    PosUnique(list, |brs| - 1 - b);
  }

  /** A task with the given stride and offset that turns to an edge in its iterations `first`,
      `first` + `step`, ... moves through the indices of branch `b` of `n`. */
  ghost predicate Serves(stride: nat, off: nat, step: nat, first: nat, n: nat, b: nat) {
    stride * step == n && off + stride * first == n - 1 - b
  }

  /** The producer's side of an edge on branch `b` moves through the indices of the branch. */
  ghost predicate SourceAgrees<V>(g: Topology, job: Job<V>, brs: seq<Branch>, e: nat, v: nat, b: nat) {
    Serves(Stride(brs, v), Off(brs, v), OutStep(g, job, v), OutFirst(g, job, v, e), |brs|, b)
  }

  ghost predicate TargetAgrees(g: Topology, brs: seq<Branch>, e: nat, v: nat, p: nat, b: nat) {
    Serves(Stride(brs, v), Off(brs, v), |Ins(g, v, p)|, Pos(Ins(g, v, p), e), |brs|, b)
  }

  /** A plain task that scatters over all branches, and an inner one with one target. */
  lemma WideSource<V>(g: Topology, job: Job<V>, brs: seq<Branch>, e: nat, v: nat, b: nat)
    requires BranchNo(brs, v) == 0 && job.task(v).send.Scatter? && b < |brs|
    requires |Outs(g, v)| == |brs| && Pos(Outs(g, v), e) == |brs| - 1 - b
    ensures SourceAgrees(g, job, brs, e, v, b)
  {
  }

  lemma SameOuts<V>(g: Topology, job: Job<V>, v: nat, e: nat)
    requires job.task(v).send.Scatter? ==> Outs(g, v) == [e]
    ensures OutStep(g, job, v) == 1 && OutFirst(g, job, v, e) == 0
  {
    if job.task(v).send.Scatter? {
      OnlyPos(Outs(g, v), e);
    }
  }

  lemma NarrowSource<V>(g: Topology, job: Job<V>, brs: seq<Branch>, e: nat, v: nat, b: nat)
    requires BranchNo(brs, v) == b + 1 && b < |brs| && Outs(g, v) == [e]
    ensures SourceAgrees(g, job, brs, e, v, b)
  {
    SameOuts(g, job, v, e);
    assert Stride(brs, v) == |brs|;
    assert |brs| * OutStep(g, job, v) == |brs| && |brs| * OutFirst(g, job, v, e) == 0;
  }

  lemma WideTarget(g: Topology, brs: seq<Branch>, e: nat, v: nat, p: nat, b: nat)
    requires BranchNo(brs, v) == 0 && b < |brs|
    requires |Ins(g, v, p)| == |brs| && Pos(Ins(g, v, p), e) == |brs| - 1 - b
    ensures TargetAgrees(g, brs, e, v, p, b)
  {
  }

  lemma NarrowTarget(g: Topology, brs: seq<Branch>, e: nat, v: nat, p: nat, b: nat)
    requires BranchNo(brs, v) == b + 1 && b < |brs| && Ins(g, v, p) == [e]
    ensures TargetAgrees(g, brs, e, v, p, b)
  {
    OnlyPos(Ins(g, v, p), e);
  }

  lemma HeadScatters<V>(g0: Topology, job: Job<V>, path: seq<nat>, g: Topology, brs: seq<Branch>)
    requires Splittable(g0, job, path) && Fanned(g0, path, g, brs)
    ensures BranchNo(brs, path[0]) == 0 && JobOf(job, path, brs).task(path[0]).send.Scatter?
  {
    PathEndPlain(g0, job, path, g, brs, path[0]);
    assert Original(path, brs, path[0]) == path[0];
  }

  lemma HeadRate<V>(g0: Topology, job: Job<V>, path: seq<nat>, g: Topology, brs: seq<Branch>, b: nat)
    requires Splittable(g0, job, path) && Fanned(g0, path, g, brs) && b < |brs|
    ensures |brs[b].es| == |path| - 1
    ensures SourceAgrees(g, JobOf(job, path, brs), brs, brs[b].es[0], path[0], b)
  {
    assert BranchOk(g0, path, g, brs[b]);
    HeadScatters(g0, job, path, g, brs);
    OutsDistinct(g.edges, path[0], |g.edges|);
    LatestPos(Outs(g, path[0]), brs, 0, b);
    WideSource(g, JobOf(job, path, brs), brs, brs[b].es[0], path[0], b);
  }

  lemma MeetingRate(g: Topology, brs: seq<Branch>, t: nat, p: nat, j: nat, b: nat)
    requires Closed(g) && Simple(g.edges) && LatestFirst(Ins(g, t, p), brs, j) && b < |brs| && BranchNo(brs, t) == 0
    ensures j < |brs[b].es| && TargetAgrees(g, brs, brs[b].es[j], t, p, b)
  {
    InIdxDistinct(g, t, p, |g.nodes|);
    LatestPos(Ins(g, t, p), brs, j, b);
    WideTarget(g, brs, brs[b].es[j], t, p, b);
  }

  lemma TailRate<V>(g0: Topology, job: Job<V>, path: seq<nat>, g: Topology, brs: seq<Branch>, b: nat)
    requires Splittable(g0, job, path) && Fanned(g0, path, g, brs) && b < |brs|
    ensures |brs[b].es| == |path| - 1
    ensures TargetAgrees(g, brs, brs[b].es[|path| - 2], path[|path| - 1], PathLab(g0, path, |path| - 2), b)
  {
    assert |brs[b].es| == |path| - 1 by {
      assert BranchOk(g0, path, g, brs[b]);
    }
    assert BranchNo(brs, path[|path| - 1]) == 0 by {
      PathEndPlain(g0, job, path, g, brs, path[|path| - 1]);
    }
    MeetingRate(g, brs, path[|path| - 1], PathLab(g0, path, |path| - 2), |path| - 2, b);
  }

  lemma InnerSourceRate<V>(g0: Topology, job: Job<V>, path: seq<nat>, g: Topology, brs: seq<Branch>, b: nat, j: nat)
    requires Splittable(g0, job, path) && Fanned(g0, path, g, brs) && b < |brs| && j < |path| - 2
    ensures BranchSize(path, brs[b])
    ensures SourceAgrees(g, JobOf(job, path, brs), brs, brs[b].es[j + 1], brs[b].ns[j], b)
  {
    InnerLists(g0, path, g, brs, b, j);
    InnerNode(g0, job, path, g, brs, b, j);
    NarrowSource(g, JobOf(job, path, brs), brs, brs[b].es[j + 1], brs[b].ns[j], b);
  }

  lemma InnerTargetRate<V>(g0: Topology, job: Job<V>, path: seq<nat>, g: Topology, brs: seq<Branch>, b: nat, j: nat)
    requires Splittable(g0, job, path) && Fanned(g0, path, g, brs) && b < |brs| && j < |path| - 2
    ensures BranchSize(path, brs[b])
    ensures TargetAgrees(g, brs, brs[b].es[j], brs[b].ns[j], PathLab(g0, path, j), b)
  {
    InnerLists(g0, path, g, brs, b, j);
    InnerNode(g0, job, path, g, brs, b, j);
    NarrowTarget(g, brs, brs[b].es[j], brs[b].ns[j], PathLab(g0, path, j), b);
  }

  /** Both ends of an edge agree on the index of every item. */
  ghost predicate RatesAgree<V>(g: Topology, job: Job<V>, brs: seq<Branch>, e: nat)
    requires e < |g.edges|
  {
    var x := g.edges[e];
    && Stride(brs, x.source) * OutStep(g, job, x.source) == Stride(brs, x.target) * |Ins(g, x.target, x.lab)|
    && Off(brs, x.source) + Stride(brs, x.source) * OutFirst(g, job, x.source, e)
       == Off(brs, x.target) + Stride(brs, x.target) * Pos(Ins(g, x.target, x.lab), e)
  }

  lemma BranchSource<V>(g0: Topology, job: Job<V>, path: seq<nat>, g: Topology, brs: seq<Branch>, b: nat, j: nat)
    requires Splittable(g0, job, path) && Fanned(g0, path, g, brs) && b < |brs| && j < |path| - 1
    ensures BranchSize(path, brs[b])
    ensures SourceAgrees(g, JobOf(job, path, brs), brs, brs[b].es[j], At(path, brs[b], j - 1), b)
  {
    assert BranchOk(g0, path, g, brs[b]);
    if j == 0 {
      HeadRate(g0, job, path, g, brs, b);
    } else {
      InnerSourceRate(g0, job, path, g, brs, b, j - 1);
    }
  }

  lemma InnerTargetAt<V>(g0: Topology, job: Job<V>, path: seq<nat>, g: Topology, brs: seq<Branch>, b: nat, j: nat)
    requires Splittable(g0, job, path) && Fanned(g0, path, g, brs) && b < |brs| && j < |path| - 2
    ensures BranchSize(path, brs[b])
    ensures TargetAgrees(g, brs, brs[b].es[j], At(path, brs[b], j), PathLab(g0, path, j), b)
  {
    InnerTargetRate(g0, job, path, g, brs, b, j);
    assert At(path, brs[b], j) == brs[b].ns[j];
  }

  lemma Agree<V>(g: Topology, job: Job<V>, brs: seq<Branch>, e: nat, b: nat)
    requires e < |g.edges| && SourceAgrees(g, job, brs, e, g.edges[e].source, b)
    requires TargetAgrees(g, brs, e, g.edges[e].target, g.edges[e].lab, b)
    ensures RatesAgree(g, job, brs, e)
  {
  }

  lemma BranchEdgeIs(g0: Topology, path: seq<nat>, g: Topology, brs: seq<Branch>, b: nat, j: nat)
    requires FanBranches(g0, path, g, brs) && b < |brs| && j < |path| - 1
    ensures BranchSize(path, brs[b]) && EdgeIs(g0, path, g, brs[b], j)
  {
    assert BranchOk(g0, path, g, brs[b]);
  }

  lemma LastEdgeIs(g0: Topology, path: seq<nat>, g: Topology, brs: seq<Branch>, b: nat)
    requires |path| >= 3 && FanBranches(g0, path, g, brs) && b < |brs|
    ensures BranchSize(path, brs[b]) && brs[b].es[|path| - 2] < |g.edges|
    ensures g.edges[brs[b].es[|path| - 2]] == Edge(brs[b].ns[|path| - 3], path[|path| - 1], PathLab(g0, path, |path| - 2))
  {
    BranchEdgeIs(g0, path, g, brs, b, |path| - 2);
  }

  lemma LastSource<V>(g0: Topology, job: Job<V>, path: seq<nat>, g: Topology, brs: seq<Branch>, b: nat)
    requires Splittable(g0, job, path) && Fanned(g0, path, g, brs) && b < |brs|
    ensures BranchSize(path, brs[b])
    ensures SourceAgrees(g, JobOf(job, path, brs), brs, brs[b].es[|path| - 2], brs[b].ns[|path| - 3], b)
  {
    var j := |path| - 3;
    InnerSourceRate(g0, job, path, g, brs, b, j);
    assert brs[b].es[j + 1] == brs[b].es[|path| - 2];
  }

  lemma LastEdgeRates<V>(g0: Topology, job: Job<V>, path: seq<nat>, g: Topology, brs: seq<Branch>, e: nat, b: nat)
    requires Splittable(g0, job, path) && Fanned(g0, path, g, brs) && e < |g.edges| && OnBranch(path, brs, e, b, |path| - 2)
    ensures RatesAgree(g, JobOf(job, path, brs), brs, e)
  {
    LastSource(g0, job, path, g, brs, b);
    TailRate(g0, job, path, g, brs, b);
    LastEdgeIs(g0, path, g, brs, b);
    Agree(g, JobOf(job, path, brs), brs, e, b);
  }

  lemma EarlierEdgeRates<V>(g0: Topology, job: Job<V>, path: seq<nat>, g: Topology, brs: seq<Branch>, e: nat, b: nat, j: nat)
    requires Splittable(g0, job, path) && Fanned(g0, path, g, brs) && e < |g.edges| && j < |path| - 2 && OnBranch(path, brs, e, b, j)
    ensures RatesAgree(g, JobOf(job, path, brs), brs, e)
  {
    BranchSource(g0, job, path, g, brs, b, j);
    InnerTargetAt(g0, job, path, g, brs, b, j);
    BranchEdgeIs(g0, path, g, brs, b, j);
    Agree(g, JobOf(job, path, brs), brs, e, b);
  }

  lemma BranchRates<V>(g0: Topology, job: Job<V>, path: seq<nat>, g: Topology, brs: seq<Branch>, e: nat, b: nat, j: nat)
    requires Splittable(g0, job, path) && Fanned(g0, path, g, brs) && e < |g.edges| && OnBranch(path, brs, e, b, j)
    ensures RatesAgree(g, JobOf(job, path, brs), brs, e)
  {
    if j < |path| - 2 {
      EarlierEdgeRates(g0, job, path, g, brs, e, b, j);
    } else {
      LastEdgeRates(g0, job, path, g, brs, e, b);
    }
  }

  /** Edges away from the branches keep their place: they are alone at both ends. */
  lemma OneOutput<V>(g0: Topology, job: Job<V>, path: seq<nat>, e: nat)
    requires Splittable(g0, job, path) && e < |g0.edges| && job.task(g0.edges[e].source).send.Scatter?
    ensures Outs(g0, g0.edges[e].source) == [e]
  {
    var v := g0.edges[e].source;
    OutIdxHas(g0.edges, v, |g0.edges|, e);
    assert |Outs(g0, v)| <= 1;
    SingleMember(Outs(g0, v), e);
  }

  lemma KeptSend<V>(g0: Topology, job: Job<V>, path: seq<nat>, brs: seq<Branch>, v: nat)
    requires Plain(g0, brs, v)
    ensures JobOf(job, path, brs).task(v) == job.task(v)
  {
    assert Original(path, brs, v) == v;
  }

  lemma OrdinarySource<V>(g0: Topology, job: Job<V>, path: seq<nat>, g: Topology, brs: seq<Branch>, e: nat)
    requires Splittable(g0, job, path) && Fanned(g0, path, g, brs) && Ordinary(g0, path, g, brs, e)
    ensures var v := g.edges[e].source;
            OutStep(g, JobOf(job, path, brs), v) == 1 && OutFirst(g, JobOf(job, path, brs), v, e) == 0
  {
    var v := g.edges[e].source;
    assert Outs(g, v) == Outs(g0, v) by {
      PlainOuts(g0, path, g, brs, v);
    }
    KeptSend(g0, job, path, brs, v);
    if job.task(v).send.Scatter? {
      OneOutput(g0, job, path, e);
    }
    SameOuts(g, JobOf(job, path, brs), v, e);
  }

  lemma InnerEdgeEnd(g0: Topology, path: seq<nat>, g: Topology, brs: seq<Branch>, d: nat, b: nat, j: nat)
    requires b < |brs| && BranchSize(path, brs[b]) && j < |path| - 2 && brs[b].es[j] == d && EdgeIs(g0, path, g, brs[b], j)
    requires Inner(path, brs, b, j, brs[b].ns[j])
    ensures BranchNo(brs, g.edges[d].target) > 0
  {
  }

  lemma LastEdgeEnd(g0: Topology, path: seq<nat>, g: Topology, brs: seq<Branch>, d: nat, b: nat)
    requires b < |brs| && BranchSize(path, brs[b]) && brs[b].es[|path| - 2] == d && EdgeIs(g0, path, g, brs[b], |path| - 2)
    ensures g.edges[d].target == path[|path| - 1] && g.edges[d].lab == PathLab(g0, path, |path| - 2)
  {
  }

  /** An edge on a branch leads to an inner node or to the port where the branches meet. */
  lemma BranchEdgeEnd<V>(g0: Topology, job: Job<V>, path: seq<nat>, g: Topology, brs: seq<Branch>, d: nat, b: nat, j: nat)
    requires Splittable(g0, job, path) && Fanned(g0, path, g, brs) && d < |g.edges| && OnBranch(path, brs, d, b, j)
    ensures BranchNo(brs, g.edges[d].target) > 0
            || (g.edges[d].target == path[|path| - 1] && g.edges[d].lab == PathLab(g0, path, |path| - 2))
  {
    BranchEdgeIs(g0, path, g, brs, b, j);
    if j < |path| - 2 {
      InnerNode(g0, job, path, g, brs, b, j);
      InnerEdgeEnd(g0, path, g, brs, d, b, j);
    } else {
      LastEdgeEnd(g0, path, g, brs, d, b);
    }
  }

  lemma SameTarget<V>(g0: Topology, job: Job<V>, path: seq<nat>, g: Topology, brs: seq<Branch>, e: nat, d: nat)
    requires Splittable(g0, job, path) && Fanned(g0, path, g, brs) && Ordinary(g0, path, g, brs, e) && d < |g.edges|
    requires g.edges[d].target == g.edges[e].target && g.edges[d].lab == g.edges[e].lab
    ensures d < |g0.edges| && g.edges[d] == g0.edges[d]
  {
    var b, j := ClassifyEdge(g0, job, path, g, brs, d);
    if OnBranch(path, brs, d, b, j) {
      BranchEdgeEnd(g0, job, path, g, brs, d, b, j);
    }
  }

  lemma OneInput<V>(g0: Topology, job: Job<V>, path: seq<nat>, e: nat, d: nat)
    requires Splittable(g0, job, path) && e < |g0.edges| && d < |g0.edges|
    requires g0.edges[d].target == g0.edges[e].target && g0.edges[d].lab == g0.edges[e].lab
    ensures d == e
  {
    var v, p := g0.edges[e].target, g0.edges[e].lab;
    assert |Ins(g0, v, p)| == 1;
    InsHas(g0, v, p, e);
    InsHas(g0, v, p, d);
  }

  lemma OrdinaryTarget<V>(g0: Topology, job: Job<V>, path: seq<nat>, g: Topology, brs: seq<Branch>, e: nat)
    requires Splittable(g0, job, path) && Fanned(g0, path, g, brs) && Ordinary(g0, path, g, brs, e)
    ensures Ins(g, g.edges[e].target, g.edges[e].lab) == [e]
  {
    var v, p := g.edges[e].target, g.edges[e].lab;
    InIdxDistinct(g, v, p, |g.nodes|);
    forall d: nat
      ensures d in Ins(g, v, p) <==> d == e
    {
      InsHas(g, v, p, d);
      if d in Ins(g, v, p) {
        SameTarget(g0, job, path, g, brs, e, d);
        OneInput(g0, job, path, e, d);
      }
    }
    OnlyMember(Ins(g, v, p), e);
  }

  lemma OrdinaryRates<V>(g0: Topology, job: Job<V>, path: seq<nat>, g: Topology, brs: seq<Branch>, e: nat)
    requires Splittable(g0, job, path) && Fanned(g0, path, g, brs) && Ordinary(g0, path, g, brs, e)
    ensures RatesAgree(g, JobOf(job, path, brs), brs, e)
  {
    OrdinarySource(g0, job, path, g, brs, e);
    OrdinaryTarget(g0, job, path, g, brs, e);
    OnlyPos(Ins(g, g.edges[e].target, g.edges[e].lab), e);
  }

  lemma FannedRates<V>(g0: Topology, job: Job<V>, path: seq<nat>, g: Topology, brs: seq<Branch>, e: nat)
    requires Splittable(g0, job, path) && Fanned(g0, path, g, brs) && e < |g.edges|
    ensures RatesAgree(g, JobOf(job, path, brs), brs, e)
  {
    var b, j := ClassifyEdge(g0, job, path, g, brs, e);
    if Ordinary(g0, path, g, brs, e) {
      OrdinaryRates(g0, job, path, g, brs, e);
    } else {
      BranchRates(g0, job, path, g, brs, e, b, j);
    }
  }

  // The plan of the network.

  function PlanOf(g: Topology, brs: seq<Branch>, items: nat): N.Plan {
    N.Plan(seq<nat>(|g.nodes|, i requires 0 <= i < |g.nodes| => Stride(brs, g.nodes[i])),
           seq<nat>(|g.nodes|, i requires 0 <= i < |g.nodes| => Off(brs, g.nodes[i])), items)
  }

  lemma EdgeRates<V>(g: Topology, job: Job<V>, brs: seq<Branch>, items: nat, e: nat)
    requires GraphOk(g, job) && N.WellFormed(NetOf(g, job)) && e < |g.edges| && RatesAgree(g, job, brs, e)
    ensures N.EdgeBalanced(NetOf(g, job), PlanOf(g, brs, items), e)
  {
    EdgePlaced(g, job, e);
    assert N.EdgeOk(NetOf(g, job), e);
  }

  lemma FannedGenerator<V>(g0: Topology, job: Job<V>, path: seq<nat>, g: Topology, brs: seq<Branch>, v: nat)
    requires Splittable(g0, job, path) && Fanned(g0, path, g, brs) && v in g.nodes
    requires JobOf(job, path, brs).task(v).kind.Generator?
    ensures Plain(g0, brs, v)
  {
    var b, j := Classify(g0, job, path, g, brs, v);
    if !Plain(g0, brs, v) {
      InnerTask(g0, job, path, j);
    }
  }

  lemma SteadyAt<V>(g0: Topology, job: Job<V>, path: seq<nat>, brs: seq<Branch>, v: nat, items: nat)
    requires Plain(g0, brs, v) && Steady(g0, job, items) && JobOf(job, path, brs).task(v).kind.Generator?
    ensures JobOf(job, path, brs).task(v).kind.len == items
  {
    var i :| 0 <= i < |g0.nodes| && g0.nodes[i] == v;
    KeptSend(g0, job, path, brs, v);
  }

  lemma FannedGenerators<V>(g0: Topology, job: Job<V>, path: seq<nat>, g: Topology, brs: seq<Branch>, items: nat, i: nat)
    requires Splittable(g0, job, path) && Fanned(g0, path, g, brs) && Steady(g0, job, items) && i < |g.nodes|
    requires JobOf(job, path, brs).task(g.nodes[i]).kind.Generator?
    ensures PlanOf(g, brs, items).stride[i] == 1 && PlanOf(g, brs, items).off[i] == 0
    ensures JobOf(job, path, brs).task(g.nodes[i]).kind.len == items
  {
    FannedGenerator(g0, job, path, g, brs, g.nodes[i]);
    SteadyAt(g0, job, path, brs, g.nodes[i], items);
  }

  lemma FannedEdgeRates<V>(g0: Topology, job: Job<V>, path: seq<nat>, g: Topology, brs: seq<Branch>, items: nat, e: nat)
    requires Splittable(g0, job, path) && Fanned(g0, path, g, brs) && e < |g.edges|
    requires GraphOk(g, JobOf(job, path, brs)) && N.WellFormed(NetOf(g, JobOf(job, path, brs)))
    ensures N.EdgeBalanced(NetOf(g, JobOf(job, path, brs)), PlanOf(g, brs, items), e)
  {
    assert RatesAgree(g, JobOf(job, path, brs), brs, e) by {
      FannedRates(g0, job, path, g, brs, e);
    }
    EdgeRates(g, JobOf(job, path, brs), brs, items, e);
  }

  /** Balance of a network from the graph it was set up from. */
  lemma SetupBalanced<V>(g: Topology, job: Job<V>, brs: seq<Branch>, items: nat)
    requires N.WellFormed(NetOf(g, job)) && |brs| >= 1
    requires forall i :: 0 <= i < |g.nodes| && job.task(g.nodes[i]).kind.Generator? ==>
               && PlanOf(g, brs, items).stride[i] == 1 && PlanOf(g, brs, items).off[i] == 0
               && job.task(g.nodes[i]).kind.len == items
    requires forall e :: 0 <= e < |g.edges| ==> N.EdgeBalanced(NetOf(g, job), PlanOf(g, brs, items), e)
    ensures N.Balanced(NetOf(g, job), PlanOf(g, brs, items))
  {
  }

  lemma FannedBalanced<V>(g0: Topology, job: Job<V>, path: seq<nat>, g: Topology, brs: seq<Branch>, items: nat)
    requires Splittable(g0, job, path) && Fanned(g0, path, g, brs) && Steady(g0, job, items)
    ensures N.Balanced(NetOf(g, JobOf(job, path, brs)), PlanOf(g, brs, items))
  {
    var job' := JobOf(job, path, brs);
    FannedGraphOk(g0, job, path, g, brs);
    SetupWellFormed(g, job');
    forall i | 0 <= i < |g.nodes| && job'.task(g.nodes[i]).kind.Generator?
      ensures PlanOf(g, brs, items).stride[i] == 1 && PlanOf(g, brs, items).off[i] == 0
      ensures job'.task(g.nodes[i]).kind.len == items
    {
      FannedGenerators(g0, job, path, g, brs, items, i);
    }
    forall e | 0 <= e < |g.edges|
      ensures N.EdgeBalanced(NetOf(g, job'), PlanOf(g, brs, items), e)
    {
      FannedEdgeRates(g0, job, path, g, brs, items, e);
    }
    SetupBalanced(g, job', brs, items);
  }

  // The network of the expanded graph covers the network of the original one.

  /** For every node of the expanded graph, the position of the node that it stands for. */
  function BaseOf(g0: Topology, path: seq<nat>, g: Topology, brs: seq<Branch>): seq<nat> {
    seq<nat>(|g.nodes|, i requires 0 <= i < |g.nodes| => Pos(g0.nodes, Original(path, brs, g.nodes[i])))
  }

  lemma OriginalInside<V>(g0: Topology, job: Job<V>, path: seq<nat>, g: Topology, brs: seq<Branch>, v: nat)
    requires Splittable(g0, job, path) && Fanned(g0, path, g, brs) && v in g.nodes
    ensures Original(path, brs, v) in g0.nodes
  {
    var b, j := Classify(g0, job, path, g, brs, v);
    if !Plain(g0, brs, v) {
      assert path[j + 1] in g0.nodes;
    }
  }

  lemma SingleInput<V>(g0: Topology, job: Job<V>, path: seq<nat>, v: nat, p: nat, d: nat)
    requires Splittable(g0, job, path) && d < |g0.edges| && g0.edges[d].target == v && g0.edges[d].lab == p
    ensures Ins(g0, v, p) == [d]
  {
    InsHas(g0, v, p, d);
    assert |Ins(g0, v, p)| == 1;
    SingleMember(Ins(g0, v, p), d);
  }

  /** What feeds input `p` of a copy is a copy of what feeds input `p` of its original. */
  ghost predicate SourcesMeet<V>(g0: Topology, job: Job<V>, path: seq<nat>, g: Topology, brs: seq<Branch>, v: nat, p: nat, q: nat)
    requires N.WellFormed(NetOf(g, JobOf(job, path, brs))) && N.WellFormed(NetOf(g0, job))
    requires v < |g.nodes| && p < JobOf(job, path, brs).task(g.nodes[v]).inputs && q < |Ins(g, g.nodes[v], p)|
  {
    var base := BaseOf(g0, path, g, brs);
    && base[v] < |g0.nodes| && g0.nodes[base[v]] == Original(path, brs, g.nodes[v])
    && |Ins(g0, g0.nodes[base[v]], p)| >= 1
    && base[C.Source(NetOf(g, JobOf(job, path, brs)), v, p, q)] == C.Source(NetOf(g0, job), base[v], p, 0)
  }

  ghost predicate AllMeet<V>(g0: Topology, job: Job<V>, path: seq<nat>, g: Topology, brs: seq<Branch>)
    requires N.WellFormed(NetOf(g, JobOf(job, path, brs))) && N.WellFormed(NetOf(g0, job))
  {
    forall v, p, q | 0 <= v < |g.nodes| && 0 <= p < JobOf(job, path, brs).task(g.nodes[v]).inputs && 0 <= q < |Ins(g, g.nodes[v], p)| ::
      SourcesMeet(g0, job, path, g, brs, v, p, q)
  }

  lemma EdgesMeet<V>(g0: Topology, job: Job<V>, path: seq<nat>, g: Topology, brs: seq<Branch>, v: nat, p: nat, q: nat, d: nat)
    requires GraphOk(g, JobOf(job, path, brs)) && N.WellFormed(NetOf(g, JobOf(job, path, brs)))
    requires GraphOk(g0, job) && N.WellFormed(NetOf(g0, job))
    requires v < |g.nodes| && p < JobOf(job, path, brs).task(g.nodes[v]).inputs && q < |Ins(g, g.nodes[v], p)|
    requires Original(path, brs, g.nodes[v]) in g0.nodes && Ins(g0, Original(path, brs, g.nodes[v]), p) == [d]
    requires Ins(g, g.nodes[v], p)[q] < |g.edges| && d < |g0.edges|
    requires g0.edges[d].source == Original(path, brs, g.edges[Ins(g, g.nodes[v], p)[q]].source)
    ensures SourcesMeet(g0, job, path, g, brs, v, p, q)
  {
    var base := BaseOf(g0, path, g, brs);
    SourceOf(g, JobOf(job, path, brs), v, p, q);
    SourceOf(g0, job, base[v], p, 0);
  }

  lemma CopySource<V>(g0: Topology, job: Job<V>, path: seq<nat>, g: Topology, brs: seq<Branch>, v: nat, p: nat, q: nat)
    requires Splittable(g0, job, path) && Fanned(g0, path, g, brs)
    requires GraphOk(g, JobOf(job, path, brs)) && N.WellFormed(NetOf(g, JobOf(job, path, brs))) && N.WellFormed(NetOf(g0, job))
    requires v < |g.nodes| && p < JobOf(job, path, brs).task(g.nodes[v]).inputs && q < |Ins(g, g.nodes[v], p)|
    ensures SourcesMeet(g0, job, path, g, brs, v, p, q)
  {
    OriginalInside(g0, job, path, g, brs, g.nodes[v]);
    InPlaced(g, JobOf(job, path, brs), v, p, q);
    var d := EdgeImage(g0, job, path, g, brs, Ins(g, g.nodes[v], p)[q]);
    SingleInput(g0, job, path, Original(path, brs, g.nodes[v]), p, d);
    EdgesMeet(g0, job, path, g, brs, v, p, q, d);
  }

  lemma CopyKind<V>(g0: Topology, job: Job<V>, path: seq<nat>, g: Topology, brs: seq<Branch>, v: nat)
    requires Splittable(g0, job, path) && Fanned(g0, path, g, brs) && v < |g.nodes|
    ensures var base := BaseOf(g0, path, g, brs);
            && base[v] < |g0.nodes|
            && NetOf(g, JobOf(job, path, brs)).nodes[v].kind == NetOf(g0, job).nodes[base[v]].kind
            && |NetOf(g, JobOf(job, path, brs)).nodes[v].ins| == |NetOf(g0, job).nodes[base[v]].ins|
  {
    OriginalInside(g0, job, path, g, brs, g.nodes[v]);
  }

  lemma FannedInputs<V>(g0: Topology, job: Job<V>, path: seq<nat>, g: Topology, brs: seq<Branch>)
    requires Splittable(g0, job, path) && Fanned(g0, path, g, brs)
    requires GraphOk(g, JobOf(job, path, brs)) && N.WellFormed(NetOf(g, JobOf(job, path, brs))) && N.WellFormed(NetOf(g0, job))
    ensures AllMeet(g0, job, path, g, brs)
  {
    forall v, p, q | 0 <= v < |g.nodes| && 0 <= p < JobOf(job, path, brs).task(g.nodes[v]).inputs && 0 <= q < |Ins(g, g.nodes[v], p)|
      ensures SourcesMeet(g0, job, path, g, brs, v, p, q)
    {
      CopySource(g0, job, path, g, brs, v, p, q);
    }
  }

  lemma FannedKinds<V>(g0: Topology, job: Job<V>, path: seq<nat>, g: Topology, brs: seq<Branch>)
    requires Splittable(g0, job, path) && Fanned(g0, path, g, brs)
    ensures var wide, net, base := NetOf(g, JobOf(job, path, brs)), NetOf(g0, job), BaseOf(g0, path, g, brs);
            forall v :: 0 <= v < |base| ==>
              && base[v] < |net.nodes| && wide.nodes[v].kind == net.nodes[base[v]].kind
              && |wide.nodes[v].ins| == |net.nodes[base[v]].ins|
  {
    forall v | 0 <= v < |g.nodes|
      ensures var base := BaseOf(g0, path, g, brs);
              && base[v] < |g0.nodes|
              && NetOf(g, JobOf(job, path, brs)).nodes[v].kind == NetOf(g0, job).nodes[base[v]].kind
              && |NetOf(g, JobOf(job, path, brs)).nodes[v].ins| == |NetOf(g0, job).nodes[base[v]].ins|
    {
      CopyKind(g0, job, path, g, brs, v);
    }
  }

  lemma CoversFrom<V>(g0: Topology, job: Job<V>, path: seq<nat>, g: Topology, brs: seq<Branch>, items: nat)
    requires var wide, net, base := NetOf(g, JobOf(job, path, brs)), NetOf(g0, job), BaseOf(g0, path, g, brs);
             && N.Balanced(wide, PlanOf(g, brs, items)) && N.WellFormed(net) && C.Uniform(net)
             && (forall v :: 0 <= v < |base| ==>
                   && base[v] < |net.nodes| && wide.nodes[v].kind == net.nodes[base[v]].kind
                   && |wide.nodes[v].ins| == |net.nodes[base[v]].ins|)
             && AllMeet(g0, job, path, g, brs)
    ensures C.Covers(NetOf(g, JobOf(job, path, brs)), PlanOf(g, brs, items), NetOf(g0, job), BaseOf(g0, path, g, brs))
  {
    var wide, net, base := NetOf(g, JobOf(job, path, brs)), NetOf(g0, job), BaseOf(g0, path, g, brs);
    forall v, p, q | 0 <= v < |base| && 0 <= p < |wide.nodes[v].ins| && 0 <= q < |wide.nodes[v].ins[p]|
      ensures base[C.Source(wide, v, p, q)] == C.Source(net, base[v], p, 0)
    {
      assert SourcesMeet(g0, job, path, g, brs, v, p, q);
    }
  }

  lemma FannedCovers<V>(g0: Topology, job: Job<V>, path: seq<nat>, g: Topology, brs: seq<Branch>, items: nat)
    requires Splittable(g0, job, path) && Fanned(g0, path, g, brs) && Steady(g0, job, items)
    ensures C.Covers(NetOf(g, JobOf(job, path, brs)), PlanOf(g, brs, items), NetOf(g0, job), BaseOf(g0, path, g, brs))
  {
    FannedGraphOk(g0, job, path, g, brs);
    FannedBalanced(g0, job, path, g, brs, items);
    SetupWellFormed(g0, job);
    UnitUniform(g0, job);
    FannedKinds(g0, job, path, g, brs);
    FannedInputs(g0, job, path, g, brs);
    CoversFrom(g0, job, path, g, brs, items);
  }

  /** The sinks of the expanded graph are those of the original one. */
  lemma SinkPlain<V>(g0: Topology, job: Job<V>, path: seq<nat>, g: Topology, brs: seq<Branch>, v: nat)
    requires Splittable(g0, job, path) && Fanned(g0, path, g, brs) && v < |g.nodes|
    requires JobOf(job, path, brs).task(g.nodes[v]).kind.Sink?
    ensures v < |g0.nodes| && Plain(g0, brs, g.nodes[v]) && BaseOf(g0, path, g, brs)[v] == v
  {
    var b, j := Classify(g0, job, path, g, brs, g.nodes[v]);
    if !Plain(g0, brs, g.nodes[v]) {
      InnerTask(g0, job, path, j);
    } else {
      PlainPos(g0, g, brs, v);
    }
  }

  lemma PlainPos(g0: Topology, g: Topology, brs: seq<Branch>, v: nat)
    requires FanBase(g0, g) && v < |g.nodes| && g.nodes[v] in g0.nodes
    ensures v < |g0.nodes| && Pos(g0.nodes, g.nodes[v]) == v
  {
    var i := Pos(g0.nodes, g.nodes[v]);
    assert g.nodes[i] == g.nodes[..|g0.nodes|][i];
  }

  /** An inner node of a branch is no sink of the original graph. */
  lemma InnerNoSink<V>(g0: Topology, job: Job<V>, path: seq<nat>, g: Topology, brs: seq<Branch>, b: nat, j: nat)
    requires Splittable(g0, job, path) && b < |brs| && j < |brs[b].ns| && j < |path| - 2
    requires brs[0].ns == path[1..|path| - 1] && FanMembers(g0, g, brs) && brs[b].ns[j] in g0.nodes
    ensures !job.task(brs[b].ns[j]).kind.Sink?
  {
    assert brs[b].ns[j] in brs[b].ns;
    InnerTask(g0, job, path, j);
  }

  lemma SinkKept<V>(g0: Topology, job: Job<V>, path: seq<nat>, g: Topology, brs: seq<Branch>, v: nat)
    requires Splittable(g0, job, path) && Fanned(g0, path, g, brs) && v in g0.nodes && v in g.nodes && job.task(v).kind.Sink?
    ensures Original(path, brs, v) == v
  {
    var b, j := Classify(g0, job, path, g, brs, v);
    if Inner(path, brs, b, j, v) {
      InnerNoSink(g0, job, path, g, brs, b, j);
    }
  }

  lemma NodeKept(g0: Topology, g: Topology, v: nat)
    requires FanBase(g0, g) && v < |g0.nodes|
    ensures v < |g.nodes| && g.nodes[v] == g0.nodes[v]
  {
    assert g.nodes[..|g0.nodes|][v] == g0.nodes[v];
  }

  lemma SinkStays<V>(g0: Topology, job: Job<V>, path: seq<nat>, g: Topology, brs: seq<Branch>, v: nat)
    requires Splittable(g0, job, path) && Fanned(g0, path, g, brs) && v < |g0.nodes| && job.task(g0.nodes[v]).kind.Sink?
    ensures v < |g.nodes| && g.nodes[v] == g0.nodes[v] && JobOf(job, path, brs).task(g.nodes[v]).kind.Sink?
  {
    NodeKept(g0, g, v);
    SinkKept(g0, job, path, g, brs, g.nodes[v]);
  }

  /** Both graphs have the same sinks, at the same positions. */
  ghost predicate SameSinks<V>(h: Topology, job': Job<V>, g: Topology, job: Job<V>) {
    && (forall v :: 0 <= v < |h.nodes| && job'.task(h.nodes[v]).kind.Sink? ==> SinkOf(g, job, h, v))
    && (forall v :: 0 <= v < |g.nodes| && job.task(g.nodes[v]).kind.Sink? ==> SinkOf(h, job', g, v))
  }

  ghost predicate SinkOf<V>(g: Topology, job: Job<V>, h: Topology, v: nat) {
    v < |g.nodes| && v < |h.nodes| && h.nodes[v] == g.nodes[v] && job.task(g.nodes[v]).kind.Sink?
  }

  lemma FannedSinks<V>(g0: Topology, job: Job<V>, path: seq<nat>, g: Topology, brs: seq<Branch>)
    requires Splittable(g0, job, path) && Fanned(g0, path, g, brs)
    ensures SameSinks(g, JobOf(job, path, brs), g0, job)
  {
    forall v | 0 <= v < |g.nodes| && JobOf(job, path, brs).task(g.nodes[v]).kind.Sink?
      ensures SinkOf(g0, job, g, v)
    {
      SinkPlain(g0, job, path, g, brs, v);
      NodeKept(g0, g, v);
    }
    forall v | 0 <= v < |g0.nodes| && job.task(g0.nodes[v]).kind.Sink?
      ensures SinkOf(g, JobOf(job, path, brs), g0, v)
    {
      SinkStays(g0, job, path, g, brs, v);
    }
  }

  /** All threads have finished, and every sink of `h` has processed exactly the `items` items that the
      meaning of `g` gives it, in order. */
  ghost predicate Shows<V>(h: Topology, job': Job<V>, g: Topology, job: Job<V>, items: nat, s: R.State<V>)
    requires GraphOk(g, job) && R.Shaped(NetOf(h, job'), s)
  {
    && R.AllDone(NetOf(h, job'), s)
    && forall v :: 0 <= v < |g.nodes| && job.task(g.nodes[v]).kind.Sink? ==>
         v < |h.nodes| && s.threads[v].log == F.Stream(g, job, g.nodes[v], items)
  }

  /** The graph `h` with the tasks of `job'` delivers the meaning of `g`: it has the same sinks, no run
      of its threads is longer than some bound, and under every interleaving a run that cannot go on has
      shown the sinks exactly their streams. */
  ghost predicate Delivers<V(!new)>(h: Topology, job': Job<V>, g: Topology, job: Job<V>, items: nat) {
    && GraphOk(g, job) && SameSinks(h, job', g, job)
    && (exists bound :: Runs.Bounded(NetOf(h, job'), bound))
    && forall run, s :: Runs.Complete(NetOf(h, job'), run, s) ==> Shows(h, job', g, job, items, s)
  }

  /** What the covering says of one sink. */
  lemma CoveredSink<V>(wide: N.Net<V>, plan: N.Plan, g0: Topology, job: Job<V>, base: seq<nat>, v: nat, run: seq<nat>,
                       s: R.State<V>)
    requires GraphOk(g0, job) && UnitGraph(g0, job) && Steady(g0, job, plan.items)
    requires C.Covers(wide, plan, NetOf(g0, job), base) && Runs.Complete(wide, run, s)
    requires v < |base| && v < |g0.nodes| && base[v] == v && wide.nodes[v].kind.Sink? && plan.stride[v] == 1 && plan.off[v] == 0
    ensures s.threads[v].log == F.Stream(g0, job, g0.nodes[v], plan.items)
  {
    Runs.Delivery(wide, plan, run, s);
    C.CoverMeaning(wide, plan, NetOf(g0, job), base, v, s.threads[v].log);
    F.SinkSees(g0, job, plan.items, v, s.threads[v].log);
  }

  lemma FannedShows<V>(g0: Topology, job: Job<V>, path: seq<nat>, g: Topology, brs: seq<Branch>, items: nat,
                       run: seq<nat>, s: R.State<V>)
    requires Splittable(g0, job, path) && Fanned(g0, path, g, brs) && Steady(g0, job, items)
    requires Runs.Complete(NetOf(g, JobOf(job, path, brs)), run, s)
    ensures Shows(g, JobOf(job, path, brs), g0, job, items, s)
  {
    var job', plan, base := JobOf(job, path, brs), PlanOf(g, brs, items), BaseOf(g0, path, g, brs);
    FannedCovers(g0, job, path, g, brs, items);
    Runs.Delivery(NetOf(g, job'), plan, run, s);
    forall v | 0 <= v < |g0.nodes| && job.task(g0.nodes[v]).kind.Sink?
      ensures v < |g.nodes| && s.threads[v].log == F.Stream(g0, job, g0.nodes[v], items)
    {
      SinkStays(g0, job, path, g, brs, v);
      SinkPlain(g0, job, path, g, brs, v);
      CoveredSink(NetOf(g, job'), plan, g0, job, base, v, run, s);
    }
  }

  lemma FannedDelivers<V(!new)>(g0: Topology, job: Job<V>, path: seq<nat>, g: Topology, brs: seq<Branch>, items: nat)
    requires Splittable(g0, job, path) && Fanned(g0, path, g, brs) && Steady(g0, job, items)
    ensures Delivers(g, JobOf(job, path, brs), g0, job, items)
  {
    FannedSinks(g0, job, path, g, brs);
    FannedBalanced(g0, job, path, g, brs, items);
    Runs.BalancedBounded(NetOf(g, JobOf(job, path, brs)), PlanOf(g, brs, items));
    forall run, s | Runs.Complete(NetOf(g, JobOf(job, path, brs)), run, s)
      ensures Shows(g, JobOf(job, path, brs), g0, job, items, s)
    {
      FannedShows(g0, job, path, g, brs, items, run, s);
    }
  }

  lemma UnitShows<V>(g: Topology, job: Job<V>, items: nat, run: seq<nat>, s: R.State<V>)
    requires GraphOk(g, job) && UnitGraph(g, job) && Steady(g, job, items)
    requires N.Balanced(NetOf(g, job), F.FixedPlan(g, items)) && Runs.Complete(NetOf(g, job), run, s)
    ensures Shows(g, job, g, job, items, s)
  {
    Runs.Delivery(NetOf(g, job), F.FixedPlan(g, items), run, s);
    forall v | 0 <= v < |g.nodes| && job.task(g.nodes[v]).kind.Sink?
      ensures s.threads[v].log == F.Stream(g, job, g.nodes[v], items)
    {
      F.SinkSees(g, job, items, v, s.threads[v].log);
    }
  }

  /** A graph without parallel branches delivers its own meaning. */
  lemma UnitDelivers<V(!new)>(g: Topology, job: Job<V>, items: nat)
    requires GraphOk(g, job) && UnitGraph(g, job) && Steady(g, job, items)
    ensures Delivers(g, job, g, job, items)
  {
    SetupWellFormed(g, job);
    UnitUniform(g, job);
    C.UniformBalanced(NetOf(g, job), items);
    Runs.BalancedBounded(NetOf(g, job), F.FixedPlan(g, items));
    forall run, s | Runs.Complete(NetOf(g, job), run, s)
      ensures Shows(g, job, g, job, items, s)
    {
      UnitShows(g, job, items, run, s);
    }
  }

  /** Expansion preserves meaning. Whatever the number of expansions and whatever the interleavings, all
      threads of the expanded graph finish, and every sink ends with exactly the items that the original
      graph gives it, in the same order. So do the threads of the original graph. */
  lemma ExpansionPreservesMeaning<V(!new)>(g: Topology, job: Job<V>, path: seq<nat>, first: nat, n: nat, items: nat)
    returns (brs: seq<Branch>, x: Growth)
    requires Splittable(g, job, path) && Below(g, first) && Steady(g, job, items)
    ensures x == ExpandTimes(g, first, path, n)
    ensures |brs| == n + 1 && Consecutive(first, |path| - 2, brs) && Fanned(g, path, x.graph, brs)
    ensures Delivers(x.graph, JobOf(job, path, brs), g, job, items) && Delivers(g, job, g, job, items)
  {
    brs, x := ExpandTimesFans(g, job, path, first, n);
    FannedDelivers(g, job, path, x.graph, brs, items);
    UnitDelivers(g, job, items);
  }
}
