/** Exactly when expansion preserves meaning: when the head of the path scatters and no inner node has a
    successor beside the path. */
module Faithfulness {
  import opened G = Graph
  import opened Expand
  import opened Setup
  import opened Fan
  import opened FanNet
  import opened Preserves
  import opened Branches
  import opened Imbalance
  import F = Flow
  import R = Runtime
  import Runs

  /** The condition: one look at the path before it is expanded. */
  ghost predicate ForkFree<V>(g: Topology, job: Job<V>, path: seq<nat>) {
    |path| >= 3 && job.task(path[0]).send.Scatter? && forall k :: 0 < k < |path| - 1 ==> OneOut(g, path[k])
  }

  /** The graph delivers the meaning of `g`, and no task ever goes on when only some of its inputs have
      ended, which would make it work on buffers that it has released. */
  ghost predicate Faithful<V(!new)>(h: Topology, job': Job<V>, g: Topology, job: Job<V>, items: nat) {
    Delivers(h, job', g, job, items) && F.Together(NetOf(h, job'))
  }

  // What the expanded graph has of the original one.

  lemma PortOfEdge<V>(g: Topology, job: Job<V>, u: nat, v: nat, p: nat, j: nat)
    requires GraphOk(g, job) && UnitGraph(g, job) && Joined(g.edges, u, v) && Label(g.edges, u, v) == p
    requires j < |g.edges| && g.edges[j].target == v && g.edges[j].lab == p
    ensures g.edges[j].source == u
  {
    var d := LabelFound(g.edges, [], u, v);
    InsHas(g, v, p, d);
    InsHas(g, v, p, j);
    assert |Ins(g, v, p)| == 1;
  }

  lemma PortSealed<V>(g: Topology, job: Job<V>, path: seq<nat>, k: nat, j: nat)
    requires GraphOk(g, job) && UnitGraph(g, job) && |path| >= 3 && IsPath(g.edges, path) && 0 < k < |path| && j < |g.edges|
    requires k < |path| - 1 ==> job.task(path[k]).inputs == 1
    requires g.edges[j].target == path[k] && (k == |path| - 1 ==> g.edges[j].lab == MeetingPort(g, path))
    ensures g.edges[j].source == path[k - 1]
  {
    assert Linked(g.edges, path, k);
    if k < |path| - 1 {
      var d := LabelFound(g.edges, [], path[k - 1], path[k]);
    }
    PortOfEdge(g, job, path[k - 1], path[k], g.edges[j].lab, j);
  }

  lemma CandidateSealed<V>(g: Topology, job: Job<V>, path: seq<nat>, first: nat)
    requires Candidate(g, job, path) && Below(g, first)
    ensures Sealed(g, path)
  {
    CandidatePath(g, job, path, first);
    forall j, k | 0 <= j < |g.edges| && 0 < k < |path| && g.edges[j].target == path[k]
                  && (k == |path| - 1 ==> g.edges[j].lab == MeetingPort(g, path))
      ensures g.edges[j].source == path[k - 1]
    {
      PortSealed(g, job, path, k, j);
    }
  }

  lemma GrownInside<V>(g: Topology, job: Job<V>, path: seq<nat>, first: nat, n: nat, h: Topology, made: seq<nat>)
    requires Candidate(g, job, path) && Below(g, first) && Spread(g, path, h, n)
    ensures Inside(g, job, path, h, CopyJob(job, first, made))
  {
    forall v | v in g.nodes
      ensures SameTask(job, CopyJob(job, first, made), v, v)
    {
      KeepsTask(job, first, made, v);
    }
  }

  lemma GrownToAll<V>(g: Topology, job: Job<V>, path: seq<nat>, h: Topology, job': Job<V>)
    requires Inside(g, job, path, h, job') && !job.task(path[0]).send.Scatter? && path[0] in g.nodes
    ensures AllToAll(h, job')
  {
    forall v | v in h.nodes
      ensures ToAll(h, job', v)
    {
      if v in g.nodes {
        assert SameTask(job, job', v, v);
        assert v != path[0] ==> OutsKept(g, h, v);
      } else {
        assert OneOut(h, v);
      }
    }
  }

  /** The port where the branches meet. */
  lemma MeetingWide<V>(g: Topology, job: Job<V>, path: seq<nat>, first: nat, n: nat, h: Topology, made: seq<nat>)
    requires Candidate(g, job, path) && Below(g, first) && Spread(g, path, h, n)
    ensures var tail := path[|path| - 1];
            && tail in h.nodes && MeetingPort(g, path) < CopyJob(job, first, made).task(tail).inputs
            && |Ins(h, tail, MeetingPort(g, path))| == n + 1
  {
    var tail := path[|path| - 1];
    assert Linked(g.edges, path, |path| - 1);
    var d := LabelFound(g.edges, [], path[|path| - 2], tail);
    assert |Ins(g, tail, MeetingPort(g, path))| == 1;
    BaseInside(g, h, tail);
    KeepsTask(job, first, made, tail);
  }

  // What a complete run shows.

  /** A graph that delivers has a run that comes to its end. */
  lemma SomeRun<V(!new)>(h: Topology, job': Job<V>, g: Topology, job: Job<V>, items: nat, clean: bool) returns (s: R.State<V>)
    requires GraphOk(h, job') && Delivers(h, job', g, job, items) && (clean ==> F.Together(NetOf(h, job')))
    ensures Ended(h, job', s, clean) && Shows(h, job', g, job, items, s)
  {
    SetupWellFormed(h, job');
    var bound :| Runs.Bounded(NetOf(h, job'), bound);
    var run;
    run, s := F.BoundedCompletes(NetOf(h, job'), bound, [], R.Init(NetOf(h, job')));
    F.ReachableFlow(NetOf(h, job'), run, s, clean);
  }

  /** A sink has gone through as many iterations as the streams have items. */
  lemma SinkExact<V>(h: Topology, job': Job<V>, g: Topology, job: Job<V>, items: nat, clean: bool, s: R.State<V>, v: nat)
    requires Ended(h, job', s, clean) && GraphOk(g, job) && Shows(h, job', g, job, items, s)
    requires FanBase(g, h) && v in g.nodes && job.task(v).kind.Sink? && SameTask(job, job', v, v)
    ensures Iterations(h, s, v) == items
  {
    var i :| 0 <= i < |g.nodes| && g.nodes[i] == v;
    assert h.nodes[i] == h.nodes[..|g.nodes|][i];
    PosUnique(h.nodes, i);
    SinkEnds(h, job', s, clean, v);
  }

  // Necessity.

  /** If the sinks get no more items than they should, nor does the tail. */
  lemma NoExcess<V>(g: Topology, job: Job<V>, path: seq<nat>, h: Topology, job': Job<V>, items: nat, s: R.State<V>)
    requires Inside(g, job, path, h, job') && Ended(h, job', s, false) && Shows(h, job', g, job, items, s)
    requires path[|path| - 1] in g.nodes && job.rank(path[0]) < job.rank(path[|path| - 1])
    ensures Iterations(h, s, path[|path| - 1]) <= items
  {
    if Iterations(h, s, path[|path| - 1]) > items {
      var v := ExcessReaches(g, job, path, h, job', s, items);
      assert SameTask(job, job', v, v);
      SinkExact(h, job', g, job, items, false, s, v);
    }
  }

  /** A head that hands every item to all branches gives the tail too many. */
  lemma TailExcess<V>(g: Topology, job: Job<V>, path: seq<nat>, h: Topology, job': Job<V>, s: R.State<V>, items: nat)
    requires Inside(g, job, path, h, job') && Ended(h, job', s, false) && Steady(h, job', items) && items >= 1
    requires !job.task(path[0]).send.Scatter? && path[0] in g.nodes
    requires var tail, p := path[|path| - 1], MeetingPort(g, path); tail in h.nodes && p < job'.task(tail).inputs && |Ins(h, tail, p)| >= 2
    ensures Iterations(h, s, path[|path| - 1]) > items
  {
    GrownToAll(g, job, path, h, job');
    TooMany(h, job', s, items, path[|path| - 1], MeetingPort(g, path));
  }

  lemma HeadBeforeTail<V>(g: Topology, job: Job<V>, path: seq<nat>)
    requires Candidate(g, job, path)
    ensures |path| >= 3 && path[0] in g.nodes && path[|path| - 1] in g.nodes && job.rank(path[0]) < job.rank(path[|path| - 1])
  {
    RankGrows(g.edges, job.rank, path, 0, |path| - 1);
  }

  lemma BroadcastFails<V>(g: Topology, job: Job<V>, path: seq<nat>, first: nat, n: nat, items: nat, h: Topology, made: seq<nat>,
                          s: R.State<V>)
    requires Candidate(g, job, path) && Below(g, first) && Steady(g, job, items) && n >= 1 && items >= 1
    requires Spread(g, path, h, n) && Based(g, h, first, made) && Ended(h, CopyJob(job, first, made), s, false)
    requires Shows(h, CopyJob(job, first, made), g, job, items, s)
    ensures job.task(path[0]).send.Scatter?
  {
    HeadBeforeTail(g, job, path);
    GrownInside(g, job, path, first, n, h, made);
    BasedSteady(g, job, h, first, made, items);
    MeetingWide(g, job, path, first, n, h, made);
    NoExcess(g, job, path, h, CopyJob(job, first, made), items, s);
    if !job.task(path[0]).send.Scatter? {
      TailExcess(g, job, path, h, CopyJob(job, first, made), s, items);
    }
  }

  /** The sinks get too many items, if they get any, when the head does not scatter. */
  lemma ScatterNeeded<V(!new)>(g: Topology, job: Job<V>, path: seq<nat>, first: nat, n: nat, items: nat, x: Growth)
    requires Candidate(g, job, path) && Below(g, first) && Steady(g, job, items) && n >= 1 && items >= 1
    requires x == ExpandTimes(g, first, path, n)
    requires Delivers(x.graph, CopyJob(job, first, x.made), g, job, items)
    ensures job.task(path[0]).send.Scatter?
  {
    var y := SpreadTimes(g, job, path, first, n);
    var s := SomeRun(x.graph, CopyJob(job, first, x.made), g, job, items, false);
    BroadcastFails(g, job, path, first, n, items, x.graph, x.made, s);
  }

  /** A second successor of a node on the path. */
  lemma SideEdge(g: Topology, v: nat, u: nat) returns (j: nat)
    requires Simple(g.edges) && |Outs(g, v)| >= 2
    ensures j < |g.edges| && g.edges[j].source == v && g.edges[j].target != u
  {
    var a, b := Outs(g, v)[0], Outs(g, v)[1];
    OutIdxHas(g.edges, v, |g.edges|, a);
    OutIdxHas(g.edges, v, |g.edges|, b);
    OutsDistinct(g.edges, v, |g.edges|);
    j := if g.edges[a].target == u then b else a;
  }

  lemma PathDiffers<V>(g: Topology, job: Job<V>, path: seq<nat>, a: nat, b: nat)
    requires Ranked(g.edges, job.rank) && IsPath(g.edges, path) && a < |path| && b < |path| && path[a] == path[b]
    ensures a == b
  {
    if a < b {
      RankGrows(g.edges, job.rank, path, a, b);
    } else if b < a {
      RankGrows(g.edges, job.rank, path, b, a);
    }
  }

  /** A side edge leads to a node aside, and not to where the branches meet. */
  lemma SideAside<V>(g: Topology, job: Job<V>, path: seq<nat>, k: nat, j: nat)
    requires Sealed(g, path) && Ranked(g.edges, job.rank) && IsPath(g.edges, path) && 0 < k < |path| - 1 && j < |g.edges|
    requires g.edges[j].source == path[k] && g.edges[j].target != path[k + 1]
    ensures Aside(job, path, g.edges[j].target) && !Meeting(g, path, g.edges[j].target, g.edges[j].lab)
  {
    var w := g.edges[j].target;
    RankGrows(g.edges, job.rank, path, 0, k);
    forall i | 0 < i < |path| - 1
      ensures w != path[i]
    {
      if w == path[i] {
        PathDiffers(g, job, path, i - 1, k);
      }
    }
    if Meeting(g, path, w, g.edges[j].lab) {
      PathDiffers(g, job, path, |path| - 2, k);
    }
  }

  /** If the sinks get no fewer items than they should, nor do the nodes aside. */
  lemma NoLack<V>(g: Topology, job: Job<V>, path: seq<nat>, h: Topology, job': Job<V>, items: nat, s: R.State<V>, w: nat)
    requires Inside(g, job, path, h, job') && Ended(h, job', s, true) && Shows(h, job', g, job, items, s)
    requires Sealed(g, path) && w in g.nodes && Aside(job, path, w)
    ensures Iterations(h, s, w) >= items
  {
    if Iterations(h, s, w) < items {
      var v := LackReaches(g, job, path, h, job', s, items, w);
      assert SameTask(job, job', v, v);
      SinkExact(h, job', g, job, items, true, s, v);
    }
  }

  /** The original edge that leaves the head stands last among its targets. */
  lemma HeadLast<V>(g: Topology, job: Job<V>, path: seq<nat>, h: Topology, job': Job<V>, n: nat) returns (j: nat)
    requires Inside(g, job, path, h, job') && Widened(g, path, h, n) && IsPath(g.edges, path) && TailApart(path)
    requires path[0] in g.nodes && job.task(path[0]).send.Scatter?
    ensures j < |g.edges| && j < |h.edges| && h.edges[j] == g.edges[j]
    ensures g.edges[j].source == path[0] && g.edges[j].target == path[1]
    ensures |Outs(h, path[0])| == n + 1 && Outs(h, path[0])[n] == j && |Ins(h, path[1], g.edges[j].lab)| == 1
  {
    assert Linked(g.edges, path, 1);
    j := LabelFound(g.edges, [], path[0], path[1]);
    assert h.edges[j] == h.edges[..|g.edges|][j];
    OutIdxHas(g.edges, path[0], |g.edges|, j);
    assert Outs(g, path[0]) == [j] && Outs(h, path[0])[n..][0] == j;
    TaskAt(g, job, path[1]);
    assert path[1] != path[|path| - 1];
    assert InsKept(g, h, path[1], g.edges[j].lab);
  }

  /** A head that scatters gives the original inner nodes fewer items than it has. */
  lemma InnerLack<V>(g: Topology, job: Job<V>, path: seq<nat>, h: Topology, job': Job<V>, n: nat, items: nat,
                     s: R.State<V>, k: nat)
    requires Inside(g, job, path, h, job') && Widened(g, path, h, n) && IsPath(g.edges, path) && TailApart(path)
    requires Ended(h, job', s, true) && Steady(g, job, items) && n >= 1 && items >= 1 && 0 < k < |path| - 1
    requires path[0] in g.nodes && job.task(path[0]).send.Scatter? && job.rank(path[0]) < job.rank(path[|path| - 1])
    ensures Iterations(h, s, path[k]) < items
  {
    Exactly(g, job, path, h, job', s, items, path[0]);
    var j := HeadLast(g, job, path, h, job', n);
    assert SameTask(job, job', path[0], path[0]);
    ServedLast(h, job', s, j, n);
    AlongPath(g, job, path, h, job', s, k);
  }

  lemma InnerFlows<V>(g: Topology, job: Job<V>, path: seq<nat>, h: Topology, job': Job<V>, s: R.State<V>, k: nat, j: nat)
    requires Inside(g, job, path, h, job') && Ended(h, job', s, true) && IsPath(g.edges, path) && 0 < k < |path| - 1
    requires j < |g.edges| && g.edges[j].source == path[k] && !Meeting(g, path, g.edges[j].target, g.edges[j].lab)
    ensures Iterations(h, s, g.edges[j].target) == Iterations(h, s, path[k])
  {
    RankGrows(g.edges, job.rank, path, 0, k);
    FlowsOn(g, job, path, h, job', s, true, j);
  }

  lemma ForkFails<V>(g: Topology, job: Job<V>, path: seq<nat>, h: Topology, job': Job<V>, n: nat, items: nat,
                     s: R.State<V>, k: nat)
    requires Inside(g, job, path, h, job') && Widened(g, path, h, n) && IsPath(g.edges, path) && TailApart(path) && Sealed(g, path)
    requires Ended(h, job', s, true) && Shows(h, job', g, job, items, s)
    requires Steady(g, job, items) && n >= 1 && items >= 1 && 0 < k < |path| - 1
    requires path[0] in g.nodes && job.task(path[0]).send.Scatter? && job.rank(path[0]) < job.rank(path[|path| - 1])
    ensures |Outs(g, path[k])| <= 1
  {
    if |Outs(g, path[k])| >= 2 {
      var j := SideEdge(g, path[k], path[k + 1]);
      SideAside(g, job, path, k, j);
      NoLack(g, job, path, h, job', items, s, g.edges[j].target);
      InnerFlows(g, job, path, h, job', s, k, j);
      InnerLack(g, job, path, h, job', n, items, s, k);
    }
  }

  lemma HasNext(g: Topology, path: seq<nat>, k: nat)
    requires IsPath(g.edges, path) && k < |path| - 1
    ensures |Outs(g, path[k])| >= 1
  {
    assert Linked(g.edges, path, k + 1);
    var d := LabelFound(g.edges, [], path[k], path[k + 1]);
    OutIdxHas(g.edges, path[k], |g.edges|, d);
  }

  lemma InnerOneOut<V>(g: Topology, job: Job<V>, path: seq<nat>, first: nat, n: nat, items: nat, h: Topology, made: seq<nat>,
                       s: R.State<V>)
    requires Candidate(g, job, path) && Below(g, first) && Steady(g, job, items) && n >= 1 && items >= 1
    requires Spread(g, path, h, n) && Ended(h, CopyJob(job, first, made), s, true)
    requires Shows(h, CopyJob(job, first, made), g, job, items, s) && job.task(path[0]).send.Scatter?
    ensures ForkFree(g, job, path)
  {
    HeadBeforeTail(g, job, path);
    GrownInside(g, job, path, first, n, h, made);
    AcyclicTail(g.edges, job.rank, path);
    CandidateSealed(g, job, path, first);
    forall k | 0 < k < |path| - 1
      ensures OneOut(g, path[k])
    {
      HasNext(g, path, k);
      ForkFails(g, job, path, h, CopyJob(job, first, made), n, items, s, k);
    }
  }

  /** Whatever is expanded without harm is free of forks. */
  lemma ForkFreeNeeded<V(!new)>(g: Topology, job: Job<V>, path: seq<nat>, first: nat, n: nat, items: nat, x: Growth)
    requires Candidate(g, job, path) && Below(g, first) && Steady(g, job, items) && n >= 1 && items >= 1
    requires x == ExpandTimes(g, first, path, n)
    requires Faithful(x.graph, CopyJob(job, first, x.made), g, job, items)
    ensures ForkFree(g, job, path)
  {
    ScatterNeeded(g, job, path, first, n, items, x);
    var y := SpreadTimes(g, job, path, first, n);
    var s := SomeRun(x.graph, CopyJob(job, first, x.made), g, job, items, true);
    InnerOneOut(g, job, path, first, n, items, x.graph, x.made, s);
  }

  // Sufficiency: the branches of an expansion are the copies that it has made.

  ghost predicate Recalls(path: seq<nat>, brs: seq<Branch>, first: nat, made: seq<nat>) {
    && (forall v: nat :: v < first ==> Original(path, brs, v) == v)
    && (forall k :: 0 <= k < |made| ==> Recalled(path, brs, first, made, k))
  }

  ghost predicate Recalled(path: seq<nat>, brs: seq<Branch>, first: nat, made: seq<nat>, k: nat)
    requires k < |made|
  {
    Original(path, brs, first + k) == made[k]
  }

  lemma {:induction false} RoundsSize(s: seq<nat>, n: nat)
    ensures |Rounds(s, n)| == Stacked(n, |s|)
  {
    if n > 0 {
      RoundsSize(s, n - 1);
    }
  }

  lemma FirstBranchRecalls(path: seq<nat>, br: Branch, first: nat)
    requires |path| >= 3 && br.ns == path[1..|path| - 1]
    ensures Recalls(path, [br], first, [])
  {
    forall v: nat | v < first
      ensures Original(path, [br], v) == v
    {
      assert [br][..0] == [];
      assert BranchNo([], v) == 0;
      if v in br.ns {
        assert path[Pos(br.ns, v) + 1] == br.ns[Pos(br.ns, v)];
      }
    }
  }

  /** Looking up a node that the last branch does not have. */
  lemma LookPast(path: seq<nat>, brs: seq<Branch>, br: Branch, v: nat)
    requires v !in br.ns
    ensures Original(path, brs + [br], v) == Original(path, brs, v)
  {
    assert (brs + [br])[..|brs|] == brs;
    assert BranchNo(brs + [br], v) == BranchNo(brs, v);
  }

  lemma LookLast(path: seq<nat>, brs: seq<Branch>, br: Branch, next: nat, j: nat)
    requires |path| >= 3 && j < |path| - 2 && br.ns == BranchNodes(next, |path| - 2)
    ensures Original(path, brs + [br], next + j) == path[j + 1]
  {
    assert br.ns[j] == next + j;
    assert BranchNo(brs + [br], next + j) == |brs| + 1;
    PosUnique(br.ns, j);
  }

  lemma NextBranchRecalls(path: seq<nat>, brs: seq<Branch>, br: Branch, first: nat, made: seq<nat>)
    requires |path| >= 3 && Recalls(path, brs, first, made) && br.ns == BranchNodes(first + |made|, |path| - 2)
    ensures Recalls(path, brs + [br], first, made + path[1..|path| - 1])
  {
    var made' := made + path[1..|path| - 1];
    forall v: nat | v < first
      ensures Original(path, brs + [br], v) == v
    {
      LookPast(path, brs, br, v);
    }
    forall k | 0 <= k < |made'|
      ensures Recalled(path, brs + [br], first, made', k)
    {
      if k < |made| {
        LookPast(path, brs, br, first + k);
        assert Recalled(path, brs, first, made, k);
      } else {
        LookLast(path, brs, br, first + |made|, k - |made|);
      }
    }
  }

  lemma {:induction false} BranchesRecall(path: seq<nat>, brs: seq<Branch>, first: nat)
    requires |path| >= 3 && |brs| >= 1 && brs[0].ns == path[1..|path| - 1] && Consecutive(first, |path| - 2, brs)
    ensures Recalls(path, brs, first, Rounds(path[1..|path| - 1], |brs| - 1))
    decreases |brs|
  {
    var n := |brs| - 1;
    if n == 0 {
      assert brs == [brs[0]];
      FirstBranchRecalls(path, brs[0], first);
    } else {
      BranchesRecall(path, brs[..n], first);
      RoundsSize(path[1..|path| - 1], n - 1);
      NextBranchRecalls(path, brs[..n], brs[n], first, Rounds(path[1..|path| - 1], n - 1));
      assert brs == brs[..n] + [brs[n]];
    }
  }

  lemma RecallIsBase(path: seq<nat>, brs: seq<Branch>, first: nat, made: seq<nat>, v: nat)
    requires Recalls(path, brs, first, made) && v < first + |made|
    ensures Original(path, brs, v) == Base(first, made, v)
  {
    if v >= first {
      assert Recalled(path, brs, first, made, v - first);
    }
  }

  /** Both ways to find the task of a copy give the same network. */
  lemma SameNet<V>(h: Topology, job: Job<V>, path: seq<nat>, brs: seq<Branch>, first: nat, made: seq<nat>)
    requires Recalls(path, brs, first, made) && Below(h, first + |made|)
    ensures forall v :: v in h.nodes ==> JobOf(job, path, brs).task(v) == CopyJob(job, first, made).task(v)
    ensures NetOf(h, JobOf(job, path, brs)) == NetOf(h, CopyJob(job, first, made))
  {
    forall v | v in h.nodes
      ensures JobOf(job, path, brs).task(v) == CopyJob(job, first, made).task(v)
      ensures JobOf(job, path, brs).rank(v) == CopyJob(job, first, made).rank(v)
    {
      RecallIsBase(path, brs, first, made, v);
    }
    forall i | 0 <= i < |h.nodes|
      ensures NodeOf(h, JobOf(job, path, brs), h.nodes[i]) == NodeOf(h, CopyJob(job, first, made), h.nodes[i])
      ensures JobOf(job, path, brs).rank(h.nodes[i]) == CopyJob(job, first, made).rank(h.nodes[i])
    {
      assert h.nodes[i] in h.nodes;
    }
  }

  lemma SameDelivers<V(!new)>(h: Topology, job1: Job<V>, job2: Job<V>, g: Topology, job: Job<V>, items: nat)
    requires Delivers(h, job1, g, job, items) && NetOf(h, job1) == NetOf(h, job2)
    requires forall v :: v in h.nodes ==> job1.task(v) == job2.task(v)
    ensures Delivers(h, job2, g, job, items)
  {
    forall v | 0 <= v < |g.nodes| && job.task(g.nodes[v]).kind.Sink?
      ensures SinkOf(h, job2, g, v)
    {
      assert SinkOf(h, job1, g, v);
      assert h.nodes[v] in h.nodes;
    }
    forall v | 0 <= v < |h.nodes| && job2.task(h.nodes[v]).kind.Sink?
      ensures SinkOf(g, job, h, v)
    {
      assert h.nodes[v] in h.nodes;
    }
    var bound :| Runs.Bounded(NetOf(h, job1), bound);
    assert Runs.Bounded(NetOf(h, job2), bound);
    forall run, s | Runs.Complete(NetOf(h, job2), run, s)
      ensures Shows(h, job2, g, job, items, s)
    {
      assert Shows(h, job1, g, job, items, s);
    }
  }

  lemma ForkFreeSplittable<V>(g: Topology, job: Job<V>, path: seq<nat>, first: nat)
    requires Candidate(g, job, path) && Below(g, first) && ForkFree(g, job, path)
    ensures Splittable(g, job, path)
  {
    CandidatePath(g, job, path, first);
    forall k | 0 <= k < |path| - 1
      ensures |Outs(g, path[k])| == 1
    {
      HasNext(g, path, k);
      assert k > 0 ==> OneOut(g, path[k]);
    }
  }

  lemma FannedTogether<V(!new)>(g: Topology, job: Job<V>, path: seq<nat>, h: Topology, brs: seq<Branch>, items: nat)
    requires Splittable(g, job, path) && Fanned(g, path, h, brs) && Steady(g, job, items)
    ensures F.Together(NetOf(h, JobOf(job, path, brs)))
  {
    FannedBalanced(g, job, path, h, brs, items);
    F.BalancedTogether(NetOf(h, JobOf(job, path, brs)), PlanOf(h, brs, items));
  }

  lemma CopiesRecalled(path: seq<nat>, brs: seq<Branch>, first: nat, n: nat, made: seq<nat>)
    requires |path| >= 3 && |brs| == n + 1 && brs[0].ns == path[1..|path| - 1] && Consecutive(first, |path| - 2, brs)
    requires made == Rounds(path[1..|path| - 1], n)
    ensures Recalls(path, brs, first, made)
  {
    BranchesRecall(path, brs, first);
  }

  lemma CopyFaithful<V(!new)>(g: Topology, job: Job<V>, path: seq<nat>, h: Topology, brs: seq<Branch>, first: nat, made: seq<nat>,
                              items: nat)
    requires Recalls(path, brs, first, made) && Below(h, first + |made|)
    requires Faithful(h, JobOf(job, path, brs), g, job, items)
    ensures Faithful(h, CopyJob(job, first, made), g, job, items)
  {
    SameNet(h, job, path, brs, first, made);
    SameDelivers(h, JobOf(job, path, brs), CopyJob(job, first, made), g, job, items);
  }

  lemma SplitFaithful<V(!new)>(g: Topology, job: Job<V>, path: seq<nat>, first: nat, n: nat, items: nat, x: Growth)
    returns (brs: seq<Branch>)
    requires Splittable(g, job, path) && Below(g, first) && Steady(g, job, items) && x == ExpandTimes(g, first, path, n)
    ensures |brs| == n + 1 && brs[0].ns == path[1..|path| - 1] && Consecutive(first, |path| - 2, brs)
    ensures Faithful(x.graph, JobOf(job, path, brs), g, job, items)
  {
    var z;
    brs, z := ExpansionPreservesMeaning(g, job, path, first, n, items);
    FannedTogether(g, job, path, x.graph, brs, items);
  }

  lemma CopiesMade<V>(g: Topology, job: Job<V>, path: seq<nat>, first: nat, n: nat, x: Growth, brs: seq<Branch>)
    requires Candidate(g, job, path) && Below(g, first) && x == ExpandTimes(g, first, path, n)
    requires |brs| == n + 1 && brs[0].ns == path[1..|path| - 1] && Consecutive(first, |path| - 2, brs)
    ensures Recalls(path, brs, first, x.made) && Below(x.graph, first + |x.made|)
  {
    var y := SpreadTimes(g, job, path, first, n);
    CopiesRecalled(path, brs, first, n, x.made);
  }

  /** A path free of forks can be expanded any number of times without harm. */
  lemma ForkFreeSuffices<V(!new)>(g: Topology, job: Job<V>, path: seq<nat>, first: nat, n: nat, items: nat, x: Growth)
    requires Candidate(g, job, path) && Below(g, first) && Steady(g, job, items) && ForkFree(g, job, path)
    requires x == ExpandTimes(g, first, path, n)
    ensures Faithful(x.graph, CopyJob(job, first, x.made), g, job, items)
  {
    ForkFreeSplittable(g, job, path, first);
    var brs := SplitFaithful(g, job, path, first, n, items, x);
    CopiesMade(g, job, path, first, n, x, brs);
    CopyFaithful(g, job, path, x.graph, brs, first, x.made, items);
  }

  /** Expansion preserves meaning exactly when the head scatters and no inner node has a successor beside
      the path: then, and only then, the expanded graph shows every sink its stream under every
      interleaving, without any task working on inputs that have ended. */
  lemma FaithfulIffForkFree<V(!new)>(g: Topology, job: Job<V>, path: seq<nat>, first: nat, n: nat, items: nat) returns (x: Growth)
    requires Candidate(g, job, path) && Below(g, first) && Steady(g, job, items) && n >= 1 && items >= 1
    ensures x == ExpandTimes(g, first, path, n)
    ensures Faithful(x.graph, CopyJob(job, first, x.made), g, job, items) <==> ForkFree(g, job, path)
    ensures Delivers(x.graph, CopyJob(job, first, x.made), g, job, items) ==> job.task(path[0]).send.Scatter?
  {
    x := ExpandTimes(g, first, path, n);
    if ForkFree(g, job, path) {
      ForkFreeSuffices(g, job, path, first, n, items, x);
    }
    if Delivers(x.graph, CopyJob(job, first, x.made), g, job, items) {
      ScatterNeeded(g, job, path, first, n, items, x);
    }
    if Faithful(x.graph, CopyJob(job, first, x.made), g, job, items) {
      ForkFreeNeeded(g, job, path, first, n, items, x);
    }
  }

  // Tasks with one input have no inputs that could end apart.

  ghost predicate SingleInputs<V>(g: Topology, job: Job<V>) {
    forall v :: v in g.nodes ==> job.task(v).inputs <= 1
  }

  lemma SingleFaithful<V(!new)>(g: Topology, job: Job<V>, h: Topology, first: nat, made: seq<nat>, items: nat)
    requires SingleInputs(g, job) && Based(g, h, first, made) && GraphOk(h, CopyJob(job, first, made))
    requires Delivers(h, CopyJob(job, first, made), g, job, items)
    ensures Faithful(h, CopyJob(job, first, made), g, job, items)
  {
    var net := NetOf(h, CopyJob(job, first, made));
    SetupWellFormed(h, CopyJob(job, first, made));
    forall v | 0 <= v < |net.nodes|
      ensures |net.nodes[v].ins| <= 1
    {
      assert h.nodes[v] in h.nodes;
      assert Base(first, made, h.nodes[v]) in g.nodes;
    }
    F.SingleTogether(net);
  }

  /** In such graphs, trees that may fork at any task, the streams of the sinks alone decide. */
  lemma DeliversIffForkFree<V(!new)>(g: Topology, job: Job<V>, path: seq<nat>, first: nat, n: nat, items: nat) returns (x: Growth)
    requires Candidate(g, job, path) && SingleInputs(g, job) && Below(g, first) && Steady(g, job, items) && n >= 1 && items >= 1
    ensures x == ExpandTimes(g, first, path, n)
    ensures Delivers(x.graph, CopyJob(job, first, x.made), g, job, items) <==> ForkFree(g, job, path)
  {
    x := FaithfulIffForkFree(g, job, path, first, n, items);
    if Delivers(x.graph, CopyJob(job, first, x.made), g, job, items) {
      var y := SpreadTimes(g, job, path, first, n);
      SingleFaithful(g, job, x.graph, first, x.made, items);
    }
  }
}
