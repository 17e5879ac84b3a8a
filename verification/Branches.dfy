/** The graph after any number of expansions of a path, whatever the tasks on the path do with their
    results: the lists of all nodes but the head and the tail's port stay as they are. */
module Branches {
  import opened G = Graph
  import opened Expand
  import opened Setup
  import opened Attach
  import opened Fan

  /** What the default scheduler may expand: a task graph in which every port reads one edge and a task
      that scatters has one target, and a path in it whose inner nodes have one input. */
  ghost predicate Candidate<V>(g: Topology, job: Job<V>, path: seq<nat>) {
    && GraphOk(g, job) && UnitGraph(g, job) && Duplicable(g, path)
    && NoEachQueue(g, job)
  }

  ghost predicate NoEachQueue<V>(g: Topology, job: Job<V>) {
    forall v :: v in g.nodes ==> !job.task(v).send.EachQueue?
  }

  /** The tasks when the copies run the tasks of their originals. */
  function CopyJob<V>(job: Job<V>, first: nat, made: seq<nat>): Job<V> {
    Job((v: nat) => job.task(Base(first, made, v)), (v: nat) => job.rank(Base(first, made, v)), job.zero)
  }

  /** The port at which the branches meet. */
  function MeetingPort(g: Topology, path: seq<nat>): nat
    requires |path| >= 3
  {
    PathLab(g, path, |path| - 2)
  }

  ghost predicate Meeting(g: Topology, path: seq<nat>, v: nat, p: nat)
    requires |path| >= 3
  {
    v == path[|path| - 1] && p == MeetingPort(g, path)
  }

  ghost predicate OutsKept(g: Topology, h: Topology, v: nat) {
    Outs(h, v) == Outs(g, v)
  }

  ghost predicate InsKept(g: Topology, h: Topology, v: nat, p: nat) {
    Ins(h, v, p) == Ins(g, v, p)
  }

  ghost predicate OneOut(h: Topology, v: nat) {
    |Outs(h, v)| == 1
  }

  ghost predicate KeepsOuts(g: Topology, path: seq<nat>, h: Topology)
    requires |path| >= 3
  {
    && (forall v {:trigger OutsKept(g, h, v)} :: v in g.nodes && v != path[0] ==> OutsKept(g, h, v))
    && (forall v {:trigger OneOut(h, v)} :: v in h.nodes && v !in g.nodes ==> OneOut(h, v))
  }

  ghost predicate KeepsIns(g: Topology, path: seq<nat>, h: Topology)
    requires |path| >= 3
  {
    forall v, p {:trigger InsKept(g, h, v, p)} :: v in g.nodes && !Meeting(g, path, v, p) ==> InsKept(g, h, v, p)
  }

  /** The head has `n` more targets, which come first, and the meeting port `n` more groups. */
  ghost predicate Widened(g: Topology, path: seq<nat>, h: Topology, n: nat)
    requires |path| >= 3
  {
    && |Outs(h, path[0])| == n + |Outs(g, path[0])| && Outs(h, path[0])[n..] == Outs(g, path[0])
    && |Ins(h, path[|path| - 1], MeetingPort(g, path))| == n + |Ins(g, path[|path| - 1], MeetingPort(g, path))|
  }

  /** `h` is `g` with `n` more branches along `path`. */
  ghost predicate Spread(g: Topology, path: seq<nat>, h: Topology, n: nat) {
    |path| >= 3 && FanBase(g, h) && KeepsOuts(g, path, h) && KeepsIns(g, path, h) && Widened(g, path, h, n)
  }

  lemma NotSpread(g: Topology, path: seq<nat>)
    requires |path| >= 3 && Closed(g) && Simple(g.edges)
    ensures Spread(g, path, g, 0)
  {
  }

  lemma BaseInside(g: Topology, h: Topology, v: nat)
    requires FanBase(g, h) && v in g.nodes
    ensures v in h.nodes
  {
    assert v in h.nodes[..|g.nodes|];
  }

  /** The twig runs from the head of the path to its tail, into the port where the branches meet. */
  ghost predicate Joins(g: Topology, path: seq<nat>, x: Twig) {
    && |path| >= 3 && |x.labs| >= 2 && x.head == path[0] && x.tail == path[|path| - 1]
    && x.labs[|x.labs| - 1] == MeetingPort(g, path)
  }

  lemma TwigJoins(g: Topology, path: seq<nat>, next: nat)
    requires |path| >= 3
    ensures Joins(g, path, TwigOf(g, path, next))
  {
  }

  lemma SpreadFits(g: Topology, path: seq<nat>, h: Topology, x: Twig)
    requires Joins(g, path, x) && FanBase(g, h) && Below(h, x.first)
    requires path[0] in g.nodes && path[|path| - 1] in g.nodes && TailApart(path)
    ensures Fits(h, x)
  {
    BaseInside(g, h, path[0]);
    BaseInside(g, h, path[|path| - 1]);
  }

  lemma SpreadOuts(g: Topology, path: seq<nat>, h: Topology, x: Twig)
    requires Joins(g, path, x) && FanBase(g, h) && KeepsOuts(g, path, h) && Fits(h, x) && path[0] in g.nodes
    ensures KeepsOuts(g, path, Attached(h, x))
  {
    AttachedNodes(h, x);
    forall v | v in g.nodes && v != path[0]
      ensures OutsKept(g, Attached(h, x), v)
    {
      BaseInside(g, h, v);
      OutsElse(h, x, v);
      assert OutsKept(g, h, v);
    }
    forall v | v in Attached(h, x).nodes && v !in g.nodes
      ensures OneOut(Attached(h, x), v)
    {
      if v in h.nodes {
        assert OneOut(h, v);
        OutsElse(h, x, v);
      } else {
        OutsTwig(h, x, v - x.first);
      }
    }
  }

  lemma SpreadIns(g: Topology, path: seq<nat>, h: Topology, x: Twig)
    requires Joins(g, path, x) && FanBase(g, h) && KeepsIns(g, path, h) && Fits(h, x)
    ensures KeepsIns(g, path, Attached(h, x))
  {
    forall v, p | v in g.nodes && !Meeting(g, path, v, p)
      ensures InsKept(g, Attached(h, x), v, p)
    {
      BaseInside(g, h, v);
      InsElse(h, x, v, p);
      assert InsKept(g, h, v, p);
    }
  }

  lemma SpreadWidens(g: Topology, path: seq<nat>, h: Topology, n: nat, x: Twig)
    requires Joins(g, path, x) && Widened(g, path, h, n) && Fits(h, x)
    ensures Widened(g, path, Attached(h, x), n + 1)
  {
    HeadFirst(h, x);
    TailFirst(h, x);
  }

  /** One more branch. */
  lemma SpreadStep(g: Topology, path: seq<nat>, h: Topology, n: nat, x: Twig)
    requires Spread(g, path, h, n) && Joins(g, path, x) && Fits(h, x) && path[0] in g.nodes
    ensures Spread(g, path, Attached(h, x), n + 1)
  {
    BaseGrows(g, h, x);
    SpreadOuts(g, path, h, x);
    SpreadIns(g, path, h, x);
    SpreadWidens(g, path, h, n, x);
  }

  // The expanded graph can be set up.

  lemma TaskAt<V>(g: Topology, job: Job<V>, v: nat)
    requires GraphOk(g, job) && v in g.nodes
    ensures TaskOk(g, job, v)
  {
    var i :| 0 <= i < |g.nodes| && g.nodes[i] == v;
    assert TaskOk(g, job, g.nodes[i]);
  }

  /** `job'` agrees with `job` on old nodes and gives the nodes of a twig the tasks of the path. */
  ghost predicate Extends<V>(job: Job<V>, job': Job<V>, path: seq<nat>, next: nat) {
    && |path| >= 3 && job'.zero == job.zero
    && (forall v: nat :: v < next ==> job'.task(v) == job.task(v) && job'.rank(v) == job.rank(v))
    && (forall j :: 0 <= j < |path| - 2 ==> TwigTaskIs(job, job', path, next, j))
  }

  ghost predicate TwigTaskIs<V>(job: Job<V>, job': Job<V>, path: seq<nat>, next: nat, j: nat)
    requires j + 1 < |path|
  {
    SameTask(job, job', next + j, path[j + 1])
  }

  ghost predicate SameTask<V>(job: Job<V>, job': Job<V>, copy: nat, v: nat) {
    job'.task(copy) == job.task(v) && job'.rank(copy) == job.rank(v)
  }

  /** The labels of a twig are those of the path. */
  ghost predicate Follows(g: Topology, path: seq<nat>, x: Twig) {
    && |path| >= 3 && |x.labs| == |path| - 1 && x.head == path[0] && x.tail == path[|path| - 1]
    && forall j :: 0 <= j < |path| - 1 ==> FollowsAt(g, path, x, j)
  }

  ghost predicate FollowsAt(g: Topology, path: seq<nat>, x: Twig, j: nat)
    requires j + 1 < |path| && j < |x.labs|
  {
    Edge(path[j], path[j + 1], x.labs[j]) in g.edges
  }

  lemma TwigEnds<V>(g: Topology, job: Job<V>, job': Job<V>, path: seq<nat>, x: Twig, d: nat) returns (j: nat)
    requires GraphOk(g, job) && Fits(g, x) && Follows(g, path, x) && Extends(job, job', path, x.first) && AllInside(g, path)
    requires |g.edges| <= d < |Attached(g, x).edges|
    ensures j < |path| - 1 && Edge(path[j], path[j + 1], x.labs[j]) in g.edges
    ensures var e := Attached(g, x).edges[d];
            && e.lab == x.labs[j]
            && SameTask(job, job', e.source, path[j]) && SameTask(job, job', e.target, path[j + 1])
  {
    j := NewEdge(g, x, d);
    assert FollowsAt(g, path, x, j);
    if j > 0 {
      assert TwigTaskIs(job, job', path, x.first, j - 1);
    }
    if j < |path| - 2 {
      assert TwigTaskIs(job, job', path, x.first, j);
    }
  }

  ghost predicate AllInside(g: Topology, path: seq<nat>) {
    forall k :: 0 <= k < |path| ==> path[k] in g.nodes
  }

  lemma AttachedEdges<V>(g: Topology, job: Job<V>, job': Job<V>, path: seq<nat>, x: Twig)
    requires GraphOk(g, job) && Fits(g, x) && Follows(g, path, x) && Extends(job, job', path, x.first) && AllInside(g, path)
    ensures Ranked(Attached(g, x).edges, job'.rank)
    ensures forall d :: 0 <= d < |Attached(g, x).edges| ==> Attached(g, x).edges[d].lab < job'.task(Attached(g, x).edges[d].target).inputs
  {
    var edges := Attached(g, x).edges;
    forall d | 0 <= d < |edges|
      ensures job'.rank(edges[d].source) < job'.rank(edges[d].target) && edges[d].lab < job'.task(edges[d].target).inputs
    {
      if d < |g.edges| {
        OldEdge(g, x, d);
      } else {
        var j := TwigEnds(g, job, job', path, x, d);
        var i :| 0 <= i < |g.edges| && g.edges[i] == Edge(path[j], path[j + 1], x.labs[j]);
      }
    }
  }

  lemma FedStays(g: Topology, x: Twig, v: nat, p: nat)
    requires |x.labs| >= 2 && Fed(g, v, p)
    ensures Fed(Attached(g, x), v, p)
  {
    var d :| 0 <= d < |g.edges| && g.edges[d].target == v && g.edges[d].lab == p;
    OldEdge(g, x, d);
  }

  lemma OldTask<V>(g: Topology, job: Job<V>, job': Job<V>, path: seq<nat>, x: Twig, v: nat)
    requires GraphOk(g, job) && Fits(g, x) && Follows(g, path, x) && Extends(job, job', path, x.first) && v in g.nodes
    requires !job.task(v).send.EachQueue?
    ensures TaskOk(Attached(g, x), job', v)
  {
    TaskAt(g, job, v);
    forall p | 0 <= p < job'.task(v).inputs
      ensures Fed(Attached(g, x), v, p)
    {
      FedStays(g, x, v, p);
    }
    if v == path[0] {
      HeadFirst(g, x);
      assert FollowsAt(g, path, x, 0);
      HasTarget(g, path[0], path[1], x.labs[0]);
    } else {
      OutsElse(g, x, v);
    }
  }

  lemma HasTarget(g: Topology, v: nat, u: nat, lab: nat)
    requires Edge(v, u, lab) in g.edges
    ensures Outs(g, v) != []
  {
    var d :| 0 <= d < |g.edges| && g.edges[d] == Edge(v, u, lab);
    OutIdxHas(g.edges, v, |g.edges|, d);
  }

  lemma TwigTask<V>(g: Topology, job: Job<V>, job': Job<V>, path: seq<nat>, x: Twig, j: nat)
    requires GraphOk(g, job) && Fits(g, x) && Follows(g, path, x) && Extends(job, job', path, x.first)
    requires j < |path| - 2 && path[j + 1] in g.nodes && job.task(path[j + 1]).inputs == 1 && !job.task(path[j + 1]).send.EachQueue?
    ensures TaskOk(Attached(g, x), job', x.first + j)
  {
    var h, v := Attached(g, x), x.first + j;
    assert TwigTaskIs(job, job', path, x.first, j) && FollowsAt(g, path, x, j) && FollowsAt(g, path, x, j + 1);
    TaskAt(g, job, path[j + 1]);
    HasTarget(g, path[j + 1], path[j + 2], x.labs[j + 1]);
    OutsTwig(g, x, j);
    assert x.labs[j] == 0;
    assert h.edges[|g.edges| + j] == TwigEdge(x, j);
    assert Fed(h, v, 0);
  }

  /** With the tasks of the path on the twig, the graph can still be set up. */
  lemma AttachedGraphOk<V>(g: Topology, job: Job<V>, job': Job<V>, path: seq<nat>, x: Twig)
    requires GraphOk(g, job) && Fits(g, x) && Follows(g, path, x) && Extends(job, job', path, x.first) && AllInside(g, path)
    requires forall k :: 0 < k < |path| - 1 ==> job.task(path[k]).inputs == 1
    requires NoEachQueue(g, job)
    ensures GraphOk(Attached(g, x), job')
  {
    var h := Attached(g, x);
    AttachedClosed(g, x);
    AttachedSimple(g, x);
    AttachedEdges(g, job, job', path, x);
    AttachedNodes(g, x);
    forall i | 0 <= i < |h.nodes|
      ensures TaskOk(h, job', h.nodes[i])
    {
      var v := h.nodes[i];
      if v in g.nodes {
        OldTask(g, job, job', path, x, v);
      } else {
        TwigTask(g, job, job', path, x, v - x.first);
      }
    }
  }

  // Expanding n times.

  lemma {:induction false} TwoInputs(edges: seq<Edge>, v: nat, n: nat, d: nat, e: nat)
    requires d < e < n <= |edges| && edges[d].target == v && edges[e].target == v
    ensures |Predecessors(edges[..n], v)| >= 2
  {
    assert edges[..n] == edges[..n - 1] + [edges[n - 1]];
    PredecessorsAppend(edges[..n - 1], edges[n - 1], v);
    if e < n - 1 {
      TwoInputs(edges, v, n - 1, d, e);
    } else {
      PredecessorsHas(edges[..n - 1], v, edges[d].source);
      assert edges[..n - 1][d] == edges[d];
      assert Joined(edges[..n - 1], edges[d].source, v);
    }
  }

  /** A node with one edge into it has one input. */
  lemma OneInputPort<V>(g: Topology, job: Job<V>, u: nat, v: nat)
    requires GraphOk(g, job) && v in g.nodes && |Predecessors(g.edges, v)| <= 1 && Joined(g.edges, u, v)
    ensures job.task(v).inputs == 1
  {
    var j :| 0 <= j < |g.edges| && g.edges[j].source == u && g.edges[j].target == v;
    TaskAt(g, job, v);
    if job.task(v).inputs >= 2 {
      assert g.edges[..|g.edges|] == g.edges;
      assert Fed(g, v, 0) && Fed(g, v, 1);
      var d :| 0 <= d < |g.edges| && g.edges[d].target == v && g.edges[d].lab == 0;
      var e :| 0 <= e < |g.edges| && g.edges[e].target == v && g.edges[e].lab == 1;
      if d < e {
        TwoInputs(g.edges, v, |g.edges|, d, e);
      } else {
        TwoInputs(g.edges, v, |g.edges|, e, d);
      }
    }
  }

  /** What the expansions need to know of the path. */
  ghost predicate PathOk<V>(g: Topology, job: Job<V>, path: seq<nat>, first: nat) {
    && |path| >= 3 && IsPath(g.edges, path) && AllInside(g, path) && TailApart(path) && NoEachQueue(g, job)
    && (forall k :: 0 < k < |path| - 1 ==> job.task(path[k]).inputs == 1)
    && (forall k :: 0 <= k < |path| ==> path[k] < first)
  }

  lemma CandidatePath<V>(g: Topology, job: Job<V>, path: seq<nat>, first: nat)
    requires Candidate(g, job, path) && Below(g, first)
    ensures PathOk(g, job, path, first)
  {
    AcyclicTail(g.edges, job.rank, path);
    forall k | 0 < k < |path| - 1
      ensures job.task(path[k]).inputs == 1
    {
      assert Linked(g.edges, path, k);
      OneInputPort(g, job, path[k - 1], path[k]);
    }
  }

  lemma LabelsFollow(g: Topology, path: seq<nat>, h: Topology, x: Twig)
    requires |path| >= 3 && IsPath(g.edges, path) && FanBase(g, h) && x == TwigOf(g, path, x.first)
    ensures Follows(h, path, x)
  {
    forall j | 0 <= j < |path| - 1
      ensures FollowsAt(h, path, x, j)
    {
      assert Linked(g.edges, path, j + 1);
      var d := LabelFound(g.edges, [], path[j], path[j + 1]);
      assert h.edges[d] == h.edges[..|g.edges|][d];
    }
  }

  lemma CopiesExtend<V>(job: Job<V>, path: seq<nat>, first: nat, made: seq<nat>, made': seq<nat>, next: nat)
    requires |path| >= 3 && forall k :: 0 <= k < |path| ==> path[k] < first
    requires made' == made + path[1..|path| - 1] && next == first + |made|
    ensures Extends(CopyJob(job, first, made), CopyJob(job, first, made'), path, next)
  {
    var job1, job2 := CopyJob(job, first, made), CopyJob(job, first, made');
    forall v: nat | v < next
      ensures job2.task(v) == job1.task(v) && job2.rank(v) == job1.rank(v)
    {
      assert Base(first, made', v) == Base(first, made, v);
    }
    forall j | 0 <= j < |path| - 2
      ensures TwigTaskIs(job1, job2, path, next, j)
    {
      assert Base(first, made', next + j) == path[j + 1];
      assert Base(first, made, path[j + 1]) == path[j + 1];
    }
  }

  /** What is kept from one expansion to the next. */
  ghost predicate Grown<V>(g: Topology, job: Job<V>, path: seq<nat>, first: nat, n: nat, h: Topology, made: seq<nat>) {
    && Spread(g, path, h, n) && GraphOk(h, CopyJob(job, first, made)) && Based(g, h, first, made)
    && Duplicable(h, path) && Below(h, first + |made|)
  }

  /** Every node is or copies a node of the original graph. */
  ghost predicate Based(g: Topology, h: Topology, first: nat, made: seq<nat>) {
    forall v {:trigger Base(first, made, v)} :: v in h.nodes ==> Base(first, made, v) in g.nodes
  }

  lemma BasedGrows(g: Topology, path: seq<nat>, h: Topology, first: nat, made: seq<nat>, x: Twig, made': seq<nat>)
    requires Based(g, h, first, made) && Fits(h, x) && AllInside(g, path) && |path| >= 3 && |x.labs| == |path| - 1
    requires x.first == first + |made| && made' == made + path[1..|path| - 1]
    ensures Based(g, Attached(h, x), first, made')
  {
    AttachedNodes(h, x);
    forall v | v in Attached(h, x).nodes
      ensures Base(first, made', v) in g.nodes
    {
      if v in h.nodes {
        assert Base(first, made', v) == Base(first, made, v);
      } else {
        assert Base(first, made', v) == path[v - x.first + 1];
      }
    }
  }

  lemma BasedNoEachQueue<V>(g: Topology, job: Job<V>, h: Topology, first: nat, made: seq<nat>)
    requires Based(g, h, first, made) && NoEachQueue(g, job)
    ensures NoEachQueue(h, CopyJob(job, first, made))
  {
    forall v | v in h.nodes
      ensures !CopyJob(job, first, made).task(v).send.EachQueue?
    {
      assert Base(first, made, v) in g.nodes;
    }
  }

  lemma BasedSteady<V>(g: Topology, job: Job<V>, h: Topology, first: nat, made: seq<nat>, items: nat)
    requires Based(g, h, first, made) && Steady(g, job, items)
    ensures Steady(h, CopyJob(job, first, made), items)
  {
    forall i | 0 <= i < |h.nodes| && CopyJob(job, first, made).task(h.nodes[i]).kind.Generator?
      ensures CopyJob(job, first, made).task(h.nodes[i]).kind.len == items
    {
      assert h.nodes[i] in h.nodes;
      assert Base(first, made, h.nodes[i]) in g.nodes;
    }
  }

  lemma InnerKept<V>(job: Job<V>, first: nat, made: seq<nat>, path: seq<nat>)
    requires forall k :: 0 <= k < |path| ==> path[k] < first
    requires forall k :: 0 < k < |path| - 1 ==> job.task(path[k]).inputs == 1
    ensures forall k :: 0 < k < |path| - 1 ==> CopyJob(job, first, made).task(path[k]).inputs == 1
  {
    forall k | 0 < k < |path| - 1
      ensures CopyJob(job, first, made).task(path[k]).inputs == 1
    {
      assert Base(first, made, path[k]) == path[k];
    }
  }

  lemma GrownGraph(g: Topology, path: seq<nat>, h: Topology, next: nat, y: Growth)
    requires Duplicable(h, path) && Below(h, next) && FanBase(g, h) && IsPath(g.edges, path) && TailApart(path)
    requires y == Expanded(h, next, path)
    ensures y.graph == Attached(h, TwigOf(g, path, next)) && y.made == path[1..|path| - 1]
    ensures Duplicable(y.graph, path) && Below(y.graph, next + |y.made|)
  {
    ExpandedForm(h, next, path);
    SameBranch(g.edges, h, g, path, next);
    AgainDuplicable(h, next, path, y);
  }

  lemma InsideToo(g: Topology, h: Topology, path: seq<nat>)
    requires FanBase(g, h) && AllInside(g, path)
    ensures AllInside(h, path)
  {
    forall k | 0 <= k < |path|
      ensures path[k] in h.nodes
    {
      BaseInside(g, h, path[k]);
    }
  }

  lemma GrownJob<V>(g: Topology, job: Job<V>, path: seq<nat>, first: nat, h: Topology, made: seq<nat>, x: Twig, made': seq<nat>)
    requires PathOk(g, job, path, first) && FanBase(g, h) && Fits(h, x)
    requires GraphOk(h, CopyJob(job, first, made)) && NoEachQueue(h, CopyJob(job, first, made))
    requires x == TwigOf(g, path, first + |made|) && made' == made + path[1..|path| - 1]
    ensures GraphOk(Attached(h, x), CopyJob(job, first, made'))
  {
    InsideToo(g, h, path);
    CopiesExtend(job, path, first, made, made', x.first);
    LabelsFollow(g, path, h, x);
    InnerKept(job, first, made, path);
    AttachedGraphOk(h, CopyJob(job, first, made), CopyJob(job, first, made'), path, x);
  }

  /** Nodes that are no copies keep their tasks. */
  lemma KeepsTask<V>(job: Job<V>, first: nat, made: seq<nat>, v: nat)
    requires v < first
    ensures SameTask(job, CopyJob(job, first, made), v, v) && Base(first, made, v) == v
  {
    assert Base(first, made, v) == v;
  }

  lemma GrownStart<V>(g: Topology, job: Job<V>, path: seq<nat>, first: nat)
    requires Candidate(g, job, path) && Below(g, first)
    ensures Grown(g, job, path, first, 0, g, [])
  {
    NotSpread(g, path);
    forall v | v in g.nodes
      ensures SameTask(job, CopyJob(job, first, []), v, v) && Base(first, [], v) == v
    {
      KeepsTask(job, first, [], v);
    }
    SameGraphOk(g, job, CopyJob(job, first, []));
  }

  lemma NextSpread(g: Topology, path: seq<nat>, h: Topology, m: nat, x: Twig, n: nat)
    requires Spread(g, path, h, m) && Fits(h, x) && x == TwigOf(g, path, x.first) && path[0] in g.nodes && n == m + 1
    ensures Spread(g, path, Attached(h, x), n)
  {
    TwigJoins(g, path, x.first);
    SpreadStep(g, path, h, m, x);
  }

  lemma NextGraph(g: Topology, path: seq<nat>, first: nat, z: Growth, x: Growth, t: Twig)
    requires Duplicable(z.graph, path) && FanBase(g, z.graph) && IsPath(g.edges, path) && TailApart(path)
    requires path[0] in g.nodes && path[|path| - 1] in g.nodes
    requires Below(z.graph, first + |z.made|) && Next(first, path, z, x) && t == TwigOf(g, path, first + |z.made|)
    ensures x.graph == Attached(z.graph, t) && x.made == z.made + path[1..|path| - 1] && Fits(z.graph, t)
    ensures Duplicable(x.graph, path) && Below(x.graph, first + |x.made|)
  {
    GrownGraph(g, path, z.graph, first + |z.made|, Expanded(z.graph, first + |z.made|, path));
    TwigJoins(g, path, first + |z.made|);
    SpreadFits(g, path, z.graph, t);
  }

  lemma NextGrown<V>(g: Topology, job: Job<V>, path: seq<nat>, first: nat, m: nat, z: Growth, n: nat, x: Growth)
    requires PathOk(g, job, path, first) && Grown(g, job, path, first, m, z.graph, z.made)
    requires Next(first, path, z, x) && n == m + 1
    ensures Grown(g, job, path, first, n, x.graph, x.made)
  {
    var t := TwigOf(g, path, first + |z.made|);
    NextGraph(g, path, first, z, x, t);
    BasedNoEachQueue(g, job, z.graph, first, z.made);
    GrownJob(g, job, path, first, z.graph, z.made, t, x.made);
    NextSpread(g, path, z.graph, m, t, n);
    BasedGrows(g, path, z.graph, first, z.made, t, x.made);
  }

  lemma {:induction false} SpreadFrom<V>(g: Topology, job: Job<V>, path: seq<nat>, first: nat, xs: seq<Growth>, n: nat)
    requires PathOk(g, job, path, first) && Grown(g, job, path, first, 0, g, [])
    requires Chain(g, first, path, xs) && n < |xs|
    ensures Grown(g, job, path, first, n, xs[n].graph, xs[n].made)
  {
    if n > 0 {
      SpreadFrom(g, job, path, first, xs, n - 1);
      assert NextAt(first, path, xs, n);
      NextGrown(g, job, path, first, n - 1, xs[n - 1], n, xs[n]);
    }
  }

  lemma SpreadMade<V>(g: Topology, job: Job<V>, path: seq<nat>, first: nat, n: nat, x: Growth)
    requires Candidate(g, job, path) && Below(g, first) && TailApart(path) && x == ExpandTimes(g, first, path, n)
    ensures x.made == Rounds(path[1..|path| - 1], n)
  {
    var y := ExpandTimesCopies(g, first, path, n);
  }

  /** Any number of expansions of a candidate adds as many branches, and the graph can be set up. */
  lemma SpreadTimes<V>(g: Topology, job: Job<V>, path: seq<nat>, first: nat, n: nat) returns (x: Growth)
    requires Candidate(g, job, path) && Below(g, first)
    ensures x == ExpandTimes(g, first, path, n) && x.made == Rounds(path[1..|path| - 1], n)
    ensures Grown(g, job, path, first, n, x.graph, x.made)
  {
    CandidatePath(g, job, path, first);
    GrownStart(g, job, path, first);
    var xs := TimesChain(g, first, path, n);
    SpreadFrom(g, job, path, first, xs, n);
    x := xs[n];
    SpreadMade(g, job, path, first, n, x);
  }

  /** What can be set up depends on the tasks only. */
  lemma SameGraphOk<V>(g: Topology, job: Job<V>, job': Job<V>)
    requires GraphOk(g, job) && forall v :: v in g.nodes ==> SameTask(job, job', v, v)
    ensures GraphOk(g, job')
  {
    forall j | 0 <= j < |g.edges|
      ensures SameTask(job, job', g.edges[j].source, g.edges[j].source) && SameTask(job, job', g.edges[j].target, g.edges[j].target)
    {
    }
    forall i | 0 <= i < |g.nodes|
      ensures TaskOk(g, job', g.nodes[i])
    {
      assert TaskOk(g, job, g.nodes[i]) && SameTask(job, job', g.nodes[i], g.nodes[i]);
    }
  }
}
