/** The whole way: the path that the search finds in a task graph is expanded for several GPUs, and under
    every interleaving the sinks see what they see without expansion - exactly when that path is free of
    forks. */
module PipelineExpansion {
  import opened G = Graph
  import opened Expand
  import opened Setup
  import opened Preserves
  import opened Branches
  import opened Faithfulness
  import opened PathSearch
  import opened TaskGraph
  import Instances
  import C = Covering
  import F = Flow
  import X = Fixed

  /** The condition on the path that the search has found: it is not expanded at all, or free of forks. */
  ghost predicate Harmless<V>(g: Topology, job: Job<V>, path: seq<nat>, gpus: nat) {
    gpus <= 1 || |Target(g.edges, path)| < 3 || ForkFree(g, job, Target(g.edges, path))
  }

  /** Without an expansion nothing changes. */
  lemma UnitFaithful<V(!new)>(g: Topology, job: Job<V>, first: nat, items: nat)
    requires GraphOk(g, job) && UnitGraph(g, job) && Steady(g, job, items) && Below(g, first)
    ensures Faithful(g, CopyJob(job, first, []), g, job, items)
  {
    UnitDelivers(g, job, items);
    SetupWellFormed(g, job);
    UnitUniform(g, job);
    C.UniformBalanced(NetOf(g, job), items);
    F.BalancedTogether(NetOf(g, job), X.FixedPlan(g, items));
    forall i | 0 <= i < |g.nodes|
      ensures SameTask(job, CopyJob(job, first, []), g.nodes[i], g.nodes[i])
    {
      assert g.nodes[i] in g.nodes;
      KeepsTask(job, first, [], g.nodes[i]);
    }
    assert NetOf(g, CopyJob(job, first, [])) == NetOf(g, job);
    SameDelivers(g, job, CopyJob(job, first, []), g, job, items);
  }

  lemma NotExpanded(g: Topology, first: nat, path: seq<nat>, gpus: nat)
    requires Below(g, first) && IsPath(g.edges, Target(g.edges, path)) && (gpus <= 1 || |Target(g.edges, path)| < 3)
    ensures TaskExpanded(g, first, path, gpus) == Growth(g, [], 0)
  {
    if |Target(g.edges, path)| <= 2 {
      Instances.ShortTarget(g, first, Target(g.edges, path), Extra(gpus));
    }
  }

  lemma LongTarget<V(!new)>(g: Topology, job: Job<V>, first: nat, path: seq<nat>, target: seq<nat>, gpus: nat, items: nat)
    returns (x: Growth)
    requires Candidate(g, job, target) && Steady(g, job, items) && Below(g, first)
    requires target == Target(g.edges, path) && gpus >= 2
    ensures x == TaskExpanded(g, first, path, gpus)
    ensures ForkFree(g, job, target) ==> Faithful(x.graph, CopyJob(job, first, x.made), g, job, items)
    ensures items >= 1 && Faithful(x.graph, CopyJob(job, first, x.made), g, job, items) ==> ForkFree(g, job, target)
  {
    x := ExpandTimes(g, first, target, Extra(gpus));
    Instances.TaskExpandedIs(g, first, path, gpus, target, x);
    if ForkFree(g, job, target) {
      ForkFreeSuffices(g, job, target, first, Extra(gpus), items, x);
    } else if items >= 1 && Faithful(x.graph, CopyJob(job, first, x.made), g, job, items) {
      ForkFreeNeeded(g, job, target, first, Extra(gpus), items, x);
    }
  }

  /** Expanding a task graph for any number of GPUs, along the path that the search finds, preserves its
      meaning under every interleaving exactly when that path is free of forks or too short. What the
      tasks beside the path do does not matter; the copies run the tasks of their originals. */
  lemma TaskExpansionPreserves<V(!new)>(g: Topology, job: Job<V>, top: nat, pred: nat -> bool, path: seq<nat>,
                                 first: nat, gpus: nat,
                                  items: nat) returns (x: Growth)
    requires GraphOk(g, job) && UnitGraph(g, job) && NoEachQueue(g, job) && Steady(g, job, items) && Below(g, first)
    requires Acyclic(g, job.rank, top) && Longest(g, job.rank, top, pred, path)
    ensures x == TaskExpanded(g, first, path, gpus)
    ensures Harmless(g, job, path, gpus) ==> Faithful(x.graph, CopyJob(job, first, x.made), g, job, items)
    ensures items >= 1 && Faithful(x.graph, CopyJob(job, first, x.made), g, job, items) ==> Harmless(g, job, path, gpus)
  {
    Instances.TargetDuplicable(g, job.rank, top, pred, path);
    if gpus <= 1 || |Target(g.edges, path)| < 3 {
      NotExpanded(g, first, path, gpus);
      x := Growth(g, [], 0);
      UnitFaithful(g, job, first, items);
    } else {
      x := LongTarget(g, job, first, path, Target(g.edges, path), gpus, items);
    }
  }

  // Pipelines that join but do not fork are harmless.

  /** Every task scatters, to at most one successor, and every port reads one edge. */
  ghost predicate Pipeline<V>(g: Topology, job: Job<V>) {
    && GraphOk(g, job) && UnitGraph(g, job)
    && forall v :: v in g.nodes ==> job.task(v).send.Scatter? && |Outs(g, v)| <= 1
  }

  lemma PipelineForkFree<V>(g: Topology, job: Job<V>, path: seq<nat>)
    requires Pipeline(g, job) && Duplicable(g, path)
    ensures ForkFree(g, job, path)
  {
    forall k | 0 < k < |path| - 1
      ensures OneOut(g, path[k])
    {
      HasNext(g, path, k);
    }
  }

  /** So pipelines can be expanded whatever the search finds in them. */
  lemma PipelineHarmless<V>(g: Topology, job: Job<V>, top: nat, pred: nat -> bool, path: seq<nat>, gpus: nat)
    requires Pipeline(g, job) && Acyclic(g, job.rank, top) && Longest(g, job.rank, top, pred, path)
    ensures NoEachQueue(g, job) && Harmless(g, job, path, gpus)
  {
    Instances.TargetDuplicable(g, job.rank, top, pred, path);
    if |Target(g.edges, path)| >= 3 {
      PipelineForkFree(g, job, Target(g.edges, path));
    }
  }
}
