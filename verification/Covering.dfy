/** Networks that distribute the work of another network over several copies of its tasks. */
module Covering {
  import opened Progression
  import opened Network
  import opened Runtime
  import opened Runs

  /** Every port reads one edge, and a task that scatters has one target: all tasks see all indices. */
  ghost predicate Uniform<V>(net: Net<V>) {
    && (forall v, p :: 0 <= v < |net.nodes| && 0 <= p < |net.nodes[v].ins| ==> |net.nodes[v].ins[p]| == 1)
    && (forall v :: 0 <= v < |net.nodes| && net.nodes[v].send.Scatter? ==> |net.nodes[v].outs| <= 1)
  }

  ghost predicate EqualLengths<V>(net: Net<V>, items: nat) {
    forall v :: 0 <= v < |net.nodes| && net.nodes[v].kind.Generator? ==> net.nodes[v].kind.len == items
  }

  function UnitPlan(n: nat, items: nat): (plan: Plan)
    ensures |plan.stride| == |plan.off| == n && plan.items == items
    ensures forall v :: 0 <= v < n ==> plan.stride[v] == 1 && plan.off[v] == 0
  {
    Plan(seq(n, _ => 1), seq(n, _ => 0), items)
  }

  /** A uniform network whose generators make equally many items has no rate conflict. */
  lemma UniformBalanced<V>(net: Net<V>, items: nat)
    requires WellFormed(net) && Uniform(net) && EqualLengths(net, items)
    ensures Balanced(net, UnitPlan(|net.nodes|, items))
  {
    var plan := UnitPlan(|net.nodes|, items);
    forall e | 0 <= e < |net.edges|
      ensures EdgeBalanced(net, plan, e)
    {
      assert EdgeOk(net, e);
    }
  }

  /** In a uniform network item `k` of an edge is made in iteration `k`. */
  lemma UniformMade<V>(net: Net<V>, e: nat, k: nat)
    requires WellFormed(net) && Uniform(net) && e < |net.edges|
    ensures Made(net, e, k) == k
  {
    assert EdgeOk(net, e);
    Progression.Closed(0, 1, k);
  }

  /** The task that feeds port `p` of `v` through its group number `q`. */
  function Source<V>(net: Net<V>, v: nat, p: nat, q: nat): (u: nat)
    requires WellFormed(net) && v < |net.nodes| && p < |net.nodes[v].ins| && q < |net.nodes[v].ins[p]|
    ensures u < |net.nodes| && net.rank[u] < net.rank[v] && net.nodes[u].outs != []
  {
    assert NodeOk(net, v);
    assert EdgeOk(net, net.nodes[v].ins[p][q]);
    net.edges[net.nodes[v].ins[p][q]].src
  }

  /** `wide` runs the tasks of `net`, some of them in several copies: `base` maps copies to tasks, and
      whatever feeds a port of a copy is a copy of what feeds the port of the task. */
  ghost predicate Covers<V>(wide: Net<V>, plan: Plan, net: Net<V>, base: seq<nat>) {
    && Balanced(wide, plan) && WellFormed(net) && Uniform(net)
    && |base| == |wide.nodes|
    && (forall v :: 0 <= v < |base| ==>
          && base[v] < |net.nodes| && wide.nodes[v].kind == net.nodes[base[v]].kind
          && |wide.nodes[v].ins| == |net.nodes[base[v]].ins|)
    && (forall v, p, q :: 0 <= v < |base| && 0 <= p < |wide.nodes[v].ins| && 0 <= q < |wide.nodes[v].ins[p]| ==>
          base[Source(wide, v, p, q)] == Source(net, base[v], p, 0))
  }

  /** Iteration `k` of a copy computes what its task computes for the index that the copy works on. */
  lemma {:induction false} CoverVal<V>(wide: Net<V>, plan: Plan, net: Net<V>, base: seq<nat>, v: nat, k: nat)
    requires Covers(wide, plan, net, base) && v < |base| && !wide.nodes[v].kind.Sink?
    ensures Val(wide, v, k) == Val(net, base[v], Idx(plan, v, k))
    decreases wide.rank[v], 1
  {
    if wide.nodes[v].kind.Generator? {
      Progression.Closed(0, 1, k);
    } else {
      CoverArgs(wide, plan, net, base, v, k);
    }
  }

  lemma {:induction false} CoverArgs<V>(wide: Net<V>, plan: Plan, net: Net<V>, base: seq<nat>, v: nat, k: nat)
    requires Covers(wide, plan, net, base) && v < |base|
    ensures Args(wide, v, k) == Args(net, base[v], Idx(plan, v, k))
    decreases wide.rank[v], 0
  {
    forall p | 0 <= p < |wide.nodes[v].ins|
      ensures Args(wide, v, k)[p] == Args(net, base[v], Idx(plan, v, k))[p]
    {
      CoverArg(wide, plan, net, base, v, k, p);
    }
  }

  lemma {:induction false} CoverArg<V>(wide: Net<V>, plan: Plan, net: Net<V>, base: seq<nat>, v: nat, k: nat, p: nat)
    requires Covers(wide, plan, net, base) && v < |base| && p < |wide.nodes[v].ins|
    ensures Args(wide, v, k)[p] == Args(net, base[v], Idx(plan, v, k))[p]
    decreases wide.rank[v], 0, 0
  {
    var g := Idx(plan, v, k);
    var m := |wide.nodes[v].ins[p]|;
    var e, e0 := InEdge(wide, v, p, k), InEdge(net, base[v], p, g);
    assert NodeOk(wide, v);
    var u, j := wide.edges[e].src, k / m;
    assert u == Source(wide, v, p, k % m);
    assert net.edges[e0].src == Source(net, base[v], p, 0);
    assert NodeOk(wide, u);
    CoverVal(wide, plan, net, base, u, Made(wide, e, j));
    IndexAgrees(wide, plan, e, j);
    Turn(k, m);
    assert Used(wide, e, j) == k;
    UniformMade(net, e0, g);
    assert g / 1 == g;
  }

  lemma Turn(k: nat, m: nat)
    requires m >= 1
    ensures At(k % m, m, k / m) == k
  {
    Progression.Closed(k % m, m, k / m);
  }

  /** The same streams reach the sinks: whatever log is complete for a sink of `wide` is complete for
      the sink of `net` that it stands for, and the other way round. */
  lemma CoverMeaning<V>(wide: Net<V>, plan: Plan, net: Net<V>, base: seq<nat>, v: nat, log: seq<seq<V>>)
    requires Covers(wide, plan, net, base) && EqualLengths(net, plan.items) && v < |base|
    requires plan.stride[v] == 1 && plan.off[v] == 0
    ensures Balanced(net, UnitPlan(|net.nodes|, plan.items))
    ensures Delivered(wide, plan, v, log) <==> Delivered(net, UnitPlan(|net.nodes|, plan.items), base[v], log)
  {
    UniformBalanced(net, plan.items);
    forall k: nat
      ensures Idx(plan, v, k) == k && Idx(UnitPlan(|net.nodes|, plan.items), base[v], k) == k
      ensures Args(wide, v, k) == Args(net, base[v], k)
    {
      Progression.Closed(0, 1, k);
      CoverArgs(wide, plan, net, base, v, k);
    }
  }

  /** Both networks run to completion under every interleaving, and show their sinks the same. */
  lemma CoverRuns<V>(wide: Net<V>, plan: Plan, net: Net<V>, base: seq<nat>, v: nat,
                     run: seq<nat>, s: State<V>, run0: seq<nat>, s0: State<V>)
    requires Covers(wide, plan, net, base) && EqualLengths(net, plan.items)
    requires v < |base| && wide.nodes[v].kind.Sink? && plan.stride[v] == 1 && plan.off[v] == 0
    requires Complete(wide, run, s) && Complete(net, run0, s0)
    ensures s.threads[v].log == s0.threads[base[v]].log
  {
    UniformBalanced(net, plan.items);
    var unit := UnitPlan(|net.nodes|, plan.items);
    Delivery(wide, plan, run, s);
    Delivery(net, unit, run0, s0);
    CoverMeaning(wide, plan, net, base, v, s.threads[v].log);
    DeliveredUnique(net, unit, base[v], s.threads[v].log, s0.threads[base[v]].log);
  }
}
