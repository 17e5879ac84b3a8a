/** Whole runs of a balanced network, under every interleaving: no deadlock, a bound on the number
    of steps, every buffer in one place, and one possible result. */
module Runs {
  import opened Progression
  import opened Channel
  import opened Network
  import opened Runtime
  import opened Invariant
  import opened Steps

  // Every state of every run satisfies the invariant.

  lemma {:induction false} LeadsKeeps<V>(net: Net<V>, plan: Plan, s: State<V>, run: seq<nat>, s': State<V>)
    requires Inv(net, plan, s) && Leads(net, s, run, s')
    ensures Inv(net, plan, s')
    decreases |run|
  {
    if run == [] {
    } else {
      StepKeeps(net, plan, s, run[0]);
      LeadsKeeps(net, plan, Step(net, s, run[0]), run[1..], s');
    }
  }

  ghost predicate Reachable<V>(net: Net<V>, run: seq<nat>, s: State<V>) {
    Leads(net, Init(net), run, s)
  }

  lemma ReachableInv<V>(net: Net<V>, plan: Plan, run: seq<nat>, s: State<V>)
    requires Balanced(net, plan) && Reachable(net, run, s)
    ensures Inv(net, plan, s)
  {
    InitInv(net, plan);
    LeadsKeeps(net, plan, Init(net), run, s);
  }

  // No deadlock: among the unfinished threads, one whose iteration works on the smallest index,
  // and of these one that comes first in the graph, can always move.

  ghost predicate Before<V>(net: Net<V>, plan: Plan, s: State<V>, v: nat, u: nat)
    requires Balanced(net, plan) && Shaped(net, s) && v < |net.nodes| && u < |net.nodes|
  {
    var a, b := Idx(plan, v, s.threads[v].k), Idx(plan, u, s.threads[u].k);
    a < b || (a == b && net.rank[v] <= net.rank[u])
  }

  ghost predicate Least<V>(net: Net<V>, plan: Plan, s: State<V>, v: nat)
    requires Balanced(net, plan) && Shaped(net, s)
  {
    && v < |net.nodes| && !Done(net, v, s.threads[v])
    && forall u :: 0 <= u < |net.nodes| && !Done(net, u, s.threads[u]) ==> Before(net, plan, s, v, u)
  }

  lemma FindLeast<V>(net: Net<V>, plan: Plan, s: State<V>, w: nat) returns (v: nat)
    requires Balanced(net, plan) && Shaped(net, s)
    requires w < |net.nodes| && !Done(net, w, s.threads[w])
    ensures Least(net, plan, s, v)
  {
    v := w;
    for n := 0 to |net.nodes|
      invariant v < |net.nodes| && !Done(net, v, s.threads[v])
      invariant forall u :: 0 <= u < n && !Done(net, u, s.threads[u]) ==> Before(net, plan, s, v, u)
    {
      if !Done(net, n, s.threads[n]) && !Before(net, plan, s, v, n) {
        v := n;
      }
    }
  }

  /** An unfinished task whose iteration works on a later index than item `j` of its edge has
      pushed that item. */
  lemma AlreadyMade<V>(net: Net<V>, plan: Plan, s: State<V>, e: nat, j: nat)
    requires Inv(net, plan, s) && e < |net.edges| && EdgeOk(net, e)
    requires Idx(plan, net.edges[e].dst, Used(net, e, j)) < Idx(plan, net.edges[e].src, s.threads[net.edges[e].src].k)
    ensures j < s.queues[e].made
  {
    var u := net.edges[e].src;
    assert EdgeInvAt(net, s, e) && NodeOk(net, u);
    IndexAgrees(net, plan, e, j);
    Order(plan.off[u], plan.stride[u], Made(net, e, j), s.threads[u].k);
    var o := Out(net, e, s.threads[u]);
    CountsLess(MadeOff(net, e), MadeStep(net, e), o.k + One(o.pushed), s.queues[e].made, j);
  }

  /** The least thread finds its input. */
  lemma InputReady<V>(net: Net<V>, plan: Plan, s: State<V>, v: nat, p: nat)
    requires Inv(net, plan, s) && Least(net, plan, s, v) && p < |net.nodes[v].ins|
    requires s.threads[v].phase.Running? && s.threads[v].pc == InTime(net.nodes[v], p)
    ensures s.queues[CurrentIn(net, v, s.threads[v], p)].full != []
  {
    var t := s.threads[v];
    assert ThreadInv(net, plan, v, t);
    var e := CurrentIn(net, v, t, p);
    assert EdgeInvAt(net, s, e) && EdgeOk(net, e);
    var u, q := net.edges[e].src, s.queues[e];
    Hit(net.edges[e].turn, UsedStep(net, e), t.k, q.taken);
    assert t.k == Used(net, e, q.taken);
    if !Done(net, u, s.threads[u]) {
      assert Before(net, plan, s, v, u);
      AlreadyMade(net, plan, s, e, q.taken);
    }
  }

  lemma {:induction false} BufsSize(full: seq<Msg>, n: nat)
    requires n <= |full| <= n + 1
    requires forall j :: 0 <= j < n ==> full[j].Data?
    requires |full| == n + 1 ==> full[n] == End
    ensures |Bufs(full)| == n
  {
    if n > 0 {
      BufsSize(full[1..], n - 1);
    } else if |full| == 1 {
      assert full[1..] == [];
    }
  }

  lemma {:induction false} AllSize(id: nat, n: nat)
    ensures |All(id, n)| == n
  {
    if n > 0 {
      AllSize(id, n - 1);
    }
  }

  /** A queue whose data was all returned has its buffers on the free side. */
  lemma AllReturned<V>(c: Spec<V>, o: OutView, i: InView, q: Queue, mem: map<Buffer, V>)
    requires EdgeInv(c, o, i, q, mem) && q.out == [] && q.capacity > 0
    requires q.made == q.back
    ensures q.free != []
  {
    BufsSize(q.full, q.made - q.taken);
    AllSize(c.id, q.capacity);
    assert |multiset(q.free) + Bufs(q.full) + multiset(q.out) + multiset(q.lent)| == q.capacity;
  }

  /** The least thread finds a buffer for its output. */
  lemma OutputReady<V>(net: Net<V>, plan: Plan, s: State<V>, v: nat, i: nat)
    requires Inv(net, plan, s) && Least(net, plan, s, v) && i < |net.nodes[v].outs| && !net.nodes[v].kind.Sink?
    requires var t, x := s.threads[v], net.nodes[v];
             t.phase.Running? && t.pc == PopTime(x, i) && (x.send.Scatter? ==> i == t.cur)
    ensures var e := OutEdge(net, v, i); s.queues[e].capacity < Limit(net, e) || s.queues[e].free != []
  {
    var t, x, e := s.threads[v], net.nodes[v], OutEdge(net, v, i);
    var q := s.queues[e];
    assert EdgeInvAt(net, s, e) && EdgeOk(net, e) && ThreadInv(net, plan, v, t);
    TimesInside(x, i);
    if q.capacity >= Limit(net, e) && q.made > q.back {
      var w := net.edges[e].dst;
      var tw := s.threads[w];
      assert ThreadInv(net, plan, w, tw);
      MadeLive(net, plan, s, e, q.back);
      IndexAgrees(net, plan, e, q.back);
      CountsLess(MadeOff(net, e), MadeStep(net, e), t.k, q.made, q.back);
      Order(plan.off[v], plan.stride[v], Made(net, e, q.back), t.k);
      assert tw.k <= Used(net, e, q.back);
      if Done(net, w, tw) {
        LiveBefore(net, plan, w, tw.k, Used(net, e, q.back));
      } else {
        assert Before(net, plan, s, v, w);
        Order(plan.off[w], plan.stride[w], Used(net, e, q.back), tw.k);
      }
      assert false;
    }
    if q.capacity >= Limit(net, e) {
      AllReturned(ChannelOf(net, e), Out(net, e, t), In(net, e, s.threads[net.edges[e].dst]), q, s.mem);
    }
  }

  lemma LeastEnabled<V>(net: Net<V>, plan: Plan, s: State<V>, v: nat)
    requires Inv(net, plan, s) && Least(net, plan, s, v)
    ensures Enabled(net, s, v)
  {
    var t, x := s.threads[v], net.nodes[v];
    assert ThreadInv(net, plan, v, t) && NodeOk(net, v);
    if t.phase.Running? {
      OpTimes(x, t.cur, t.pc);
      match OpAt(x, t.cur, t.pc)
      case PopIn(p) => InputReady(net, plan, s, v, p);
      case PopOut(i) => OutputReady(net, plan, s, v, i);
      case _ =>
    }
  }

  /** Deadlock freedom: as long as some thread has not finished, some thread can move. */
  lemma NoDeadlock<V>(net: Net<V>, plan: Plan, run: seq<nat>, s: State<V>)
    requires Balanced(net, plan) && Reachable(net, run, s)
    ensures Shaped(net, s)
    ensures !AllDone(net, s) ==> exists v :: 0 <= v < |net.nodes| && Enabled(net, s, v)
  {
    ReachableInv(net, plan, run, s);
    if !AllDone(net, s) {
      var w :| 0 <= w < |net.nodes| && !Done(net, w, s.threads[w]);
      var v := FindLeast(net, plan, s, w);
      LeastEnabled(net, plan, s, v);
    }
  }

  // Termination: the steps that remain.

  function Remaining<V>(net: Net<V>, plan: Plan, v: nat, t: Thread<V>): int
    requires v < |net.nodes|
  {
    var x := net.nodes[v];
    if t.phase.Finishing? then |x.outs| - t.fin
    else At(0, Length(x), if t.k <= plan.items then plan.items - t.k else 0) + Length(x) - t.pc + |x.outs|
  }

  function Total<V>(net: Net<V>, plan: Plan, ts: seq<Thread<V>>, n: nat): int
    requires n <= |ts| == |net.nodes|
  {
    if n == 0 then 0 else Total(net, plan, ts, n - 1) + Remaining(net, plan, n - 1, ts[n - 1])
  }

  lemma {:induction false} TotalChanges<V>(net: Net<V>, plan: Plan, ts: seq<Thread<V>>, v: nat, t: Thread<V>, n: nat)
    requires n <= |ts| == |net.nodes| && v < |ts|
    ensures Total(net, plan, ts[v := t], n) ==
            Total(net, plan, ts, n) + if v < n then Remaining(net, plan, v, t) - Remaining(net, plan, v, ts[v]) else 0
  {
    if n > 0 {
      TotalChanges(net, plan, ts, v, t, n - 1);
    }
  }

  /** Iterations within the stream are no more than its items. */
  lemma WithinStream(plan: Plan, v: nat, k: nat)
    requires v < |plan.stride| == |plan.off| && plan.stride[v] >= 1 && Live(plan, v, k)
    ensures k < plan.items
  {
    Dense(plan.off[v], plan.stride[v], k);
  }

  lemma {:induction false} Dense(off: nat, step: nat, k: nat)
    requires step >= 1
    ensures k <= At(off, step, k)
  {
    if k > 0 {
      Dense(off, step, k - 1);
    }
  }

  /** Iterations that a thread starts are no more than the stream has items, and one. */
  lemma Iterations<V>(net: Net<V>, plan: Plan, s: State<V>, v: nat)
    requires Inv(net, plan, s) && v < |net.nodes|
    ensures s.threads[v].k <= plan.items
    ensures Remaining(net, plan, v, s.threads[v]) >= 0
  {
    var t := s.threads[v];
    assert ThreadInv(net, plan, v, t);
    if t.k > 0 {
      WithinStream(plan, v, t.k - 1);
    }
  }

  lemma StepShrinks<V>(net: Net<V>, plan: Plan, s: State<V>, v: nat)
    requires Inv(net, plan, s) && v < |net.nodes| && Enabled(net, s, v)
    ensures Total(net, plan, Step(net, s, v).threads, |net.nodes|) < Total(net, plan, s.threads, |net.nodes|)
  {
    var t, t', x := s.threads[v], Step(net, s, v).threads[v], net.nodes[v];
    assert Step(net, s, v).threads == s.threads[v := t'];
    TotalChanges(net, plan, s.threads, v, t', |net.nodes|);
    StepKeeps(net, plan, s, v);
    Iterations(net, plan, s, v);
    Iterations(net, plan, Step(net, s, v), v);
    ThreadMoves(net, plan, s, v);
  }

  lemma PerformMoves<V>(net: Net<V>, plan: Plan, s: State<V>, v: nat)
    requires Inv(net, plan, s) && v < |net.nodes| && Enabled(net, s, v)
    ensures var t, t' := s.threads[v], Perform(net, s, v).t;
            && t'.k == t.k
            && (t.phase.Running? && t'.phase.Running? ==> t'.pc == t.pc + 1)
            && (t.phase.Running? && t'.phase.Finishing? ==> t'.fin == 0)
            && (t.phase.Finishing? ==> t'.phase.Finishing? && t'.fin == t.fin + 1)
  {
  }

  lemma ThreadMoves<V>(net: Net<V>, plan: Plan, s: State<V>, v: nat)
    requires Inv(net, plan, s) && v < |net.nodes| && Enabled(net, s, v)
    requires Step(net, s, v).threads[v].k <= plan.items && s.threads[v].k <= plan.items
    ensures Remaining(net, plan, v, Step(net, s, v).threads[v]) < Remaining(net, plan, v, s.threads[v])
  {
    PerformMoves(net, plan, s, v);
    WrapShrinks(net, plan, v, s.threads[v], Perform(net, s, v).t);
  }

  lemma WrapShrinks<V>(net: Net<V>, plan: Plan, v: nat, t: Thread<V>, t': Thread<V>)
    requires v < |net.nodes| && t.k <= plan.items && t'.k == t.k && Wrap(net.nodes[v], t').k <= plan.items
    requires t.phase.Running? ==> t.pc < Length(net.nodes[v])
    requires t.phase.Running? && t'.phase.Running? ==> t'.pc == t.pc + 1
    requires t.phase.Running? && t'.phase.Finishing? ==> t'.fin == 0
    requires t.phase.Finishing? ==> t'.phase.Finishing? && t'.fin == t.fin + 1
    ensures Remaining(net, plan, v, Wrap(net.nodes[v], t')) < Remaining(net, plan, v, t)
  {
  }

  lemma {:induction false} TotalPositive<V>(net: Net<V>, plan: Plan, s: State<V>, n: nat)
    requires Inv(net, plan, s) && n <= |net.nodes|
    ensures Total(net, plan, s.threads, n) >= 0
  {
    if n > 0 {
      TotalPositive(net, plan, s, n - 1);
      Iterations(net, plan, s, n - 1);
    }
  }

  lemma {:induction false} RunsShrink<V>(net: Net<V>, plan: Plan, s: State<V>, run: seq<nat>, s': State<V>)
    requires Inv(net, plan, s) && Leads(net, s, run, s')
    ensures Inv(net, plan, s')
    ensures |run| + Total(net, plan, s'.threads, |net.nodes|) <= Total(net, plan, s.threads, |net.nodes|)
    decreases |run|
  {
    if run == [] {
    } else {
      StepKeeps(net, plan, s, run[0]);
      StepShrinks(net, plan, s, run[0]);
      RunsShrink(net, plan, Step(net, s, run[0]), run[1..], s');
    }
  }

  /** Termination: no run is longer than a bound that depends on the network and its items only. */
  lemma Terminates<V>(net: Net<V>, plan: Plan, run: seq<nat>, s: State<V>)
    requires Balanced(net, plan) && Reachable(net, run, s)
    ensures |run| <= Total(net, plan, Init(net).threads, |net.nodes|)
  {
    InitInv(net, plan);
    RunsShrink(net, plan, Init(net), run, s);
    TotalPositive(net, plan, s, |net.nodes|);
  }

  ghost predicate Bounded<V(!new)>(net: Net<V>, bound: int) {
    forall run, s :: Reachable(net, run, s) ==> |run| <= bound
  }

  lemma BalancedBounded<V(!new)>(net: Net<V>, plan: Plan)
    requires Balanced(net, plan)
    ensures exists bound :: Bounded(net, bound)
  {
    var bound := Total(net, plan, Init(net).threads, |net.nodes|);
    forall run, s | Reachable(net, run, s)
      ensures |run| <= bound
    {
      Terminates(net, plan, run, s);
    }
    assert Bounded(net, bound);
  }

  // Results.

  /** A run that has come to an end: no thread can move. */
  ghost predicate Complete<V>(net: Net<V>, run: seq<nat>, s: State<V>) {
    && WellFormed(net) && Reachable(net, run, s) && Shaped(net, s)
    && forall v :: 0 <= v < |net.nodes| ==> !Enabled(net, s, v)
  }

  lemma OneStep<V>(net: Net<V>, s: State<V>, v: nat, s1: State<V>)
    requires Shaped(net, s) && v < |net.nodes| && Enabled(net, s, v) && s1 == Step(net, s, v)
    ensures Leads(net, s, [v], s1)
  {
    assert [v][1..] == [];
  }

  lemma StepFirst<V>(net: Net<V>, s: State<V>, v: nat, run: seq<nat>, s': State<V>)
    requires Shaped(net, s) && v < |net.nodes| && Enabled(net, s, v) && Leads(net, Step(net, s, v), run, s')
    ensures Leads(net, s, [v] + run, s')
  {
    assert ([v] + run)[1..] == run;
  }

  lemma {:induction false} OneMoreStep<V>(net: Net<V>, s: State<V>, run: seq<nat>, s': State<V>, v: nat, next: State<V>)
    requires Leads(net, s, run, s') && Shaped(net, s') && v < |net.nodes| && Enabled(net, s', v) && next == Step(net, s', v)
    ensures Leads(net, s, run + [v], next)
    decreases |run|
  {
    if run == [] {
      OneStep(net, s, v, next);
    } else {
      OneMoreStep(net, Step(net, s, run[0]), run[1..], s', v, next);
      StepFirst(net, s, run[0], run[1..] + [v], next);
      assert run + [v] == [run[0]] + (run[1..] + [v]);
    }
  }

  lemma LongerRun<V>(net: Net<V>, plan: Plan, run: seq<nat>, s: State<V>, v: nat)
    requires Balanced(net, plan) && Reachable(net, run, s) && Shaped(net, s) && v < |net.nodes| && Enabled(net, s, v)
    ensures Reachable(net, run + [v], Step(net, s, v))
    ensures |run| < Total(net, plan, Init(net).threads, |net.nodes|)
  {
    OneMoreStep(net, Init(net), run, s, v, Step(net, s, v));
    Terminates(net, plan, run + [v], Step(net, s, v));
  }

  ghost predicate Stuck<V>(net: Net<V>, s: State<V>)
    requires Shaped(net, s)
  {
    forall v :: 0 <= v < |net.nodes| ==> !Enabled(net, s, v)
  }

  lemma StuckCompletes<V>(net: Net<V>, plan: Plan, run: seq<nat>, s: State<V>)
    requires Balanced(net, plan) && Reachable(net, run, s) && Shaped(net, s) && Stuck(net, s)
    ensures Complete(net, run, s)
  {
  }

  lemma NextStep<V>(net: Net<V>, plan: Plan, run: seq<nat>, s: State<V>) returns (v: nat)
    requires Balanced(net, plan) && Reachable(net, run, s)
    ensures Shaped(net, s)
    ensures !Stuck(net, s) ==> v < |net.nodes| && Enabled(net, s, v)
  {
    ReachableInv(net, plan, run, s);
    v := 0;
    if !Stuck(net, s) {
      v :| 0 <= v < |net.nodes| && Enabled(net, s, v);
    }
  }

  lemma Reassociate(run: seq<nat>, v: nat, rest: seq<nat>)
    ensures run + ([v] + rest) == (run + [v]) + rest
  {
  }

  /** Every run can go on until it has come to an end. */
  lemma {:induction false} CanComplete<V>(net: Net<V>, plan: Plan, run: seq<nat>, s: State<V>)
    returns (more: seq<nat>, s': State<V>)
    requires Balanced(net, plan) && Reachable(net, run, s)
    ensures Complete(net, run + more, s')
    decreases Total(net, plan, Init(net).threads, |net.nodes|) - |run|
  {
    var v := NextStep(net, plan, run, s);
    if Stuck(net, s) {
      StuckCompletes(net, plan, run, s);
      more, s' := [], s;
      assert run + [] == run;
    } else {
      LongerRun(net, plan, run, s, v);
      var rest;
      rest, s' := CanComplete(net, plan, run + [v], Step(net, s, v));
      more := [v] + rest;
      Reassociate(run, v, rest);
    }
  }

  /** `log` is exactly what the sink has to see: its inputs of every iteration within the stream,
      in order, as the meaning of the network says. */
  ghost predicate Delivered<V>(net: Net<V>, plan: Plan, v: nat, log: seq<seq<V>>)
    requires Balanced(net, plan) && v < |net.nodes|
  {
    && (|log| > 0 ==> Live(plan, v, |log| - 1)) && !Live(plan, v, |log|)
    && forall j :: 0 <= j < |log| ==> log[j] == Args(net, v, j)
  }

  /** Delivery: a run that cannot go on has finished all threads, and every sink has processed
      exactly its stream. */
  lemma Delivery<V>(net: Net<V>, plan: Plan, run: seq<nat>, s: State<V>)
    requires Balanced(net, plan) && Complete(net, run, s)
    ensures AllDone(net, s)
    ensures forall v :: 0 <= v < |net.nodes| && net.nodes[v].kind.Sink? ==> Delivered(net, plan, v, s.threads[v].log)
  {
    NoDeadlock(net, plan, run, s);
    ReachableInv(net, plan, run, s);
    forall v | 0 <= v < |net.nodes| && net.nodes[v].kind.Sink?
      ensures Delivered(net, plan, v, s.threads[v].log)
    {
      assert ThreadInv(net, plan, v, s.threads[v]) && Done(net, v, s.threads[v]);
    }
  }

  lemma DeliveredUnique<V>(net: Net<V>, plan: Plan, v: nat, a: seq<seq<V>>, b: seq<seq<V>>)
    requires Balanced(net, plan) && v < |net.nodes|
    requires Delivered(net, plan, v, a) && Delivered(net, plan, v, b)
    ensures a == b
  {
    if |a| < |b| {
      LiveBefore(net, plan, v, |a|, |b| - 1);
    } else if |b| < |a| {
      LiveBefore(net, plan, v, |b|, |a| - 1);
    }
  }

  /** Determinism: two runs that cannot go on have shown the same streams to the sinks. */
  lemma Deterministic<V>(net: Net<V>, plan: Plan, run1: seq<nat>, s1: State<V>, run2: seq<nat>, s2: State<V>, v: nat)
    requires Balanced(net, plan) && Complete(net, run1, s1) && Complete(net, run2, s2)
    requires v < |net.nodes| && net.nodes[v].kind.Sink?
    ensures s1.threads[v].log == s2.threads[v].log
  {
    Delivery(net, plan, run1, s1);
    Delivery(net, plan, run2, s2);
    DeliveredUnique(net, plan, v, s1.threads[v].log, s2.threads[v].log);
  }

  lemma LogIsPrefix<V>(net: Net<V>, plan: Plan, v: nat, t: Thread<V>, j: nat)
    requires Balanced(net, plan) && v < |net.nodes| && ThreadInv(net, plan, v, t) && j < |t.log|
    ensures t.log[j] == Args(net, v, j) && Live(plan, v, j)
  {
    if j < t.k {
      LiveBefore(net, plan, v, j, t.k - 1);
    }
  }

  /** At every moment a sink has seen a prefix of its stream, nothing else and nothing twice. */
  lemma AlwaysPrefix<V>(net: Net<V>, plan: Plan, run: seq<nat>, s: State<V>, v: nat, j: nat)
    requires Balanced(net, plan) && Reachable(net, run, s)
    requires v < |net.nodes| && v < |s.threads| && j < |s.threads[v].log|
    ensures s.threads[v].log[j] == Args(net, v, j) && Live(plan, v, j)
  {
    ReachableInv(net, plan, run, s);
    LogIsPrefix(net, plan, v, s.threads[v], j);
  }

  /** A thread that has met the end of a stream stands on the first iteration beyond it. */
  lemma EndAtBound<V>(net: Net<V>, plan: Plan, s: State<V>, v: nat, p: nat)
    requires Inv(net, plan, s) && v < |net.nodes| && p < |s.threads[v].finished| && s.threads[v].finished[p]
    ensures !Live(plan, v, s.threads[v].k) && (s.threads[v].k > 0 ==> Live(plan, v, s.threads[v].k - 1))
    ensures plan.stride[v] == 1 && plan.off[v] == 0 ==> s.threads[v].k == plan.items
  {
    var t := s.threads[v];
    assert ThreadInv(net, plan, v, t);
    if plan.stride[v] == 1 && plan.off[v] == 0 {
      Closed(0, 1, t.k);
      if t.k > 0 {
        Closed(0, 1, t.k - 1);
      }
    }
  }

  /** The queues of that port hold nothing but ends. */
  lemma EndDrained<V>(net: Net<V>, plan: Plan, s: State<V>, v: nat, p: nat, e: nat)
    requires Inv(net, plan, s) && v < |net.nodes| && p < |s.threads[v].finished| && s.threads[v].finished[p]
    requires e < |net.edges| && net.edges[e].dst == v && net.edges[e].port == p && !Live(plan, v, s.threads[v].k)
    ensures s.queues[e].taken == s.queues[e].made
    ensures forall j :: 0 <= j < |s.queues[e].full| ==> s.queues[e].full[j] == End
    ensures Counts(net.edges[e].turn, UsedStep(net, e), s.threads[v].k, s.queues[e].taken)
  {
    var q := s.queues[e];
    assert EdgeInvAt(net, s, e) && EdgeOk(net, e);
    if q.taken < q.made {
      MadeLive(net, plan, s, e, q.taken);
      IndexAgrees(net, plan, e, q.taken);
      LiveBefore(net, plan, v, s.threads[v].k, Used(net, e, q.taken));
    }
  }

  /** The end of the stream loses nothing: when a task pops it from one of the groups that a port
      cycles through, the task has completed all iterations within the stream, each with its item,
      and nothing else is on its way to the port. */
  lemma EndLosesNothing<V>(net: Net<V>, plan: Plan, run: seq<nat>, s: State<V>, v: nat, p: nat, e: nat)
    requires Balanced(net, plan) && Reachable(net, run, s)
    requires v < |net.nodes| && |s.threads| == |net.nodes| && |s.queues| == |net.edges|
    requires p < |s.threads[v].finished| && s.threads[v].finished[p]
    requires e < |net.edges| && net.edges[e].dst == v && net.edges[e].port == p
    ensures !Live(plan, v, s.threads[v].k) && (s.threads[v].k > 0 ==> Live(plan, v, s.threads[v].k - 1))
    ensures plan.stride[v] == 1 && plan.off[v] == 0 ==> s.threads[v].k == plan.items
    ensures s.queues[e].taken == s.queues[e].made
    ensures forall j :: 0 <= j < |s.queues[e].full| ==> s.queues[e].full[j] == End
    ensures Counts(net.edges[e].turn, UsedStep(net, e), s.threads[v].k, s.queues[e].taken)
  {
    ReachableInv(net, plan, run, s);
    EndAtBound(net, plan, s, v, p);
    EndDrained(net, plan, s, v, p, e);
  }

  /** Ownership: every buffer inserted in a queue is in exactly one place - free, full, held by the
      producer, held by the consumer - and no other buffer is; no queue of a group has more buffers than
      the group has targets and one more, and none of the fixed scheduler has more than two. */
  lemma Ownership<V>(net: Net<V>, plan: Plan, run: seq<nat>, s: State<V>, e: nat, b: Buffer)
    requires Balanced(net, plan) && Reachable(net, run, s)
    requires e < |net.edges| && e < |s.queues|
    ensures forall v :: 0 <= v < |net.nodes| && v == net.edges[e].src ==>
              s.queues[e].capacity <= if net.nodes[v].send.EachQueue? then 2 else |net.nodes[v].outs| + 1
    ensures var q := s.queues[e];
            multiset(q.free)[b] + Bufs(q.full)[b] + multiset(q.out)[b] + multiset(q.lent)[b]
            == if b.edge == e && b.idx < q.capacity then 1 else 0
  {
    ReachableInv(net, plan, run, s);
    assert EdgeInvAt(net, s, e);
    Apart(e, s.queues[e], b);
  }

  /** What a queue has received and not yet handed on is the next part of the stream of its edge. */
  lemma InTransit<V>(net: Net<V>, plan: Plan, run: seq<nat>, s: State<V>, e: nat, j: nat)
    requires Balanced(net, plan) && Reachable(net, run, s)
    requires e < |net.edges| && e < |s.queues| && j < |s.queues[e].full|
    ensures s.queues[e].full[j].Data? ==>
              Read(net.zero, s.mem, s.queues[e].full[j].buf) == EdgeVal(net, e, s.queues[e].taken + j)
    ensures s.queues[e].full[j].End? ==> j == |s.queues[e].full| - 1
  {
    ReachableInv(net, plan, run, s);
    FullSide(net, s, e, j);
  }

  lemma ItemIs<V>(net: Net<V>, e: nat, k: nat)
    requires WellFormed(net) && e < |net.edges|
    ensures ChannelOf(net, e).item(k) == EdgeVal(net, e, k) && ChannelOf(net, e).zero == net.zero
  {
  }

  lemma FullSide<V>(net: Net<V>, s: State<V>, e: nat, j: nat)
    requires Shaped(net, s) && e < |net.edges| && EdgeInvAt(net, s, e) && j < |s.queues[e].full|
    ensures s.queues[e].full[j].Data? ==>
              Read(net.zero, s.mem, s.queues[e].full[j].buf) == EdgeVal(net, e, s.queues[e].taken + j)
    ensures s.queues[e].full[j].End? ==> j == |s.queues[e].full| - 1
  {
    assert EdgeOk(net, e);
    ItemIs(net, e, s.queues[e].taken + j);
    FullHolds(ChannelOf(net, e), Out(net, e, s.threads[net.edges[e].src]), In(net, e, s.threads[net.edges[e].dst]), s.queues[e], s.mem, j);
  }
}
