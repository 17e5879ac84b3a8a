/** Every step of every thread keeps the invariant of a run. */
module Steps {
  import opened Progression
  import opened Channel
  import opened Network
  import opened Runtime
  import opened Invariant

  ghost function Other<V>(s: State<V>, v: nat, t: Thread<V>, u: nat): Thread<V>
    requires u < |s.threads|
  {
    if u == v then t else s.threads[u]
  }

  /** The invariant of edge `e` once thread `v` has become `t`. */
  ghost predicate EdgeAfter<V>(net: Net<V>, s: State<V>, v: nat, t: Thread<V>, e: nat, q: Queue, mem: map<Buffer, V>)
    requires Shaped(net, s) && v < |net.nodes| && ThreadShaped(net, v, t) && e < |net.edges|
  {
    assert EdgeOk(net, e);
    EdgeInv(ChannelOf(net, e), Out(net, e, Other(s, v, t, net.edges[e].src)),
            In(net, e, Other(s, v, t, net.edges[e].dst)), q, mem)
  }

  ghost function QueueAfter<V>(s: State<V>, f: Effect<V>, e: nat): Queue
    requires e < |s.queues|
  {
    if f.Effect? && f.e == e then f.q else s.queues[e]
  }

  ghost function MemAfter<V>(s: State<V>, f: Effect<V>): map<Buffer, V> {
    if f.Effect? then f.mem else s.mem
  }

  /** An operation that keeps the invariant, up to the start of the next iteration. */
  ghost predicate Keeps<V>(net: Net<V>, plan: Plan, s: State<V>, v: nat, f: Effect<V>)
    requires Inv(net, plan, s) && v < |net.nodes|
  {
    && ThreadCore(net, plan, v, f.t)
    && (f.Effect? ==> f.e < |net.edges|)
    && forall e :: 0 <= e < |net.edges| ==> EdgeAfter(net, s, v, f.t, e, QueueAfter(s, f, e), MemAfter(s, f))
  }

  /** Edges that the operation does not concern. */
  lemma Untouched<V>(net: Net<V>, plan: Plan, s: State<V>, v: nat, f: Effect<V>, e: nat)
    requires Inv(net, plan, s) && v < |net.nodes| && ThreadShaped(net, v, f.t)
    requires e < |net.edges|
    requires f.Effect? ==> f.e != e && forall b: Buffer :: b.edge == e ==> Read(net.zero, s.mem, b) == Read(net.zero, f.mem, b)
    requires EdgeOk(net, e) && (net.edges[e].src == v ==> Out(net, e, f.t) == Out(net, e, s.threads[v]))
    requires EdgeOk(net, e) && (net.edges[e].dst == v ==> In(net, e, f.t) == In(net, e, s.threads[v]))
    ensures EdgeAfter(net, s, v, f.t, e, QueueAfter(s, f, e), MemAfter(s, f))
  {
    assert EdgeInvAt(net, s, e);
    var x := net.edges[e];
    MemFrame(ChannelOf(net, e), Out(net, e, s.threads[x.src]), In(net, e, s.threads[x.dst]), s.queues[e], s.mem, MemAfter(s, f));
  }

  /** A thread that moves past a position that does not belong to edge `e` looks the same to it. */
  lemma OutStays<V>(net: Net<V>, e: nat, t: Thread<V>, t': Thread<V>)
    requires WellFormed(net) && e < |net.edges| && EdgeOk(net, e)
    requires t.phase == t'.phase == Running && t'.k == t.k && t'.pc == t.pc + 1
    requires var x, i := net.nodes[net.edges[e].src], net.edges[e].at;
             Serves(x, i, t.k) ==> t.pc != PopTime(x, i) && t.pc != FillTime(x, i) && t.pc != PushTime(x, i)
    ensures Out(net, e, t') == Out(net, e, t)
  {
  }

  lemma InStays<V>(net: Net<V>, e: nat, t: Thread<V>, t': Thread<V>)
    requires WellFormed(net) && e < |net.edges| && EdgeOk(net, e)
    requires var x, p := net.nodes[net.edges[e].dst], net.edges[e].port;
             && |t.finished| == |t.inp| == |x.ins| == |t'.finished| == |t'.inp|
             && (Turns(x, p, net.edges[e].turn, t.k) ==>
                   && t.pc != InTime(x, p) && t.pc != ReleaseTime(x, p)
                   && t'.finished[p] == t.finished[p] && t'.inp[p] == t.inp[p])
    requires t.phase == t'.phase == Running && t'.k == t.k && t'.pc == t.pc + 1
    ensures In(net, e, t') == In(net, e, t)
  {
  }

  /** Positions of different operations differ. */
  lemma TimesApart<V>(x: Node<V>, i: nat, j: nat)
    requires i < |x.outs| && j < |x.outs|
    requires x.send.Scatter? || i != j
    requires !x.kind.Sink?
    ensures CheckTime(x) < PopTime(x, i) < FillTime(x, i) < PushTime(x, i) < ReleaseTime(x, 0)
    ensures !x.send.Scatter? ==>
              && PopTime(x, i) != PopTime(x, j) && PopTime(x, i) != FillTime(x, j) && PopTime(x, i) != PushTime(x, j)
              && FillTime(x, i) != FillTime(x, j) && FillTime(x, i) != PushTime(x, j)
              && PushTime(x, i) != PushTime(x, j)
  {
  }

  lemma TimesInside<V>(x: Node<V>, i: nat)
    requires i < |x.outs| && !x.kind.Sink?
    ensures CheckTime(x) < PopTime(x, i) < FillTime(x, i) < PushTime(x, i) < ReleaseTime(x, 0)
  {
  }

  lemma SameOps<V>(net: Net<V>, plan: Plan, s: State<V>, v: nat, i: nat)
    requires Inv(net, plan, s) && v < |net.nodes| && i < |net.nodes[v].outs|
    requires var t, x := s.threads[v], net.nodes[v];
             t.phase.Running? && (x.send.Scatter? ==> i == t.cur && t.pc <= PushTime(x, 0))
    ensures Serves(net.nodes[v], i, s.threads[v].k)
    ensures var e := OutEdge(net, v, i); s.threads[v].k % MadeStep(net, e) == MadeOff(net, e) < MadeStep(net, e)
  {
    assert ThreadInv(net, plan, v, s.threads[v]);
  }

  /** In the iteration that serves edge `e`, the next item of its stream is what the task computes. */
  lemma NextItem<V>(net: Net<V>, plan: Plan, s: State<V>, v: nat, i: nat)
    requires Inv(net, plan, s) && v < |net.nodes| && i < |net.nodes[v].outs|
    requires var e, t := OutEdge(net, v, i), s.threads[v];
             && t.k % MadeStep(net, e) == MadeOff(net, e) < MadeStep(net, e)
             && !Out(net, e, t).pushed
    ensures var e, t := OutEdge(net, v, i), s.threads[v];
            && t.k == Made(net, e, s.queues[e].made)
            && EdgeVal(net, e, s.queues[e].made) == Val(net, v, t.k)
  {
    var e := OutEdge(net, v, i);
    assert EdgeInvAt(net, s, e);
    Hit(MadeOff(net, e), MadeStep(net, e), s.threads[v].k, s.queues[e].made);
  }

  /** Operations that concern one target: the other queues of the thread do not notice them. */
  lemma OnlyTarget<V>(net: Net<V>, plan: Plan, s: State<V>, v: nat, f: Effect<V>, i: nat, e: nat)
    requires Inv(net, plan, s) && v < |net.nodes| && i < |net.nodes[v].outs|
    requires f.Effect? && f.e == OutEdge(net, v, i) != e && e < |net.edges|
    requires ThreadShaped(net, v, f.t)
    requires var t, x := s.threads[v], net.nodes[v];
             && t.phase.Running? && f.t == t.(pc := t.pc + 1, cur := f.t.cur)
             && (t.pc == PopTime(x, i) || t.pc == FillTime(x, i) || t.pc == PushTime(x, i))
             && (x.send.Scatter? ==> i == t.cur)
    requires forall b: Buffer :: b.edge == e ==> Read(net.zero, s.mem, b) == Read(net.zero, f.mem, b)
    ensures EdgeAfter(net, s, v, f.t, e, QueueAfter(s, f, e), MemAfter(s, f))
  {
    var t, x := s.threads[v], net.nodes[v];
    assert EdgeOk(net, e) && NodeOk(net, v) && ThreadInv(net, plan, v, t);
    TimesInside(x, i);
    if net.edges[e].src == v {
      var j := net.edges[e].at;
      assert j != i;
      TimesApart(x, i, j);
      TimesApart(x, j, i);
      OutStays(net, e, t, f.t);
    }
    if net.edges[e].dst == v {
      InStays(net, e, t, f.t);
    }
    Untouched(net, plan, s, v, f, e);
  }

  /** Such an operation keeps the invariant when it keeps that of its thread and of its queue. */
  lemma ServesOne<V>(net: Net<V>, plan: Plan, s: State<V>, v: nat, f: Effect<V>, i: nat)
    requires Inv(net, plan, s) && v < |net.nodes| && i < |net.nodes[v].outs|
    requires f.Effect? && f.e == OutEdge(net, v, i)
    requires ThreadCore(net, plan, v, f.t)
    requires var t, x := s.threads[v], net.nodes[v];
             && t.phase.Running? && f.t == t.(pc := t.pc + 1, cur := f.t.cur)
             && (t.pc == PopTime(x, i) || t.pc == FillTime(x, i) || t.pc == PushTime(x, i))
             && (x.send.Scatter? ==> i == t.cur)
    requires forall b: Buffer :: b.edge != f.e ==> Read(net.zero, s.mem, b) == Read(net.zero, f.mem, b)
    requires EdgeAfter(net, s, v, f.t, f.e, f.q, f.mem)
    ensures Keeps(net, plan, s, v, f)
  {
    forall d | 0 <= d < |net.edges|
      ensures EdgeAfter(net, s, v, f.t, d, QueueAfter(s, f, d), MemAfter(s, f))
    {
      if d != f.e {
        OnlyTarget(net, plan, s, v, f, i, d);
      }
    }
  }

  /** A thread that is in the middle of an iteration and moves on. */
  lemma MovesOn<V>(net: Net<V>, plan: Plan, v: nat, t: Thread<V>, t': Thread<V>, m: nat)
    requires Balanced(net, plan) && v < |net.nodes| && ThreadCore(net, plan, v, t)
    requires t.phase.Running? && t' == t.(pc := t.pc + 1, cur := t'.cur)
    requires var x := net.nodes[v];
             && !x.kind.Sink? && |x.ins| < t.pc == |x.ins| + 1 + m < ReleaseTime(x, 0)
             && (x.kind.Generator? && m == 1 ==> Live(plan, v, t.k))
             && |x.outs| > 0
             && (if x.send.Scatter? && t.pc == PushTime(x, 0) then t'.cur == (t.cur + 1) % |x.outs| else t'.cur == t.cur)
    ensures ThreadCore(net, plan, v, t')
  {
    var x := net.nodes[v];
    assert NodeOk(net, v);
    NextTurn(t.k, |x.outs|);
  }

  lemma PopOutQueue<V>(c: Spec<V>, o: OutView, i: InView, q: Queue, mem: map<Buffer, V>)
    requires EdgeInv(c, o, i, q, mem) && (q.capacity < c.limit || q.free != [])
    requires !o.stopped && !o.holding && !o.filled && !o.pushed
    ensures Grown(c.id, c.limit, q).free != []
    ensures EdgeInv(c, o.(holding := true), i, PopFree(Grown(c.id, c.limit, q)), GrownMem(c.id, c.limit, c.zero, q, mem))
  {
    GrownKeeps(c, o, i, q, mem);
    PopFreeKeeps(c, o, i, Grown(c.id, c.limit, q), GrownMem(c.id, c.limit, c.zero, q, mem));
  }

  lemma PopOutTarget<V>(net: Net<V>, plan: Plan, s: State<V>, v: nat, i: nat, t': Thread<V>)
    requires Inv(net, plan, s) && v < |net.nodes| && i < |net.nodes[v].outs|
    requires var t, x := s.threads[v], net.nodes[v];
             && t.phase.Running? && t.pc == PopTime(x, i) && (x.send.Scatter? ==> i == t.cur)
             && t' == t.(pc := t.pc + 1) && ThreadShaped(net, v, t') && !x.kind.Sink?
    requires var e := OutEdge(net, v, i); s.queues[e].capacity < Limit(net, e) || s.queues[e].free != []
    ensures var e := OutEdge(net, v, i);
            EdgeAfter(net, s, v, t', e, PopFree(Grown(e, Limit(net, e), s.queues[e])),
                      GrownMem(e, Limit(net, e), net.zero, s.queues[e], s.mem))
  {
    var t, x, e := s.threads[v], net.nodes[v], OutEdge(net, v, i);
    assert EdgeInvAt(net, s, e) && EdgeOk(net, e);
    TimesInside(x, i);
    SameOps(net, plan, s, v, i);
    var c, o, j := ChannelOf(net, e), Out(net, e, t), In(net, e, s.threads[net.edges[e].dst]);
    PopOutQueue(c, o, j, s.queues[e], s.mem);
    assert Out(net, e, t') == o.(holding := true);
  }

  lemma PushOutTarget<V>(net: Net<V>, plan: Plan, s: State<V>, v: nat, i: nat, t': Thread<V>)
    requires Inv(net, plan, s) && v < |net.nodes| && i < |net.nodes[v].outs|
    requires var t, x := s.threads[v], net.nodes[v];
             && t.phase.Running? && t.pc == PushTime(x, i) && (x.send.Scatter? ==> i == t.cur)
             && t' == t.(pc := t.pc + 1, cur := t'.cur) && ThreadShaped(net, v, t') && !x.kind.Sink?
    ensures var e := OutEdge(net, v, i);
            EdgeAfter(net, s, v, t', e, PushFull(s.queues[e], Held(net, s.queues[e])), s.mem)
  {
    var t, x, e := s.threads[v], net.nodes[v], OutEdge(net, v, i);
    assert EdgeInvAt(net, s, e) && EdgeOk(net, e);
    TimesInside(x, i);
    SameOps(net, plan, s, v, i);
    NextItem(net, plan, s, v, i);
    var c, o, j := ChannelOf(net, e), Out(net, e, t), In(net, e, s.threads[net.edges[e].dst]);
    PushFullKeeps(c, o, j, s.queues[e], s.mem);
    assert Out(net, e, t') == o.(holding := false, filled := false, pushed := true);
  }

  lemma PopOutKeeps<V>(net: Net<V>, plan: Plan, s: State<V>, v: nat, i: nat)
    requires Inv(net, plan, s) && v < |net.nodes| && Enabled(net, s, v)
    requires s.threads[v].phase.Running? && OpAt(net.nodes[v], s.threads[v].cur, s.threads[v].pc) == PopOut(i)
    ensures Keeps(net, plan, s, v, Perform(net, s, v))
  {
    var t, x, f := s.threads[v], net.nodes[v], Perform(net, s, v);
    assert NodeOk(net, v) && ThreadInv(net, plan, v, t);
    OpTimes(x, t.cur, t.pc);
    TimesInside(x, i);
    MovesOn(net, plan, v, t, f.t, t.pc - |x.ins| - 1);
    PopOutTarget(net, plan, s, v, i, f.t);
    ServesOne(net, plan, s, v, f, i);
  }

  lemma PushOutKeeps<V>(net: Net<V>, plan: Plan, s: State<V>, v: nat, i: nat)
    requires Inv(net, plan, s) && v < |net.nodes| && Enabled(net, s, v)
    requires s.threads[v].phase.Running? && OpAt(net.nodes[v], s.threads[v].cur, s.threads[v].pc) == PushOut(i)
    ensures Keeps(net, plan, s, v, Perform(net, s, v))
  {
    var t, x, f := s.threads[v], net.nodes[v], Perform(net, s, v);
    assert NodeOk(net, v) && ThreadInv(net, plan, v, t);
    OpTimes(x, t.cur, t.pc);
    TimesInside(x, i);
    MovesOn(net, plan, v, t, f.t, t.pc - |x.ins| - 1);
    PushOutTarget(net, plan, s, v, i, f.t);
    ServesOne(net, plan, s, v, f, i);
  }

  // Filling an output buffer.

  /** While a task computes, each of its ports holds the item that the current iteration asks for. */
  lemma InputRight<V>(net: Net<V>, plan: Plan, s: State<V>, v: nat, p: nat)
    requires Inv(net, plan, s) && v < |net.nodes| && p < |net.nodes[v].ins|
    requires var t, x := s.threads[v], net.nodes[v];
             t.phase.Running? && CheckTime(x) < t.pc <= ReleaseTime(x, 0)
    ensures Read(net.zero, s.mem, s.threads[v].inp[p]) == Args(net, v, s.threads[v].k)[p]
  {
    var t, x := s.threads[v], net.nodes[v];
    assert ThreadInv(net, plan, v, t) && NodeOk(net, v);
    var e := CurrentIn(net, v, t, p);
    assert e == InEdge(net, v, p, t.k);
    assert EdgeInvAt(net, s, e) && EdgeOk(net, e);
    assert Turns(x, p, net.edges[e].turn, t.k);
    Hit(net.edges[e].turn, UsedStep(net, e), t.k, s.queues[e].back);
    assert Read(net.zero, s.mem, t.inp[p]) == EdgeVal(net, e, s.queues[e].back);
  }

  lemma InputsRight<V>(net: Net<V>, plan: Plan, s: State<V>, v: nat)
    requires Inv(net, plan, s) && v < |net.nodes|
    requires var t, x := s.threads[v], net.nodes[v];
             t.phase.Running? && CheckTime(x) < t.pc <= ReleaseTime(x, 0)
    ensures Inputs(net, s.threads[v], s.mem) == Args(net, v, s.threads[v].k)
  {
    forall p | 0 <= p < |net.nodes[v].ins|
      ensures Inputs(net, s.threads[v], s.mem)[p] == Args(net, v, s.threads[v].k)[p]
    {
      InputRight(net, plan, s, v, p);
    }
  }

  lemma FillTarget<V>(net: Net<V>, plan: Plan, s: State<V>, v: nat, i: nat, t': Thread<V>, val: V)
    requires Inv(net, plan, s) && v < |net.nodes| && i < |net.nodes[v].outs|
    requires var t, x := s.threads[v], net.nodes[v];
             && t.phase.Running? && t.pc == FillTime(x, i) && (x.send.Scatter? ==> i == t.cur)
             && t' == t.(pc := t.pc + 1) && ThreadShaped(net, v, t') && !x.kind.Sink?
    requires val == Val(net, v, s.threads[v].k)
    ensures var e := OutEdge(net, v, i);
            && Held(net, s.queues[e]).edge == e
            && EdgeAfter(net, s, v, t', e, s.queues[e], s.mem[Held(net, s.queues[e]) := val])
  {
    var t, x, e := s.threads[v], net.nodes[v], OutEdge(net, v, i);
    assert EdgeInvAt(net, s, e) && EdgeOk(net, e);
    TimesInside(x, i);
    SameOps(net, plan, s, v, i);
    NextItem(net, plan, s, v, i);
    var c, o, j := ChannelOf(net, e), Out(net, e, t), In(net, e, s.threads[net.edges[e].dst]);
    FillKeeps(c, o, j, s.queues[e], s.mem, val);
    assert Out(net, e, t') == o.(filled := true);
  }

  /** What the first buffer of a broadcast holds when it is copied to the others. */
  lemma FirstFilled<V>(net: Net<V>, plan: Plan, s: State<V>, v: nat, i: nat)
    requires Inv(net, plan, s) && v < |net.nodes| && 0 < i < |net.nodes[v].outs|
    requires var t, x := s.threads[v], net.nodes[v];
             t.phase.Running? && x.send.Broadcast? && !x.kind.Sink? && t.pc == FillTime(x, i)
    ensures Read(net.zero, s.mem, Held(net, s.queues[OutEdge(net, v, 0)])) == Val(net, v, s.threads[v].k)
  {
    var t, x, e := s.threads[v], net.nodes[v], OutEdge(net, v, 0);
    assert EdgeInvAt(net, s, e) && EdgeOk(net, e);
    SameOps(net, plan, s, v, 0);
    assert Out(net, e, t).filled;
    NextItem(net, plan, s, v, 0);
  }

  lemma GeneratorLive<V>(net: Net<V>, plan: Plan, v: nat, k: nat)
    requires Balanced(net, plan) && v < |net.nodes| && net.nodes[v].kind.Generator?
    ensures Live(plan, v, k) <==> k < net.nodes[v].kind.len
  {
    Closed(0, 1, k);
  }

  /** A generator at the end of its stream. */
  lemma GeneratorStops<V>(net: Net<V>, plan: Plan, s: State<V>, v: nat)
    requires Inv(net, plan, s) && v < |net.nodes|
    requires var t, x := s.threads[v], net.nodes[v];
             t.phase.Running? && x.kind.Generator? && t.pc == 2 && t.k >= x.kind.len
    ensures Keeps(net, plan, s, v, Local(Finish(s.threads[v])))
  {
    var t, x := s.threads[v], net.nodes[v];
    var t' := Finish(t);
    assert NodeOk(net, v) && ThreadInv(net, plan, v, t);
    GeneratorLive(net, plan, v, t.k);
    assert ThreadCore(net, plan, v, t');
    Stopping(net, plan, s, v);
  }

  /** A thread that stops without having filled or pushed a buffer in this iteration. */
  lemma Stopping<V>(net: Net<V>, plan: Plan, s: State<V>, v: nat)
    requires Inv(net, plan, s) && v < |net.nodes|
    requires var t, x := s.threads[v], net.nodes[v];
             && t.phase.Running? && t.pc <= (if x.kind.Generator? then 2 else CheckTime(x))
             && (forall p :: 0 <= p < |x.ins| ==> t.finished[p])
    requires ThreadCore(net, plan, v, Finish(s.threads[v]))
    ensures Keeps(net, plan, s, v, Local(Finish(s.threads[v])))
  {
    var t, x := s.threads[v], net.nodes[v];
    var f: Effect<V> := Local(Finish(t));
    assert NodeOk(net, v);
    forall d | 0 <= d < |net.edges|
      ensures EdgeAfter(net, s, v, f.t, d, QueueAfter(s, f, d), MemAfter(s, f))
    {
      assert EdgeInvAt(net, s, d) && EdgeOk(net, d);
      if net.edges[d].src == v {
        TimesInside(x, net.edges[d].at);
        var o := Out(net, d, t);
        StopKeeps(ChannelOf(net, d), o, In(net, d, s.threads[net.edges[d].dst]), s.queues[d], s.mem);
        assert Out(net, d, f.t) == o.(holding := false, stopped := true);
      } else if net.edges[d].dst == v {
        assert In(net, d, f.t) == In(net, d, t);
        Untouched(net, plan, s, v, f, d);
      }
    }
  }

  ghost predicate Fills<V>(net: Net<V>, plan: Plan, s: State<V>, v: nat, i: nat) {
    && Inv(net, plan, s) && v < |net.nodes| && Enabled(net, s, v) && i < |net.nodes[v].outs|
    && s.threads[v].phase.Running? && OpAt(net.nodes[v], s.threads[v].cur, s.threads[v].pc) == Fill(i)
  }

  /** The effect of a fill that writes `x`. */
  ghost function Writing<V>(net: Net<V>, s: State<V>, v: nat, i: nat, x: V): Effect<V>
    requires Shaped(net, s) && v < |net.nodes| && i < |net.nodes[v].outs|
  {
    var e := OutEdge(net, v, i);
    Effect(s.threads[v].(pc := s.threads[v].pc + 1), e, s.queues[e], s.mem[Held(net, s.queues[e]) := x])
  }

  lemma FillCopies<V>(net: Net<V>, plan: Plan, s: State<V>, v: nat, i: nat)
    requires Fills(net, plan, s, v, i) && net.nodes[v].send.Broadcast? && i > 0
    ensures Perform(net, s, v) == Writing(net, s, v, i, Val(net, v, s.threads[v].k))
  {
    assert NodeOk(net, v);
    OpTimes(net.nodes[v], s.threads[v].cur, s.threads[v].pc);
    TimesInside(net.nodes[v], i);
    FirstFilled(net, plan, s, v, i);
  }

  lemma FillProcesses<V>(net: Net<V>, plan: Plan, s: State<V>, v: nat, i: nat)
    requires Fills(net, plan, s, v, i) && !(net.nodes[v].send.Broadcast? && i > 0) && net.nodes[v].kind.Processor?
    ensures Perform(net, s, v) == Writing(net, s, v, i, Val(net, v, s.threads[v].k))
  {
    assert NodeOk(net, v);
    OpTimes(net.nodes[v], s.threads[v].cur, s.threads[v].pc);
    TimesInside(net.nodes[v], i);
    InputsRight(net, plan, s, v);
  }

  lemma FillGenerates<V>(net: Net<V>, plan: Plan, s: State<V>, v: nat, i: nat)
    requires Fills(net, plan, s, v, i) && !(net.nodes[v].send.Broadcast? && i > 0) && net.nodes[v].kind.Generator?
    ensures Perform(net, s, v) ==
            if s.threads[v].k >= net.nodes[v].kind.len then Local(Finish(s.threads[v]))
            else Writing(net, s, v, i, Val(net, v, s.threads[v].k))
  {
    assert NodeOk(net, v);
  }

  /** The value that a fill writes is what the task computes in this iteration. */
  lemma FillWrites<V>(net: Net<V>, plan: Plan, s: State<V>, v: nat, i: nat)
    requires Inv(net, plan, s) && v < |net.nodes| && Enabled(net, s, v)
    requires s.threads[v].phase.Running? && OpAt(net.nodes[v], s.threads[v].cur, s.threads[v].pc) == Fill(i)
    requires i < |net.nodes[v].outs|
    ensures var t, x := s.threads[v], net.nodes[v];
            var e := OutEdge(net, v, i);
            Perform(net, s, v) ==
              if x.kind.Generator? && t.k >= x.kind.len && !(x.send.Broadcast? && i > 0) then Local(Finish(t))
              else Effect(t.(pc := t.pc + 1), e, s.queues[e], s.mem[Held(net, s.queues[e]) := Val(net, v, t.k)])
  {
    assert NodeOk(net, v);
    OpTimes(net.nodes[v], s.threads[v].cur, s.threads[v].pc);
    if net.nodes[v].send.Broadcast? && i > 0 {
      FillCopies(net, plan, s, v, i);
    } else if net.nodes[v].kind.Processor? {
      FillProcesses(net, plan, s, v, i);
    } else {
      FillGenerates(net, plan, s, v, i);
    }
  }

  lemma FillOutKeeps<V>(net: Net<V>, plan: Plan, s: State<V>, v: nat, i: nat)
    requires Inv(net, plan, s) && v < |net.nodes| && Enabled(net, s, v)
    requires s.threads[v].phase.Running? && OpAt(net.nodes[v], s.threads[v].cur, s.threads[v].pc) == Fill(i)
    ensures Keeps(net, plan, s, v, Perform(net, s, v))
  {
    var t, x := s.threads[v], net.nodes[v];
    assert NodeOk(net, v) && ThreadInv(net, plan, v, t);
    OpTimes(x, t.cur, t.pc);
    FillWrites(net, plan, s, v, i);
    if x.kind.Generator? && t.k >= x.kind.len && !(x.send.Broadcast? && i > 0) {
      GeneratorStops(net, plan, s, v);
    } else {
      Filled(net, plan, s, v, i);
    }
  }

  lemma Filled<V>(net: Net<V>, plan: Plan, s: State<V>, v: nat, i: nat)
    requires Inv(net, plan, s) && v < |net.nodes| && i < |net.nodes[v].outs|
    requires var t, x := s.threads[v], net.nodes[v];
             && t.phase.Running? && t.pc == FillTime(x, i) && (x.send.Scatter? ==> i == t.cur) && !x.kind.Sink?
             && (x.kind.Generator? ==> t.k < x.kind.len || (x.send.Broadcast? && i > 0))
    ensures var t, e := s.threads[v], OutEdge(net, v, i);
            Keeps(net, plan, s, v, Effect(t.(pc := t.pc + 1), e, s.queues[e], s.mem[Held(net, s.queues[e]) := Val(net, v, t.k)]))
  {
    var t, x, e := s.threads[v], net.nodes[v], OutEdge(net, v, i);
    assert ThreadInv(net, plan, v, t);
    if x.kind.Generator? {
      GeneratorLive(net, plan, v, t.k);
    }
    TimesInside(x, i);
    MovesOn(net, plan, v, t, t.(pc := t.pc + 1), t.pc - |x.ins| - 1);
    FillTarget(net, plan, s, v, i, t.(pc := t.pc + 1), Val(net, v, t.k));
    ServesOne(net, plan, s, v, Effect(t.(pc := t.pc + 1), e, s.queues[e], s.mem[Held(net, s.queues[e]) := Val(net, v, t.k)]), i);
  }

  lemma LogMore<V>(net: Net<V>, plan: Plan, v: nat, t: Thread<V>, log: seq<seq<V>>)
    requires Balanced(net, plan) && v < |net.nodes| && ThreadInv(net, plan, v, t)
    requires t.phase.Running? && net.nodes[v].kind.Sink? && t.pc == |net.nodes[v].ins| + 1
    requires |log| == |t.log| + 1 && forall j :: 0 <= j < |log| ==> log[j] == Args(net, v, j)
    ensures ThreadCore(net, plan, v, t.(pc := t.pc + 1, log := log))
  {
    assert NodeOk(net, v);
    assert ThreadShaped(net, v, t.(pc := t.pc + 1, log := log));
  }

  lemma ConsumeThread<V>(net: Net<V>, plan: Plan, v: nat, t: Thread<V>)
    requires Balanced(net, plan) && v < |net.nodes| && ThreadInv(net, plan, v, t)
    requires t.phase.Running? && net.nodes[v].kind.Sink? && t.pc == |net.nodes[v].ins| + 1
    ensures ThreadCore(net, plan, v, t.(pc := t.pc + 1, log := t.log + [Args(net, v, t.k)]))
  {
    LogMore(net, plan, v, t, t.log + [Args(net, v, t.k)]);
  }

  lemma ConsumeKeeps<V>(net: Net<V>, plan: Plan, s: State<V>, v: nat)
    requires Inv(net, plan, s) && v < |net.nodes| && Enabled(net, s, v)
    requires s.threads[v].phase.Running? && OpAt(net.nodes[v], s.threads[v].cur, s.threads[v].pc) == Consume
    ensures Keeps(net, plan, s, v, Perform(net, s, v))
  {
    var t, x, f := s.threads[v], net.nodes[v], Perform(net, s, v);
    assert NodeOk(net, v) && ThreadInv(net, plan, v, t);
    OpTimes(x, t.cur, t.pc);
    InputsRight(net, plan, s, v);
    ConsumeThread(net, plan, v, t);
    forall d | 0 <= d < |net.edges|
      ensures EdgeAfter(net, s, v, f.t, d, QueueAfter(s, f, d), MemAfter(s, f))
    {
      assert EdgeOk(net, d);
      if net.edges[d].dst == v {
        InStays(net, d, t, f.t);
      }
      Untouched(net, plan, s, v, f, d);
    }
  }

  lemma CheckEdge<V>(net: Net<V>, plan: Plan, s: State<V>, v: nat, d: nat)
    requires Inv(net, plan, s) && v < |net.nodes| && d < |net.edges|
    requires s.threads[v].phase.Running? && s.threads[v].pc == CheckTime(net.nodes[v])
    requires ThreadShaped(net, v, s.threads[v].(pc := s.threads[v].pc + 1))
    ensures EdgeAfter(net, s, v, s.threads[v].(pc := s.threads[v].pc + 1), d, s.queues[d], s.mem)
  {
    var t, x, t1 := s.threads[v], net.nodes[v], s.threads[v].(pc := s.threads[v].pc + 1);
    assert EdgeOk(net, d) && NodeOk(net, v);
    if net.edges[d].src == v {
      TimesInside(x, net.edges[d].at);
      OutStays(net, d, t, t1);
    }
    if net.edges[d].dst == v {
      InStays(net, d, t, t1);
    }
    Untouched(net, plan, s, v, Local(t1), d);
  }

  lemma CheckThread<V>(net: Net<V>, plan: Plan, v: nat, t: Thread<V>)
    requires Balanced(net, plan) && v < |net.nodes| && ThreadInv(net, plan, v, t)
    requires t.phase.Running? && t.pc == CheckTime(net.nodes[v])
    requires |net.nodes[v].ins| == 0 || exists p :: 0 <= p < |net.nodes[v].ins| && !t.finished[p]
    ensures ThreadCore(net, plan, v, t.(pc := t.pc + 1))
  {
    assert NodeOk(net, v);
  }

  lemma CheckPasses<V>(net: Net<V>, plan: Plan, s: State<V>, v: nat)
    requires Inv(net, plan, s) && v < |net.nodes|
    requires s.threads[v].phase.Running? && s.threads[v].pc == CheckTime(net.nodes[v])
    requires |net.nodes[v].ins| == 0 || exists p :: 0 <= p < |net.nodes[v].ins| && !s.threads[v].finished[p]
    ensures Keeps(net, plan, s, v, Local(s.threads[v].(pc := s.threads[v].pc + 1)))
  {
    var f := Local(s.threads[v].(pc := s.threads[v].pc + 1));
    assert ThreadInv(net, plan, v, s.threads[v]);
    CheckThread(net, plan, v, s.threads[v]);
    forall d | 0 <= d < |net.edges|
      ensures EdgeAfter(net, s, v, f.t, d, QueueAfter(s, f, d), MemAfter(s, f))
    {
      CheckEdge(net, plan, s, v, d);
    }
  }

  lemma CheckStops<V>(net: Net<V>, plan: Plan, s: State<V>, v: nat)
    requires Inv(net, plan, s) && v < |net.nodes|
    requires s.threads[v].phase.Running? && s.threads[v].pc == CheckTime(net.nodes[v])
    requires |net.nodes[v].ins| > 0 && forall p :: 0 <= p < |net.nodes[v].ins| ==> s.threads[v].finished[p]
    ensures Keeps(net, plan, s, v, Local(Finish(s.threads[v])))
  {
    assert ThreadInv(net, plan, v, s.threads[v]);
    assert s.threads[v].finished[0];
    Stopping(net, plan, s, v);
  }

  lemma CheckOnlyThen<V>(x: Node<V>, cur: nat, pc: nat)
    requires pc < Length(x) && OpAt(x, cur, pc) == Check
    ensures pc == CheckTime(x)
  {
  }

  lemma CheckKeeps<V>(net: Net<V>, plan: Plan, s: State<V>, v: nat)
    requires Inv(net, plan, s) && v < |net.nodes| && Enabled(net, s, v)
    requires s.threads[v].phase.Running? && OpAt(net.nodes[v], s.threads[v].cur, s.threads[v].pc) == Check
    ensures Keeps(net, plan, s, v, Perform(net, s, v))
  {
    var t, x := s.threads[v], net.nodes[v];
    CheckOnlyThen(x, t.cur, t.pc);
    if |x.ins| == 0 || exists p :: 0 <= p < |x.ins| && !t.finished[p] {
      CheckPasses(net, plan, s, v);
    } else {
      CheckStops(net, plan, s, v);
    }
  }

  // Popping and releasing inputs.

  /** From `t` to `t'` a thread pops or releases the input of port `p`. */
  ghost predicate PortStep<V>(x: Node<V>, t: Thread<V>, t': Thread<V>, p: nat)
    requires p < |x.ins| == |t.finished| == |t.inp| == |t.turn|
    requires |t'.finished| == |t'.inp| == |t'.turn| == |x.ins|
  {
    && t.phase.Running? && t' == t.(pc := t.pc + 1, finished := t'.finished, inp := t'.inp, turn := t'.turn)
    && (t.pc == InTime(x, p) || t.pc == ReleaseTime(x, p))
    && |x.ins[p]| > 0 && t.turn[p] == t.k % |x.ins[p]|
    && (forall r :: 0 <= r < |x.ins| && r != p ==> t'.finished[r] == t.finished[r] && t'.inp[r] == t.inp[r])
  }

  /** Operations on one input port: the other queues of the thread do not notice them. */
  lemma OnlyPort<V>(net: Net<V>, plan: Plan, s: State<V>, v: nat, f: Effect<V>, p: nat, d: nat)
    requires Inv(net, plan, s) && v < |net.nodes| && p < |net.nodes[v].ins|
    requires f.Effect? && f.e == CurrentIn(net, v, s.threads[v], p) != d && d < |net.edges| && f.mem == s.mem
    requires ThreadShaped(net, v, f.t)
    requires PortStep(net.nodes[v], s.threads[v], f.t, p)
    ensures EdgeAfter(net, s, v, f.t, d, QueueAfter(s, f, d), MemAfter(s, f))
  {
    var t, x := s.threads[v], net.nodes[v];
    assert EdgeOk(net, d) && NodeOk(net, v);
    if net.edges[d].src == v {
      TimesInside(x, net.edges[d].at);
      OutStays(net, d, t, f.t);
    }
    if net.edges[d].dst == v {
      if net.edges[d].port == p {
        assert net.edges[d].turn != t.turn[p];
        assert !Turns(x, p, net.edges[d].turn, t.k);
      }
      InStays(net, d, t, f.t);
    }
    Untouched(net, plan, s, v, f, d);
  }

  lemma ServesPort<V>(net: Net<V>, plan: Plan, s: State<V>, v: nat, f: Effect<V>, p: nat)
    requires Inv(net, plan, s) && v < |net.nodes| && p < |net.nodes[v].ins|
    requires f.Effect? && f.e == CurrentIn(net, v, s.threads[v], p) && f.mem == s.mem
    requires ThreadCore(net, plan, v, f.t)
    requires PortStep(net.nodes[v], s.threads[v], f.t, p)
    requires EdgeAfter(net, s, v, f.t, f.e, f.q, f.mem)
    ensures Keeps(net, plan, s, v, f)
  {
    forall d | 0 <= d < |net.edges|
      ensures EdgeAfter(net, s, v, f.t, d, QueueAfter(s, f, d), MemAfter(s, f))
    {
      if d != f.e {
        OnlyPort(net, plan, s, v, f, p, d);
      }
    }
  }

  /** Later iterations work on later indices. */
  lemma LiveBefore<V>(net: Net<V>, plan: Plan, v: nat, j: nat, k: nat)
    requires Balanced(net, plan) && v < |net.nodes|
    requires j <= k && Live(plan, v, k)
    ensures Live(plan, v, j)
  {
    Order(plan.off[v], plan.stride[v], j, k);
  }

  /** Whatever a producer has pushed belongs to the stream. */
  lemma MadeLive<V>(net: Net<V>, plan: Plan, s: State<V>, e: nat, j: nat)
    requires Inv(net, plan, s) && e < |net.edges| && EdgeOk(net, e)
    requires j < s.queues[e].made
    ensures Live(plan, net.edges[e].src, Made(net, e, j))
  {
    var u := net.edges[e].src;
    var t := s.threads[u];
    assert ThreadInv(net, plan, u, t) && EdgeInvAt(net, s, e) && NodeOk(net, u);
    var o := Out(net, e, t);
    CountsLess(MadeOff(net, e), MadeStep(net, e), o.k + One(o.pushed), s.queues[e].made, j);
    TimesInside(net.nodes[u], net.edges[e].at);
    if o.pushed {
      LiveBefore(net, plan, u, Made(net, e, j), t.k);
    } else {
      LiveBefore(net, plan, u, Made(net, e, j), t.k - 1);
    }
  }

  /** What the consumer pops tells whether its iteration is within the stream: data if it is, the
      end of the stream if it is not. */
  lemma PoppedTells<V>(net: Net<V>, plan: Plan, s: State<V>, e: nat)
    requires Inv(net, plan, s) && e < |net.edges| && EdgeOk(net, e)
    requires s.queues[e].full != []
    requires !In(net, e, s.threads[net.edges[e].dst]).sawEnd
    requires s.threads[net.edges[e].dst].k == Used(net, e, s.queues[e].taken)
    ensures s.queues[e].full[0].Data? <==> Live(plan, net.edges[e].dst, s.threads[net.edges[e].dst].k)
  {
    var q, u := s.queues[e], net.edges[e].src;
    assert EdgeInvAt(net, s, e);
    IndexAgrees(net, plan, e, q.taken);
    if q.taken < q.made {
      MadeLive(net, plan, s, e, q.taken);
    } else {
      var t := s.threads[u];
      assert q.full[0] == End && q.closed;
      assert ThreadInv(net, plan, u, t);
      assert !Live(plan, u, t.k) && t.k <= Made(net, e, q.taken);
      if Live(plan, u, Made(net, e, q.taken)) {
        LiveBefore(net, plan, u, t.k, Made(net, e, q.taken));
      }
    }
  }

  lemma PopInThread<V>(net: Net<V>, plan: Plan, v: nat, t: Thread<V>, p: nat, t': Thread<V>)
    requires Balanced(net, plan) && v < |net.nodes| && ThreadInv(net, plan, v, t)
    requires p < |net.nodes[v].ins| && t.phase.Running? && t.pc == InTime(net.nodes[v], p)
    requires if Live(plan, v, t.k) then t' == t.(pc := t.pc + 1, inp := t'.inp) && |t'.inp| == |t.inp|
             else t' == t.(pc := t.pc + 1, finished := t.finished[p := true])
    ensures ThreadCore(net, plan, v, t')
  {
    assert NodeOk(net, v);
  }

  lemma PopInIsPortStep<V>(x: Node<V>, t: Thread<V>, t': Thread<V>, p: nat, b: Buffer)
    requires p < |x.ins| == |t.finished| == |t.inp| == |t.turn| && |x.ins[p]| > 0
    requires t.phase.Running? && t.pc == InTime(x, p) && t.turn[p] == t.k % |x.ins[p]|
    requires t' == t.(pc := t.pc + 1, inp := t.inp[p := b]) || t' == t.(pc := t.pc + 1, finished := t.finished[p := true])
    ensures PortStep(x, t, t', p)
  {
  }

  /** The effect of a pop, stated without the operation. */
  lemma PopInServes<V>(net: Net<V>, plan: Plan, s: State<V>, v: nat, p: nat, f: Effect<V>)
    requires Inv(net, plan, s) && v < |net.nodes| && p < |net.nodes[v].ins|
    requires s.threads[v].phase.Running? && s.threads[v].pc == InTime(net.nodes[v], p)
    requires var t, e := s.threads[v], CurrentIn(net, v, s.threads[v], p);
             && s.queues[e].full != []
             && f == Effect(if s.queues[e].full[0].Data? then t.(pc := t.pc + 1, inp := t.inp[p := s.queues[e].full[0].buf])
                            else t.(pc := t.pc + 1, finished := t.finished[p := true]), e, PopFull(s.queues[e]), s.mem)
    ensures Keeps(net, plan, s, v, f)
  {
    var t, e := s.threads[v], CurrentIn(net, v, s.threads[v], p);
    assert NodeOk(net, v) && ThreadInv(net, plan, v, t);
    PopInTurn(net, plan, s, v, p);
    PoppedTells(net, plan, s, e);
    PopInThread(net, plan, v, t, p, f.t);
    PopInEdge(net, plan, s, v, p, f);
    PopInIsPortStep(net.nodes[v], t, f.t, p, if s.queues[e].full[0].Data? then s.queues[e].full[0].buf else Nowhere(net));
    ServesPort(net, plan, s, v, f, p);
  }

  lemma PopInKeeps<V>(net: Net<V>, plan: Plan, s: State<V>, v: nat, p: nat)
    requires Inv(net, plan, s) && v < |net.nodes| && Enabled(net, s, v)
    requires s.threads[v].phase.Running? && OpAt(net.nodes[v], s.threads[v].cur, s.threads[v].pc) == PopIn(p)
    ensures Keeps(net, plan, s, v, Perform(net, s, v))
  {
    assert NodeOk(net, v);
    OpTimes(net.nodes[v], s.threads[v].cur, s.threads[v].pc);
    PopInTurn(net, plan, s, v, p);
    PopInServes(net, plan, s, v, p, Perform(net, s, v));
  }

  /** A port pops from the queue whose turn it is. */
  lemma PopInTurn<V>(net: Net<V>, plan: Plan, s: State<V>, v: nat, p: nat)
    requires Inv(net, plan, s) && v < |net.nodes| && p < |net.nodes[v].ins|
    requires s.threads[v].phase.Running? && s.threads[v].pc == InTime(net.nodes[v], p)
    ensures var t, e := s.threads[v], CurrentIn(net, v, s.threads[v], p);
            && t.turn[p] == t.k % |net.nodes[v].ins[p]| && !t.finished[p]
            && t.k == Used(net, e, s.queues[e].taken) && Turns(net.nodes[v], p, net.edges[e].turn, t.k)
  {
    var t, e := s.threads[v], CurrentIn(net, v, s.threads[v], p);
    assert NodeOk(net, v) && ThreadInv(net, plan, v, t) && EdgeInvAt(net, s, e) && EdgeOk(net, e);
    Hit(net.edges[e].turn, UsedStep(net, e), t.k, s.queues[e].taken);
  }

  lemma PopInEdge<V>(net: Net<V>, plan: Plan, s: State<V>, v: nat, p: nat, f: Effect<V>)
    requires Inv(net, plan, s) && v < |net.nodes| && p < |net.nodes[v].ins|
    requires ThreadShaped(net, v, f.t)
    requires var t, x, e := s.threads[v], net.nodes[v], CurrentIn(net, v, s.threads[v], p);
             && t.phase.Running? && t.pc == InTime(x, p) && s.queues[e].full != []
             && t.k == Used(net, e, s.queues[e].taken) && Turns(x, p, net.edges[e].turn, t.k)
             && f == Effect(if s.queues[e].full[0].Data? then t.(pc := t.pc + 1, inp := t.inp[p := s.queues[e].full[0].buf])
                            else t.(pc := t.pc + 1, finished := t.finished[p := true]), e, PopFull(s.queues[e]), s.mem)
    ensures EdgeAfter(net, s, v, f.t, f.e, f.q, f.mem)
  {
    var t, x, e := s.threads[v], net.nodes[v], CurrentIn(net, v, s.threads[v], p);
    assert EdgeInvAt(net, s, e) && EdgeOk(net, e) && ThreadInv(net, plan, v, t);
    var c, o, j, q := ChannelOf(net, e), Out(net, e, s.threads[net.edges[e].src]), In(net, e, t), s.queues[e];
    if q.full[0].Data? {
      PopFullKeeps(c, o, j, q, s.mem);
      assert In(net, e, f.t) == j.(taken := true, buf := q.full[0].buf);
    } else {
      PopEndKeeps(c, o, j, q, s.mem);
      assert In(net, e, f.t) == j.(sawEnd := true);
    }
  }

  lemma ReleaseThread<V>(net: Net<V>, plan: Plan, v: nat, t: Thread<V>, p: nat)
    requires Balanced(net, plan) && v < |net.nodes| && ThreadInv(net, plan, v, t)
    requires p < |net.nodes[v].ins| && t.phase.Running? && t.pc == ReleaseTime(net.nodes[v], p)
    ensures ThreadCore(net, plan, v, t.(pc := t.pc + 1, turn := t.turn[p := (t.turn[p] + 1) % |net.nodes[v].ins[p]|]))
    ensures t.turn[p] == t.k % |net.nodes[v].ins[p]|
  {
    assert NodeOk(net, v);
    NextTurn(t.k, |net.nodes[v].ins[p]|);
    if |net.nodes[v].outs| > 0 {
      TimesInside(net.nodes[v], 0);
    }
  }

  /** What the queue sees of a release. */
  lemma ReleaseView<V>(net: Net<V>, e: nat, t: Thread<V>, t': Thread<V>)
    requires WellFormed(net) && e < |net.edges| && EdgeOk(net, e)
    requires ThreadShaped(net, net.edges[e].dst, t) && ThreadShaped(net, net.edges[e].dst, t')
    requires var p, x := net.edges[e].port, net.nodes[net.edges[e].dst];
             && t.phase.Running? && t.pc == ReleaseTime(x, p) && t' == t.(pc := t.pc + 1, turn := t'.turn)
             && !t.finished[p] && Turns(x, p, net.edges[e].turn, t.k)
    ensures In(net, e, t').k == In(net, e, t).k == t.k
    ensures In(net, e, t).taken && !In(net, e, t).returned && In(net, e, t).buf == t.inp[net.edges[e].port]
    ensures In(net, e, t') == In(net, e, t).(returned := true, buf := Nowhere(net))
  {
  }

  /** A port releases to the queue whose turn it is. */
  lemma ReleaseTurn<V>(net: Net<V>, plan: Plan, s: State<V>, v: nat, p: nat)
    requires Inv(net, plan, s) && v < |net.nodes| && p < |net.nodes[v].ins|
    requires s.threads[v].phase.Running? && s.threads[v].pc == ReleaseTime(net.nodes[v], p)
    ensures var t, e := s.threads[v], CurrentIn(net, v, s.threads[v], p);
            && !t.finished[p] && Turns(net.nodes[v], p, net.edges[e].turn, t.k) && t.k == Used(net, e, s.queues[e].back)
  {
    var t, e := s.threads[v], CurrentIn(net, v, s.threads[v], p);
    assert NodeOk(net, v) && ThreadInv(net, plan, v, t) && EdgeInvAt(net, s, e) && EdgeOk(net, e);
    Hit(net.edges[e].turn, UsedStep(net, e), t.k, s.queues[e].back);
  }

  lemma ReleaseEdge<V>(net: Net<V>, plan: Plan, s: State<V>, v: nat, p: nat, t': Thread<V>)
    requires Inv(net, plan, s) && v < |net.nodes| && p < |net.nodes[v].ins|
    requires var t, x := s.threads[v], net.nodes[v];
             && t.phase.Running? && t.pc == ReleaseTime(x, p)
             && t' == t.(pc := t.pc + 1, turn := t'.turn) && ThreadShaped(net, v, t')
    ensures var e := CurrentIn(net, v, s.threads[v], p);
            EdgeAfter(net, s, v, t', e, PushFree(s.queues[e], s.threads[v].inp[p]), s.mem)
  {
    var t, e := s.threads[v], CurrentIn(net, v, s.threads[v], p);
    assert EdgeInvAt(net, s, e) && EdgeOk(net, e);
    ReleaseTurn(net, plan, s, v, p);
    ReleaseView(net, e, t, t');
    PushFreeKeeps(ChannelOf(net, e), Out(net, e, s.threads[net.edges[e].src]), In(net, e, t), s.queues[e], s.mem, Nowhere(net));
  }

  lemma ReleaseIsPortStep<V>(x: Node<V>, t: Thread<V>, t': Thread<V>, p: nat, turn: nat)
    requires p < |x.ins| == |t.finished| == |t.inp| == |t.turn| && |x.ins[p]| > 0
    requires t.phase.Running? && t.pc == ReleaseTime(x, p) && t.turn[p] == t.k % |x.ins[p]|
    requires t' == t.(pc := t.pc + 1, turn := t.turn[p := turn])
    ensures PortStep(x, t, t', p)
  {
  }

  /** The effect of a release, stated without the operation. */
  lemma ReleaseServes<V>(net: Net<V>, plan: Plan, s: State<V>, v: nat, p: nat, f: Effect<V>)
    requires Inv(net, plan, s) && v < |net.nodes| && p < |net.nodes[v].ins|
    requires var t, x := s.threads[v], net.nodes[v];
             && t.phase.Running? && t.pc == ReleaseTime(x, p)
             && var e := CurrentIn(net, v, t, p);
                f == Effect(t.(pc := t.pc + 1, turn := t.turn[p := (t.turn[p] + 1) % |x.ins[p]|]), e, PushFree(s.queues[e], t.inp[p]), s.mem)
    ensures Keeps(net, plan, s, v, f)
  {
    var t := s.threads[v];
    assert ThreadInv(net, plan, v, t) && NodeOk(net, v);
    ReleaseThread(net, plan, v, t, p);
    ReleaseIsPortStep(net.nodes[v], t, f.t, p, (t.turn[p] + 1) % |net.nodes[v].ins[p]|);
    ReleaseEdge(net, plan, s, v, p, f.t);
    ServesPort(net, plan, s, v, f, p);
  }

  lemma ReleaseKeeps<V>(net: Net<V>, plan: Plan, s: State<V>, v: nat, p: nat)
    requires Inv(net, plan, s) && v < |net.nodes| && Enabled(net, s, v)
    requires s.threads[v].phase.Running? && OpAt(net.nodes[v], s.threads[v].cur, s.threads[v].pc) == Release(p)
    ensures Keeps(net, plan, s, v, Perform(net, s, v))
  {
    assert NodeOk(net, v);
    OpTimes(net.nodes[v], s.threads[v].cur, s.threads[v].pc);
    ReleaseServes(net, plan, s, v, p, Perform(net, s, v));
  }

  lemma EndKeeps<V>(net: Net<V>, plan: Plan, s: State<V>, v: nat)
    requires Inv(net, plan, s) && v < |net.nodes| && Enabled(net, s, v)
    requires s.threads[v].phase.Finishing?
    ensures Keeps(net, plan, s, v, Perform(net, s, v))
  {
    var t, x, f := s.threads[v], net.nodes[v], Perform(net, s, v);
    assert NodeOk(net, v) && ThreadInv(net, plan, v, t);
    forall d | 0 <= d < |net.edges|
      ensures EdgeAfter(net, s, v, f.t, d, QueueAfter(s, f, d), MemAfter(s, f))
    {
      assert EdgeInvAt(net, s, d) && EdgeOk(net, d);
      if d == f.e {
        PushEndKeeps(ChannelOf(net, d), Out(net, d, t), In(net, d, s.threads[net.edges[d].dst]), s.queues[d], s.mem);
        assert Out(net, d, f.t) == Out(net, d, t).(ended := true);
      } else {
        if net.edges[d].src == v {
          assert net.edges[d].at != t.fin;
        }
        Untouched(net, plan, s, v, f, d);
      }
    }
  }

  // From one iteration to the next.

  lemma WrapThread<V>(net: Net<V>, plan: Plan, v: nat, t: Thread<V>)
    requires Balanced(net, plan) && v < |net.nodes| && ThreadCore(net, plan, v, t)
    ensures ThreadInv(net, plan, v, Wrap(net.nodes[v], t))
  {
    var x := net.nodes[v];
    assert NodeOk(net, v);
    if !x.kind.Sink? {
      TimesInside(x, 0);
    }
  }

  lemma WrapOut<V>(net: Net<V>, plan: Plan, v: nat, t: Thread<V>, e: nat, j: InView, q: Queue, mem: map<Buffer, V>)
    requires Balanced(net, plan) && v < |net.nodes| && ThreadCore(net, plan, v, t) && e < |net.edges|
    requires net.edges[e].src == v && t.phase.Running? && t.pc == Length(net.nodes[v])
    requires EdgeInv(ChannelOf(net, e), Out(net, e, t), j, q, mem)
    ensures EdgeInv(ChannelOf(net, e), Out(net, e, Wrap(net.nodes[v], t)), j, q, mem)
  {
    assert EdgeOk(net, e) && NodeOk(net, v);
    var x, t' := net.nodes[v], Wrap(net.nodes[v], t);
    var i, o := net.edges[e].at, Out(net, e, t);
    TimesInside(x, i);
    if !Serves(x, i, t.k) {
      Hit(MadeOff(net, e), MadeStep(net, e), t.k, q.made);
    }
    NextOutKeeps(ChannelOf(net, e), o, j, q, mem);
    assert Out(net, e, t') == o.(k := o.k + 1, pushed := false);
  }

  lemma WrapIn<V>(net: Net<V>, plan: Plan, v: nat, t: Thread<V>, e: nat, o: OutView, q: Queue, mem: map<Buffer, V>)
    requires Balanced(net, plan) && v < |net.nodes| && ThreadCore(net, plan, v, t) && e < |net.edges|
    requires net.edges[e].dst == v && t.phase.Running? && t.pc == Length(net.nodes[v])
    requires EdgeOk(net, e) && EdgeInv(ChannelOf(net, e), o, In(net, e, t), q, mem)
    ensures EdgeInv(ChannelOf(net, e), o, In(net, e, Wrap(net.nodes[v], t)), q, mem)
  {
    assert NodeOk(net, v);
    var x, t' := net.nodes[v], Wrap(net.nodes[v], t);
    var p, j := net.edges[e].port, In(net, e, t);
    assert !t.finished[p];
    if !Turns(x, p, net.edges[e].turn, t.k) {
      Hit(net.edges[e].turn, UsedStep(net, e), t.k, q.taken);
    }
    NextInKeeps(ChannelOf(net, e), o, j, q, mem, Nowhere(net));
    assert In(net, e, t') == j.(k := j.k + 1, taken := false, returned := false, buf := Nowhere(net));
  }

  lemma WrapEdge<V>(net: Net<V>, plan: Plan, s: State<V>, v: nat, t: Thread<V>, e: nat, q: Queue, mem: map<Buffer, V>)
    requires Inv(net, plan, s) && v < |net.nodes| && ThreadCore(net, plan, v, t) && e < |net.edges|
    requires ThreadInv(net, plan, v, Wrap(net.nodes[v], t))
    requires EdgeAfter(net, s, v, t, e, q, mem)
    ensures EdgeAfter(net, s, v, Wrap(net.nodes[v], t), e, q, mem)
  {
    assert EdgeOk(net, e);
    if t.phase.Running? && t.pc == Length(net.nodes[v]) {
      if net.edges[e].src == v {
        WrapOut(net, plan, v, t, e, In(net, e, s.threads[net.edges[e].dst]), q, mem);
      } else if net.edges[e].dst == v {
        WrapIn(net, plan, v, t, e, Out(net, e, s.threads[net.edges[e].src]), q, mem);
      }
    }
  }

  lemma PerformKeeps<V>(net: Net<V>, plan: Plan, s: State<V>, v: nat)
    requires Inv(net, plan, s) && v < |net.nodes| && Enabled(net, s, v)
    ensures Keeps(net, plan, s, v, Perform(net, s, v))
  {
    var t := s.threads[v];
    if t.phase.Finishing? {
      EndKeeps(net, plan, s, v);
    } else {
      match OpAt(net.nodes[v], t.cur, t.pc)
      case PopIn(p) => PopInKeeps(net, plan, s, v, p);
      case Check => CheckKeeps(net, plan, s, v);
      case PopOut(i) => PopOutKeeps(net, plan, s, v, i);
      case Fill(i) => FillOutKeeps(net, plan, s, v, i);
      case PushOut(i) => PushOutKeeps(net, plan, s, v, i);
      case Consume => ConsumeKeeps(net, plan, s, v);
      case Release(p) => ReleaseKeeps(net, plan, s, v, p);
    }
  }

  /** Main step: whatever thread moves next, the invariant of the run is kept. */
  lemma StepKeeps<V>(net: Net<V>, plan: Plan, s: State<V>, v: nat)
    requires Inv(net, plan, s) && v < |net.nodes| && Enabled(net, s, v)
    ensures Inv(net, plan, Step(net, s, v))
  {
    var f, s' := Perform(net, s, v), Step(net, s, v);
    PerformKeeps(net, plan, s, v);
    WrapThread(net, plan, v, f.t);
    forall u | 0 <= u < |net.nodes|
      ensures ThreadInv(net, plan, u, s'.threads[u])
    {
      assert ThreadInv(net, plan, u, s.threads[u]);
    }
    forall e | 0 <= e < |net.edges|
      ensures EdgeInvAt(net, s', e)
    {
      assert EdgeOk(net, e);
      WrapEdge(net, plan, s, v, f.t, e, QueueAfter(s, f, e), MemAfter(s, f));
    }
  }
}
