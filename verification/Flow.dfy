/** How many items flow where, in any network: also in one whose tasks do not agree on the indices of the
    stream. Counting the items is enough to tell that such a network delivers too many or too few. */
module Flow {
  import opened Progression
  import opened Channel
  import opened Network
  import opened Runtime
  import opened Invariant
  import Runs
  import Steps

  /** The iterations of a producer that count for its target `i`: the current one counts once it has
      pushed. */
  function Sent<V>(x: Node<V>, i: nat, t: Thread<V>): nat
    requires i < |x.outs|
  {
    t.k + One(t.phase.Running? && Serves(x, i, t.k) && PushTime(x, i) < t.pc)
  }

  /** The same for group `q` of port `p` of a consumer. */
  function Got<V>(x: Node<V>, p: nat, q: nat, t: Thread<V>): nat
    requires p < |x.ins|
  {
    t.k + One(t.phase.Running? && Turns(x, p, q, t.k) && InTime(x, p) < t.pc)
  }

  predicate Told<V>(i: nat, t: Thread<V>) {
    t.phase.Finishing? && i < t.fin
  }

  /** What is counted of an edge between the threads `a` and `b`. */
  ghost predicate EdgeFlow<V>(net: Net<V>, e: nat, a: Thread<V>, b: Thread<V>, q: Queue)
    requires WellFormed(net) && e < |net.edges| && |b.finished| == |net.nodes[net.edges[e].dst].ins|
  {
    assert EdgeOk(net, e);
    var x := net.edges[e];
    && Ordered(q) && (q.sawEnd ==> q.closed)
    && Counts(MadeOff(net, e), MadeStep(net, e), Sent(net.nodes[x.src], x.at, a), q.made)
    && (q.closed <==> Told(x.at, a))
    && (!b.finished[x.port] ==>
          !q.sawEnd && Counts(x.turn, UsedStep(net, e), Got(net.nodes[x.dst], x.port, x.turn, b), q.taken))
  }

  /** What is known of a thread alone. Between two iterations `pc` may stand behind the last operation. */
  ghost predicate Core<V>(net: Net<V>, v: nat, t: Thread<V>)
    requires v < |net.nodes|
  {
    var x := net.nodes[v];
    && ThreadShaped(net, v, t)
    && (t.phase.Running? ==> TurnsRight(x, t))
    && (t.phase.Running? && x.send.Scatter? && |x.outs| > 0 ==>
          t.cur == (t.k + One(PushTime(x, 0) < t.pc)) % |x.outs|)
    && |t.log| == (if x.kind.Sink? then t.k + One(t.phase.Running? && |x.ins| + 1 < t.pc) else 0)
    && (x.kind.Generator? ==>
          t.k <= x.kind.len && (t.phase.Running? && t.pc > 2 ==> t.k < x.kind.len) && (t.phase.Finishing? ==> t.k == x.kind.len))
    && (t.phase.Finishing? ==> forall p :: 0 <= p < |x.ins| ==> t.finished[p])
    && (t.phase.Running? && CheckTime(x) < t.pc ==> SomeOpen(x, t))
  }

  /** Some input of the task has not ended, or it has none. */
  predicate SomeOpen<V>(x: Node<V>, t: Thread<V>)
    requires |t.finished| == |x.ins|
  {
    |x.ins| == 0 || exists p :: 0 <= p < |x.ins| && !t.finished[p]
  }

  ghost predicate TurnsRight<V>(x: Node<V>, t: Thread<V>)
    requires |t.turn| == |x.ins|
  {
    forall p :: 0 <= p < |x.ins| ==> |x.ins[p]| > 0 && t.turn[p] == (t.k + One(ReleaseTime(x, p) < t.pc)) % |x.ins[p]|
  }

  /** Some edge into the port has been used up in an iteration up to `k`; if `clean`, in iteration `k`. */
  ghost predicate EndedAt<V>(net: Net<V>, queues: seq<Queue>, v: nat, p: nat, k: nat, clean: bool)
    requires WellFormed(net) && |queues| == |net.edges|
  {
    exists e :: 0 <= e < |net.edges| && UsedUp(net, queues, v, p, k, clean, e)
  }

  ghost predicate UsedUp<V>(net: Net<V>, queues: seq<Queue>, v: nat, p: nat, k: nat, clean: bool, e: nat)
    requires WellFormed(net) && |queues| == |net.edges| && e < |net.edges|
  {
    && net.edges[e].dst == v && net.edges[e].port == p && queues[e].closed
    && Used(net, e, queues[e].made) <= k && (clean ==> Used(net, e, queues[e].made) == k)
  }

  ghost predicate PortsEnded<V>(net: Net<V>, queues: seq<Queue>, v: nat, t: Thread<V>, clean: bool)
    requires WellFormed(net) && |queues| == |net.edges|
  {
    forall p :: 0 <= p < |t.finished| && t.finished[p] ==> EndedAt(net, queues, v, p, t.k, clean)
  }

  ghost predicate EdgeFlowAt<V>(net: Net<V>, s: State<V>, e: nat)
    requires Shaped(net, s) && e < |net.edges|
  {
    assert EdgeOk(net, e);
    EdgeFlow(net, e, s.threads[net.edges[e].src], s.threads[net.edges[e].dst], s.queues[e])
  }

  ghost predicate ThreadFlow<V>(net: Net<V>, s: State<V>, clean: bool, v: nat)
    requires Shaped(net, s) && v < |net.nodes|
  {
    Core(net, v, s.threads[v]) && PortsEnded(net, s.queues, v, s.threads[v], clean)
  }

  ghost predicate FlowInv<V>(net: Net<V>, s: State<V>, clean: bool) {
    && Shaped(net, s)
    && (forall v :: 0 <= v < |net.nodes| ==> ThreadFlow(net, s, clean, v))
    && (forall e :: 0 <= e < |net.edges| ==> EdgeFlowAt(net, s, e))
  }

  lemma InitCore<V>(net: Net<V>, v: nat)
    requires v < |net.nodes| && NodeOk(net, v)
    ensures Core(net, v, InitThread(net, v)) && InitThread(net, v).pc < Length(net.nodes[v])
  {
  }

  lemma InitFlow<V>(net: Net<V>, clean: bool)
    requires WellFormed(net)
    ensures FlowInv(net, Init(net), clean)
  {
    var s := Init(net);
    forall v | 0 <= v < |net.nodes|
      ensures Core(net, v, s.threads[v]) && s.threads[v].pc < Length(net.nodes[v])
    {
      assert NodeOk(net, v);
      InitCore(net, v);
    }
    forall e | 0 <= e < |net.edges|
      ensures EdgeFlowAt(net, s, e)
    {
      assert EdgeOk(net, e);
    }
  }

  // Edges that a step does not concern.

  predicate SameFlow(q: Queue, q': Queue) {
    q'.full == q.full && q'.made == q.made && q'.taken == q.taken && q'.closed == q.closed && q'.sawEnd == q.sawEnd
  }

  ghost predicate SameOut<V>(net: Net<V>, e: nat, t: Thread<V>, t': Thread<V>)
    requires WellFormed(net) && e < |net.edges|
  {
    assert EdgeOk(net, e);
    var x := net.edges[e];
    Sent(net.nodes[x.src], x.at, t') == Sent(net.nodes[x.src], x.at, t) && (Told(x.at, t') <==> Told(x.at, t))
  }

  ghost predicate SameIn<V>(net: Net<V>, e: nat, t: Thread<V>, t': Thread<V>)
    requires WellFormed(net) && e < |net.edges|
    requires |t.finished| == |t'.finished| == |net.nodes[net.edges[e].dst].ins|
  {
    assert EdgeOk(net, e);
    var x := net.edges[e];
    !t'.finished[x.port] ==>
      !t.finished[x.port] && Got(net.nodes[x.dst], x.port, x.turn, t') == Got(net.nodes[x.dst], x.port, x.turn, t)
  }

  lemma EdgeQuiet<V>(net: Net<V>, e: nat, a: Thread<V>, b: Thread<V>, q: Queue, a': Thread<V>, b': Thread<V>, q': Queue)
    requires WellFormed(net) && e < |net.edges|
    requires |b.finished| == |b'.finished| == |net.nodes[net.edges[e].dst].ins|
    requires EdgeFlow(net, e, a, b, q) && SameFlow(q, q')
    requires (a' == a || SameOut(net, e, a, a')) && (b' == b || SameIn(net, e, b, b'))
    ensures EdgeFlow(net, e, a', b', q')
  {
  }

  /** A thread that moves past a position at which it does not push to the target. */
  lemma OutQuiet<V>(net: Net<V>, e: nat, t: Thread<V>, t': Thread<V>)
    requires WellFormed(net) && e < |net.edges| && EdgeOk(net, e)
    requires t.phase == t'.phase == Running && t'.k == t.k && t'.pc == t.pc + 1
    requires var x, i := net.nodes[net.edges[e].src], net.edges[e].at; Serves(x, i, t.k) ==> t.pc != PushTime(x, i)
    ensures SameOut(net, e, t, t')
  {
  }

  lemma InQuiet<V>(net: Net<V>, e: nat, t: Thread<V>, t': Thread<V>)
    requires WellFormed(net) && e < |net.edges| && EdgeOk(net, e)
    requires |t.finished| == |t'.finished| == |net.nodes[net.edges[e].dst].ins|
    requires t.phase == t'.phase == Running && t'.k == t.k && t'.pc == t.pc + 1
    requires var x, p := net.nodes[net.edges[e].dst], net.edges[e].port;
             !t'.finished[p] ==> !t.finished[p] && (Turns(x, p, net.edges[e].turn, t.k) ==> t.pc != InTime(x, p))
    ensures SameIn(net, e, t, t')
  {
  }

  // The queue that a step concerns.

  lemma SendData<V>(net: Net<V>, e: nat, a: Thread<V>, b: Thread<V>, q: Queue, a': Thread<V>, buf: Buffer)
    requires WellFormed(net) && e < |net.edges| && |b.finished| == |net.nodes[net.edges[e].dst].ins|
    requires EdgeOk(net, e) && EdgeFlow(net, e, a, b, q)
    requires var x, i := net.nodes[net.edges[e].src], net.edges[e].at;
             && a.phase == a'.phase == Running && a'.k == a.k && a.pc == PushTime(x, i) && a'.pc == a.pc + 1
             && Serves(x, i, a.k) && (x.send.Scatter? ==> i < |x.outs|)
    ensures EdgeFlow(net, e, a', b, PushFull(q, buf))
  {
    var x, i := net.nodes[net.edges[e].src], net.edges[e].at;
    SentOne(MadeOff(net, e), MadeStep(net, e), a.k, q.made);
  }

  /** The round of a target is counted when its item is pushed. */
  lemma SentOne(off: nat, step: nat, k: nat, n: nat)
    requires off < step && Counts(off, step, k, n) && k % step == off
    ensures Counts(off, step, k + 1, n + 1)
  {
    Hit(off, step, k, n);
  }

  lemma SendEnd<V>(net: Net<V>, e: nat, a: Thread<V>, b: Thread<V>, q: Queue, a': Thread<V>)
    requires WellFormed(net) && e < |net.edges| && |b.finished| == |net.nodes[net.edges[e].dst].ins|
    requires EdgeOk(net, e) && EdgeFlow(net, e, a, b, q)
    requires a.phase.Finishing? && a.fin == net.edges[e].at && a' == a.(fin := a.fin + 1)
    ensures EdgeFlow(net, e, a', b, PushEnd(q))
  {
  }

  lemma TakeOne<V>(net: Net<V>, e: nat, a: Thread<V>, b: Thread<V>, q: Queue, b': Thread<V>)
    requires WellFormed(net) && e < |net.edges| && |b.finished| == |net.nodes[net.edges[e].dst].ins|
    requires EdgeOk(net, e) && EdgeFlow(net, e, a, b, q) && q.full != []
    requires var x, p := net.nodes[net.edges[e].dst], net.edges[e].port;
             && b.phase == b'.phase == Running && b'.k == b.k && b.pc == InTime(x, p) && b'.pc == b.pc + 1
             && |x.ins[p]| > 0 && b.k % |x.ins[p]| == net.edges[e].turn && !b.finished[p]
             && b'.finished == if q.full[0].Data? then b.finished else b.finished[p := true]
    ensures EdgeFlow(net, e, a, b', PopFull(q))
    ensures q.full[0].End? ==> q.closed && b.k == Used(net, e, q.made)
  {
    if q.full[0].Data? {
      SentOne(net.edges[e].turn, UsedStep(net, e), b.k, q.taken);
      PopFullOrdered(q);
    } else {
      Hit(net.edges[e].turn, UsedStep(net, e), b.k, q.taken);
    }
  }

  // The steps of a thread.

  /** Nothing is pushed behind the end of the stream. */
  predicate StaysClosed(q: Queue, q': Queue) {
    q.closed ==> q'.closed && q'.made == q.made
  }

  /** What a step leaves behind, up to the start of the next iteration. */
  ghost predicate FlowAfter<V>(net: Net<V>, s: State<V>, v: nat, f: Effect<V>)
    requires Shaped(net, s) && v < |net.nodes|
  {
    && Core(net, v, f.t) && f.t.k == s.threads[v].k
    && (f.Effect? ==> f.e < |net.edges| && StaysClosed(s.queues[f.e], f.q))
    && (forall p :: 0 <= p < |net.nodes[v].ins| && f.t.finished[p] ==>
          s.threads[v].finished[p] || EndedAt(net, s.queues, v, p, s.threads[v].k, true))
    && forall d :: 0 <= d < |net.edges| ==> EdgeFlowAfter(net, s, v, f, d)
  }

  ghost predicate EdgeFlowAfter<V>(net: Net<V>, s: State<V>, v: nat, f: Effect<V>, d: nat)
    requires Shaped(net, s) && v < |net.nodes| && ThreadShaped(net, v, f.t) && d < |net.edges|
  {
    assert EdgeOk(net, d);
    EdgeFlow(net, d, Steps.Other(s, v, f.t, net.edges[d].src), Steps.Other(s, v, f.t, net.edges[d].dst), Steps.QueueAfter(s, f, d))
  }

  lemma Elsewhere<V>(net: Net<V>, s: State<V>, v: nat, f: Effect<V>, d: nat)
    requires Shaped(net, s) && v < |net.nodes| && ThreadShaped(net, v, f.t) && d < |net.edges|
    requires EdgeFlowAt(net, s, d) && SameFlow(s.queues[d], Steps.QueueAfter(s, f, d))
    requires net.edges[d].src == v ==> SameOut(net, d, s.threads[v], f.t)
    requires net.edges[d].dst == v ==> SameIn(net, d, s.threads[v], f.t)
    ensures EdgeFlowAfter(net, s, v, f, d)
  {
    assert EdgeOk(net, d);
    var x := net.edges[d];
    EdgeQuiet(net, d, s.threads[x.src], s.threads[x.dst], s.queues[d],
              Steps.Other(s, v, f.t, x.src), Steps.Other(s, v, f.t, x.dst), Steps.QueueAfter(s, f, d));
  }

  /** Moving on to the next operation. */
  ghost predicate Moves<V>(x: Node<V>, t: Thread<V>, t': Thread<V>)
    requires |t.turn| == |t'.turn| == |t.finished| == |x.ins|
  {
    && t.phase == t'.phase == Running && t.pc < Length(x) && t'.pc == t.pc + 1 && t'.k == t.k
    && |t'.finished| == |t.finished| && |t'.inp| == |t.inp| && t'.fin == t.fin
    && (forall p :: 0 <= p < |x.ins| ==>
          |x.ins[p]| > 0 && t'.turn[p] == if t.pc == ReleaseTime(x, p) then (t.turn[p] + 1) % |x.ins[p]| else t.turn[p])
    && t'.cur == (if x.send.Scatter? && |x.outs| > 0 && t.pc == PushTime(x, 0) then (t.cur + 1) % |x.outs| else t.cur)
    && |t'.log| == |t.log| + One(x.kind.Sink? && t.pc == |x.ins| + 1)
    && (x.kind.Generator? && t.pc == 2 ==> t.k < x.kind.len)
    && (CheckTime(x) <= t.pc ==> t'.finished == t.finished)
    && (t.pc == CheckTime(x) ==> SomeOpen(x, t))
  }

  lemma TurnsMove<V>(x: Node<V>, t: Thread<V>, t': Thread<V>)
    requires |t.turn| == |t'.turn| == |t.finished| == |x.ins| && Moves(x, t, t') && TurnsRight(x, t)
    ensures TurnsRight(x, t') && forall p :: 0 <= p < |x.ins| ==> t'.turn[p] < |x.ins[p]|
  {
    forall p | 0 <= p < |x.ins|
      ensures t'.turn[p] == (t'.k + One(ReleaseTime(x, p) < t'.pc)) % |x.ins[p]|
    {
      NextTurn(t.k, |x.ins[p]|);
    }
  }

  lemma TargetMoves<V>(x: Node<V>, t: Thread<V>, t': Thread<V>)
    requires |t.turn| == |t'.turn| == |t.finished| == |x.ins| && Moves(x, t, t') && x.send.Scatter? && |x.outs| > 0
    requires t.cur == (t.k + One(PushTime(x, 0) < t.pc)) % |x.outs|
    ensures t'.cur == (t'.k + One(PushTime(x, 0) < t'.pc)) % |x.outs|
  {
    NextTurn(t.k, |x.outs|);
  }

  lemma CoreMoves<V>(net: Net<V>, v: nat, t: Thread<V>, t': Thread<V>)
    requires v < |net.nodes| && NodeOk(net, v) && Core(net, v, t)
    requires |t'.turn| == |net.nodes[v].ins| && Moves(net.nodes[v], t, t')
    ensures Core(net, v, t')
  {
    var x := net.nodes[v];
    TurnsMove(x, t, t');
    if x.send.Scatter? && |x.outs| > 0 {
      TargetMoves(x, t, t');
    }
  }

  /** At the time of a push to a target the operation is a push. */
  lemma PushTimeMeans<V>(x: Node<V>, cur: nat, pc: nat, i: nat)
    requires pc < Length(x) && i < |x.outs| && !x.kind.Sink? && pc == PushTime(x, i)
    ensures OpAt(x, cur, pc).PushOut?
  {
  }

  /** Operations that neither pop nor push an item. */
  lemma QuietAfter<V>(net: Net<V>, s: State<V>, v: nat, f: Effect<V>, clean: bool)
    requires FlowInv(net, s, clean) && v < |net.nodes| && s.threads[v].phase.Running?
    requires |f.t.turn| == |net.nodes[v].ins| && Moves(net.nodes[v], s.threads[v], f.t)
    requires f.t.finished == s.threads[v].finished
    requires !OpAt(net.nodes[v], s.threads[v].cur, s.threads[v].pc).PushOut?
    requires forall p :: 0 <= p < |net.nodes[v].ins| && s.threads[v].pc == InTime(net.nodes[v], p) ==> s.threads[v].finished[p]
    requires f.Effect? ==> f.e < |net.edges| && SameFlow(s.queues[f.e], f.q)
    ensures FlowAfter(net, s, v, f)
  {
    var t, x := s.threads[v], net.nodes[v];
    assert NodeOk(net, v) && ThreadFlow(net, s, clean, v);
    CoreMoves(net, v, t, f.t);
    forall d | 0 <= d < |net.edges|
      ensures EdgeFlowAfter(net, s, v, f, d)
    {
      assert EdgeFlowAt(net, s, d) && EdgeOk(net, d);
      if net.edges[d].src == v {
        if t.pc == PushTime(x, net.edges[d].at) {
          PushTimeMeans(x, t.cur, t.pc, net.edges[d].at);
        }
        OutQuiet(net, d, t, f.t);
      }
      if net.edges[d].dst == v {
        InQuiet(net, d, t, f.t);
      }
      Elsewhere(net, s, v, f, d);
    }
  }

  /** A thread that stops. */
  lemma StopAfter<V>(net: Net<V>, s: State<V>, v: nat, clean: bool)
    requires FlowInv(net, s, clean) && v < |net.nodes|
    requires var t, x := s.threads[v], net.nodes[v];
             && t.phase.Running? && t.pc <= (if x.kind.Generator? then 2 else CheckTime(x))
             && (x.kind.Generator? ==> t.k == x.kind.len)
             && (forall p :: 0 <= p < |x.ins| ==> t.finished[p])
    ensures FlowAfter(net, s, v, Local(Finish(s.threads[v])))
  {
    var t, x := s.threads[v], net.nodes[v];
    var f: Effect<V> := Local(Finish(t));
    assert NodeOk(net, v) && ThreadFlow(net, s, clean, v);
    forall d | 0 <= d < |net.edges|
      ensures EdgeFlowAfter(net, s, v, f, d)
    {
      assert EdgeFlowAt(net, s, d) && EdgeOk(net, d);
      if net.edges[d].src == v {
        Steps.TimesInside(x, net.edges[d].at);
      }
      Elsewhere(net, s, v, f, d);
    }
  }

  lemma PushAfter<V>(net: Net<V>, s: State<V>, v: nat, i: nat, f: Effect<V>, clean: bool)
    requires FlowInv(net, s, clean) && v < |net.nodes| && i < |net.nodes[v].outs| && !net.nodes[v].kind.Sink?
    requires var t, x := s.threads[v], net.nodes[v];
             && t.phase.Running? && t.pc == PushTime(x, i) && (x.send.Scatter? ==> i == t.cur)
             && |f.t.turn| == |x.ins| && Moves(x, t, f.t) && f.t.finished == t.finished
    requires f.Effect? && f.e == OutEdge(net, v, i) && f.q == PushFull(s.queues[f.e], Held(net, s.queues[f.e]))
    ensures FlowAfter(net, s, v, f)
  {
    var t, x := s.threads[v], net.nodes[v];
    assert NodeOk(net, v) && ThreadFlow(net, s, clean, v);
    Steps.TimesInside(x, i);
    CoreMoves(net, v, t, f.t);
    assert EdgeFlowAt(net, s, f.e) && EdgeOk(net, f.e);
    forall d | 0 <= d < |net.edges|
      ensures EdgeFlowAfter(net, s, v, f, d)
    {
      PushEdge(net, s, v, i, f, clean, d);
    }
  }

  lemma PushEdge<V>(net: Net<V>, s: State<V>, v: nat, i: nat, f: Effect<V>, clean: bool, d: nat)
    requires FlowInv(net, s, clean) && v < |net.nodes| && i < |net.nodes[v].outs| && !net.nodes[v].kind.Sink? && d < |net.edges|
    requires var t, x := s.threads[v], net.nodes[v];
             && t.phase.Running? && t.pc == PushTime(x, i) && (x.send.Scatter? ==> i == t.cur)
             && |f.t.turn| == |x.ins| && Moves(x, t, f.t) && f.t.finished == t.finished && Core(net, v, f.t)
    requires f.Effect? && f.e == OutEdge(net, v, i) && f.q == PushFull(s.queues[f.e], Held(net, s.queues[f.e]))
    ensures EdgeFlowAfter(net, s, v, f, d)
  {
    var t, x := s.threads[v], net.nodes[v];
    assert NodeOk(net, v) && ThreadFlow(net, s, clean, v) && EdgeFlowAt(net, s, d) && EdgeOk(net, d);
    Steps.TimesInside(x, i);
    if d == f.e {
      SendData(net, d, t, s.threads[net.edges[d].dst], s.queues[d], f.t, Held(net, s.queues[d]));
    } else {
      if net.edges[d].src == v {
        Steps.TimesApart(x, i, net.edges[d].at);
        OutQuiet(net, d, t, f.t);
      }
      if net.edges[d].dst == v {
        InQuiet(net, d, t, f.t);
      }
      Elsewhere(net, s, v, f, d);
    }
  }

  lemma PopEdge<V>(net: Net<V>, s: State<V>, v: nat, p: nat, f: Effect<V>, clean: bool, d: nat)
    requires FlowInv(net, s, clean) && v < |net.nodes| && p < |net.nodes[v].ins| && d < |net.edges|
    requires var t, x := s.threads[v], net.nodes[v];
             && t.phase.Running? && t.pc == InTime(x, p) && !t.finished[p]
             && |f.t.turn| == |x.ins| && Moves(x, t, f.t) && Core(net, v, f.t)
    requires f.Effect? && f.e == CurrentIn(net, v, s.threads[v], p) && s.queues[f.e].full != [] && f.q == PopFull(s.queues[f.e])
    requires f.t.finished == if s.queues[f.e].full[0].Data? then s.threads[v].finished else s.threads[v].finished[p := true]
    ensures EdgeFlowAfter(net, s, v, f, d)
  {
    var t, x := s.threads[v], net.nodes[v];
    assert NodeOk(net, v) && ThreadFlow(net, s, clean, v) && EdgeFlowAt(net, s, d) && EdgeOk(net, d);
    assert t.turn[p] == t.k % |x.ins[p]|;
    if d == f.e {
      TakeOne(net, d, s.threads[net.edges[d].src], t, s.queues[d], f.t);
    } else {
      if net.edges[d].src == v {
        Steps.TimesInside(x, net.edges[d].at);
        OutQuiet(net, d, t, f.t);
      }
      if net.edges[d].dst == v {
        assert net.edges[d].port == p ==> net.edges[d].turn != t.turn[p];
        InQuiet(net, d, t, f.t);
      }
      Elsewhere(net, s, v, f, d);
    }
  }

  /** A port that pops an end stands on the first iteration that its queue has nothing for. */
  lemma PoppedEnd<V>(net: Net<V>, s: State<V>, v: nat, p: nat, clean: bool)
    requires FlowInv(net, s, clean) && v < |net.nodes| && p < |net.nodes[v].ins|
    requires s.threads[v].phase.Running? && s.threads[v].pc == InTime(net.nodes[v], p) && !s.threads[v].finished[p]
    requires var q := s.queues[CurrentIn(net, v, s.threads[v], p)]; q.full != [] && q.full[0].End?
    ensures EndedAt(net, s.queues, v, p, s.threads[v].k, true)
  {
    var t, e := s.threads[v], CurrentIn(net, v, s.threads[v], p);
    assert NodeOk(net, v) && ThreadFlow(net, s, clean, v) && EdgeFlowAt(net, s, e) && EdgeOk(net, e);
    Hit(net.edges[e].turn, UsedStep(net, e), t.k, s.queues[e].taken);
    assert UsedUp(net, s.queues, v, p, t.k, true, e);
  }

  lemma PopAfter<V>(net: Net<V>, s: State<V>, v: nat, p: nat, f: Effect<V>, clean: bool)
    requires FlowInv(net, s, clean) && v < |net.nodes| && p < |net.nodes[v].ins|
    requires var t, x := s.threads[v], net.nodes[v];
             && t.phase.Running? && t.pc == InTime(x, p) && !t.finished[p]
             && |f.t.turn| == |x.ins| && Moves(x, t, f.t)
    requires f.Effect? && f.e == CurrentIn(net, v, s.threads[v], p) && s.queues[f.e].full != [] && f.q == PopFull(s.queues[f.e])
    requires f.t.finished == if s.queues[f.e].full[0].Data? then s.threads[v].finished else s.threads[v].finished[p := true]
    ensures FlowAfter(net, s, v, f)
  {
    assert NodeOk(net, v) && ThreadFlow(net, s, clean, v);
    CoreMoves(net, v, s.threads[v], f.t);
    if s.queues[f.e].full[0].End? {
      PoppedEnd(net, s, v, p, clean);
    }
    forall d | 0 <= d < |net.edges|
      ensures EdgeFlowAfter(net, s, v, f, d)
    {
      PopEdge(net, s, v, p, f, clean, d);
    }
  }

  lemma EndAfter<V>(net: Net<V>, s: State<V>, v: nat, f: Effect<V>, clean: bool)
    requires FlowInv(net, s, clean) && v < |net.nodes| && s.threads[v].phase.Finishing? && s.threads[v].fin < |net.nodes[v].outs|
    requires var t, e := s.threads[v], OutEdge(net, v, s.threads[v].fin);
             f == Effect(t.(fin := t.fin + 1), e, PushEnd(s.queues[e]), s.mem)
    ensures FlowAfter(net, s, v, f)
  {
    var t := s.threads[v];
    assert NodeOk(net, v) && ThreadFlow(net, s, clean, v);
    forall d | 0 <= d < |net.edges|
      ensures EdgeFlowAfter(net, s, v, f, d)
    {
      assert EdgeFlowAt(net, s, d) && EdgeOk(net, d);
      if d == f.e {
        SendEnd(net, d, t, s.threads[net.edges[d].dst], s.queues[d], f.t);
      } else {
        assert net.edges[d].src == v ==> net.edges[d].at != t.fin;
        Elsewhere(net, s, v, f, d);
      }
    }
  }

  /** Every operation of a thread is one of these. */
  lemma PerformFlow<V>(net: Net<V>, s: State<V>, v: nat, clean: bool)
    requires FlowInv(net, s, clean) && v < |net.nodes| && Enabled(net, s, v)
    ensures FlowAfter(net, s, v, Perform(net, s, v))
  {
    var t, x, f := s.threads[v], net.nodes[v], Perform(net, s, v);
    assert NodeOk(net, v) && ThreadFlow(net, s, clean, v);
    if t.phase.Finishing? {
      EndAfter(net, s, v, f, clean);
    } else {
      OpTimes(x, t.cur, t.pc);
      match OpAt(x, t.cur, t.pc)
      case PopIn(p) => PopInFlow(net, s, v, p, clean);
      case Check => CheckFlow(net, s, v, clean);
      case PopOut(i) => PopOutFlow(net, s, v, i, clean);
      case Fill(i) => FillFlow(net, s, v, i, clean);
      case PushOut(i) => PushOutFlow(net, s, v, i, clean);
      case Consume => ConsumeFlow(net, s, v, clean);
      case Release(p) => ReleaseFlow(net, s, v, p, clean);
    }
  }

  ghost predicate Performs<V>(net: Net<V>, s: State<V>, v: nat, clean: bool, op: Op) {
    && FlowInv(net, s, clean) && v < |net.nodes| && Enabled(net, s, v) && s.threads[v].phase.Running?
    && OpAt(net.nodes[v], s.threads[v].cur, s.threads[v].pc) == op
  }

  lemma PopInFlow<V>(net: Net<V>, s: State<V>, v: nat, p: nat, clean: bool)
    requires Performs(net, s, v, clean, PopIn(p))
    ensures FlowAfter(net, s, v, Perform(net, s, v))
  {
    var t, x, f := s.threads[v], net.nodes[v], Perform(net, s, v);
    assert NodeOk(net, v) && ThreadFlow(net, s, clean, v);
    OpTimes(x, t.cur, t.pc);
    if |x.outs| > 0 {
      Steps.TimesInside(x, 0);
    }
    if t.finished[p] {
      QuietAfter(net, s, v, f, clean);
    } else {
      PopAfter(net, s, v, p, f, clean);
    }
  }

  lemma CheckFlow<V>(net: Net<V>, s: State<V>, v: nat, clean: bool)
    requires Performs(net, s, v, clean, Check)
    ensures FlowAfter(net, s, v, Perform(net, s, v))
  {
    var t, x, f := s.threads[v], net.nodes[v], Perform(net, s, v);
    assert NodeOk(net, v) && ThreadFlow(net, s, clean, v);
    Steps.CheckOnlyThen(x, t.cur, t.pc);
    if |x.outs| > 0 {
      Steps.TimesInside(x, 0);
    }
    if |x.ins| == 0 || exists p :: 0 <= p < |x.ins| && !t.finished[p] {
      QuietAfter(net, s, v, f, clean);
    } else {
      StopAfter(net, s, v, clean);
    }
  }

  lemma PopOutFlow<V>(net: Net<V>, s: State<V>, v: nat, i: nat, clean: bool)
    requires Performs(net, s, v, clean, PopOut(i))
    ensures FlowAfter(net, s, v, Perform(net, s, v))
  {
    var t, x, f := s.threads[v], net.nodes[v], Perform(net, s, v);
    assert NodeOk(net, v) && ThreadFlow(net, s, clean, v);
    OpTimes(x, t.cur, t.pc);
    Steps.TimesInside(x, i);
    Steps.TimesInside(x, 0);
    QuietAfter(net, s, v, f, clean);
  }

  lemma FillFlow<V>(net: Net<V>, s: State<V>, v: nat, i: nat, clean: bool)
    requires Performs(net, s, v, clean, Fill(i))
    ensures FlowAfter(net, s, v, Perform(net, s, v))
  {
    var t, x, f := s.threads[v], net.nodes[v], Perform(net, s, v);
    assert NodeOk(net, v) && ThreadFlow(net, s, clean, v);
    OpTimes(x, t.cur, t.pc);
    Steps.TimesInside(x, i);
    Steps.TimesInside(x, 0);
    if f.Effect? {
      QuietAfter(net, s, v, f, clean);
    } else {
      FillStops(x, t.cur, t.pc, i);
      StopAfter(net, s, v, clean);
    }
  }

  /** The first fill of an iteration comes at position 2 of a generator. */
  lemma FillStops<V>(x: Node<V>, cur: nat, pc: nat, i: nat)
    requires pc < Length(x) && i < |x.outs| && !x.kind.Sink? && |x.ins| == 0 && pc == FillTime(x, i)
    requires x.send.EachQueue? ==> |x.outs| == 1
    requires !(x.send.Broadcast? && i > 0)
    ensures pc == 2
  {
  }

  lemma PushOutFlow<V>(net: Net<V>, s: State<V>, v: nat, i: nat, clean: bool)
    requires Performs(net, s, v, clean, PushOut(i))
    ensures FlowAfter(net, s, v, Perform(net, s, v))
  {
    var t, x, f := s.threads[v], net.nodes[v], Perform(net, s, v);
    assert NodeOk(net, v) && ThreadFlow(net, s, clean, v);
    OpTimes(x, t.cur, t.pc);
    Steps.TimesInside(x, i);
    PushAfter(net, s, v, i, f, clean);
  }

  lemma ConsumeFlow<V>(net: Net<V>, s: State<V>, v: nat, clean: bool)
    requires Performs(net, s, v, clean, Consume)
    ensures FlowAfter(net, s, v, Perform(net, s, v))
  {
    var t, x, f := s.threads[v], net.nodes[v], Perform(net, s, v);
    assert NodeOk(net, v) && ThreadFlow(net, s, clean, v);
    OpTimes(x, t.cur, t.pc);
    QuietAfter(net, s, v, f, clean);
  }

  lemma ReleaseFlow<V>(net: Net<V>, s: State<V>, v: nat, p: nat, clean: bool)
    requires Performs(net, s, v, clean, Release(p))
    ensures FlowAfter(net, s, v, Perform(net, s, v))
  {
    var t, x, f := s.threads[v], net.nodes[v], Perform(net, s, v);
    assert NodeOk(net, v) && ThreadFlow(net, s, clean, v);
    OpTimes(x, t.cur, t.pc);
    if |x.outs| > 0 {
      Steps.TimesInside(x, 0);
    }
    QuietAfter(net, s, v, f, clean);
  }

  // From one iteration to the next.

  lemma WrapCore<V>(net: Net<V>, v: nat, t: Thread<V>)
    requires v < |net.nodes| && NodeOk(net, v) && Core(net, v, t)
    ensures Core(net, v, Wrap(net.nodes[v], t))
    ensures var t' := Wrap(net.nodes[v], t); t'.phase.Running? ==> t'.pc < Length(net.nodes[v])
  {
    var x := net.nodes[v];
    if !x.kind.Sink? {
      Steps.TimesInside(x, 0);
    }
  }

  /** A round of another target is over. */
  lemma RoundOver(off: nat, step: nat, k: nat, n: nat)
    requires off < step && Counts(off, step, k, n) && k % step != off
    ensures Counts(off, step, k + 1, n)
  {
    Hit(off, step, k, n);
  }

  lemma WrapSource<V>(net: Net<V>, e: nat, a: Thread<V>, b: Thread<V>, q: Queue)
    requires WellFormed(net) && e < |net.edges| && |b.finished| == |net.nodes[net.edges[e].dst].ins|
    requires EdgeOk(net, e) && EdgeFlow(net, e, a, b, q) && NodeOk(net, net.edges[e].src)
    ensures EdgeFlow(net, e, Wrap(net.nodes[net.edges[e].src], a), b, q)
  {
    var x, i := net.nodes[net.edges[e].src], net.edges[e].at;
    if a.phase.Running? && a.pc >= Length(x) {
      Steps.TimesInside(x, i);
      if !Serves(x, i, a.k) {
        RoundOver(MadeOff(net, e), MadeStep(net, e), a.k, q.made);
      }
    }
  }

  lemma WrapTarget<V>(net: Net<V>, e: nat, a: Thread<V>, b: Thread<V>, q: Queue)
    requires WellFormed(net) && e < |net.edges| && |b.finished| == |net.nodes[net.edges[e].dst].ins|
    requires EdgeOk(net, e) && EdgeFlow(net, e, a, b, q)
    ensures EdgeFlow(net, e, a, Wrap(net.nodes[net.edges[e].dst], b), q)
  {
    var x, p := net.nodes[net.edges[e].dst], net.edges[e].port;
    if b.phase.Running? && b.pc >= Length(x) && !b.finished[p] && !Turns(x, p, net.edges[e].turn, b.k) {
      RoundOver(net.edges[e].turn, UsedStep(net, e), b.k, q.taken);
    }
  }

  lemma WrapFlow<V>(net: Net<V>, s: State<V>, v: nat, f: Effect<V>, d: nat)
    requires Shaped(net, s) && v < |net.nodes| && ThreadShaped(net, v, f.t) && d < |net.edges|
    requires EdgeFlowAfter(net, s, v, f, d)
    ensures EdgeOk(net, d) && |Steps.Other(s, v, Wrap(net.nodes[v], f.t), net.edges[d].dst).finished| == |net.nodes[net.edges[d].dst].ins|
    ensures EdgeFlow(net, d, Steps.Other(s, v, Wrap(net.nodes[v], f.t), net.edges[d].src),
                     Steps.Other(s, v, Wrap(net.nodes[v], f.t), net.edges[d].dst), Steps.QueueAfter(s, f, d))
  {
    assert EdgeOk(net, d) && NodeOk(net, net.edges[d].src);
    var x := net.edges[d];
    if x.src == v {
      WrapSource(net, d, f.t, s.threads[x.dst], Steps.QueueAfter(s, f, d));
    } else if x.dst == v {
      WrapTarget(net, d, s.threads[x.src], f.t, Steps.QueueAfter(s, f, d));
    }
  }

  /** No task goes on when only some of its inputs have ended. */
  ghost predicate EndsTogether<V>(net: Net<V>, s: State<V>) {
    forall v :: 0 <= v < |net.nodes| && v < |s.threads| ==> EndTogether(net.nodes[v], s.threads[v])
  }

  ghost predicate EndTogether<V>(x: Node<V>, t: Thread<V>) {
    t.phase.Running? && CheckTime(x) < t.pc ==> forall p :: 0 <= p < |t.finished| ==> !t.finished[p]
  }

  lemma EndedStays<V>(net: Net<V>, qs: seq<Queue>, qs': seq<Queue>, v: nat, p: nat, k: nat, k': nat, clean: bool)
    requires WellFormed(net) && |qs| == |qs'| == |net.edges| && EndedAt(net, qs, v, p, k, clean)
    requires forall e :: 0 <= e < |qs| ==> StaysClosed(qs[e], qs'[e])
    requires k' == k || (k < k' && !clean)
    ensures EndedAt(net, qs', v, p, k', clean)
  {
    var e :| 0 <= e < |net.edges| && UsedUp(net, qs, v, p, k, clean, e);
    assert StaysClosed(qs[e], qs'[e]);
    assert UsedUp(net, qs', v, p, k', clean, e);
  }

  lemma EndedWeaker<V>(net: Net<V>, qs: seq<Queue>, v: nat, p: nat, k: nat, clean: bool)
    requires WellFormed(net) && |qs| == |net.edges| && EndedAt(net, qs, v, p, k, true)
    ensures EndedAt(net, qs, v, p, k, clean)
  {
    var e :| 0 <= e < |net.edges| && UsedUp(net, qs, v, p, k, true, e);
    assert UsedUp(net, qs, v, p, k, clean, e);
  }

  /** The end of an iteration of thread `v`: no input has ended, if the inputs end together. */
  lemma NoneEnded<V>(net: Net<V>, s: State<V>, v: nat, clean: bool)
    requires FlowInv(net, s, clean) && v < |net.nodes| && Enabled(net, s, v) && EndTogether(net.nodes[v], s.threads[v])
    requires var t, f := s.threads[v], Perform(net, s, v); f.t.phase.Running? && f.t.pc >= Length(net.nodes[v])
    ensures forall p :: 0 <= p < |Perform(net, s, v).t.finished| ==> !Perform(net, s, v).t.finished[p]
  {
    assert NodeOk(net, v);
  }

  lemma EndsAfter<V>(net: Net<V>, s: State<V>, v: nat, clean: bool)
    requires FlowInv(net, s, clean) && v < |net.nodes| && Enabled(net, s, v) && (clean ==> EndsTogether(net, s))
    requires FlowAfter(net, s, v, Perform(net, s, v)) && |Step(net, s, v).queues| == |net.edges|
    requires forall e :: 0 <= e < |net.edges| ==> StaysClosed(s.queues[e], Step(net, s, v).queues[e])
    ensures PortsEnded(net, Step(net, s, v).queues, v, Step(net, s, v).threads[v], clean)
  {
    var t, f, t' := s.threads[v], Perform(net, s, v), Step(net, s, v).threads[v];
    assert ThreadFlow(net, s, clean, v);
    if clean {
      assert EndTogether(net.nodes[v], t);
      if f.t.phase.Running? && f.t.pc >= Length(net.nodes[v]) {
        NoneEnded(net, s, v, clean);
      }
    }
    forall p | 0 <= p < |t'.finished| && t'.finished[p]
      ensures EndedAt(net, Step(net, s, v).queues, v, p, t'.k, clean)
    {
      if t.finished[p] {
        EndedStays(net, s.queues, Step(net, s, v).queues, v, p, t.k, t'.k, clean);
      } else {
        EndedWeaker(net, s.queues, v, p, t.k, clean);
        EndedStays(net, s.queues, Step(net, s, v).queues, v, p, t.k, t'.k, clean);
      }
    }
  }

  lemma StepClosed<V>(net: Net<V>, s: State<V>, v: nat)
    requires Shaped(net, s) && v < |net.nodes| && Enabled(net, s, v) && FlowAfter(net, s, v, Perform(net, s, v))
    ensures |Step(net, s, v).queues| == |net.edges|
    ensures forall e :: 0 <= e < |net.edges| ==>
              Step(net, s, v).queues[e] == Steps.QueueAfter(s, Perform(net, s, v), e)
              && StaysClosed(s.queues[e], Step(net, s, v).queues[e])
    ensures Step(net, s, v).threads == s.threads[v := Wrap(net.nodes[v], Perform(net, s, v).t)]
  {
  }

  lemma ThreadsAfter<V>(net: Net<V>, s: State<V>, v: nat, clean: bool, u: nat)
    requires FlowInv(net, s, clean) && v < |net.nodes| && Enabled(net, s, v) && (clean ==> EndsTogether(net, s)) && u < |net.nodes|
    requires FlowAfter(net, s, v, Perform(net, s, v))
    ensures |Step(net, s, v).threads| == |net.nodes| && |Step(net, s, v).queues| == |net.edges|
    ensures var t' := Step(net, s, v).threads[u];
            Core(net, u, t') && (t'.phase.Running? ==> t'.pc < Length(net.nodes[u])) && PortsEnded(net, Step(net, s, v).queues, u, t', clean)
  {
    StepClosed(net, s, v);
    assert ThreadFlow(net, s, clean, u) && NodeOk(net, u);
    if u == v {
      WrapCore(net, v, Perform(net, s, v).t);
      EndsAfter(net, s, v, clean);
    } else {
      var t := s.threads[u];
      forall p | 0 <= p < |t.finished| && t.finished[p]
        ensures EndedAt(net, Step(net, s, v).queues, u, p, t.k, clean)
      {
        EndedStays(net, s.queues, Step(net, s, v).queues, u, p, t.k, t.k, clean);
      }
    }
  }

  /** Every step keeps the counts; the sharp ones as long as inputs end together. */
  lemma StepFlow<V>(net: Net<V>, s: State<V>, v: nat, clean: bool)
    requires FlowInv(net, s, clean) && v < |net.nodes| && Enabled(net, s, v) && (clean ==> EndsTogether(net, s))
    ensures FlowInv(net, Step(net, s, v), clean)
  {
    var s' := Step(net, s, v);
    PerformFlow(net, s, v, clean);
    StepClosed(net, s, v);
    forall u | 0 <= u < |net.nodes|
      ensures ThreadShaped(net, u, s'.threads[u]) && (s'.threads[u].phase.Running? ==> s'.threads[u].pc < Length(net.nodes[u]))
      ensures Core(net, u, s'.threads[u]) && PortsEnded(net, s'.queues, u, s'.threads[u], clean)
    {
      ThreadsAfter(net, s, v, clean, u);
    }
    forall e | 0 <= e < |net.edges|
      ensures EdgeFlowAt(net, s', e)
    {
      WrapFlow(net, s, v, Perform(net, s, v), e);
    }
  }

  // Whole runs.

  ghost predicate Together<V(!new)>(net: Net<V>) {
    forall run, s :: Runs.Reachable(net, run, s) ==> EndsTogether(net, s)
  }

  lemma {:induction false} LeadsFlow<V(!new)>(net: Net<V>, before: seq<nat>, s: State<V>, run: seq<nat>, s': State<V>,
                                       clean: bool)
    requires Runs.Reachable(net, before, s) && FlowInv(net, s, clean) && (clean ==> Together(net)) && Leads(net, s, run, s')
    ensures FlowInv(net, s', clean)
    decreases |run|
  {
    if run == [] {
    } else {
      assert clean ==> EndsTogether(net, s);
      StepFlow(net, s, run[0], clean);
      Runs.OneMoreStep(net, Init(net), before, s, run[0], Step(net, s, run[0]));
      LeadsFlow(net, before + [run[0]], Step(net, s, run[0]), run[1..], s', clean);
    }
  }

  lemma ReachableFlow<V(!new)>(net: Net<V>, run: seq<nat>, s: State<V>, clean: bool)
    requires WellFormed(net) && Runs.Reachable(net, run, s) && (clean ==> Together(net))
    ensures FlowInv(net, s, clean)
  {
    InitFlow(net, clean);
    LeadsFlow(net, [], Init(net), run, s, clean);
  }

  /** In a network all of whose runs are bounded some run comes to an end. */
  lemma {:induction false} BoundedCompletes<V(!new)>(net: Net<V>, bound: int, run: seq<nat>, s: State<V>)
    returns (more: seq<nat>, s': State<V>)
    requires WellFormed(net) && Runs.Bounded(net, bound) && Runs.Reachable(net, run, s)
    ensures Runs.Complete(net, more, s')
    decreases bound - |run|
  {
    ReachableFlow(net, run, s, false);
    if v :| 0 <= v < |net.nodes| && Enabled(net, s, v) {
      Runs.OneMoreStep(net, Init(net), run, s, v, Step(net, s, v));
      more, s' := BoundedCompletes(net, bound, run + [v], Step(net, s, v));
    } else {
      more, s' := run, s;
    }
  }

  lemma SingleEnds<V>(net: Net<V>, s: State<V>)
    requires FlowInv(net, s, false) && forall v :: 0 <= v < |net.nodes| ==> |net.nodes[v].ins| <= 1
    ensures EndsTogether(net, s)
  {
    forall v | 0 <= v < |net.nodes|
      ensures EndTogether(net.nodes[v], s.threads[v])
    {
      assert ThreadFlow(net, s, false, v);
    }
  }

  /** Tasks with one input at most have no inputs that could end apart. */
  lemma SingleTogether<V(!new)>(net: Net<V>)
    requires WellFormed(net) && forall v :: 0 <= v < |net.nodes| ==> |net.nodes[v].ins| <= 1
    ensures Together(net)
  {
    forall run, s | Runs.Reachable(net, run, s)
      ensures EndsTogether(net, s)
    {
      ReachableFlow(net, run, s, false);
      SingleEnds(net, s);
    }
  }

  /** In a balanced network all inputs of a task end together. */
  lemma BalancedTogether<V(!new)>(net: Net<V>, plan: Plan)
    requires Balanced(net, plan)
    ensures Together(net)
  {
    forall run, s | Runs.Reachable(net, run, s)
      ensures EndsTogether(net, s)
    {
      Runs.ReachableInv(net, plan, run, s);
      forall v | 0 <= v < |net.nodes|
        ensures EndTogether(net.nodes[v], s.threads[v])
      {
        assert ThreadInv(net, plan, v, s.threads[v]) && NodeOk(net, v);
      }
    }
  }

  // When all threads have finished.

  /** Everything that was made was announced, and counts the iterations of the producer. */
  lemma AllMade<V>(net: Net<V>, s: State<V>, clean: bool, e: nat)
    requires FlowInv(net, s, clean) && AllDone(net, s) && e < |net.edges|
    ensures net.edges[e].src < |net.nodes|
    ensures Counts(MadeOff(net, e), MadeStep(net, e), s.threads[net.edges[e].src].k, s.queues[e].made)
  {
    assert EdgeFlowAt(net, s, e) && EdgeOk(net, e);
    assert Done(net, net.edges[e].src, s.threads[net.edges[e].src]);
  }

  /** Every port has used up one of its edges. */
  lemma PortUsed<V>(net: Net<V>, s: State<V>, clean: bool, v: nat, p: nat) returns (e: nat)
    requires FlowInv(net, s, clean) && AllDone(net, s) && v < |net.nodes| && p < |net.nodes[v].ins|
    ensures e < |net.edges| && UsedUp(net, s.queues, v, p, s.threads[v].k, clean, e)
  {
    assert ThreadFlow(net, s, clean, v) && Done(net, v, s.threads[v]);
    assert EndedAt(net, s.queues, v, p, s.threads[v].k, clean);
    e :| 0 <= e < |net.edges| && UsedUp(net, s.queues, v, p, s.threads[v].k, clean, e);
  }

  lemma DoneThread<V>(net: Net<V>, s: State<V>, clean: bool, v: nat)
    requires FlowInv(net, s, clean) && AllDone(net, s) && v < |net.nodes|
    ensures net.nodes[v].kind.Sink? ==> |s.threads[v].log| == s.threads[v].k
    ensures net.nodes[v].kind.Generator? ==> s.threads[v].k == net.nodes[v].kind.len
  {
    assert ThreadFlow(net, s, clean, v) && Done(net, v, s.threads[v]);
  }
}
