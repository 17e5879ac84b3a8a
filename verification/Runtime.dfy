/** The threads of a running task graph. Every task runs in its own thread; a run is any
    interleaving of their steps. One step is one queue operation, one call of `process` or
    `generate`, or the test for the end of all inputs. A pop waits until its queue has an element. */
module Runtime {
  import opened Channel
  import opened Network

  datatype Phase = Running | Finishing

  /** `k` completed iterations; `pc` is the position inside the current one. `finished` and `inp`
      are the arrays of the thread, `turn` the current in-group of every port, `cur` the current
      target of the out-group. A thread that is `Finishing` has sent the end of the stream to its
      first `fin` targets. `log` records the inputs of every `process` call of a sink. */
  datatype Thread<V> = Thread(k: nat, pc: nat, phase: Phase, fin: nat,
                              finished: seq<bool>, inp: seq<Buffer>, turn: seq<nat>, cur: nat,
                              log: seq<seq<V>>)

  datatype State<V> = State(threads: seq<Thread<V>>, queues: seq<Queue>, mem: map<Buffer, V>)

  /** Operations of a thread, in terms of input ports `p` and targets `i`. `Fill` calls `process` or
      `generate`, or copies the first target's buffer when a broadcast serves its other targets. */
  datatype Op = PopIn(p: nat) | Check | PopOut(i: nat) | Fill(i: nat) | PushOut(i: nat) | Consume | Release(p: nat)

  // The order of operations in one iteration: pop all inputs, test for the end, serve the outputs,
  // release all inputs.

  function MiddleLength<V>(x: Node<V>): nat {
    if x.kind.Sink? then 1 else if x.send.Scatter? then 3 else 3 * |x.outs|
  }

  function Length<V>(x: Node<V>): nat {
    |x.ins| + 1 + MiddleLength(x) + |x.ins|
  }

  /** Operation number `m` of the part that serves the outputs: a scatter serves its current
      target; the fixed scheduler serves one queue after the other; a broadcast fills a buffer of
      its first target, copies it to the others, and pushes the first one last. */
  function Middle<V>(x: Node<V>, cur: nat, m: nat): Op
    requires m < MiddleLength(x)
  {
    if x.kind.Sink? then Consume
    else match x.send
      case Scatter => if m == 0 then PopOut(cur) else if m == 1 then Fill(cur) else PushOut(cur)
      case EachQueue =>
        if m % 3 == 0 then PopOut(m / 3) else if m % 3 == 1 then Fill(m / 3) else PushOut(m / 3)
      case Broadcast =>
        if m == 0 then PopOut(0)
        else if m == 1 then Fill(0)
        else if m == 3 * |x.outs| - 1 then PushOut(0)
        else if m % 3 == 2 then PopOut((m + 1) / 3)
        else if m % 3 == 0 then Fill(m / 3)
        else PushOut((m - 1) / 3)
  }

  function OpAt<V>(x: Node<V>, cur: nat, pc: nat): Op
    requires pc < Length(x)
  {
    if pc < |x.ins| then PopIn(pc)
    else if pc == |x.ins| then Check
    else if pc < |x.ins| + 1 + MiddleLength(x) then Middle(x, cur, pc - |x.ins| - 1)
    else Release(pc - |x.ins| - 1 - MiddleLength(x))
  }

  /** The most buffers that a queue ever gets: `n_targets + 1` in a group, 2 in the fixed scheduler. */
  function Limit<V>(net: Net<V>, e: nat): nat
    requires WellFormed(net) && e < |net.edges|
  {
    assert EdgeOk(net, e);
    var x := net.nodes[net.edges[e].src];
    if x.send.EachQueue? then 2 else |x.outs| + 1
  }

  function Nowhere<V>(net: Net<V>): Buffer {
    Buffer(|net.edges|, 0)
  }

  function Held<V>(net: Net<V>, q: Queue): Buffer {
    if q.out == [] then Nowhere(net) else q.out[0]
  }

  /** States that the step function is defined on: arrays and cursors have the right size. */
  ghost predicate Shaped<V>(net: Net<V>, s: State<V>) {
    && WellFormed(net)
    && |s.threads| == |net.nodes| && |s.queues| == |net.edges|
    && forall v :: 0 <= v < |net.nodes| ==>
         ThreadShaped(net, v, s.threads[v]) && (s.threads[v].phase.Running? ==> s.threads[v].pc < Length(net.nodes[v]))
  }

  ghost predicate ThreadShaped<V>(net: Net<V>, v: nat, t: Thread<V>)
    requires v < |net.nodes|
  {
    var x := net.nodes[v];
    && |t.finished| == |t.inp| == |t.turn| == |x.ins|
    && (forall p :: 0 <= p < |x.ins| ==> t.turn[p] < |x.ins[p]|)
    && (t.phase.Running? ==> t.pc <= Length(x))
    && t.fin <= |x.outs|
    && (|x.outs| > 0 ==> t.cur < |x.outs|)
  }

  /** The edge that port `p` of task `v` currently reads from. */
  function CurrentIn<V>(net: Net<V>, v: nat, t: Thread<V>, p: nat): (e: nat)
    requires WellFormed(net) && v < |net.nodes| && ThreadShaped(net, v, t) && p < |net.nodes[v].ins|
    ensures e < |net.edges| && net.edges[e].dst == v && net.edges[e].port == p && net.edges[e].turn == t.turn[p]
  {
    assert NodeOk(net, v);
    net.nodes[v].ins[p][t.turn[p]]
  }

  function OutEdge<V>(net: Net<V>, v: nat, i: nat): (e: nat)
    requires WellFormed(net) && v < |net.nodes| && i < |net.nodes[v].outs|
    ensures e < |net.edges| && net.edges[e].src == v && net.edges[e].at == i
  {
    assert NodeOk(net, v);
    net.nodes[v].outs[i]
  }

  lemma OpInRange<V>(x: Node<V>, cur: nat, pc: nat)
    requires pc < Length(x)
    requires !x.kind.Sink? ==> |x.outs| > 0 && cur < |x.outs|
    ensures match OpAt(x, cur, pc)
            case PopIn(p) => p < |x.ins|
            case Check => true
            case PopOut(i) => i < |x.outs|
            case Fill(i) => i < |x.outs| && !x.kind.Sink?
            case PushOut(i) => i < |x.outs|
            case Consume => true
            case Release(p) => p < |x.ins|
  {
  }

  predicate Done<V>(net: Net<V>, v: nat, t: Thread<V>)
    requires v < |net.nodes|
  {
    t.phase.Finishing? && t.fin == |net.nodes[v].outs|
  }

  /** Thread `v` can take its next step; only a pop from an empty queue keeps it from doing so. */
  ghost predicate Enabled<V>(net: Net<V>, s: State<V>, v: nat)
    requires Shaped(net, s) && v < |net.nodes|
  {
    var t := s.threads[v];
    var x := net.nodes[v];
    assert NodeOk(net, v);
    if t.phase.Finishing? then t.fin < |x.outs|
    else
      OpInRange(x, t.cur, t.pc);
      match OpAt(x, t.cur, t.pc)
      case PopIn(p) => t.finished[p] || s.queues[CurrentIn(net, v, t, p)].full != []
      case PopOut(i) =>
        var e := OutEdge(net, v, i);
        s.queues[e].capacity < Limit(net, e) || s.queues[e].free != []
      case _ => true
  }

  /** What one operation does to the thread and to the queue of one edge. */
  datatype Effect<V> = Effect(t: Thread<V>, e: nat, q: Queue, mem: map<Buffer, V>) | Local(t: Thread<V>)

  function Inputs<V>(net: Net<V>, t: Thread<V>, mem: map<Buffer, V>): (r: seq<V>)
    ensures |r| == |t.inp|
  {
    seq(|t.inp|, p requires 0 <= p < |t.inp| => Read(net.zero, mem, t.inp[p]))
  }

  ghost function Finish<V>(t: Thread<V>): Thread<V> {
    t.(phase := Finishing, fin := 0)
  }

  ghost function Perform<V>(net: Net<V>, s: State<V>, v: nat): Effect<V>
    requires Shaped(net, s) && v < |net.nodes| && Enabled(net, s, v)
  {
    var t := s.threads[v];
    var x := net.nodes[v];
    var t1 := t.(pc := t.pc + 1);
    if t.phase.Finishing? then
      var e := OutEdge(net, v, t.fin);
      Effect(t.(fin := t.fin + 1), e, PushEnd(s.queues[e]), s.mem)
    else
      assert NodeOk(net, v);
      OpInRange(x, t.cur, t.pc);
      match OpAt(x, t.cur, t.pc)
      case PopIn(p) =>
        if t.finished[p] then Local(t1)
        else
          var e := CurrentIn(net, v, t, p);
          var q := s.queues[e];
          Effect(if q.full[0].Data? then t1.(inp := t.inp[p := q.full[0].buf]) else t1.(finished := t.finished[p := true]),
                 e, PopFull(q), s.mem)
      case Check =>
        if |x.ins| == 0 || exists p :: 0 <= p < |x.ins| && !t.finished[p] then Local(t1) else Local(Finish(t))
      case PopOut(i) =>
        var e := OutEdge(net, v, i);
        var g := Grown(e, Limit(net, e), s.queues[e]);
        Effect(t1, e, PopFree(g), GrownMem(e, Limit(net, e), net.zero, s.queues[e], s.mem))
      case Fill(i) =>
        var e := OutEdge(net, v, i);
        var held := Held(net, s.queues[e]);
        if x.send.Broadcast? && i > 0 then
          var first := Held(net, s.queues[OutEdge(net, v, 0)]);
          Effect(t1, e, s.queues[e], s.mem[held := Read(net.zero, s.mem, first)])
        else if x.kind.Generator? then
          if t.k < x.kind.len then Effect(t1, e, s.queues[e], s.mem[held := x.kind.item(t.k)])
          else Local(Finish(t))
        else Effect(t1, e, s.queues[e], s.mem[held := x.kind.fn(Inputs(net, t, s.mem))])
      case PushOut(i) =>
        var e := OutEdge(net, v, i);
        Effect(if x.send.Scatter? then t1.(cur := (t.cur + 1) % |x.outs|) else t1,
               e, PushFull(s.queues[e], Held(net, s.queues[e])), s.mem)
      case Consume => Local(t1.(log := t.log + [Inputs(net, t, s.mem)]))
      case Release(p) =>
        var e := CurrentIn(net, v, t, p);
        Effect(t1.(turn := t.turn[p := (t.turn[p] + 1) % |x.ins[p]|]), e, PushFree(s.queues[e], t.inp[p]), s.mem)
  }

  /** After the last operation of an iteration the thread starts the next one. */
  function Wrap<V>(x: Node<V>, t: Thread<V>): Thread<V> {
    if t.phase.Running? && t.pc >= Length(x) then t.(k := t.k + 1, pc := 0) else t
  }

  ghost function Apply<V>(net: Net<V>, s: State<V>, v: nat, f: Effect<V>): State<V>
    requires v < |s.threads| && v < |net.nodes| && (f.Effect? ==> f.e < |s.queues|)
  {
    var s1 := s.(threads := s.threads[v := Wrap(net.nodes[v], f.t)]);
    if f.Effect? then s1.(queues := s.queues[f.e := f.q], mem := f.mem) else s1
  }

  lemma PerformInRange<V>(net: Net<V>, s: State<V>, v: nat)
    requires Shaped(net, s) && v < |net.nodes| && Enabled(net, s, v)
    ensures var f := Perform(net, s, v); f.Effect? ==> f.e < |net.edges|
  {
  }

  /** The state after the next step of thread `v`. */
  ghost function Step<V>(net: Net<V>, s: State<V>, v: nat): State<V>
    requires Shaped(net, s) && v < |net.nodes| && Enabled(net, s, v)
  {
    PerformInRange(net, s, v);
    Apply(net, s, v, Perform(net, s, v))
  }

  ghost function InitThread<V>(net: Net<V>, v: nat): Thread<V>
    requires v < |net.nodes|
  {
    var n := |net.nodes[v].ins|;
    Thread(0, 0, Running, 0, seq(n, _ => false), seq(n, _ => Nowhere(net)), seq(n, _ => 0), 0, [])
  }

  ghost function Init<V>(net: Net<V>): State<V> {
    State(seq(|net.nodes|, v requires 0 <= v < |net.nodes| => InitThread(net, v)),
          seq(|net.edges|, _ => EMPTY), map[])
  }

  /** `run` is an interleaving of threads that leads from `s` to `s'`. */
  ghost predicate Leads<V>(net: Net<V>, s: State<V>, run: seq<nat>, s': State<V>)
    decreases |run|
  {
    if run == [] then s == s'
    else
      && Shaped(net, s) && run[0] < |net.nodes| && Enabled(net, s, run[0])
      && Leads(net, Step(net, s, run[0]), run[1..], s')
  }

  ghost predicate AllDone<V>(net: Net<V>, s: State<V>)
    requires |s.threads| == |net.nodes|
  {
    forall v :: 0 <= v < |net.nodes| ==> Done(net, v, s.threads[v])
  }
}
