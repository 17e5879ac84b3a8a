/** The invariant of a run. What a queue must satisfy depends on its two threads only through two
    small views, so a step of a thread concerns the queues whose views it changes. */
module Invariant {
  import opened Channel
  import opened Network
  import opened Runtime

  // Positions of the operations of one iteration.

  function InTime<V>(x: Node<V>, p: nat): nat { p }

  function CheckTime<V>(x: Node<V>): nat { |x.ins| }

  function PopTime<V>(x: Node<V>, i: nat): nat {
    |x.ins| + 1 + match x.send
                  case Scatter => 0
                  case EachQueue => 3 * i
                  case Broadcast => if i == 0 then 0 else 3 * i - 1
  }

  function FillTime<V>(x: Node<V>, i: nat): nat {
    |x.ins| + 1 + match x.send
                  case Scatter => 1
                  case EachQueue => 3 * i + 1
                  case Broadcast => if i == 0 then 1 else 3 * i
  }

  function PushTime<V>(x: Node<V>, i: nat): nat
    requires i < |x.outs|
  {
    |x.ins| + 1 + match x.send
                  case Scatter => 2
                  case EachQueue => 3 * i + 2
                  case Broadcast => if i == 0 then 3 * |x.outs| - 1 else 3 * i + 1
  }

  function ReleaseTime<V>(x: Node<V>, p: nat): nat {
    |x.ins| + 1 + MiddleLength(x) + p
  }

  /** The operation at a position, read off the position. */
  lemma OpTimes<V>(x: Node<V>, cur: nat, pc: nat)
    requires pc < Length(x)
    requires x.kind.Sink? <==> |x.outs| == 0
    requires !x.kind.Sink? ==> cur < |x.outs|
    ensures match OpAt(x, cur, pc)
            case PopIn(p) => p < |x.ins| && pc == InTime(x, p)
            case Check => pc == CheckTime(x)
            case PopOut(i) => i < |x.outs| && pc == PopTime(x, i) && (x.send.Scatter? ==> i == cur)
            case Fill(i) => i < |x.outs| && pc == FillTime(x, i) && (x.send.Scatter? ==> i == cur)
            case PushOut(i) => i < |x.outs| && pc == PushTime(x, i) && (x.send.Scatter? ==> i == cur)
            case Consume => x.kind.Sink? && pc == |x.ins| + 1
            case Release(p) => p < |x.ins| && pc == ReleaseTime(x, p)
  {
  }

  /** Target `i` is served in iteration `k`. */
  predicate Serves<V>(x: Node<V>, i: nat, k: nat) {
    x.send.Scatter? && |x.outs| > 0 ==> k % |x.outs| == i
  }

  /** Group `q` of port `p` is the current one in iteration `k`. */
  predicate Turns<V>(x: Node<V>, p: nat, q: nat, k: nat)
    requires p < |x.ins|
  {
    |x.ins[p]| > 0 ==> k % |x.ins[p]| == q
  }

  function Out<V>(net: Net<V>, e: nat, t: Thread<V>): OutView
    requires WellFormed(net) && e < |net.edges|
  {
    assert EdgeOk(net, e);
    var x := net.nodes[net.edges[e].src];
    var i := net.edges[e].at;
    var busy := t.phase.Running? && Serves(x, i, t.k);
    OutView(t.k,
            busy && PopTime(x, i) < t.pc <= PushTime(x, i),
            busy && FillTime(x, i) < t.pc <= PushTime(x, i),
            busy && PushTime(x, i) < t.pc,
            t.phase.Finishing?, t.phase.Finishing? && i < t.fin)
  }

  function In<V>(net: Net<V>, e: nat, t: Thread<V>): InView
    requires WellFormed(net) && e < |net.edges|
    requires |t.finished| == |t.inp| == |net.nodes[net.edges[e].dst].ins|
  {
    assert EdgeOk(net, e);
    var x := net.nodes[net.edges[e].dst];
    var p := net.edges[e].port;
    var mine := Turns(x, p, net.edges[e].turn, t.k);
    var busy := t.phase.Running? && mine && !t.finished[p];
    var taken, returned := busy && InTime(x, p) < t.pc, busy && ReleaseTime(x, p) < t.pc;
    InView(t.k, taken, returned, mine && t.finished[p], if taken && !returned then t.inp[p] else Nowhere(net))
  }

  /** The stream that edge `e` has to carry, and the rounds in which its two tasks turn to it. */
  function ChannelOf<V>(net: Net<V>, e: nat): Spec<V>
    requires WellFormed(net) && e < |net.edges|
  {
    assert EdgeOk(net, e);
    Spec(e, MadeOff(net, e), MadeStep(net, e), net.edges[e].turn, UsedStep(net, e), Limit(net, e),
         (j: nat) => EdgeVal(net, e, j), net.zero)
  }

  /** The thread has learnt that its current iteration is within the stream. */
  predicate Passed<V>(x: Node<V>, t: Thread<V>) {
    t.phase.Running? && t.pc > (if x.kind.Generator? then 2 else CheckTime(x))
  }

  /** The invariant of a thread; between two iterations `pc` may stand behind the last operation. */
  ghost predicate ThreadCore<V>(net: Net<V>, plan: Plan, v: nat, t: Thread<V>)
    requires Balanced(net, plan) && v < |net.nodes|
  {
    var x := net.nodes[v];
    && ThreadShaped(net, v, t)
    && (t.k > 0 ==> Live(plan, v, t.k - 1))
    && (Passed(x, t) ==> Live(plan, v, t.k))
    && (t.phase.Finishing? ==> !Live(plan, v, t.k) && forall p :: 0 <= p < |x.ins| ==> t.finished[p])
    && (t.phase.Running? ==> forall p :: 0 <= p < |x.ins| ==>
          (t.finished[p] <==> (InTime(x, p) < t.pc && !Live(plan, v, t.k))))
    && (t.phase.Running? ==> forall p :: 0 <= p < |x.ins| ==>
          t.turn[p] == (t.k + One(ReleaseTime(x, p) < t.pc)) % |x.ins[p]|)
    && (t.phase.Running? && x.send.Scatter? && |x.outs| > 0 ==>
          t.cur == (t.k + One(PushTime(x, 0) < t.pc)) % |x.outs|)
    && |t.log| == (if x.kind.Sink? then t.k + One(t.phase.Running? && |x.ins| + 1 < t.pc) else 0)
    && (forall j :: 0 <= j < |t.log| ==> t.log[j] == Args(net, v, j))
  }

  ghost predicate ThreadInv<V>(net: Net<V>, plan: Plan, v: nat, t: Thread<V>)
    requires Balanced(net, plan) && v < |net.nodes|
  {
    ThreadCore(net, plan, v, t) && (t.phase.Running? ==> t.pc < Length(net.nodes[v]))
  }

  ghost predicate EdgeInvAt<V>(net: Net<V>, s: State<V>, e: nat)
    requires Shaped(net, s) && e < |net.edges|
  {
    assert EdgeOk(net, e);
    EdgeInv(ChannelOf(net, e), Out(net, e, s.threads[net.edges[e].src]), In(net, e, s.threads[net.edges[e].dst]), s.queues[e], s.mem)
  }

  ghost predicate Inv<V>(net: Net<V>, plan: Plan, s: State<V>) {
    && Balanced(net, plan) && Shaped(net, s)
    && (forall v :: 0 <= v < |net.nodes| ==> ThreadInv(net, plan, v, s.threads[v]))
    && (forall e :: 0 <= e < |net.edges| ==> EdgeInvAt(net, s, e))
  }

  lemma InitEdge<V>(net: Net<V>, e: nat)
    requires WellFormed(net) && Shaped(net, Init(net)) && e < |net.edges|
    ensures EdgeInvAt(net, Init(net), e)
  {
    var s := Init(net);
    assert EdgeOk(net, e);
    EmptyKeeps(ChannelOf(net, e), Nowhere(net));
    assert Out(net, e, s.threads[net.edges[e].src]) == OutView(0, false, false, false, false, false);
    assert In(net, e, s.threads[net.edges[e].dst]) == InView(0, false, false, false, Nowhere(net));
  }

  lemma InitThreadInv<V>(net: Net<V>, plan: Plan, v: nat)
    requires Balanced(net, plan) && v < |net.nodes| && NodeOk(net, v)
    ensures ThreadInv(net, plan, v, InitThread(net, v))
  {
  }

  lemma InitShaped<V>(net: Net<V>)
    requires WellFormed(net)
    ensures Shaped(net, Init(net))
  {
    forall v | 0 <= v < |net.nodes|
      ensures ThreadShaped(net, v, InitThread(net, v)) && InitThread(net, v).pc < Length(net.nodes[v])
    {
      assert NodeOk(net, v);
    }
  }

  lemma InitInv<V>(net: Net<V>, plan: Plan)
    requires Balanced(net, plan)
    ensures Inv(net, plan, Init(net))
  {
    InitShaped(net);
    forall v | 0 <= v < |net.nodes|
      ensures ThreadInv(net, plan, v, Init(net).threads[v])
    {
      InitThreadInv(net, plan, v);
    }
    forall e | 0 <= e < |net.edges|
      ensures EdgeInvAt(net, Init(net), e)
    {
      InitEdge(net, e);
    }
  }
}
