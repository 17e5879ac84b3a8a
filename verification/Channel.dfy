/** One two-way queue between two threads, seen on its own. A channel is described by the rounds in
    which its producer serves it and its consumer turns to it, the limit on its buffers, and the
    stream of items that it has to carry. */
module Channel {
  import opened Progression

  /** A buffer, named after the queue it was inserted in. */
  datatype Buffer = Buffer(edge: nat, idx: nat)

  datatype Msg = Data(buf: Buffer) | End

  /** `free` and `full` are the two sides of the queue. `out` is the buffer that the producer has
      popped and not yet pushed, `lent` the one that the consumer has popped and not yet returned.
      `made`, `taken` and `back` count the data that was pushed, popped and returned; `closed` and
      `sawEnd` tell whether the end of the stream was pushed and popped. The last five only record
      history. */
  datatype Queue = Queue(free: seq<Buffer>, full: seq<Msg>, capacity: nat,
                         out: seq<Buffer>, lent: seq<Buffer>,
                         made: nat, taken: nat, back: nat, closed: bool, sawEnd: bool)

  const EMPTY := Queue([], [], 0, [], [], 0, 0, 0, false, false)

  datatype Spec<!V> = Spec(id: nat, madeOff: nat, madeStep: nat, usedOff: nat, usedStep: nat,
                           limit: nat, item: nat -> V, zero: V)

  /** What a queue sees of its producer: its iteration, whether it holds, has filled, or has already
      pushed a buffer of this queue in it, and whether it has stopped and sent the end. */
  datatype OutView = OutView(k: nat, holding: bool, filled: bool, pushed: bool, stopped: bool, ended: bool)

  /** What a queue sees of its consumer. */
  datatype InView = InView(k: nat, taken: bool, returned: bool, sawEnd: bool, buf: Buffer)

  function Read<V>(zero: V, mem: map<Buffer, V>, b: Buffer): V {
    if b in mem then mem[b] else zero
  }

  function One(b: bool): nat { if b then 1 else 0 }

  /** The first `n` buffers inserted in queue `id`. */
  function All(id: nat, n: nat): multiset<Buffer> {
    if n == 0 then multiset{} else All(id, n - 1) + multiset{Buffer(id, n - 1)}
  }

  function Bufs(full: seq<Msg>): multiset<Buffer> {
    if full == [] then multiset{}
    else if full[0].Data? then multiset{full[0].buf} + Bufs(full[1..]) else Bufs(full[1..])
  }

  lemma {:induction false} AllOnce(id: nat, n: nat, b: Buffer)
    ensures All(id, n)[b] == if b.edge == id && b.idx < n then 1 else 0
  {
    if n > 0 {
      AllOnce(id, n - 1, b);
    }
  }

  lemma {:induction false} BufsAppend(full: seq<Msg>, m: Msg)
    ensures Bufs(full + [m]) == if m.Data? then Bufs(full) + multiset{m.buf} else Bufs(full)
  {
    if full == [] {
      assert full + [m] == [m];
    } else {
      assert (full + [m])[1..] == full[1..] + [m];
      BufsAppend(full[1..], m);
    }
  }

  lemma {:induction false} BufsHas(full: seq<Msg>, i: nat)
    requires i < |full| && full[i].Data?
    ensures full[i].buf in Bufs(full)
  {
    if i > 0 {
      assert full[i] == full[1..][i - 1];
      BufsHas(full[1..], i - 1);
    }
  }

  /** Every buffer that was inserted is in exactly one place. */
  ghost predicate Conserved(id: nat, q: Queue) {
    multiset(q.free) + Bufs(q.full) + multiset(q.out) + multiset(q.lent) == All(id, q.capacity)
  }

  /** The history agrees with the positions of the two threads. */
  ghost predicate Counted<V>(c: Spec<V>, o: OutView, i: InView, q: Queue) {
    && Counts(c.madeOff, c.madeStep, o.k + One(o.pushed), q.made)
    && Counts(c.usedOff, c.usedStep, i.k + One(i.taken), q.taken)
    && Counts(c.usedOff, c.usedStep, i.k + One(i.returned), q.back)
    && q.taken <= q.made
    && q.taken == q.back + |q.lent|
    && |q.lent| == One(i.taken && !i.returned)
    && |q.out| <= 1
    && (!o.stopped ==> |q.out| == One(o.holding))
    && q.closed == o.ended && q.sawEnd == i.sawEnd && (q.sawEnd ==> q.closed)
    && q.capacity <= c.limit
  }

  /** The full side holds the data not yet taken, then the end of the stream. */
  ghost predicate Ordered(q: Queue) {
    && q.taken <= q.made
    && |q.full| == q.made - q.taken + One(q.closed && !q.sawEnd)
    && (forall j :: 0 <= j < q.made - q.taken ==> q.full[j].Data?)
    && (q.closed && !q.sawEnd ==> q.full[q.made - q.taken] == End)
  }

  /** The buffers on their way hold the items of the stream. */
  ghost predicate Loaded<V>(c: Spec<V>, o: OutView, i: InView, q: Queue, mem: map<Buffer, V>)
    requires Ordered(q)
  {
    && (forall j :: 0 <= j < q.made - q.taken ==> Read(c.zero, mem, q.full[j].buf) == c.item(q.taken + j))
    && (|q.lent| == 1 ==> q.lent[0] == i.buf && Read(c.zero, mem, q.lent[0]) == c.item(q.back))
    && (o.filled && |q.out| == 1 ==> Read(c.zero, mem, q.out[0]) == c.item(q.made))
  }

  ghost predicate EdgeInv<V>(c: Spec<V>, o: OutView, i: InView, q: Queue, mem: map<Buffer, V>) {
    && Conserved(c.id, q) && Counted(c, o, i, q) && Ordered(q) && Loaded(c, o, i, q, mem)
  }

  /** The queue after the producer has inserted a fresh buffer, if it may. */
  function Grown(id: nat, limit: nat, q: Queue): Queue {
    if q.capacity < limit
    then q.(free := q.free + [Buffer(id, q.capacity)], capacity := q.capacity + 1)
    else q
  }

  /** The content of memory after that insertion. */
  function GrownMem<V>(id: nat, limit: nat, zero: V, q: Queue, mem: map<Buffer, V>): map<Buffer, V> {
    if q.capacity < limit then mem[Buffer(id, q.capacity) := zero] else mem
  }

  function PopFree(q: Queue): Queue
    requires q.free != []
  {
    q.(free := q.free[1..], out := [q.free[0]])
  }

  function PushFull(q: Queue, b: Buffer): Queue {
    q.(full := q.full + [Data(b)], out := [], made := q.made + 1)
  }

  function PushEnd(q: Queue): Queue {
    q.(full := q.full + [End], closed := true)
  }

  function PopFull(q: Queue): Queue
    requires q.full != []
  {
    match q.full[0]
    case Data(b) => q.(full := q.full[1..], lent := [b], taken := q.taken + 1)
    case End => q.(full := q.full[1..], sawEnd := true)
  }

  function PushFree(q: Queue, b: Buffer): Queue {
    q.(free := q.free + [b], lent := [], back := q.back + 1)
  }

  // Every operation keeps every buffer in exactly one place.

  lemma Apart(id: nat, q: Queue, b: Buffer)
    requires Conserved(id, q)
    ensures multiset(q.free)[b] + Bufs(q.full)[b] + multiset(q.out)[b] + multiset(q.lent)[b]
         == if b.edge == id && b.idx < q.capacity then 1 else 0
  {
    AllOnce(id, q.capacity, b);
    var total := multiset(q.free) + Bufs(q.full) + multiset(q.out) + multiset(q.lent);
    assert total[b] == All(id, q.capacity)[b];
  }

  lemma HeadTail(s: seq<Buffer>)
    requires s != []
    ensures multiset(s) == multiset{s[0]} + multiset(s[1..])
  {
    assert s == [s[0]] + s[1..];
  }

  lemma GrownConserves(id: nat, limit: nat, q: Queue)
    requires Conserved(id, q)
    ensures Conserved(id, Grown(id, limit, q))
  {
    if q.capacity < limit {
      var b := Buffer(id, q.capacity);
      assert multiset(q.free + [b]) == multiset(q.free) + multiset{b};
    }
  }

  lemma PopFreeConserves(id: nat, q: Queue)
    requires Conserved(id, q) && q.out == [] && q.free != []
    ensures Conserved(id, PopFree(q))
  {
    HeadTail(q.free);
    assert multiset(PopFree(q).out) == multiset{q.free[0]};
  }

  lemma PushFullConserves(id: nat, q: Queue)
    requires Conserved(id, q) && |q.out| == 1
    ensures Conserved(id, PushFull(q, q.out[0]))
  {
    BufsAppend(q.full, Data(q.out[0]));
    assert q.out == [q.out[0]];
    assert multiset(q.out) == multiset{q.out[0]};
  }

  lemma PopFullConserves(id: nat, q: Queue)
    requires Conserved(id, q) && q.full != [] && q.lent == []
    ensures Conserved(id, PopFull(q))
  {
    if q.full[0].Data? {
      assert multiset(PopFull(q).lent) == multiset{q.full[0].buf};
    }
  }

  lemma PushFreeConserves(id: nat, q: Queue)
    requires Conserved(id, q) && |q.lent| == 1
    ensures Conserved(id, PushFree(q, q.lent[0]))
  {
    assert q.lent == [q.lent[0]];
    assert multiset(q.free + [q.lent[0]]) == multiset(q.free) + multiset(q.lent);
  }

  // Every operation keeps the invariant of the queue.

  /** Where the buffers are that the invariant reads: all in this queue, and none twice. */
  lemma Places(id: nat, q: Queue)
    requires Conserved(id, q) && Ordered(q) && |q.out| <= 1 && |q.lent| <= 1
    ensures forall j :: 0 <= j < q.made - q.taken ==> q.full[j].buf.edge == id && q.full[j].buf.idx < q.capacity
    ensures |q.lent| == 1 ==> q.lent[0].edge == id && q.lent[0].idx < q.capacity
    ensures |q.out| == 1 ==>
              && q.out[0].edge == id && q.out[0].idx < q.capacity
              && (forall j :: 0 <= j < q.made - q.taken ==> q.full[j].buf != q.out[0])
              && (|q.lent| == 1 ==> q.lent[0] != q.out[0])
  {
    if |q.out| == 1 {
      Apart(id, q, q.out[0]);
      assert multiset(q.out)[q.out[0]] == 1;
    }
    if |q.lent| == 1 {
      Apart(id, q, q.lent[0]);
      assert multiset(q.lent)[q.lent[0]] == 1;
    }
    forall j | 0 <= j < q.made - q.taken
      ensures q.full[j].buf.edge == id && q.full[j].buf.idx < q.capacity
      ensures |q.out| == 1 ==> q.full[j].buf != q.out[0]
    {
      BufsHas(q.full, j);
      Apart(id, q, q.full[j].buf);
    }
  }

  /** Writing the buffers of other queues leaves a queue alone. */
  lemma MemFrame<V>(c: Spec<V>, o: OutView, i: InView, q: Queue, mem: map<Buffer, V>, mem': map<Buffer, V>)
    requires EdgeInv(c, o, i, q, mem)
    requires forall b: Buffer :: b.edge == c.id ==> Read(c.zero, mem, b) == Read(c.zero, mem', b)
    ensures EdgeInv(c, o, i, q, mem')
  {
    LoadedFrame(c, o, i, q, mem, mem');
  }

  lemma EmptyKeeps<V>(c: Spec<V>, b: Buffer)
    ensures EdgeInv(c, OutView(0, false, false, false, false, false), InView(0, false, false, false, b), EMPTY, map[])
  {
  }

  /** Memory that keeps the buffers inserted so far keeps the stream. */
  lemma LoadedFrame<V>(c: Spec<V>, o: OutView, i: InView, q: Queue, mem: map<Buffer, V>, mem': map<Buffer, V>)
    requires Conserved(c.id, q) && Ordered(q) && |q.out| <= 1 && |q.lent| <= 1
    requires Loaded(c, o, i, q, mem)
    requires forall b: Buffer :: b.edge == c.id && b.idx < q.capacity ==> Read(c.zero, mem, b) == Read(c.zero, mem', b)
    ensures Loaded(c, o, i, q, mem')
  {
    Places(c.id, q);
  }

  lemma GrownKeeps<V>(c: Spec<V>, o: OutView, i: InView, q: Queue, mem: map<Buffer, V>)
    requires EdgeInv(c, o, i, q, mem)
    ensures EdgeInv(c, o, i, Grown(c.id, c.limit, q), GrownMem(c.id, c.limit, c.zero, q, mem))
  {
    var mem' := GrownMem(c.id, c.limit, c.zero, q, mem);
    assert Conserved(c.id, Grown(c.id, c.limit, q)) by {
      GrownConserves(c.id, c.limit, q);
    }
    assert Loaded(c, o, i, q, mem') by {
      LoadedFrame(c, o, i, q, mem, mem');
    }
    GrownLoaded(c, o, i, q, mem');
  }

  lemma GrownLoaded<V>(c: Spec<V>, o: OutView, i: InView, q: Queue, mem: map<Buffer, V>)
    requires Counted(c, o, i, q) && Ordered(q) && Loaded(c, o, i, q, mem)
    ensures var q' := Grown(c.id, c.limit, q); Counted(c, o, i, q') && Ordered(q') && Loaded(c, o, i, q', mem)
  {
  }

  lemma PopFreeLoaded<V>(c: Spec<V>, o: OutView, i: InView, q: Queue, mem: map<Buffer, V>)
    requires Ordered(q) && Loaded(c, o, i, q, mem) && !o.filled && q.free != []
    ensures Ordered(PopFree(q)) && Loaded(c, o.(holding := true), i, PopFree(q), mem)
  {
  }

  lemma PopFreeKeeps<V>(c: Spec<V>, o: OutView, i: InView, q: Queue, mem: map<Buffer, V>)
    requires EdgeInv(c, o, i, q, mem)
    requires !o.stopped && !o.holding && !o.filled && !o.pushed
    requires q.free != []
    ensures EdgeInv(c, o.(holding := true), i, PopFree(q), mem)
  {
    PopFreeConserves(c.id, q);
    PopFreeLoaded(c, o, i, q, mem);
  }

  lemma FillKeeps<V>(c: Spec<V>, o: OutView, i: InView, q: Queue, mem: map<Buffer, V>, val: V)
    requires EdgeInv(c, o, i, q, mem)
    requires !o.stopped && o.holding
    requires val == c.item(q.made)
    ensures |q.out| == 1 && q.out[0].edge == c.id
    ensures EdgeInv(c, o.(filled := true), i, q, mem[q.out[0] := val])
  {
    Places(c.id, q);
  }

  lemma PushFullCounted<V>(c: Spec<V>, o: OutView, i: InView, q: Queue)
    requires Counted(c, o, i, q) && !o.stopped && !o.ended && o.holding && !o.pushed
    requires c.madeStep >= 1 && o.k == At(c.madeOff, c.madeStep, q.made)
    ensures |q.out| == 1
    ensures Counted(c, o.(holding := false, filled := false, pushed := true), i, PushFull(q, q.out[0]))
  {
  }

  lemma PushFullLoaded<V>(c: Spec<V>, o: OutView, i: InView, q: Queue, mem: map<Buffer, V>)
    requires Ordered(q) && Loaded(c, o, i, q, mem) && o.filled && |q.out| == 1 && !q.closed && !q.sawEnd
    ensures Ordered(PushFull(q, q.out[0]))
    ensures Loaded(c, o.(holding := false, filled := false, pushed := true), i, PushFull(q, q.out[0]), mem)
  {
  }

  lemma PushFullKeeps<V>(c: Spec<V>, o: OutView, i: InView, q: Queue, mem: map<Buffer, V>)
    requires EdgeInv(c, o, i, q, mem)
    requires !o.stopped && !o.ended && o.holding && o.filled && !o.pushed
    requires c.madeStep >= 1 && o.k == At(c.madeOff, c.madeStep, q.made)
    ensures |q.out| == 1
    ensures EdgeInv(c, o.(holding := false, filled := false, pushed := true), i, PushFull(q, q.out[0]), mem)
  {
    PushFullConserves(c.id, q);
    PushFullCounted(c, o, i, q);
    PushFullLoaded(c, o, i, q, mem);
  }

  lemma PushEndConserves(id: nat, q: Queue)
    requires Conserved(id, q)
    ensures Conserved(id, PushEnd(q))
  {
    BufsAppend(q.full, End);
  }

  lemma PushEndLoaded<V>(c: Spec<V>, o: OutView, i: InView, q: Queue, mem: map<Buffer, V>)
    requires Ordered(q) && Loaded(c, o, i, q, mem) && !q.closed && !q.sawEnd
    ensures Ordered(PushEnd(q)) && Loaded(c, o.(ended := true), i, PushEnd(q), mem)
  {
  }

  lemma PushEndKeeps<V>(c: Spec<V>, o: OutView, i: InView, q: Queue, mem: map<Buffer, V>)
    requires EdgeInv(c, o, i, q, mem)
    requires o.stopped && !o.ended && !o.filled
    ensures EdgeInv(c, o.(ended := true), i, PushEnd(q), mem)
  {
    PushEndConserves(c.id, q);
    PushEndLoaded(c, o, i, q, mem);
  }

  lemma PopFullOrdered(q: Queue)
    requires Ordered(q) && q.full != [] && q.full[0].Data?
    ensures q.taken < q.made && Ordered(PopFull(q))
  {
  }

  lemma PopFullLoaded<V>(c: Spec<V>, o: OutView, i: InView, q: Queue, mem: map<Buffer, V>)
    requires Ordered(q) && q.full != [] && q.full[0].Data? && q.taken < q.made && q.back == q.taken
    requires Loaded(c, o, i, q, mem) && Ordered(PopFull(q))
    ensures Loaded(c, o, i.(taken := true, buf := q.full[0].buf), PopFull(q), mem)
  {
    var q' := PopFull(q);
    forall j | 0 <= j < q'.made - q'.taken
      ensures Read(c.zero, mem, q'.full[j].buf) == c.item(q'.taken + j)
    {
      assert q'.full[j] == q.full[j + 1];
      assert Read(c.zero, mem, q.full[j + 1].buf) == c.item(q.taken + (j + 1));
    }
    assert Read(c.zero, mem, q.full[0].buf) == c.item(q.taken + 0);
  }

  lemma PopFullKeeps<V>(c: Spec<V>, o: OutView, i: InView, q: Queue, mem: map<Buffer, V>)
    requires EdgeInv(c, o, i, q, mem)
    requires !i.taken && !i.returned && !i.sawEnd
    requires c.usedStep >= 1 && i.k == At(c.usedOff, c.usedStep, q.taken)
    requires q.full != [] && q.full[0].Data?
    ensures q.taken < q.made
    ensures EdgeInv(c, o, i.(taken := true, buf := q.full[0].buf), PopFull(q), mem)
  {
    PopFullConserves(c.id, q);
    PopFullOrdered(q);
    PopFullLoaded(c, o, i, q, mem);
  }

  lemma PopEndKeeps<V>(c: Spec<V>, o: OutView, i: InView, q: Queue, mem: map<Buffer, V>)
    requires EdgeInv(c, o, i, q, mem)
    requires !i.taken && !i.returned && !i.sawEnd
    requires q.full != [] && q.full[0].End?
    ensures q.closed && q.taken == q.made
    ensures EdgeInv(c, o, i.(sawEnd := true), PopFull(q), mem)
  {
    PopFullConserves(c.id, q);
  }

  lemma PushFreeCounted<V>(c: Spec<V>, o: OutView, i: InView, q: Queue, after: Buffer)
    requires Counted(c, o, i, q) && i.taken && !i.returned
    requires c.usedStep >= 1 && i.k == At(c.usedOff, c.usedStep, q.back)
    ensures Counted(c, o, i.(returned := true, buf := after), PushFree(q, i.buf))
  {
  }

  lemma PushFreeLoaded<V>(c: Spec<V>, o: OutView, i: InView, q: Queue, mem: map<Buffer, V>, after: Buffer)
    requires Ordered(q) && Loaded(c, o, i, q, mem)
    ensures Ordered(PushFree(q, i.buf)) && Loaded(c, o, i.(returned := true, buf := after), PushFree(q, i.buf), mem)
  {
  }

  lemma PushFreeKeeps<V>(c: Spec<V>, o: OutView, i: InView, q: Queue, mem: map<Buffer, V>, after: Buffer)
    requires EdgeInv(c, o, i, q, mem)
    requires i.taken && !i.returned
    requires c.usedStep >= 1 && i.k == At(c.usedOff, c.usedStep, q.back)
    ensures EdgeInv(c, o, i.(returned := true, buf := after), PushFree(q, i.buf), mem)
  {
    PushFreeConserves(c.id, q);
    PushFreeCounted(c, o, i, q, after);
    PushFreeLoaded(c, o, i, q, mem, after);
  }

  /** What waits on the full side. */
  lemma FullHolds<V>(c: Spec<V>, o: OutView, i: InView, q: Queue, mem: map<Buffer, V>, j: nat)
    requires EdgeInv(c, o, i, q, mem) && j < |q.full|
    ensures q.full[j].Data? ==> Read(c.zero, mem, q.full[j].buf) == c.item(q.taken + j)
    ensures q.full[j].End? ==> j == |q.full| - 1
  {
  }

  /** A producer that stops. A generator that meets the end of its stream keeps its last buffer. */
  lemma StopKeeps<V>(c: Spec<V>, o: OutView, i: InView, q: Queue, mem: map<Buffer, V>)
    requires EdgeInv(c, o, i, q, mem)
    requires !o.stopped && !o.filled && !o.pushed && !o.ended
    ensures EdgeInv(c, o.(holding := false, stopped := true), i, q, mem)
  {
  }

  /** The producer enters its next iteration; it has served the queue if it was its round. */
  lemma NextOutKeeps<V>(c: Spec<V>, o: OutView, i: InView, q: Queue, mem: map<Buffer, V>)
    requires EdgeInv(c, o, i, q, mem)
    requires !o.stopped && !o.holding && !o.filled && !o.ended
    requires !o.pushed ==> o.k != At(c.madeOff, c.madeStep, q.made)
    ensures EdgeInv(c, o.(k := o.k + 1, pushed := false), i, q, mem)
  {
  }

  lemma NextInKeeps<V>(c: Spec<V>, o: OutView, i: InView, q: Queue, mem: map<Buffer, V>, after: Buffer)
    requires EdgeInv(c, o, i, q, mem)
    requires i.taken == i.returned && !i.sawEnd
    requires !i.taken ==> i.k != At(c.usedOff, c.usedStep, q.taken)
    ensures EdgeInv(c, o, i.(k := i.k + 1, taken := false, returned := false, buf := after), q, mem)
  {
  }
}
