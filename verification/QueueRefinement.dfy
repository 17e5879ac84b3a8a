/** The queue object of a group and the queue of the runtime model are the same thing: every method of
    the object, called on an object that is some queue of the runtime, leaves one that is the queue after
    the runtime's step. */
module QueueRefinement {
  import C = Channel
  import Group

  /** Item `x` of the object is message `m` of the runtime; `names` tells what the buffers are called. */
  ghost predicate SameItem<V>(names: seq<C.Buffer>, zero: V, mem: map<C.Buffer, V>, x: Group.Item<V>, m: C.Msg) {
    match x
    case EndOfStream => m.End?
    case Full(b) => m.Data? && b.id < |names| && names[b.id] == m.buf && C.Read(zero, mem, m.buf) == b.data
  }

  ghost predicate SameFull<V>(names: seq<C.Buffer>, zero: V, mem: map<C.Buffer, V>, full: seq<Group.Item<V>>, msgs: seq<C.Msg>) {
    |full| == |msgs| && forall i :: 0 <= i < |full| ==> SameItem(names, zero, mem, full[i], msgs[i])
  }

  ghost predicate SameFree<V>(names: seq<C.Buffer>, free: seq<Group.Buffer<V>>, bufs: seq<C.Buffer>) {
    |free| == |bufs| && forall i :: 0 <= i < |free| ==> free[i].id < |names| && names[free[i].id] == bufs[i]
  }

  /** A queue object with the sides `free` and `full` is the queue `q` of the runtime. */
  ghost predicate Represents<V>(names: seq<C.Buffer>, zero: V, mem: map<C.Buffer, V>, free: seq<Group.Buffer<V>>,
                                full: seq<Group.Item<V>>, capacity: nat, q: C.Queue) {
    SameFree(names, free, q.free) && SameFull(names, zero, mem, full, q.full) && capacity == q.capacity
  }

  lemma {:induction false} NotFull(msgs: seq<C.Msg>, b: C.Buffer, i: nat)
    requires b !in C.Bufs(msgs) && i < |msgs|
    ensures msgs[i].Data? ==> msgs[i].buf != b
  {
    if msgs[i].Data? {
      C.BufsHas(msgs, i);
    }
  }

  /** Writing a buffer that is not on the full side, or naming another one, does not change the queue. */
  lemma WriteElsewhere<V>(names: seq<C.Buffer>, more: seq<C.Buffer>, zero: V, mem: map<C.Buffer, V>, full: seq<Group.Item<V>>,
                          msgs: seq<C.Msg>, b: C.Buffer, v: V)
    requires SameFull(names, zero, mem, full, msgs) && b !in C.Bufs(msgs)
    ensures SameFull(names + more, zero, mem[b := v], full, msgs)
  {
    forall i | 0 <= i < |full|
      ensures SameItem(names + more, zero, mem[b := v], full[i], msgs[i])
    {
      assert SameItem(names, zero, mem, full[i], msgs[i]);
      NotFull(msgs, b, i);
    }
  }

  lemma NotOnFullSide(id: nat, q: C.Queue, b: C.Buffer)
    requires C.Conserved(id, q) && (b in q.out || b == C.Buffer(id, q.capacity))
    ensures b !in C.Bufs(q.full)
  {
    C.Apart(id, q, b);
    assert b in q.out ==> multiset(q.out)[b] > 0;
  }

  /** Allocating and inserting a buffer, which the group numbers with its next number. */
  lemma InsertRefines<V>(names: seq<C.Buffer>, zero: V, mem: map<C.Buffer, V>, free: seq<Group.Buffer<V>>,
                         full: seq<Group.Item<V>>, capacity: nat, q: C.Queue, id: nat, limit: nat)
    requires Represents(names, zero, mem, free, full, capacity, q) && C.Conserved(id, q) && q.capacity < limit
    ensures Represents(names + [C.Buffer(id, q.capacity)], zero, C.GrownMem(id, limit, zero, q, mem),
                       free + [Group.Buffer(|names|, zero)], full, capacity + 1, C.Grown(id, limit, q))
  {
    NotOnFullSide(id, q, C.Buffer(id, q.capacity));
    WriteElsewhere(names, [C.Buffer(id, q.capacity)], zero, mem, full, q.full, C.Buffer(id, q.capacity), zero);
  }

  /** `process` fills the buffer that the producer holds. */
  lemma FillRefines<V>(names: seq<C.Buffer>, zero: V, mem: map<C.Buffer, V>, free: seq<Group.Buffer<V>>,
                       full: seq<Group.Item<V>>, capacity: nat, q: C.Queue, id: nat, v: V)
    requires Represents(names, zero, mem, free, full, capacity, q) && C.Conserved(id, q) && q.out != []
    ensures Represents(names, zero, mem[q.out[0] := v], free, full, capacity, q)
  {
    NotOnFullSide(id, q, q.out[0]);
    WriteElsewhere(names, [], zero, mem, full, q.full, q.out[0], v);
    assert names + [] == names;
  }

  lemma ProducerPushRefines<V>(names: seq<C.Buffer>, zero: V, mem: map<C.Buffer, V>, free: seq<Group.Buffer<V>>,
                               full: seq<Group.Item<V>>, capacity: nat, q: C.Queue, b: Group.Buffer<V>)
    requires Represents(names, zero, mem, free, full, capacity, q)
    requires b.id < |names| && C.Read(zero, mem, names[b.id]) == b.data
    ensures Represents(names, zero, mem, free, full + [Group.Full(b)], capacity, C.PushFull(q, names[b.id]))
  {
    assert SameItem(names, zero, mem, Group.Full(b), C.Data(names[b.id]));
  }

  lemma EndRefines<V>(names: seq<C.Buffer>, zero: V, mem: map<C.Buffer, V>, free: seq<Group.Buffer<V>>,
                      full: seq<Group.Item<V>>, capacity: nat, q: C.Queue)
    requires Represents(names, zero, mem, free, full, capacity, q)
    ensures Represents(names, zero, mem, free, full + [Group.EndOfStream], capacity, C.PushEnd(q))
  {
    assert SameItem(names, zero, mem, Group.EndOfStream, C.End);
  }

  lemma ConsumerPopRefines<V>(names: seq<C.Buffer>, zero: V, mem: map<C.Buffer, V>, free: seq<Group.Buffer<V>>,
                              full: seq<Group.Item<V>>, capacity: nat, q: C.Queue)
    requires Represents(names, zero, mem, free, full, capacity, q)
    ensures full != [] <==> q.full != []
    ensures full != [] ==>
              && Represents(names, zero, mem, free, full[1..], capacity, C.PopFull(q))
              && (full[0].Full? <==> q.full[0].Data?)
              && (full[0].Full? ==> full[0].buf.id < |names| && C.PopFull(q).lent == [names[full[0].buf.id]]
                                    && C.Read(zero, mem, names[full[0].buf.id]) == full[0].buf.data)
  {
    if full != [] {
      assert SameItem(names, zero, mem, full[0], q.full[0]);
      assert SameFull(names, zero, mem, full[1..], q.full[1..]);
    }
  }

  // The operations of the object. Where a side is empty, the object and the runtime wait together.

  /** A queue of the runtime, with the memory and the names of the object's buffers. */
  datatype Model<V> = Model(names: seq<C.Buffer>, zero: V, mem: map<C.Buffer, V>, q: C.Queue)

  ghost predicate Is<V>(queue: Group.UfoTwoWayQueue<V>, m: Model<V>)
    reads queue
  {
    queue.Valid() && Represents(m.names, m.zero, m.mem, queue.free, queue.full, queue.capacity, m.q)
  }

  /** A group inserts a blank buffer, which it numbers with its next number. */
  method Insert<V>(queue: Group.UfoTwoWayQueue<V>, number: nat, blank: V, ghost m: Model<V>, ghost id: nat, ghost limit: nat)
    requires Is(queue, m) && C.Conserved(id, m.q) && m.q.capacity < limit && number == |m.names| && blank == m.zero
    modifies queue
    ensures Is(queue, Model(m.names + [C.Buffer(id, m.q.capacity)], blank, C.GrownMem(id, limit, blank, m.q, m.mem), C.Grown(id, limit, m.q)))
  {
    InsertRefines(m.names, blank, m.mem, queue.free, queue.full, queue.capacity, m.q, id, limit);
    queue.Insert(Group.Buffer(number, blank));
  }

  method ProducerPop<V>(queue: Group.UfoTwoWayQueue<V>, ghost m: Model<V>) returns (b: Group.Buffer<V>)
    requires Is(queue, m) && (queue.free != [] || m.q.free != [])
    modifies queue
    ensures old(queue.free) != [] && m.q.free != []
    ensures Is(queue, m.(q := C.PopFree(m.q))) && b.id < |m.names| && C.PopFree(m.q).out == [m.names[b.id]]
    ensures queue.producing == old(queue.producing) + multiset{b.id}
  {
    b := queue.ProducerPop();
  }

  /** The buffer holds what the memory says, once the producer has filled it. */
  method ProducerPush<V>(queue: Group.UfoTwoWayQueue<V>, b: Group.Buffer<V>, ghost m: Model<V>)
    requires Is(queue, m) && b.id in queue.producing
    requires b.id < |m.names| && C.Read(m.zero, m.mem, m.names[b.id]) == b.data
    modifies queue
    ensures Is(queue, m.(q := C.PushFull(m.q, m.names[b.id])))
    ensures queue.producing == old(queue.producing) - multiset{b.id}
  {
    ProducerPushRefines(m.names, m.zero, m.mem, queue.free, queue.full, queue.capacity, m.q, b);
    queue.ProducerPush(b);
  }

  method ProducerPushEnd<V>(queue: Group.UfoTwoWayQueue<V>, ghost m: Model<V>)
    requires Is(queue, m)
    modifies queue
    ensures Is(queue, m.(q := C.PushEnd(m.q))) && queue.producing == old(queue.producing)
  {
    EndRefines(m.names, m.zero, m.mem, queue.free, queue.full, queue.capacity, m.q);
    queue.ProducerPushEnd();
  }

  method ConsumerPop<V>(queue: Group.UfoTwoWayQueue<V>, ghost m: Model<V>) returns (x: Group.Item<V>)
    requires Is(queue, m) && (queue.full != [] || m.q.full != [])
    modifies queue
    ensures old(queue.full) != [] && m.q.full != []
    ensures Is(queue, m.(q := C.PopFull(m.q))) && (x.Full? <==> m.q.full[0].Data?)
    ensures x.Full? ==>
              && x.buf.id < |m.names| && C.PopFull(m.q).lent == [m.names[x.buf.id]]
              && C.Read(m.zero, m.mem, m.names[x.buf.id]) == x.buf.data
    ensures queue.consuming == old(queue.consuming) + Group.Taking(x)
  {
    ConsumerPopRefines(m.names, m.zero, m.mem, queue.free, queue.full, queue.capacity, m.q);
    x := queue.ConsumerPop();
  }

  method ConsumerPush<V>(queue: Group.UfoTwoWayQueue<V>, b: Group.Buffer<V>, ghost m: Model<V>)
    requires Is(queue, m) && b.id in queue.consuming && b.id < |m.names|
    modifies queue
    ensures Is(queue, m.(q := C.PushFree(m.q, m.names[b.id])))
    ensures queue.consuming == old(queue.consuming) - multiset{b.id}
  {
    queue.ConsumerPush(b);
  }
}
