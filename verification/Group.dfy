/** Two-way queues and the groups that hold one for every target. A pop from an empty queue waits in
    the original; here it is a precondition, and the runtime model says when it is met. */
module Group {
  import opened Sending
  import opened Wrappers

  datatype Buffer<+V> = Buffer(id: nat, data: V)

  datatype Item<+V> = Full(buf: Buffer<V>) | EndOfStream

  function FreeIds<V>(free: seq<Buffer<V>>): multiset<nat> {
    if free == [] then multiset{} else multiset{free[0].id} + FreeIds(free[1..])
  }

  function FullIds<V>(full: seq<Item<V>>): multiset<nat> {
    if full == [] then multiset{}
    else (if full[0].Full? then multiset{full[0].buf.id} else multiset{}) + FullIds(full[1..])
  }

  function AsMessage<V>(x: Item<V>): Message<V> {
    match x case Full(b) => Data(b.data) case EndOfStream => End
  }

  lemma {:induction false} FreeIdsAppend<V>(free: seq<Buffer<V>>, b: Buffer<V>)
    ensures FreeIds(free + [b]) == FreeIds(free) + multiset{b.id}
  {
    if free == [] {
      assert free + [b] == [b];
    } else {
      assert (free + [b])[1..] == free[1..] + [b];
      FreeIdsAppend(free[1..], b);
    }
  }

  lemma {:induction false} FullIdsAppend<V>(full: seq<Item<V>>, x: Item<V>)
    ensures FullIds(full + [x]) == FullIds(full) + if x.Full? then multiset{x.buf.id} else multiset{}
  {
    if full == [] {
      assert full + [x] == [x];
    } else {
      assert (full + [x])[1..] == full[1..] + [x];
      FullIdsAppend(full[1..], x);
    }
  }

  /** Every inserted buffer is in exactly one place: on one of the two sides, or with one of the users. */
  ghost predicate Placed<V>(free: seq<Buffer<V>>, full: seq<Item<V>>, producing: multiset<nat>, consuming: multiset<nat>,
                            inserted: seq<nat>) {
    forall id {:trigger PlacedAt(free, full, producing, consuming, inserted, id)} :: PlacedAt(free, full, producing, consuming, inserted, id)
  }

  ghost predicate PlacedAt<V>(free: seq<Buffer<V>>, full: seq<Item<V>>, producing: multiset<nat>, consuming: multiset<nat>,
                              inserted: seq<nat>, id: nat) {
    FreeIds(free)[id] + FullIds(full)[id] + producing[id] + consuming[id] == multiset(inserted)[id]
  }

  /** The full side holds what was pushed and not yet taken, in this order. */
  ghost predicate Waiting<V>(full: seq<Item<V>>, history: seq<Message<V>>, taken: nat) {
    && taken + |full| == |history|
    && forall i {:trigger WaitingAt(full, history, taken, i)} :: 0 <= i < |full| ==> WaitingAt(full, history, taken, i)
  }

  ghost predicate WaitingAt<V>(full: seq<Item<V>>, history: seq<Message<V>>, taken: nat, i: nat)
    requires taken + |full| == |history| && i < |full|
  {
    AsMessage(full[i]) == history[taken + i]
  }

  lemma InsertPlaced<V>(free: seq<Buffer<V>>, full: seq<Item<V>>, p: multiset<nat>, c: multiset<nat>, ins: seq<nat>, b: Buffer<V>)
    requires Placed(free, full, p, c, ins)
    ensures Placed(free + [b], full, p, c, ins + [b.id])
  {
    FreeIdsAppend(free, b);
    forall id: nat
      ensures PlacedAt(free + [b], full, p, c, ins + [b.id], id)
    {
      assert PlacedAt(free, full, p, c, ins, id);
    }
  }

  lemma ProducerPopPlaced<V>(free: seq<Buffer<V>>, full: seq<Item<V>>, p: multiset<nat>, c: multiset<nat>, ins: seq<nat>)
    requires Placed(free, full, p, c, ins) && free != []
    ensures Placed(free[1..], full, p + multiset{free[0].id}, c, ins)
  {
    forall id: nat
      ensures PlacedAt(free[1..], full, p + multiset{free[0].id}, c, ins, id)
    {
      assert PlacedAt(free, full, p, c, ins, id);
    }
  }

  lemma ProducerPushPlaced<V>(free: seq<Buffer<V>>, full: seq<Item<V>>, p: multiset<nat>, c: multiset<nat>,
                              ins: seq<nat>, b: Buffer<V>)
    requires Placed(free, full, p, c, ins) && b.id in p
    ensures Placed(free, full + [Full(b)], p - multiset{b.id}, c, ins)
  {
    FullIdsAppend(full, Full(b));
    forall id: nat
      ensures PlacedAt(free, full + [Full(b)], p - multiset{b.id}, c, ins, id)
    {
      assert PlacedAt(free, full, p, c, ins, id);
    }
  }

  lemma EndPlaced<V>(free: seq<Buffer<V>>, full: seq<Item<V>>, p: multiset<nat>, c: multiset<nat>, ins: seq<nat>)
    requires Placed(free, full, p, c, ins)
    ensures Placed(free, full + [EndOfStream], p, c, ins)
  {
    FullIdsAppend(full, EndOfStream);
    forall id: nat
      ensures PlacedAt(free, full + [EndOfStream], p, c, ins, id)
    {
      assert PlacedAt(free, full, p, c, ins, id);
    }
  }

  function Taking<V>(x: Item<V>): multiset<nat> {
    if x.Full? then multiset{x.buf.id} else multiset{}
  }

  lemma ConsumerPopPlaced<V>(free: seq<Buffer<V>>, full: seq<Item<V>>, p: multiset<nat>, c: multiset<nat>, ins: seq<nat>)
    requires Placed(free, full, p, c, ins) && full != []
    ensures Placed(free, full[1..], p, c + Taking(full[0]), ins)
  {
    forall id: nat
      ensures PlacedAt(free, full[1..], p, c + Taking(full[0]), ins, id)
    {
      assert PlacedAt(free, full, p, c, ins, id);
    }
  }

  lemma ConsumerPushPlaced<V>(free: seq<Buffer<V>>, full: seq<Item<V>>, p: multiset<nat>, c: multiset<nat>,
                              ins: seq<nat>, b: Buffer<V>)
    requires Placed(free, full, p, c, ins) && b.id in c
    ensures Placed(free + [b], full, p, c - multiset{b.id}, ins)
  {
    FreeIdsAppend(free, b);
    forall id: nat
      ensures PlacedAt(free + [b], full, p, c - multiset{b.id}, ins, id)
    {
      assert PlacedAt(free, full, p, c, ins, id);
    }
  }

  lemma PushWaiting<V>(full: seq<Item<V>>, history: seq<Message<V>>, taken: nat, x: Item<V>)
    requires Waiting(full, history, taken)
    ensures Waiting(full + [x], history + [AsMessage(x)], taken)
  {
    forall i | 0 <= i < |full + [x]|
      ensures WaitingAt(full + [x], history + [AsMessage(x)], taken, i)
    {
      assert i < |full| ==> WaitingAt(full, history, taken, i);
    }
  }

  lemma PopWaiting<V>(full: seq<Item<V>>, history: seq<Message<V>>, taken: nat)
    requires Waiting(full, history, taken) && full != []
    ensures Waiting(full[1..], history, taken + 1)
  {
    var rest, next := full[1..], taken + 1;
    forall i | 0 <= i < |rest|
      ensures WaitingAt(rest, history, next, i)
    {
      assert rest[i] == full[i + 1] && WaitingAt(full, history, taken, i + 1);
    }
  }

  /** What holds of a queue object at all times. */
  ghost predicate Kept<V>(free: seq<Buffer<V>>, full: seq<Item<V>>, p: multiset<nat>, c: multiset<nat>, ins: seq<nat>,
                           history: seq<Message<V>>, taken: nat) {
    Placed(free, full, p, c, ins) && Waiting(full, history, taken)
  }

  lemma ProducerPushKept<V>(free: seq<Buffer<V>>, full: seq<Item<V>>, p: multiset<nat>, c: multiset<nat>, ins: seq<nat>,
                             history: seq<Message<V>>, taken: nat, b: Buffer<V>)
    requires Kept(free, full, p, c, ins, history, taken) && b.id in p
    ensures Kept(free, full + [Full(b)], p - multiset{b.id}, c, ins, history + [Data(b.data)], taken)
  {
    ProducerPushPlaced(free, full, p, c, ins, b);
    PushWaiting(full, history, taken, Full(b));
  }

  lemma EndKept<V>(free: seq<Buffer<V>>, full: seq<Item<V>>, p: multiset<nat>, c: multiset<nat>, ins: seq<nat>,
                    history: seq<Message<V>>, taken: nat)
    requires Kept(free, full, p, c, ins, history, taken)
    ensures Kept(free, full + [EndOfStream], p, c, ins, history + [End], taken)
  {
    EndPlaced(free, full, p, c, ins);
    PushWaiting(full, history, taken, EndOfStream);
  }

  lemma ConsumerPopKept<V>(free: seq<Buffer<V>>, full: seq<Item<V>>, p: multiset<nat>, c: multiset<nat>, ins: seq<nat>,
                            history: seq<Message<V>>, taken: nat)
    requires Kept(free, full, p, c, ins, history, taken) && full != []
    ensures Kept(free, full[1..], p, c + Taking(full[0]), ins, history, taken + 1)
  {
    ConsumerPopPlaced(free, full, p, c, ins);
    PopWaiting(full, history, taken);
  }

  lemma ConsumerPushKept<V>(free: seq<Buffer<V>>, full: seq<Item<V>>, p: multiset<nat>, c: multiset<nat>, ins: seq<nat>,
                             history: seq<Message<V>>, taken: nat, b: Buffer<V>)
    requires Kept(free, full, p, c, ins, history, taken) && b.id in c
    ensures Kept(free + [b], full, p, c - multiset{b.id}, ins, history, taken)
  {
    ConsumerPushPlaced(free, full, p, c, ins, b);
  }

  /** `free` and `full` are the two sides. The ghost fields record who holds the buffers that are on
      neither side, and everything that was ever pushed to the consumer. */
  class UfoTwoWayQueue<V(==)> {
    var free: seq<Buffer<V>>
    var full: seq<Item<V>>
    var inserted: seq<nat>
    var capacity: nat
    ghost var producing: multiset<nat>
    ghost var consuming: multiset<nat>
    ghost var history: seq<Message<V>>
    ghost var taken: nat

    ghost predicate Valid()
      reads this
    {
      Kept(free, full, producing, consuming, inserted, history, taken) && capacity == |inserted|
    }

    constructor (init: seq<Buffer<V>>)
      ensures Valid() && free == init && full == [] && history == [] && taken == 0
      ensures producing == multiset{} && consuming == multiset{} && capacity == |init|
    {
      free, full, inserted, capacity := [], [], [], 0;
      producing, consuming, history, taken := multiset{}, multiset{}, [], 0;
      new;
      for i := 0 to |init|
        invariant Valid() && free == init[..i] && full == [] && history == [] && taken == 0
        invariant producing == multiset{} && consuming == multiset{} && capacity == i
      {
        Insert(init[i]);
      }
    }

    method Insert(b: Buffer<V>)
      requires Valid()
      modifies this`free, this`inserted, this`capacity
      ensures Valid() && free == old(free) + [b] && inserted == old(inserted) + [b.id] && capacity == old(capacity) + 1
    {
      InsertPlaced(free, full, producing, consuming, inserted, b);
      free, inserted, capacity := free + [b], inserted + [b.id], capacity + 1;
    }

    method ProducerPop() returns (b: Buffer<V>)
      requires Valid() && free != []
      modifies this`free, this`producing
      ensures Valid() && b == old(free[0]) && free == old(free[1..]) && producing == old(producing) + multiset{b.id}
    {
      b := free[0];
      ProducerPopPlaced(free, full, producing, consuming, inserted);
      free, producing := free[1..], producing + multiset{b.id};
    }

    method ProducerPush(b: Buffer<V>)
      requires Valid() && b.id in producing
      modifies this`full, this`producing, this`history
      ensures Valid() && full == old(full) + [Full(b)] && producing == old(producing) - multiset{b.id}
      ensures history == old(history) + [Data(b.data)]
    {
      ProducerPushKept(free, full, producing, consuming, inserted, history, taken, b);
      full := full + [Full(b)];
      producing := producing - multiset{b.id};
      history := history + [Data(b.data)];
    }

    method ProducerPushEnd()
      requires Valid()
      modifies this`full, this`history
      ensures Valid() && full == old(full) + [EndOfStream] && history == old(history) + [End]
    {
      EndKept(free, full, producing, consuming, inserted, history, taken);
      full, history := full + [EndOfStream], history + [End];
    }

    method ConsumerPop() returns (x: Item<V>)
      requires Valid() && full != []
      modifies this`full, this`consuming, this`taken
      ensures Valid() && x == old(full[0]) && full == old(full[1..]) && taken == old(taken) + 1
      ensures consuming == old(consuming) + Taking(x)
    {
      x := full[0];
      ConsumerPopKept(free, full, producing, consuming, inserted, history, taken);
      full, consuming, taken := full[1..], consuming + Taking(x), taken + 1;
    }

    method ConsumerPush(b: Buffer<V>)
      requires Valid() && b.id in consuming
      modifies this`free, this`consuming
      ensures Valid() && free == old(free) + [b] && consuming == old(consuming) - multiset{b.id}
    {
      ConsumerPushKept(free, full, producing, consuming, inserted, history, taken, b);
      free, consuming := free + [b], consuming - multiset{b.id};
    }
  }

  function IndexOf(targets: seq<nat>, target: nat): (i: nat)
    ensures i <= |targets| && (i < |targets| <==> target in targets)
    ensures i < |targets| ==> targets[i] == target
  {
    if targets == [] then 0 else if targets[0] == target then 0 else 1 + IndexOf(targets[1..], target)
  }

  /** The buffers of a list were allocated for queue `i`. */
  ghost predicate OwnedBy(owner: seq<nat>, i: nat, ids: seq<nat>) {
    forall k :: 0 <= k < |ids| ==> ids[k] < |owner| && owner[ids[k]] == i
  }

  lemma OwnedByMore(owner: seq<nat>, i: nat, ids: seq<nat>, next: nat)
    requires OwnedBy(owner, i, ids)
    ensures OwnedBy(owner + [next], i, ids)
    ensures next == i ==> OwnedBy(owner + [next], i, ids + [|owner|])
  {
  }

  /** A buffer on the free side was inserted. */
  lemma FreeInserted<V>(free: seq<Buffer<V>>, full: seq<Item<V>>, p: multiset<nat>, c: multiset<nat>, ins: seq<nat>)
    requires Placed(free, full, p, c, ins) && free != []
    ensures free[0].id in ins
  {
    assert PlacedAt(free, full, p, c, ins, free[0].id);
    assert free[0].id in multiset(ins);
  }

  /** One queue for every target. Buffers are numbered in the order in which the group allocates them;
      `owner` records the queue that each was allocated for. */
  class UfoGroup<V(==)> {
    const targets: seq<nat>
    const queues: seq<UfoTwoWayQueue<V>>
    const pattern: Pattern
    const blank: V
    var expected: seq<nat>
    var current: nat
    var received: nat
    var buffers: nat
    ghost var owner: seq<nat>

    ghost predicate Fixed() {
      |queues| == |targets| && forall i, j :: 0 <= i < j < |queues| ==> queues[i] != queues[j]
    }

    /** No queue has more than one buffer more than there are targets, and no two share a buffer. */
    ghost predicate QueueOk(i: nat)
      reads this`owner, queues
      requires i < |queues|
    {
      queues[i].Valid() && queues[i].capacity <= |targets| + 1 && OwnedBy(owner, i, queues[i].inserted)
    }

    ghost predicate Valid()
      reads this, queues
    {
      && Fixed() && |expected| == |targets| && (targets != [] ==> current < |targets|) && buffers == |owner|
      && forall i :: 0 <= i < |queues| ==> QueueOk(i)
    }

    /** What the targets were sent, and what decides where the next result goes. */
    ghost function Value(): Sender<V>
      reads this, queues
    {
      Sender(pattern, current, received, expected,
             seq(|queues|, i requires 0 <= i < |queues| reads this, queues => queues[i].history))
    }

    /** The next pop from the free side of a queue does not wait. */
    ghost predicate Ready(i: nat)
      reads queues
      requires i < |queues|
    {
      queues[i].capacity < |targets| + 1 || queues[i].free != []
    }

    /** A sink has a group without targets. */
    constructor (targets: seq<nat>, pattern: Pattern, blank: V)
      ensures Valid() && this.targets == targets && this.pattern == pattern
      ensures expected == seq(|targets|, _ => 0) && Value() == Start(pattern, expected)
      ensures fresh(queues)
    {
      var qs: seq<UfoTwoWayQueue<V>> := [];
      for i := 0 to |targets|
        invariant |qs| == i && fresh(qs)
        invariant forall j :: 0 <= j < i ==> qs[j].Valid() && qs[j].inserted == [] && qs[j].capacity == 0 && qs[j].history == []
        invariant forall j, k :: 0 <= j < k < i ==> qs[j] != qs[k]
      {
        var q := new UfoTwoWayQueue<V>([]);
        qs := qs + [q];
      }
      this.targets, this.pattern, this.blank, this.queues := targets, pattern, blank, qs;
      expected, current, received, buffers := seq(|targets|, _ => 0), 0, 0, 0;
      owner := [];
    }

    /** A buffer for target `pos`: a fresh one as long as the queue has not reached its limit. */
    method PopOrAllocBuffer(pos: nat) returns (b: Buffer<V>)
      requires Valid() && pos < |queues| && Ready(pos)
      modifies this`buffers, this`owner, queues[pos]
      ensures Valid() && b.id < buffers && owner[b.id] == pos
      ensures queues[pos].producing == old(queues[pos].producing) + multiset{b.id}
      ensures queues[pos].full == old(queues[pos].full) && queues[pos].history == old(queues[pos].history)
    {
      assert QueueOk(pos);
      b := AllocAndPop(pos);
      forall i | 0 <= i < |queues|
        ensures QueueOk(i)
      {
        assert old(QueueOk(i));
      }
    }

    /** The same for one queue; the others are not concerned. */
    method AllocAndPop(pos: nat) returns (b: Buffer<V>)
      requires Fixed() && pos < |queues| && QueueOk(pos) && buffers == |owner| && Ready(pos)
      modifies this`buffers, this`owner, queues[pos]
      ensures QueueOk(pos) && buffers == |owner| && (owner == old(owner) || owner == old(owner) + [pos])
      ensures b.id < buffers && owner[b.id] == pos
      ensures queues[pos].producing == old(queues[pos].producing) + multiset{b.id}
      ensures queues[pos].full == old(queues[pos].full) && queues[pos].history == old(queues[pos].history)
    {
      if queues[pos].capacity < |targets| + 1 {
        Alloc(pos);
      }
      FreeInserted(queues[pos].free, queues[pos].full, queues[pos].producing, queues[pos].consuming, queues[pos].inserted);
      b := queues[pos].ProducerPop();
    }

    method Alloc(pos: nat)
      requires Fixed() && pos < |queues| && QueueOk(pos) && buffers == |owner| && queues[pos].capacity <= |targets|
      modifies this`buffers, this`owner, queues[pos]
      ensures QueueOk(pos) && buffers == |owner| && owner == old(owner) + [pos] && queues[pos].free != []
      ensures queues[pos].producing == old(queues[pos].producing)
      ensures queues[pos].full == old(queues[pos].full) && queues[pos].history == old(queues[pos].history)
    {
      OwnedByMore(owner, pos, queues[pos].inserted, pos);
      queues[pos].Insert(Buffer(buffers, blank));
      buffers, owner := buffers + 1, owner + [pos];
    }

    /** The target that the next result goes to first. */
    function Position(): (p: nat)
      reads this
    {
      if pattern.Broadcast? then 0 else current
    }

    method PopOutputBuffer() returns (b: Buffer<V>)
      requires Valid() && targets != [] && Ready(Position())
      modifies this`buffers, this`owner, queues[Position()]
      ensures Valid() && b.id < buffers && owner[b.id] == Position()
      ensures queues[Position()].producing == old(queues[Position()].producing) + multiset{b.id}
      ensures queues[Position()].history == old(queues[Position()].history)
    {
      b := PopOrAllocBuffer(Position());
    }

    /** Pushes a buffer to one target. */
    method SendTo(pos: nat, b: Buffer<V>)
      requires Fixed() && pos < |queues| && QueueOk(pos) && b.id in queues[pos].producing
      modifies queues[pos]
      ensures QueueOk(pos) && queues[pos].history == old(queues[pos].history) + [Data(b.data)]
      ensures queues[pos].producing == old(queues[pos].producing) - multiset{b.id}
    {
      queues[pos].ProducerPush(b);
    }

    /** Pushes a copy of the content of `b` to one target. */
    method CopyTo(pos: nat, b: Buffer<V>)
      requires Fixed() && pos < |queues| && QueueOk(pos) && buffers == |owner| && Ready(pos)
      modifies this`buffers, this`owner, queues[pos]
      ensures QueueOk(pos) && queues[pos].history == old(queues[pos].history) + [Data(b.data)]
      ensures buffers == |owner| && (owner == old(owner) || owner == old(owner) + [pos])
    {
      var copy := AllocAndPop(pos);
      queues[pos].ProducerPush(copy.(data := b.data));
    }

    method SendEnd(pos: nat)
      requires Fixed() && pos < |queues| && QueueOk(pos)
      modifies queues[pos]
      ensures QueueOk(pos) && queues[pos].history == old(queues[pos].history) + [End]
    {
      queues[pos].ProducerPushEnd();
    }

    method SetNumExpected(target: nat, n: nat)
      requires Valid() && target in targets
      modifies this`expected
      ensures Valid() && expected == old(expected)[IndexOf(targets, target) := n]
    {
      expected := expected[IndexOf(targets, target) := n];
      assert forall i :: 0 <= i < |queues| ==> old(QueueOk(i));
    }

    ghost predicate AllOk()
      reads this`owner, this`buffers, queues
    {
      Fixed() && buffers == |owner| && forall i :: 0 <= i < |queues| ==> QueueOk(i)
    }

    /** Targets `lo` to `pos` have been sent `x` in addition. */
    ghost predicate SentTo(before: seq<seq<Message<V>>>, x: Message<V>, lo: nat, pos: nat)
      reads queues
    {
      && |before| == |queues|
      && forall i :: 0 <= i < |queues| ==> queues[i].history == if lo <= i < pos then before[i] + [x] else before[i]
    }

    method SendEndNext(pos: nat, ghost before: seq<seq<Message<V>>>)
      requires AllOk() && pos < |queues| && SentTo(before, End, 0, pos)
      modifies queues[pos]
      ensures AllOk() && SentTo(before, End, 0, pos + 1)
    {
      assert QueueOk(pos);
      SendEnd(pos);
      forall i | 0 <= i < |queues|
        ensures QueueOk(i)
      {
        assert old(QueueOk(i));
      }
    }

    /** Finishes all targets. */
    method Finish()
      requires Valid()
      modifies queues
      ensures Valid() && Value() == Sending.Finish(old(Value()))
      ensures forall i :: 0 <= i < |queues| ==> queues[i].history == old(queues[i].history) + [End]
    {
      ghost var before := Value().sent;
      for pos := 0 to |queues|
        invariant AllOk() && SentTo(before, End, 0, pos)
      {
        SendEndNext(pos, before);
      }
      assert Value().sent == ToAll(before, End);
    }

    ghost predicate ReadyFrom(pos: nat)
      reads queues
    {
      forall i :: pos <= i < |queues| ==> Ready(i)
    }

    method CopyToNext(pos: nat, b: Buffer<V>, ghost before: seq<seq<Message<V>>>)
      requires AllOk() && 1 <= pos < |queues| && SentTo(before, Data(b.data), 1, pos) && ReadyFrom(pos)
      modifies this`buffers, this`owner, queues[pos]
      ensures AllOk() && SentTo(before, Data(b.data), 1, pos + 1) && ReadyFrom(pos + 1)
      ensures queues[0].producing == old(queues[0].producing)
    {
      assert QueueOk(pos) && Ready(pos);
      CopyTo(pos, b);
      forall i | 0 <= i < |queues|
        ensures QueueOk(i) && (pos < i ==> Ready(i))
      {
        assert old(QueueOk(i)) && (pos < i ==> old(Ready(i)));
        assert i != pos ==> queues[i] != queues[pos] && unchanged(queues[i]);
      }
    }

    method CopyToOthers(b: Buffer<V>, ghost before: seq<seq<Message<V>>>)
      requires AllOk() && targets != [] && SentTo(before, Data(b.data), 1, 1) && b.id in queues[0].producing
      requires ReadyFrom(1)
      modifies this`buffers, this`owner, queues
      ensures AllOk() && SentTo(before, Data(b.data), 1, |queues|) && b.id in queues[0].producing
    {
      var pos := 1;
      while pos < |queues|
        invariant 1 <= pos <= |queues| && AllOk() && SentTo(before, Data(b.data), 1, pos)
        invariant b.id in queues[0].producing && ReadyFrom(pos)
      {
        CopyToNext(pos, b, before);
        pos := pos + 1;
      }
    }

    /** A broadcast copies the buffer to all other targets before it pushes it to the first. */
    method PushToAll(b: Buffer<V>)
      requires AllOk() && targets != [] && b.id in queues[0].producing && ReadyFrom(1)
      modifies this`buffers, this`owner, queues
      ensures AllOk() && SentTo(old(Value().sent), Data(b.data), 0, |queues|)
    {
      ghost var before := Value().sent;
      CopyToOthers(b, before);
      PushFirst(b, before);
    }

    method PushFirst(b: Buffer<V>, ghost before: seq<seq<Message<V>>>)
      requires AllOk() && targets != [] && SentTo(before, Data(b.data), 1, |queues|) && b.id in queues[0].producing
      modifies queues[0]
      ensures AllOk() && SentTo(before, Data(b.data), 0, |queues|)
    {
      assert QueueOk(0);
      SendTo(0, b);
      forall i | 0 <= i < |queues|
        ensures QueueOk(i)
      {
        assert old(QueueOk(i));
      }
    }

    /** Pushes a buffer to the current target, and the end of the stream if `last`. */
    method PushToCurrent(b: Buffer<V>, last: bool)
      requires AllOk() && current < |queues| && b.id in queues[current].producing
      modifies queues[current]
      ensures AllOk()
      ensures forall i :: 0 <= i < |queues| ==>
                queues[i].history == if i == current then old(queues[i].history) + (if last then [Data(b.data), End] else [Data(b.data)])
                                     else old(queues[i].history)
    {
      assert QueueOk(current);
      SendTo(current, b);
      if last {
        SendEnd(current);
      }
      forall i | 0 <= i < |queues|
        ensures QueueOk(i)
      {
        assert old(QueueOk(i));
      }
    }

    method Deal(b: Buffer<V>)
      requires Valid() && targets != [] && pattern.Scatter? && b.id in queues[current].producing
      modifies this`received, this`current, queues[current]
      ensures Valid() && Value() == Push(old(Value()), b.data)
    {
      ghost var before := Value();
      assert AllOk();
      received := received + 1;
      PushToCurrent(b, false);
      current := (current + 1) % |targets|;
      assert Value().sent == before.sent[before.current := before.sent[before.current] + [Data(b.data)]];
    }

    method PushInSequence(b: Buffer<V>)
      requires Valid() && targets != [] && pattern.Sequential? && b.id in queues[current].producing
      modifies this`received, this`current, queues[current]
      ensures Valid() && Value() == Push(old(Value()), b.data)
    {
      ghost var before := Value();
      assert AllOk();
      received := received + 1;
      var last := expected[current] == received;
      PushToCurrent(b, last);
      assert Value().sent == before.sent[before.current :=
          before.sent[before.current] + if last then [Data(b.data), End] else [Data(b.data)]];
      if last {
        current := (current + 1) % |targets|;
        received := 0;
      }
    }

    /** Hands a filled buffer over: one result, sent as the pattern says. In a broadcast the pops from
        the queues of the other targets must not wait. */
    method PushOutputBuffer(b: Buffer<V>)
      requires Valid() && targets != [] && b.id in queues[Position()].producing
      requires pattern.Broadcast? ==> ReadyFrom(1)
      modifies this`received, this`current, this`buffers, this`owner, queues
      ensures Valid() && Value() == Push(old(Value()), b.data)
    {
      match pattern
      case Scatter => Deal(b);
      case Sequential => PushInSequence(b);
      case Broadcast =>
        ghost var before := Value();
        assert AllOk();
        received := received + 1;
        PushToAll(b);
        assert Value().sent == ToAll(before.sent, Data(b.data));
    }

    /** The next item for a target; a node that is no target gets none. */
    method PopInputBuffer(target: nat) returns (x: Option<Item<V>>)
      requires Valid() && (target in targets ==> queues[IndexOf(targets, target)].full != [])
      modifies if target in targets then {queues[IndexOf(targets, target)]} else {}
      ensures Valid() && (x.Some? <==> target in targets)
      ensures x.Some? ==>
                var q := queues[IndexOf(targets, target)];
                x.value == old(q.full[0]) && q.full == old(q.full[1..]) && q.consuming == old(q.consuming) + Taking(x.value)
    {
      var pos := IndexOf(targets, target);
      if pos < |targets| {
        assert QueueOk(pos);
        var item := queues[pos].ConsumerPop();
        x := Some(item);
        forall i | 0 <= i < |queues|
          ensures QueueOk(i)
        {
          assert old(QueueOk(i));
        }
      } else {
        x := None;
      }
    }

    /** Returns a buffer to the queue it came from. */
    method PushInputBuffer(target: nat, b: Buffer<V>)
      requires Valid() && (target in targets ==> b.id in queues[IndexOf(targets, target)].consuming)
      modifies if target in targets then {queues[IndexOf(targets, target)]} else {}
      ensures Valid()
      ensures target in targets ==>
                var q := queues[IndexOf(targets, target)];
                q.free == old(q.free) + [b] && q.consuming == old(q.consuming) - multiset{b.id}
    {
      var pos := IndexOf(targets, target);
      if pos < |targets| {
        assert QueueOk(pos);
        queues[pos].ConsumerPush(b);
        forall i | 0 <= i < |queues|
          ensures QueueOk(i)
        {
          assert old(QueueOk(i));
        }
      }
    }

    /** No buffer is in the queues of two targets. */
    lemma NotShared(i: nat, j: nat, x: nat)
      requires Valid() && i < |queues| && j < |queues| && i != j && x in queues[i].inserted
      ensures x !in queues[j].inserted
    {
      assert QueueOk(i) && QueueOk(j);
    }
  }
}
