/** What the targets of a group are sent. A group deals results out one by one, copies each to all
    targets, or sends blocks of an expected size to one target after the other. */
module Sending {
  import Progression

  datatype Pattern = Scatter | Broadcast | Sequential

  datatype Message<+V> = Data(value: V) | End

  /** `sent[i]` is everything that was pushed to target `i`; `received` counts the results since the
      target last changed, or all of them. */
  datatype Sender<+V> = Sender(pattern: Pattern, current: nat, received: nat, expected: seq<nat>, sent: seq<seq<Message<V>>>)

  ghost predicate Sound<V>(s: Sender<V>) {
    |s.sent| >= 1 && |s.expected| == |s.sent| && s.current < |s.sent|
  }

  function Start<V>(pattern: Pattern, expected: seq<nat>): Sender<V> {
    Sender(pattern, 0, 0, expected, seq(|expected|, _ => []))
  }

  function ToAll<V>(sent: seq<seq<Message<V>>>, x: Message<V>): (r: seq<seq<Message<V>>>)
    ensures |r| == |sent| && forall i :: 0 <= i < |sent| ==> r[i] == sent[i] + [x]
  {
    seq(|sent|, i requires 0 <= i < |sent| => sent[i] + [x])
  }

  /** One result. */
  function Push<V>(s: Sender<V>, v: V): Sender<V>
    requires Sound(s)
  {
    var n, c := |s.sent|, s.current;
    match s.pattern
    case Scatter =>
      s.(received := s.received + 1, sent := s.sent[c := s.sent[c] + [Data(v)]], current := (c + 1) % n)
    case Broadcast =>
      s.(received := s.received + 1, sent := ToAll(s.sent, Data(v)))
    case Sequential =>
      if s.expected[c] == s.received + 1 then
        s.(received := 0, sent := s.sent[c := s.sent[c] + [Data(v), End]], current := (c + 1) % n)
      else
        s.(received := s.received + 1, sent := s.sent[c := s.sent[c] + [Data(v)]])
  }

  /** The end of the stream, to all targets. */
  function Finish<V>(s: Sender<V>): Sender<V> {
    s.(sent := ToAll(s.sent, End))
  }

  function PushAll<V>(s: Sender<V>, items: seq<V>): (r: Sender<V>)
    requires Sound(s)
    ensures |r.sent| == |s.sent| && r.expected == s.expected && r.current < |r.sent| && r.pattern == s.pattern
  {
    if items == [] then s else Push(PushAll(s, items[..|items| - 1]), items[|items| - 1])
  }

  /** What a target reads until it meets the end of the stream. */
  function UntilEnd<V>(sent: seq<Message<V>>): seq<V> {
    if sent == [] || sent[0].End? then [] else [sent[0].value] + UntilEnd(sent[1..])
  }

  function AsData<V>(items: seq<V>): (r: seq<Message<V>>)
    ensures |r| == |items| && forall i :: 0 <= i < |items| ==> r[i] == Data(items[i])
  {
    seq(|items|, i requires 0 <= i < |items| => Data(items[i]))
  }

  lemma {:induction false} UntilEndReads<V>(items: seq<V>, rest: seq<Message<V>>)
    requires rest != [] && rest[0].End?
    ensures UntilEnd(AsData(items) + rest) == items
  {
    if items == [] {
      assert AsData(items) + rest == rest;
    } else {
      assert (AsData(items) + rest)[1..] == AsData(items[1..]) + rest;
      UntilEndReads(items[1..], rest);
    }
  }

  // Sequential sending.

  function Sum(e: seq<nat>, i: nat): nat
    requires i <= |e|
  {
    if i == 0 then 0 else Sum(e, i - 1) + e[i - 1]
  }

  lemma {:induction false} SumGrows(e: seq<nat>, i: nat, j: nat)
    requires i <= j <= |e|
    ensures Sum(e, i) <= Sum(e, j)
  {
    if i < j {
      SumGrows(e, i, j - 1);
    }
  }

  ghost predicate Positive(e: seq<nat>) {
    forall i :: 0 <= i < |e| ==> e[i] > 0
  }

  function Cut<V>(items: seq<V>, lo: nat, hi: nat): seq<V>
    requires lo <= hi
  {
    if |items| <= lo then [] else if |items| <= hi then items[lo..] else items[lo..hi]
  }

  /** The part of the stream that belongs to target `i`. */
  function Block<V>(e: seq<nat>, items: seq<V>, i: nat): seq<V>
    requires i < |e|
  {
    Cut(items, Sum(e, i), Sum(e, i + 1))
  }

  /** What target `i` has been sent after `items`. */
  ghost predicate SentBlock<V>(e: seq<nat>, items: seq<V>, sent: seq<Message<V>>, i: nat)
    requires i < |e|
  {
    sent == AsData(Block(e, items, i)) + if Sum(e, i + 1) <= |items| then [End] else []
  }

  /** The state of a sequential sender: target `c` is being served, or all are. */
  ghost predicate Serving<V>(e: seq<nat>, items: seq<V>, s: Sender<V>) {
    && s.pattern == Sequential && s.expected == e && |s.sent| == |e| >= 1 && s.current < |e|
    && (forall i :: 0 <= i < |e| ==> SentBlock(e, items, s.sent[i], i))
    && (|items| < Sum(e, |e|) ==> |items| == Sum(e, s.current) + s.received && s.received < e[s.current])
  }

  lemma BlockGrows<V>(e: seq<nat>, items: seq<V>, v: V, c: nat, i: nat)
    requires Positive(e) && c < |e| && i < |e| && Sum(e, c) <= |items| < Sum(e, c + 1)
    ensures Block(e, items + [v], i) == if i == c then Block(e, items, i) + [v] else Block(e, items, i)
    ensures i != c ==> (Sum(e, i + 1) <= |items| <==> Sum(e, i + 1) <= |items + [v]|)
  {
    if i < c {
      SumGrows(e, i + 1, c);
    } else if i > c {
      SumGrows(e, c + 1, i);
    }
  }

  lemma AppendData<V>(items: seq<V>, v: V)
    ensures AsData(items + [v]) == AsData(items) + [Data(v)]
  {
  }

  /** The target that is being served gets the item, and the end with its last one. */
  lemma ServeTarget<V>(e: seq<nat>, items: seq<V>, sent: seq<Message<V>>, v: V, c: nat, r: nat)
    requires Positive(e) && c < |e| && |items| == Sum(e, c) + r && r < e[c] && SentBlock(e, items, sent, c)
    ensures SentBlock(e, items + [v], sent + if e[c] == r + 1 then [Data(v), End] else [Data(v)], c)
  {
    BlockGrows(e, items, v, c, c);
    AppendData(Block(e, items, c), v);
  }

  lemma OthersStay<V>(e: seq<nat>, items: seq<V>, sent: seq<Message<V>>, v: V, c: nat, r: nat, i: nat)
    requires Positive(e) && c < |e| && i < |e| && i != c
    requires |items| == Sum(e, c) + r && r < e[c] && SentBlock(e, items, sent, i)
    ensures SentBlock(e, items + [v], sent, i)
  {
    assert Sum(e, c + 1) == Sum(e, c) + e[c];
    BlockGrows(e, items, v, c, i);
  }

  function Next(n: nat, c: nat): nat {
    if c + 1 < n then c + 1 else 0
  }

  lemma NextWraps(n: nat, c: nat)
    requires c < n
    ensures (c + 1) % n == Next(n, c)
  {
  }

  /** The cursor moves on when the block is complete; behind the last target it wraps. */
  lemma CursorServes(e: seq<nat>, n: nat, c: nat, r: nat)
    requires Positive(e) && c < |e| && n == Sum(e, c) + r && r < e[c]
    ensures var last := e[c] == r + 1;
            var c', r' := if last then Next(|e|, c) else c, if last then 0 else r + 1;
            n + 1 < Sum(e, |e|) ==> n + 1 == Sum(e, c') + r' && r' < e[c']
  {
    assert Sum(e, c + 1) == Sum(e, c) + e[c];
  }

  /** A sequential sender got `v`, which is the last item of its target if `last`. */
  ghost predicate Pushed<V>(s: Sender<V>, v: V, last: bool, r: Sender<V>) {
    && r.pattern == s.pattern == Sequential && r.expected == s.expected && |r.sent| == |s.sent|
    && s.current < |s.expected| == |s.sent| && (last <==> s.expected[s.current] == s.received + 1)
    && r.current == (if last then Next(|s.sent|, s.current) else s.current)
    && r.received == (if last then 0 else s.received + 1)
    && forall i :: 0 <= i < |s.sent| ==>
         r.sent[i] == if i == s.current then s.sent[i] + (if last then [Data(v), End] else [Data(v)]) else s.sent[i]
  }

  lemma PushSends<V>(s: Sender<V>, v: V)
    requires Sound(s) && s.pattern == Sequential
    ensures Pushed(s, v, s.expected[s.current] == s.received + 1, Push(s, v))
  {
    NextWraps(|s.sent|, s.current);
  }

  lemma ServeOneTarget<V>(e: seq<nat>, items: seq<V>, s: Sender<V>, v: V, last: bool, r: Sender<V>, i: nat)
    requires Positive(e) && Serving(e, items, s) && |items| < Sum(e, |e|) && Pushed(s, v, last, r) && i < |e|
    ensures SentBlock(e, items + [v], r.sent[i], i)
  {
    assert SentBlock(e, items, s.sent[i], i);
    if i == s.current {
      ServeTarget(e, items, s.sent[i], v, i, s.received);
    } else {
      OthersStay(e, items, s.sent[i], v, s.current, s.received, i);
    }
  }

  lemma {:induction false} ServeOne<V>(e: seq<nat>, items: seq<V>, s: Sender<V>, v: V, last: bool, r: Sender<V>)
    requires Positive(e) && Serving(e, items, s) && |items| < Sum(e, |e|) && Pushed(s, v, last, r)
    ensures Serving(e, items + [v], r)
  {
    forall i | 0 <= i < |e|
      ensures SentBlock(e, items + [v], r.sent[i], i)
    {
      ServeOneTarget(e, items, s, v, last, r, i);
    }
    CursorServes(e, |items|, s.current, s.received);
  }

  lemma {:induction false} ServeAll<V>(e: seq<nat>, items: seq<V>)
    requires Positive(e) && |e| >= 1 && |items| <= Sum(e, |e|)
    ensures Serving(e, items, PushAll(Start(Sequential, e), items))
  {
    if items == [] {
      forall i | 0 <= i < |e|
        ensures SentBlock(e, items, Start<V>(Sequential, e).sent[i], i)
      {
        SumGrows(e, 0, i);
        SumGrows(e, 0, i + 1);
        assert Sum(e, i + 1) == Sum(e, i) + e[i] > 0;
      }
    } else {
      var n := |items| - 1;
      ServeAll(e, items[..n]);
      var s := PushAll(Start(Sequential, e), items[..n]);
      PushSends(s, items[n]);
      ServeOne(e, items[..n], s, items[n], e[s.current] == s.received + 1, Push(s, items[n]));
      assert items == items[..n] + [items[n]];
    }
  }

  /** Sequential sending cuts the stream into blocks: with positive expected counts and at most their
      sum of items, every target is sent exactly its block, an end if the block is complete, and the end
      of the stream. */
  lemma SequentialSends<V>(e: seq<nat>, items: seq<V>, i: nat)
    requires Positive(e) && i < |e| && |items| <= Sum(e, |e|)
    ensures var ends := if Sum(e, i + 1) <= |items| then [End, End] else [End];
            Finish(PushAll(Start(Sequential, e), items)).sent[i] == AsData(Block(e, items, i)) + ends
  {
    ServeAll(e, items);
    assert SentBlock(e, items, PushAll(Start(Sequential, e), items).sent[i], i);
  }

  lemma PushGrows<V>(s: Sender<V>, v: V, i: nat)
    requires Sound(s) && i < |s.sent|
    ensures s.sent[i] <= Push(s, v).sent[i]
  {
  }

  lemma {:induction false} PushAllGrows<V>(s: Sender<V>, items: seq<V>, n: nat, i: nat)
    requires Sound(s) && i < |s.sent| && n <= |items|
    ensures PushAll(s, items[..n]).sent[i] <= PushAll(s, items).sent[i]
    decreases |items|
  {
    if n == |items| {
      assert items[..n] == items;
    } else {
      var k := |items| - 1;
      assert items[..k][..n] == items[..n];
      PushAllGrows(s, items[..k], n, i);
      PushGrows(PushAll(s, items[..k]), items[k], i);
    }
  }

  lemma PrefixReads<V>(block: seq<V>, sent: seq<Message<V>>)
    requires AsData(block) + [End] <= sent
    ensures UntilEnd(sent) == block
  {
    var rest := sent[|block|..];
    assert sent == AsData(block) + rest;
    UntilEndReads(block, rest);
  }

  lemma CutOfPart<V>(items: seq<V>, n: nat, lo: nat, hi: nat)
    requires lo <= hi <= n <= |items|
    ensures Cut(items[..n], lo, hi) == Cut(items, lo, hi) == items[lo..hi]
  {
    assert items[..n][lo..hi] == items[lo..hi];
    assert hi == n ==> items[..n][lo..] == items[lo..hi];
    assert hi == |items| ==> items[lo..] == items[lo..hi];
  }

  lemma BlockOfPart<V>(e: seq<nat>, items: seq<V>, n: nat, i: nat)
    requires i < |e| && n == Sum(e, |e|) <= |items|
    ensures Block(e, items[..n], i) == Block(e, items, i) && Sum(e, i + 1) <= n
  {
    SumGrows(e, i + 1, |e|);
    SumGrows(e, i, i + 1);
    CutOfPart(items, n, Sum(e, i), Sum(e, i + 1));
  }

  /** What target `i` reads before it meets an end is its block, and it meets one, however many items
      are sent. */
  lemma SequentialBlocks<V>(e: seq<nat>, items: seq<V>, i: nat)
    requires Positive(e) && i < |e|
    ensures var sent := Finish(PushAll(Start(Sequential, e), items)).sent[i];
            AsData(Block(e, items, i)) + [End] <= sent && UntilEnd(sent) == Block(e, items, i)
  {
    var sent := Finish(PushAll(Start(Sequential, e), items)).sent[i];
    var n := Sum(e, |e|);
    if |items| <= n {
      SequentialSends(e, items, i);
      assert (AsData(Block(e, items, i)) + [End])[..] == sent[..|Block(e, items, i)| + 1];
    } else {
      ServeAll(e, items[..n]);
      BlockOfPart(e, items, n, i);
      var s := PushAll(Start(Sequential, e), items[..n]);
      assert SentBlock(e, items[..n], s.sent[i], i);
      PushAllGrows(Start(Sequential, e), items, n, i);
      assert s.sent[i] == AsData(Block(e, items, i)) + [End];
      assert s.sent[i] <= PushAll(Start(Sequential, e), items).sent[i] <= sent;
    }
    PrefixReads(Block(e, items, i), sent);
  }

  /** A target whose expected count is no longer ahead, as one that expects nothing, keeps everything. */
  lemma {:induction false} NothingExpected<V>(s: Sender<V>, items: seq<V>, i: nat)
    requires Sound(s) && s.pattern == Sequential && i < |s.sent| && s.expected[s.current] <= s.received
    ensures var r := PushAll(s, items);
            && r.sent[i] == s.sent[i] + AsData(if i == s.current then items else [])
            && r.current == s.current && r.received == s.received + |items|
  {
    if items != [] {
      var n := |items| - 1;
      NothingExpected(s, items[..n], i);
      AppendData(items[..n], items[n]);
      assert items == items[..n] + [items[n]];
    }
  }

  function Blocks<V>(e: seq<nat>, items: seq<V>, i: nat): seq<V>
    requires i <= |e|
  {
    if i == 0 then [] else Blocks(e, items, i - 1) + Block(e, items, i - 1)
  }

  function Upto<V>(items: seq<V>, n: nat): seq<V> {
    if |items| <= n then items else items[..n]
  }

  lemma UptoNext<V>(items: seq<V>, lo: nat, hi: nat)
    requires lo <= hi
    ensures Upto(items, lo) + Cut(items, lo, hi) == Upto(items, hi)
  {
  }

  /** The blocks are the stream, cut in order. */
  lemma {:induction false} BlocksMakeStream<V>(e: seq<nat>, items: seq<V>, i: nat)
    requires i <= |e|
    ensures Blocks(e, items, i) == Upto(items, Sum(e, i))
  {
    if i > 0 {
      BlocksMakeStream(e, items, i - 1);
      UptoNext(items, Sum(e, i - 1), Sum(e, i));
    }
  }

  // Broadcast and scatter, from any state of the sender.

  lemma {:induction false} BroadcastSends<V>(s: Sender<V>, items: seq<V>, i: nat)
    requires Sound(s) && s.pattern == Broadcast && i < |s.sent|
    ensures PushAll(s, items).sent[i] == s.sent[i] + AsData(items)
  {
    if items != [] {
      var n := |items| - 1;
      BroadcastSends(s, items[..n], i);
      AppendData(items[..n], items[n]);
      assert items == items[..n] + [items[n]];
    }
  }

  /** Broadcasting gives every target the whole stream, and one end. */
  lemma BroadcastAll<V>(expected: seq<nat>, items: seq<V>, i: nat)
    requires i < |expected|
    ensures var sent := Finish(PushAll(Start(Broadcast, expected), items)).sent[i];
            sent == AsData(items) + [End] && UntilEnd(sent) == items
  {
    BroadcastSends(Start(Broadcast, expected), items, i);
    UntilEndReads(items, [End]);
  }

  /** Every `n`-th item, from item `i` on. */
  function Dealt<V>(items: seq<V>, n: nat, i: nat): seq<V>
    requires n >= 1
  {
    if items == [] then []
    else
      var k := |items| - 1;
      Dealt(items[..k], n, i) + if k % n == i then [items[k]] else []
  }

  /** Member `j` of what is dealt to turn `i` is item i + j * n, and none is left out. */
  lemma {:induction false} DealtAre<V>(items: seq<V>, n: nat, i: nat, j: nat)
    requires i < n
    ensures Progression.Counts(i, n, |items|, |Dealt(items, n, i)|)
    ensures j < |Dealt(items, n, i)| ==>
              Progression.At(i, n, j) < |items| && Dealt(items, n, i)[j] == items[Progression.At(i, n, j)]
  {
    if items != [] {
      var k := |items| - 1;
      var before := Dealt(items[..k], n, i);
      DealtAre(items[..k], n, i, j);
      Progression.Hit(i, n, k, |before|);
    }
  }

  /** The first result that a scatter deals to target `i` when target `c` is next. */
  function Turn(n: nat, c: nat, i: nat): nat
    requires c < n && i < n
  {
    if c <= i then i - c else i + n - c
  }

  lemma TurnComes(n: nat, c: nat, i: nat, k: nat)
    requires c < n && i < n
    ensures (c + k) % n == i <==> k % n == Turn(n, c, i)
  {
    var q, r := k / n, k % n;
    assert k == n * q + r;
    if c + r < n {
      Progression.Split(c + r, n, c + k, q);
    } else {
      assert n * (q + 1) == n * q + n;
      Progression.Split(c + r - n, n, c + k, q + 1);
    }
  }

  lemma DealtNext<V>(items: seq<V>, v: V, n: nat, turn: nat, mine: bool)
    requires n >= 1 && (mine <==> |items| % n == turn)
    ensures Dealt(items + [v], n, turn) == Dealt(items, n, turn) + if mine then [v] else []
  {
    assert (items + [v])[..|items|] == items;
  }

  lemma ScatterOne<V>(s: Sender<V>, v: V, i: nat)
    requires Sound(s) && s.pattern == Scatter && i < |s.sent|
    ensures Push(s, v).sent[i] == if i == s.current then s.sent[i] + [Data(v)] else s.sent[i]
    ensures Push(s, v).current == (s.current + 1) % |s.sent|
  {
  }

  lemma JoinDealt<V>(before: seq<Message<V>>, dealt: seq<V>, v: V, mine: bool)
    ensures before + AsData(dealt) + (if mine then [Data(v)] else []) == before + AsData(dealt + if mine then [v] else [])
  {
  }

  lemma {:induction false} ScatterCursor<V>(s: Sender<V>, items: seq<V>)
    requires Sound(s) && s.pattern == Scatter
    ensures PushAll(s, items).current == (s.current + |items|) % |s.sent|
  {
    if items == [] {
      Progression.Split(s.current, |s.sent|, s.current, 0);
    } else {
      var n := |items| - 1;
      ScatterCursor(s, items[..n]);
      ScatterOne(PushAll(s, items[..n]), items[n], 0);
      Progression.NextTurn(s.current + n, |s.sent|);
    }
  }

  lemma {:induction false} ScatterSends<V>(s: Sender<V>, items: seq<V>, i: nat, turn: nat)
    requires Sound(s) && s.pattern == Scatter && i < |s.sent| && turn == Turn(|s.sent|, s.current, i)
    ensures PushAll(s, items).sent[i] == s.sent[i] + AsData(Dealt(items, |s.sent|, turn))
  {
    if items == [] {
      assert s.sent[i] + AsData(Dealt(items, |s.sent|, turn)) == s.sent[i];
    } else {
      var n, l := |items| - 1, |s.sent|;
      var init, v := items[..n], items[n];
      var before := PushAll(s, init);
      var mine := i == before.current;
      ScatterSends(s, init, i, turn);
      ScatterCursor(s, init);
      TurnComes(l, s.current, i, n);
      ScatterOne(before, v, i);
      DealtNext(init, v, l, turn, mine);
      assert items == init + [v];
      JoinDealt(s.sent[i], Dealt(init, l, turn), v, mine);
    }
  }

  /** Scattering deals the stream out: target `i` reads items i, i + n, i + 2n, ... */
  lemma ScatterDeals<V>(expected: seq<nat>, items: seq<V>, i: nat)
    requires i < |expected|
    ensures var sent := Finish(PushAll(Start(Scatter, expected), items)).sent[i];
            sent == AsData(Dealt(items, |expected|, i)) + [End] && UntilEnd(sent) == Dealt(items, |expected|, i)
  {
    ScatterSends(Start(Scatter, expected), items, i, i);
    UntilEndReads(Dealt(items, |expected|, i), [End]);
  }

  /** What target `i` of a sender is sent in addition when `items` are pushed and the stream is finished:
      data only, and one end behind them. */
  lemma FinishedStream<V>(s: Sender<V>, items: seq<V>, i: nat)
    requires Sound(s) && i < |s.sent|
    ensures var sent := Finish(PushAll(s, items)).sent[i];
            && sent == PushAll(s, items).sent[i] + [End]
            && (s.pattern == Broadcast ==> sent == s.sent[i] + AsData(items) + [End])
            && (s.pattern == Scatter ==>
                  sent == s.sent[i] + AsData(Dealt(items, |s.sent|, Turn(|s.sent|, s.current, i))) + [End])
  {
    match s.pattern
    case Broadcast => BroadcastSends(s, items, i);
    case Scatter => ScatterSends(s, items, i, Turn(|s.sent|, s.current, i));
    case Sequential =>
  }
}
