/** The loop of a reductor: it processes inputs until it is told to pause or the stream ends, then
    generates results until there are none, and goes on while there are inputs. */
module Reductor {
  import opened Sending
  import opened Wrappers

  /** A task with arbitrary answers: `process` takes the inputs of one iteration and says whether to go
      on, `generate` makes a result or says that there is none. `left` certifies that it says so in
      the end. */
  datatype Task<!S, !V> = Task(process: (S, seq<V>) -> (S, bool), generate: S -> (S, Option<V>), left: S -> nat)

  ghost predicate Finite<S(!new), V>(t: Task<S, V>) {
    forall s :: t.generate(s).1.Some? ==> t.left(t.generate(s).0) < t.left(s)
  }

  /** The state of the task when it has generated all it can from `s`. */
  function Drained<S(!new), V>(t: Task<S, V>, s: S): S
    requires Finite(t)
    decreases t.left(s)
  {
    var (s1, r) := t.generate(s);
    if r.Some? then Drained(t, s1) else s1
  }

  /** All results that can be generated from `s`. */
  function Results<S(!new), V>(t: Task<S, V>, s: S): seq<V>
    requires Finite(t)
    decreases t.left(s)
  {
    var (s1, r) := t.generate(s);
    if r.Some? then [r.value] + Results(t, s1) else []
  }

  // What the two functions are: the results are the answers of `generate`, called until it has none.

  /** The state after `i` calls of `generate`. */
  function State<S(!new), V>(t: Task<S, V>, s: S, i: nat): S {
    if i == 0 then s else t.generate(State(t, s, i - 1)).0
  }

  /** Call number `i` answers the result `i`, and the call behind the last result has none. */
  ghost predicate Answers<S(!new), V>(t: Task<S, V>, s: S, results: seq<V>) {
    AnswersSoFar(t, s, results) && t.generate(State(t, s, |results|)).1 == None
  }

  ghost predicate AnswersSoFar<S(!new), V>(t: Task<S, V>, s: S, results: seq<V>) {
    forall i :: 0 <= i < |results| ==> t.generate(State(t, s, i)).1 == Some(results[i])
  }

  lemma {:induction false} StateShift<S(!new), V>(t: Task<S, V>, s: S, i: nat)
    ensures State(t, t.generate(s).0, i) == State(t, s, i + 1)
  {
    if i == 0 {
      assert State(t, s, 0) == s;
    } else {
      StateShift(t, s, i - 1);
    }
  }

  lemma {:induction false} ResultsAre<S(!new), V>(t: Task<S, V>, s: S)
    requires Finite(t)
    ensures Answers(t, s, Results(t, s)) && Drained(t, s) == State(t, s, |Results(t, s)| + 1)
    decreases t.left(s)
  {
    var (s1, r) := t.generate(s);
    var results := Results(t, s);
    assert State(t, s, 0) == s;
    if r.Some? {
      ResultsAre(t, s1);
      assert results == [r.value] + Results(t, s1);
      StateShift(t, s, |results| - 1);
      StateShift(t, s, |results|);
      forall i | 0 <= i < |results|
        ensures t.generate(State(t, s, i)).1 == Some(results[i])
      {
        if i > 0 {
          StateShift(t, s, i - 1);
          assert t.generate(State(t, s1, i - 1)).1 == Some(Results(t, s1)[i - 1]);
        }
      }
    } else {
      StateShift(t, s, 0);
    }
  }

  lemma LongerDoesNotAnswer<S(!new), V>(t: Task<S, V>, s: S, a: seq<V>, b: seq<V>)
    requires Answers(t, s, a) && |a| < |b|
    ensures !Answers(t, s, b)
  {
    assert t.generate(State(t, s, |a|)).1 != Some(b[|a|]);
  }

  /** No other sequence has these answers. */
  lemma AnswersUnique<S(!new), V>(t: Task<S, V>, s: S, a: seq<V>, b: seq<V>)
    requires Answers(t, s, a) && Answers(t, s, b)
    ensures a == b
  {
    if |a| < |b| {
      LongerDoesNotAnswer(t, s, a, b);
    } else if |b| < |a| {
      LongerDoesNotAnswer(t, s, b, a);
    } else {
      forall i | 0 <= i < |a|
        ensures a[i] == b[i]
      {
        assert t.generate(State(t, s, i)).1 == Some(a[i]) == Some(b[i]);
      }
    }
  }

  /** What a reductor pushes for a stream of inputs: whenever it pauses, and at the end of the stream,
      everything that can be generated. */
  function Reduced<S(!new), V>(t: Task<S, V>, s: S, stream: seq<seq<V>>): seq<V>
    requires Finite(t)
  {
    if stream == [] then []
    else
      var (s1, goOn) := t.process(s, stream[0]);
      if goOn && |stream| > 1 then Reduced(t, s1, stream[1..])
      else Results(t, s1) + Reduced(t, Drained(t, s1), stream[1..])
  }

  // The same one call of the task at a time.

  datatype Phase = Processing | Generating | Stopped

  /** The state of the task, the number of inputs it has taken, and what was pushed. */
  datatype Loop<S, V> = Loop(phase: Phase, state: S, taken: nat, pushed: seq<V>)

  /** One call of `process` or `generate`. Inputs are processed until the task pauses or there are no
      more, then results are generated and pushed until there are no more, and then it goes on with the
      inputs. */
  function Call<S(!new), V>(t: Task<S, V>, stream: seq<seq<V>>, l: Loop<S, V>): Loop<S, V> {
    match l.phase
    case Processing =>
      if l.taken == |stream| then l.(phase := Stopped)
      else if l.taken > |stream| then l
      else
        var (s, goOn) := t.process(l.state, stream[l.taken]);
        var taken := l.taken + 1;
        Loop(if goOn && taken < |stream| then Processing else Generating, s, taken, l.pushed)
    case Generating =>
      var (s, r) := t.generate(l.state);
      if r.Some? then l.(state := s, pushed := l.pushed + [r.value])
      else l.(state := s, phase := if l.taken < |stream| then Processing else Stopped)
    case Stopped => l
  }

  function Calls<S(!new), V>(t: Task<S, V>, stream: seq<seq<V>>, l: Loop<S, V>, n: nat): Loop<S, V>
    decreases n
  {
    if n == 0 then l else Calls(t, stream, Call(t, stream, l), n - 1)
  }

  lemma {:induction false} CallsAdd<S(!new), V>(t: Task<S, V>, stream: seq<seq<V>>, l: Loop<S, V>, a: nat, b: nat)
    ensures Calls(t, stream, l, a + b) == Calls(t, stream, Calls(t, stream, l, a), b)
    decreases a
  {
    if a > 0 {
      CallsAdd(t, stream, Call(t, stream, l), a - 1, b);
    }
  }

  /** Generating pushes the results and leaves the drained state. */
  lemma {:induction false} GeneratePhase<S(!new), V>(t: Task<S, V>, stream: seq<seq<V>>, l: Loop<S, V>) returns (n: nat)
    requires Finite(t) && l.phase.Generating?
    ensures Calls(t, stream, l, n)
         == Loop(if l.taken < |stream| then Processing else Stopped, Drained(t, l.state), l.taken, l.pushed + Results(t, l.state))
    decreases t.left(l.state)
  {
    var l1 := Call(t, stream, l);
    var (s1, r) := t.generate(l.state);
    if r.Some? {
      var m := GeneratePhase(t, stream, l1);
      n := m + 1;
      Regroup(l.pushed, r.value, Results(t, s1));
    } else {
      n := 1;
      assert Calls(t, stream, l, 1) == Calls(t, stream, l1, 0) == l1;
      assert l.pushed + Results(t, l.state) == l.pushed;
    }
  }

  /** From any input on, the loop pushes what `Reduced` says for the rest of the stream, and stops. */
  lemma {:induction false} ProcessPhase<S(!new), V>(t: Task<S, V>, stream: seq<seq<V>>, l: Loop<S, V>)
    returns (n: nat, last: Loop<S, V>)
    requires Finite(t) && l.phase.Processing? && l.taken <= |stream|
    ensures last == Calls(t, stream, l, n) && last.phase.Stopped? && last.taken == |stream|
    ensures last.pushed == l.pushed + Reduced(t, l.state, stream[l.taken..])
    decreases |stream| - l.taken
  {
    var l1 := Call(t, stream, l);
    if l.taken == |stream| {
      n, last := 1, l1;
      assert Calls(t, stream, l, 1) == Calls(t, stream, l1, 0) == l1;
      assert l.pushed + [] == l.pushed;
    } else {
      TailOf(stream, l.taken + 1);
      if l1.phase.Processing? {
        var m;
        m, last := ProcessPhase(t, stream, l1);
        n := m + 1;
      } else {
        n, last := BothPhases(t, stream, l, l1);
      }
    }
  }

  /** The input at `l` is the last before a pause. */
  lemma {:induction false} BothPhases<S(!new), V>(t: Task<S, V>, stream: seq<seq<V>>, l: Loop<S, V>, l1: Loop<S, V>)
    returns (n: nat, last: Loop<S, V>)
    requires Finite(t) && l.phase.Processing? && l.taken < |stream| && l1 == Call(t, stream, l) && l1.phase.Generating?
    ensures last == Calls(t, stream, l, n) && last.phase.Stopped? && last.taken == |stream|
    ensures last.pushed == l.pushed + (Results(t, l1.state) + Reduced(t, Drained(t, l1.state), stream[l1.taken..]))
    decreases |stream| - l.taken, 0
  {
    var k := GeneratePhase(t, stream, l1);
    var l2 := Calls(t, stream, l1, k);
    var rest := Reduced(t, l2.state, stream[l2.taken..]);
    Regroup3(l.pushed, Results(t, l1.state), rest);
    if l2.phase.Processing? {
      var m;
      m, last := ProcessPhase(t, stream, l2);
      CallsAdd(t, stream, l1, k, m);
      n := k + m + 1;
    } else {
      n, last := k + 1, l2;
      assert l2.pushed + [] == l2.pushed;
    }
  }

  /** Called again and again, the task makes the loop push what `Reduced` says, take every input, and
      stop. */
  lemma LoopComputes<S(!new), V>(t: Task<S, V>, init: S, stream: seq<seq<V>>) returns (n: nat, last: Loop<S, V>)
    requires Finite(t)
    ensures last == Calls(t, stream, Loop(Processing, init, 0, []), n) && last.phase.Stopped? && last.taken == |stream|
    ensures last.pushed == Reduced(t, init, stream)
  {
    n, last := ProcessPhase(t, stream, Loop(Processing, init, 0, []));
    assert stream[0..] == stream;
  }

  /** The inputs of a task: iteration after iteration, then the end of the stream. */
  class Inputs<V> {
    const stream: seq<seq<V>>
    var fetched: nat
    var released: nat

    ghost predicate Valid()
      reads this
    {
      released <= fetched <= |stream| && fetched <= released + 1
    }

    constructor (stream: seq<seq<V>>)
      ensures Valid() && this.stream == stream && fetched == 0 && released == 0
    {
      this.stream, fetched, released := stream, 0, 0;
    }

    /** Fetches the inputs of the next iteration; at the end of the stream there are none. */
    method GetInputs(old_: seq<V>) returns (active: bool, inputs: seq<V>)
      requires Valid() && released == fetched
      modifies this
      ensures Valid() && released == old(released) && active == (old(fetched) < |stream|)
      ensures active ==> fetched == old(fetched) + 1 && inputs == stream[old(fetched)]
      ensures !active ==> fetched == old(fetched) && inputs == old_
    {
      active := fetched < |stream|;
      inputs := if active then stream[fetched] else old_;
      fetched := if active then fetched + 1 else fetched;
    }

    method ReleaseInputs()
      requires Valid() && released < fetched
      modifies this
      ensures Valid() && fetched == old(fetched) && released == fetched
    {
      released := released + 1;
    }
  }

  lemma PushOneMore<V>(start: Sender<V>, items: seq<V>, v: V)
    requires Sound(start)
    ensures PushAll(start, items + [v]) == Push(PushAll(start, items), v)
  {
    assert (items + [v])[..|items|] == items;
  }

  lemma TailOf<V>(stream: seq<seq<V>>, k: nat)
    requires 0 < k <= |stream|
    ensures stream[k - 1..][0] == stream[k - 1] && stream[k - 1..][1..] == stream[k..] && |stream[k - 1..]| == |stream| - k + 1
  {
  }

  /** `log` is the processed part of the stream; the inputs behind it are fetched, unless it is all. */
  ghost predicate Processed<V>(inputs: Inputs<V>, log: seq<seq<V>>, active: bool, current: seq<V>)
    reads inputs
  {
    && inputs.Valid() && log <= inputs.stream
    && if active then |log| < |inputs.stream| && inputs.fetched == |log| + 1 && inputs.released == |log| && current == inputs.stream[|log|]
       else inputs.fetched == inputs.released == |log| == |inputs.stream|
  }

  /** Processes the fetched inputs, releases them, and fetches the next. */
  method ProcessOne<S(!new), V>(t: Task<S, V>, before: S, inputs: Inputs<V>, first: seq<V>, done: seq<seq<V>>)
    returns (s: S, goOn: bool, active: bool, current: seq<V>, log: seq<seq<V>>)
    requires Finite(t) && Processed(inputs, done, true, first)
    modifies inputs
    ensures Processed(inputs, log, active, current) && log == done + [first]
    ensures goOn ==> active && Reduced(t, before, inputs.stream[|done|..]) == Reduced(t, s, inputs.stream[|log|..])
    ensures !goOn ==> Reduced(t, before, inputs.stream[|done|..]) == Results(t, s) + Reduced(t, Drained(t, s), inputs.stream[|log|..])
  {
    TailOf(inputs.stream, |done| + 1);
    var (s1, more) := t.process(before, first);
    s := s1;
    log := done + [first];
    inputs.ReleaseInputs();
    active, current := inputs.GetInputs(first);
    goOn := more && active;
  }

  /** Processes inputs until the task pauses or the stream ends. */
  method ProcessUntilPause<S(!new), V>(t: Task<S, V>, before: S, inputs: Inputs<V>, first: seq<V>, done: seq<seq<V>>)
    returns (s: S, active: bool, current: seq<V>, log: seq<seq<V>>)
    requires Finite(t) && Processed(inputs, done, true, first)
    modifies inputs
    ensures Processed(inputs, log, active, current) && |log| > |done|
    ensures Reduced(t, before, inputs.stream[|done|..]) == Results(t, s) + Reduced(t, Drained(t, s), inputs.stream[|log|..])
  {
    var goOn;
    s, goOn, active, current, log := ProcessOne(t, before, inputs, first, done);
    while goOn
      invariant Processed(inputs, log, active, current) && |log| > |done| && (goOn ==> active)
      invariant goOn ==> Reduced(t, before, inputs.stream[|done|..]) == Reduced(t, s, inputs.stream[|log|..])
      invariant !goOn ==>
                  Reduced(t, before, inputs.stream[|done|..]) == Results(t, s) + Reduced(t, Drained(t, s), inputs.stream[|log|..])
      decreases |inputs.stream| - |log|
    {
      s, goOn, active, current, log := ProcessOne(t, s, inputs, current, log);
    }
  }

  lemma Regroup<V>(a: seq<V>, v: V, b: seq<V>)
    ensures (a + [v]) + b == a + ([v] + b)
  {
  }

  lemma Regroup3<V>(a: seq<V>, b: seq<V>, c: seq<V>)
    ensures (a + b) + c == a + (b + c)
  {
  }

  lemma AppendMore<V>(done: seq<V>, results: seq<V>, v: V, start: Sender<V>)
    requires Sound(start)
    ensures PushAll(start, done + (results + [v])) == Push(PushAll(start, done + results), v)
  {
    assert done + (results + [v]) == (done + results) + [v];
    PushOneMore(start, done + results, v);
  }

  lemma AnswersMore<S(!new), V>(t: Task<S, V>, before: S, results: seq<V>, v: V)
    requires AnswersSoFar(t, before, results) && t.generate(State(t, before, |results|)).1 == Some(v)
    ensures AnswersSoFar(t, before, results + [v])
    ensures State(t, before, |results + [v]|) == t.generate(State(t, before, |results|)).0
  {
  }

  /** Pushes everything that can be generated: `results` are the answers of `generate`. */
  method GenerateAll<S(!new), V>(t: Task<S, V>, before: S, sent: Sender<V>, ghost start: Sender<V>, ghost done: seq<V>)
    returns (s: S, group: Sender<V>, ghost results: seq<V>)
    requires Finite(t) && Sound(start) && sent == PushAll(start, done)
    ensures Answers(t, before, results) && s == State(t, before, |results| + 1) && group == PushAll(start, done + results)
    ensures results == Results(t, before) && s == Drained(t, before) && group == PushAll(start, done + Results(t, before))
  {
    s, group, results := before, sent, [];
    assert done + results == done;
    var goOn := true;
    while goOn
      invariant group == PushAll(start, done + results)
      invariant goOn ==> AnswersSoFar(t, before, results) && s == State(t, before, |results|)
      invariant !goOn ==> Answers(t, before, results) && s == State(t, before, |results| + 1)
      decreases goOn, t.left(s)
    {
      var (s1, r) := t.generate(s);
      goOn := r.Some?;
      if goOn {
        AppendMore(done, results, r.value, start);
        AnswersMore(t, before, results, r.value);
        group := Push(group, r.value);
        results := results + [r.value];
      }
      s := s1;
    }
    ResultsAre(t, before);
    AnswersUnique(t, before, results, Results(t, before));
  }

  /** Target `i` is sent data and one end behind what it was sent before: all `items`, or those dealt to
      it. Behind a sequential sender it gets one more end for every block that was completed. */
  ghost predicate StreamSent<V>(start: Sender<V>, items: seq<V>, sent: seq<Message<V>>, i: nat)
    requires Sound(start) && i < |start.sent|
  {
    match start.pattern
    case Broadcast => sent == start.sent[i] + AsData(items) + [End]
    case Scatter => sent == start.sent[i] + AsData(Dealt(items, |start.sent|, Turn(|start.sent|, start.current, i))) + [End]
    case Sequential => sent == PushAll(start, items).sent[i] + [End]
  }

  lemma StreamFinished<V>(start: Sender<V>, items: seq<V>, group: Sender<V>)
    requires Sound(start) && group == Finish(PushAll(start, items))
    ensures |group.sent| == |start.sent| && forall i :: 0 <= i < |start.sent| ==> StreamSent(start, items, group.sent[i], i)
  {
    forall i | 0 <= i < |start.sent|
      ensures StreamSent(start, items, group.sent[i], i)
    {
      FinishedStream(start, items, i);
    }
  }

  /** Runs a reductor to the end of its stream. `log` records every call of `process`: each input once,
      in order. The group is sent exactly the results that can be generated at every pause, and one
      end for every target; a stream without inputs generates nothing. */
  method RunReductor<S(!new), V>(t: Task<S, V>, init: S, inputs: Inputs<V>, start: Sender<V>)
    returns (group: Sender<V>, log: seq<seq<V>>)
    requires Finite(t) && inputs.Valid() && inputs.fetched == 0 && Sound(start)
    modifies inputs
    ensures log == inputs.stream
    ensures inputs.Valid() && inputs.released == inputs.fetched == |inputs.stream|
    ensures group == Finish(PushAll(start, Reduced(t, init, inputs.stream))) && |group.sent| == |start.sent|
    ensures forall i :: 0 <= i < |start.sent| ==> StreamSent(start, Reduced(t, init, inputs.stream), group.sent[i], i)
  {
    group, log := start, [];
    var s := init;
    ghost var pushed: seq<V> := [];
    var active, current := inputs.GetInputs([]);
    assert inputs.stream[0..] == inputs.stream;
    while active
      invariant Processed(inputs, log, active, current) && group == PushAll(start, pushed)
      invariant pushed + Reduced(t, s, inputs.stream[|log|..]) == Reduced(t, init, inputs.stream)
      decreases |inputs.stream| - |log|
    {
      s, active, current, log := ProcessUntilPause(t, s, inputs, current, log);
      Regroup3(pushed, Results(t, s), Reduced(t, Drained(t, s), inputs.stream[|log|..]));
      ghost var results;
      s, group, results := GenerateAll(t, s, group, start, pushed);
      pushed := pushed + results;
    }
    assert inputs.stream[|log|..] == [];
    assert pushed + [] == pushed;
    group := Finish(group);
    StreamFinished(start, pushed, group);
  }

  // What that means for two kinds of reductors.

  /** The state after processing a whole stream without a pause. */
  function Folded<S(!new), V>(t: Task<S, V>, s: S, stream: seq<seq<V>>): S {
    if stream == [] then s else Folded(t, t.process(s, stream[0]).0, stream[1..])
  }

  /** A reductor that never pauses reduces the stream to the results of its last state. */
  lemma {:induction false} NoPause<S(!new), V>(t: Task<S, V>, s: S, stream: seq<seq<V>>)
    requires Finite(t) && stream != [] && forall x, i :: t.process(x, i).1
    ensures Reduced(t, s, stream) == Results(t, Folded(t, s, stream))
  {
    var s1 := t.process(s, stream[0]).0;
    if |stream| == 1 {
      assert stream[1..] == [];
      assert Results(t, s1) + [] == Results(t, s1);
    } else {
      NoPause(t, s1, stream[1..]);
    }
  }

  /** A reductor that pauses after every input acts like a processor with any number of results. */
  function Batches<S(!new), V>(t: Task<S, V>, s: S, stream: seq<seq<V>>): seq<V>
    requires Finite(t)
  {
    if stream == [] then []
    else
      var s1 := t.process(s, stream[0]).0;
      Results(t, s1) + Batches(t, Drained(t, s1), stream[1..])
  }

  lemma {:induction false} AlwaysPause<S(!new), V>(t: Task<S, V>, s: S, stream: seq<seq<V>>)
    requires Finite(t) && forall x, i :: !t.process(x, i).1
    ensures Reduced(t, s, stream) == Batches(t, s, stream)
  {
    if stream != [] {
      AlwaysPause(t, Drained(t, t.process(s, stream[0]).0), stream[1..]);
    }
  }

  /** Splitting a stream where the reductor pauses splits its results. */
  lemma {:induction false} PauseSplits<S(!new), V>(t: Task<S, V>, s: S, a: seq<seq<V>>, b: seq<seq<V>>)
    requires Finite(t) && a != [] && PausesAt(t, s, a)
    ensures Reduced(t, s, a + b) == Reduced(t, s, a) + Reduced(t, After(t, s, a), b)
  {
    var (s1, goOn) := t.process(s, a[0]);
    assert (a + b)[0] == a[0] && (a + b)[1..] == a[1..] + b;
    if |a| == 1 {
      assert a[1..] == [] && a[1..] + b == b;
      assert Reduced(t, s, a) == Results(t, s1);
    } else {
      PauseSplits(t, if goOn then s1 else Drained(t, s1), a[1..], b);
      Regroup3(Results(t, s1), Reduced(t, Drained(t, s1), a[1..]), Reduced(t, After(t, s, a), b));
    }
  }

  /** The task pauses after the last input of `a`. */
  ghost predicate PausesAt<S(!new), V>(t: Task<S, V>, s: S, a: seq<seq<V>>)
    requires Finite(t) && a != []
  {
    var (s1, goOn) := t.process(s, a[0]);
    if |a| == 1 then !goOn else PausesAt(t, if goOn then s1 else Drained(t, s1), a[1..])
  }

  function After<S(!new), V>(t: Task<S, V>, s: S, a: seq<seq<V>>): S
    requires Finite(t) && a != []
  {
    var (s1, goOn) := t.process(s, a[0]);
    if |a| == 1 then Drained(t, s1) else After(t, if goOn then s1 else Drained(t, s1), a[1..])
  }
}
