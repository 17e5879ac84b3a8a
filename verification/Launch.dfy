/** The parser of pipeline descriptions without brackets: chains of tasks with properties, joined by
    exclamation marks. The position of the parser is the list of tokens that are left. */
module Launch {
  import opened Tokenizer
  import G = Graph
  import opened Wrappers

  datatype Property = Property(key: string, value: string)

  datatype Task = Task(name: string, properties: seq<Property>)

  /** What is left of a list of tokens: nothing, or something that ends with a stop. */
  predicate Stopped(ts: seq<Token>) {
    && (ts != [] ==> ts[|ts| - 1].kind == Stop)
    && forall i :: 0 <= i < |ts| ==> ts[i].kind != ParenOpen
  }

  function SkipSpaces(ts: seq<Token>): (r: seq<Token>)
    ensures |r| <= |ts| && (Stopped(ts) ==> Stopped(r)) && (Stopped(ts) && ts != [] ==> r != [])
  {
    if ts != [] && ts[0].kind == Space then SkipSpaces(ts[1..]) else ts
  }

  predicate IsAssignment(ts: seq<Token>) {
    |ts| >= 3 && ts[0].kind == String && ts[1].kind == Assignment && ts[2].kind == String
  }

  /** The properties from here on. */
  function PropertiesOf(ts: seq<Token>): seq<Property>
    decreases |ts|
  {
    if IsAssignment(ts) then [Property(ts[0].text, ts[2].text)] + PropertiesOf(SkipSpaces(ts[3..])) else []
  }

  function AfterProperties(ts: seq<Token>): (r: seq<Token>)
    ensures |r| <= |ts| && (Stopped(ts) ==> Stopped(r)) && (Stopped(ts) && ts != [] ==> r != [])
    decreases |ts|
  {
    if IsAssignment(ts) then AfterProperties(SkipSpaces(ts[3..])) else ts
  }

  lemma NextProperty(ts: seq<Token>, done: seq<Property>)
    requires IsAssignment(ts)
    ensures var next := SkipSpaces(ts[3..]);
            && AfterProperties(ts) == AfterProperties(next)
            && (done + [Property(ts[0].text, ts[2].text)]) + PropertiesOf(next) == done + PropertiesOf(ts)
  {
    Regroup(done, Property(ts[0].text, ts[2].text), PropertiesOf(SkipSpaces(ts[3..])));
  }

  function TaskOf(ts: seq<Token>): Task
    requires ts != []
  {
    Task(ts[0].text, PropertiesOf(SkipSpaces(ts[1..])))
  }

  function AfterTask(ts: seq<Token>): (r: seq<Token>)
    requires ts != []
    ensures |r| < |ts| && (Stopped(ts) ==> Stopped(r))
  {
    AfterProperties(SkipSpaces(ts[1..]))
  }

  /** The result of reading a chain: its tasks, what is left, and whether a task was not known. */
  datatype Chain = Chain(tasks: seq<Task>, rest: seq<Token>, failed: bool)

  /** The chain that begins with `done` and goes on at `ts`, as long as there are exclamation marks with
      a task. */
  function MoreTasks(known: string -> bool, done: seq<Task>, ts: seq<Token>): (r: Chain)
    ensures |r.rest| <= |ts| && (Stopped(ts) ==> Stopped(r.rest)) && |r.tasks| >= |done|
    decreases |ts|
  {
    var here := SkipSpaces(ts);
    if here == [] || here[0].kind != Exclamation then Chain(done, here, false)
    else
      var next := SkipSpaces(here[1..]);
      if next == [] then Chain(done, next, false)
      else if next[0].kind != String then Chain(done, next[1..], false)
      else if !known(next[0].text) then Chain(done, next[1..], true)
      else MoreTasks(known, done + [TaskOf(next)], AfterTask(next))
  }

  /** A chain without tasks ends the description. */
  function ReadChain(known: string -> bool, ts: seq<Token>): (r: Chain)
    ensures |r.rest| <= |ts| && (r.tasks != [] ==> |r.rest| < |ts|) && (Stopped(ts) ==> Stopped(r.rest))
  {
    var here := SkipSpaces(ts);
    if here == [] || here[0].kind != String then Chain([], here, false)
    else if !known(here[0].text) then Chain([], here[1..], true)
    else MoreTasks(known, [TaskOf(here)], AfterTask(here))
  }

  /** The connections between the tasks `first`, `first` + 1, ..., each to the default port. */
  function Links(first: nat, n: nat): seq<G.Edge> {
    if n <= 1 then [] else Links(first, n - 1) + [G.Edge(first + n - 2, first + n - 1, 0)]
  }

  lemma LinksMore(made: seq<G.Edge>, first: nat, n: nat)
    requires n >= 1
    ensures (made + Links(first, n)) + [G.Edge(first + n - 1, first + n, 0)] == made + Links(first, n + 1)
  {
    Regroup(made, G.Edge(first + n - 1, first + n, 0), []);
    assert Links(first, n + 1) == Links(first, n) + [G.Edge(first + n - 1, first + n, 0)];
  }

  /** Everything that was parsed: tasks, and the connections in the order in which they were made. */
  datatype Parsed = Parsed(tasks: seq<Task>, links: seq<G.Edge>, rest: seq<Token>, failed: bool)

  function ParseFrom(known: string -> bool, p: Parsed): (r: Parsed)
    ensures Stopped(p.rest) ==> Stopped(r.rest)
    decreases |p.rest|
  {
    var c := ReadChain(known, p.rest);
    var next := Parsed(p.tasks + c.tasks, p.links + Links(|p.tasks|, |c.tasks|), c.rest, c.failed);
    if c.tasks == [] || c.failed then next else ParseFrom(known, next)
  }

  class Environment {
    const known: string -> bool
    var current: seq<Token>
    var tasks: seq<Task>
    var links: seq<G.Edge>
    var failed: bool

    function Value(): Parsed
      reads this
    {
      Parsed(tasks, links, current, failed)
    }

    constructor (tokens: seq<Token>, known: string -> bool)
      ensures Value() == Parsed([], [], tokens, false) && this.known == known
    {
      this.known, current, tasks, links, failed := known, tokens, [], [], false;
    }

    method Consume() returns (t: Token)
      requires current != []
      modifies this`current
      ensures t == old(current[0]) && current == old(current[1..])
    {
      t := current[0];
      current := current[1..];
    }

    method ConsumeSpaces()
      modifies this`current
      ensures current == SkipSpaces(old(current))
    {
      while current != [] && current[0].kind == Space
        invariant SkipSpaces(current) == SkipSpaces(old(current))
        decreases |current|
      {
        current := current[1..];
      }
    }

    method ConsumeMaybe(kind: Kind) returns (result: bool)
      modifies this`current
      ensures var here := SkipSpaces(old(current));
              && result == (here != [] && here[0].kind == kind)
              && current == if result then here[1..] else here
    {
      ConsumeSpaces();
      var tmp := current;
      result := false;
      if current != [] {
        var t := Consume();
        result := t.kind == kind;
      }
      if !result {
        current := tmp;
      }
    }

    /** Reads `key = value` and sets the property. A failed attempt may have consumed tokens. */
    method TryConsumeAssignment(task: nat) returns (r: bool)
      requires Stopped(current) && task < |tasks|
      modifies this`current, this`tasks
      ensures r == IsAssignment(old(current))
      ensures r ==> current == old(current[3..])
                    && tasks == old(tasks)[task := Task(old(tasks[task].name), old(tasks[task].properties) + [Property(old(current[0].text), old(current[2].text))])]
      ensures !r ==> tasks == old(tasks)
    {
      r := false;
      if current == [] {
        return;
      }
      var key := Consume();
      if key.kind != String {
        return;
      }
      var equal := Consume();
      if equal.kind != Assignment {
        return;
      }
      var value := Consume();
      if value.kind != String {
        return;
      }
      tasks := tasks[task := Task(tasks[task].name, tasks[task].properties + [Property(key.text, value.text)])];
      r := true;
    }

    /** Reads a task and its properties. */
    method TryConsumeTask() returns (node: Option<nat>)
      requires Stopped(current) && current != [] && !failed
      modifies this`current, this`tasks, this`failed
      ensures var t := old(current[0]);
              if t.kind == String && known(t.text) then
                && node == Some(old(|tasks|)) && tasks == old(tasks) + [TaskOf(old(current))]
                && current == AfterTask(old(current)) && !failed
              else
                node == None && tasks == old(tasks) && current == old(current[1..]) && failed == (t.kind == String)
    {
      ghost var start, before := current, tasks;
      var t := Consume();
      if t.kind != String {
        return None;
      }
      if !known(t.text) {
        failed := true;
        return None;
      }
      var v := |tasks|;
      tasks := tasks + [Task(t.text, [])];
      ConsumeSpaces();
      ReadProperties(v);
      assert tasks == before + [TaskOf(start)];
      node := Some(v);
    }

    /** Reads one property, or goes back to where it started. */
    method ReadProperty(v: nat, ghost done: seq<Property>) returns (go: bool, ghost done': seq<Property>)
      requires Stopped(current) && v < |tasks| && tasks[v].properties == done
      modifies this`current, this`tasks
      ensures Stopped(current) && tasks == old(tasks)[v := Task(old(tasks[v].name), done')]
      ensures done' + PropertiesOf(current) == done + PropertiesOf(old(current)) && AfterProperties(current) == AfterProperties(old(current))
      ensures if go then |current| < old(|current|) else current == old(current) && !IsAssignment(current)
    {
      var tmp := current;
      done' := done;
      go := TryConsumeAssignment(v);
      if go {
        ConsumeSpaces();
        NextProperty(tmp, done);
        done' := done + [Property(tmp[0].text, tmp[2].text)];
      } else {
        current := tmp;
      }
    }

    method ReadProperties(v: nat)
      requires Stopped(current) && v < |tasks| && tasks[v].properties == []
      modifies this`current, this`tasks
      ensures current == AfterProperties(old(current))
      ensures tasks == old(tasks)[v := Task(old(tasks[v].name), PropertiesOf(old(current)))]
    {
      ghost var start, name := current, tasks[v].name;
      ghost var done: seq<Property> := [];
      var go := true;
      assert done + PropertiesOf(current) == PropertiesOf(current);
      while go
        invariant Stopped(current) && tasks == old(tasks)[v := Task(name, done)]
        invariant done + PropertiesOf(current) == PropertiesOf(start) && AfterProperties(current) == AfterProperties(start)
        invariant !go ==> !IsAssignment(current)
        decreases |current|, go
      {
        ghost var before := done;
        go, done := ReadProperty(v, done);
        SetTwice(old(tasks), v, Task(name, before), Task(name, done));
      }
      assert done + [] == done;
    }

    /** Connects two tasks at the default port; `n` tasks from `first` on were connected before. */
    method ConnectNodes(previous: nat, next: nat, ghost made: seq<G.Edge>, ghost first: nat, ghost n: nat)
      requires n >= 1 && previous == first + n - 1 && next == first + n && links == made + Links(first, n)
      modifies this`links
      ensures links == made + Links(first, n + 1)
    {
      LinksMore(made, first, n);
      links := links + [G.Edge(previous, next, 0)];
    }

    /** Reads an exclamation mark and the task behind it, and connects the task. */
    method ReadNext(previous: nat, ghost done: seq<Task>, ghost made: seq<G.Edge>, ghost first: nat, ghost n: nat)
      returns (next: Option<nat>, ghost task: Task)
      requires Stopped(current) && !failed
      requires n >= 1 && previous == first + n - 1 && |tasks| == first + n && links == made + Links(first, n)
      modifies this
      ensures Stopped(current) && |current| <= old(|current|)
      ensures next.None? ==> MoreTasks(known, done, old(current)) == Chain(done, current, failed)
                               && tasks == old(tasks) && links == old(links)
      ensures next.Some? ==> next.value == old(|tasks|) && tasks == old(tasks) + [task] && !failed
                               && MoreTasks(known, done, old(current)) == MoreTasks(known, done + [task], current)
                               && links == made + Links(first, n + 1)
      ensures next.Some? ==> |current| < old(|current|)
    {
      next, task := None, Task("", []);
      var bang := ConsumeMaybe(Exclamation);
      if bang {
        ConsumeSpaces();
        task := if current == [] then Task("", []) else TaskOf(current);
        next := TryConsumeTask();
        if next.Some? {
          ConnectNodes(previous, next.value, made, first, n);
        }
      }
    }

    /** The `n` tasks `done` of a chain were read, behind `was`, and connected, the last of them being `previous`. */
    ghost predicate Reading(was: seq<Task>, done: seq<Task>, made: seq<G.Edge>, first: nat, n: nat, previous: nat)
      reads this
    {
      n == |done| >= 1 && previous == first + n - 1 && tasks == was + done && links == made + Links(first, n)
    }

    /** Reads one more task, if there is one. */
    method ReadOneMore(previous: nat, ghost was: seq<Task>, ghost done: seq<Task>, ghost made: seq<G.Edge>,
                       ghost first: nat, ghost n: nat)
      returns (go: bool, last: nat, ghost done': seq<Task>, ghost n': nat)
      requires Stopped(current) && !failed && |was| == first && Reading(was, done, made, first, n, previous)
      modifies this
      ensures Stopped(current) && Reading(was, done', made, first, n', last)
      ensures go ==> !failed && |current| < old(|current|) && MoreTasks(known, done, old(current)) == MoreTasks(known, done', current)
      ensures !go ==> |current| <= old(|current|) && MoreTasks(known, done, old(current)) == Chain(done', current, failed)
    {
      ghost var task;
      var next;
      next, task := ReadNext(previous, done, made, first, n);
      go, last, done', n' := next.Some?, previous, done, n;
      if go {
        OneLonger(was, done, task);
        last, done', n' := next.value, done + [task], n + 1;
      }
    }

    /** Reads the tasks behind the exclamation marks; `n` counts the tasks of the chain. */
    method ReadMore(first: nat, ghost was: seq<Task>, ghost head: Task) returns (ghost n: nat, ghost done: seq<Task>)
      requires Stopped(current) && !failed && |was| == first && tasks == was + [head]
      modifies this
      ensures n == |done| >= 1 && tasks == was + done
      ensures MoreTasks(known, [head], old(current)) == Chain(done, current, failed)
      ensures links == old(links) + Links(first, n)
    {
      var previous := first;
      ghost var made, c := links, MoreTasks(known, [head], current);
      n, done := 1, [head];
      var go := true;
      while go
        invariant Stopped(current) && Reading(was, done, made, first, n, previous) && (go ==> !failed)
        invariant c == if go then MoreTasks(known, done, current) else Chain(done, current, failed)
        decreases go, |current|
      {
        go, previous, done, n := ReadOneMore(previous, was, done, made, first, n);
      }
    }

    /** Reads a chain of `n` tasks and connects them; gives the last task, if there is one. */
    method ReadConnection() returns (last: Option<nat>, ghost n: nat)
      requires Stopped(current) && !failed
      modifies this
      ensures var c := ReadChain(known, old(current));
              tasks == old(tasks) + c.tasks && n == |c.tasks| && current == c.rest && failed == c.failed
      ensures links == old(links) + Links(old(|tasks|), n)
      ensures last.None? <==> n == 0
      ensures last.Some? ==> last.value == |tasks| - 1
    {
      ConsumeSpaces();
      if current == [] || current[0].kind != String {
        return None, 0;
      }
      ghost var was, here := tasks, current;
      var first := TryConsumeTask();
      if first.None? {
        return None, 0;
      }
      ghost var done;
      n, done := ReadMore(first.value, was, TaskOf(here));
      last := Some(|tasks| - 1);
    }

    /** Parses a whole description. The tasks and their graph count if no task was unknown. */
    method Parse()
      requires Stopped(current) && !failed && tasks == [] && links == []
      modifies this
      ensures Value() == ParseFrom(known, old(Value()))
    {
      var more := true;
      while more && !failed
        invariant Stopped(current)
        invariant more && !failed ==> ParseFrom(known, Value()) == ParseFrom(known, old(Value()))
        invariant !(more && !failed) ==> Value() == ParseFrom(known, old(Value()))
        decreases more, |current|
      {
        var last, n := ReadConnection();
        more := last != None;
      }
    }
  }

  lemma OneLonger(was: seq<Task>, done: seq<Task>, task: Task)
    ensures (was + done) + [task] == was + (done + [task])
  {
  }

  lemma SetTwice<T>(s: seq<T>, v: nat, x: T, y: T)
    requires v < |s|
    ensures s[v := x][v := y] == s[v := y]
  {
  }

  lemma Regroup<T>(a: seq<T>, x: T, b: seq<T>)
    ensures (a + [x]) + b == a + ([x] + b)
  {
  }
}
