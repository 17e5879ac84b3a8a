/** Printing a chain of tasks, reading it again, and getting the same chain. */
module RoundTrip {
  import opened Tokenizer
  import opened Launch
  import G = Graph

  /** What can be written between quotes so that it is one token. */
  predicate Word(w: string) {
    w != "" && forall i :: 0 <= i < |w| ==> w[i] != QUOTE
  }

  ghost predicate Printable(t: Task) {
    Word(t.name) && forall i :: 0 <= i < |t.properties| ==> Word(t.properties[i].key) && Word(t.properties[i].value)
  }

  function Quoted(w: string): string { [QUOTE] + w + [QUOTE] }

  function PrintProperties(ps: seq<Property>): string {
    if ps == [] then "" else " " + Quoted(ps[0].key) + "=" + Quoted(ps[0].value) + PrintProperties(ps[1..])
  }

  function PrintTask(t: Task): string { Quoted(t.name) + PrintProperties(t.properties) }

  function PrintMore(tasks: seq<Task>): string {
    if tasks == [] then "" else " ! " + PrintTask(tasks[0]) + PrintMore(tasks[1..])
  }

  function PrintChain(tasks: seq<Task>): string
    requires tasks != []
  {
    PrintTask(tasks[0]) + PrintMore(tasks[1..])
  }

  /** Several chains, one behind the other. */
  function PrintChains(chains: seq<seq<Task>>): string
    requires chains != [] && forall i :: 0 <= i < |chains| ==> chains[i] != []
  {
    PrintChain(chains[0]) + if |chains| == 1 then "" else " " + PrintChains(chains[1..])
  }

  // The tokens of a printed chain.

  const SPACE := Token(Space, "")
  const BANG := Token(Exclamation, "")
  const EQUAL := Token(Assignment, "")

  function Str(w: string): Token { Token(String, w) }

  function PropertyTokens(ps: seq<Property>): seq<Token> {
    if ps == [] then [] else [SPACE, Str(ps[0].key), EQUAL, Str(ps[0].value)] + PropertyTokens(ps[1..])
  }

  function TaskTokens(t: Task): seq<Token> { [Str(t.name)] + PropertyTokens(t.properties) }

  function MoreTokens(tasks: seq<Task>): seq<Token> {
    if tasks == [] then [] else [SPACE, BANG, SPACE] + (TaskTokens(tasks[0]) + MoreTokens(tasks[1..]))
  }

  /** The lexer behind a word, outside quotes. */
  function Behind(tokens: seq<Token>): Lexer { Lexer(tokens, true, false) }

  lemma {:induction false} LexInside(tokens: seq<Token>, a: string, w: string)
    requires forall i :: 0 <= i < |w| ==> w[i] != QUOTE
    ensures Lex(Lexer(tokens + [Str(a)], true, true), w) == Lexer(tokens + [Str(a + w)], true, true)
    decreases |w|
  {
    if w == "" {
      assert a + w == a;
    } else {
      var s := Lexer(tokens + [Str(a)], true, true);
      assert Next(s, w[0]).tokens == tokens + [Str(a + [w[0]])];
      LexInside(tokens, a + [w[0]], w[1..]);
      assert (a + [w[0]]) + w[1..] == a + w;
    }
  }

  lemma {:induction false} LexWord(tokens: seq<Token>, w: string)
    requires Word(w)
    ensures Lex(Before(tokens), Quoted(w)) == Behind(tokens + [Str(w)])
  {
    var inside := Lexer(tokens, false, true);
    assert Quoted(w) == [QUOTE] + (w + [QUOTE]);
    LexAppend(Before(tokens), [QUOTE], w + [QUOTE]);
    LexSingle(Before(tokens), QUOTE);
    LexAppend(inside, w, [QUOTE]);
    assert Next(inside, w[0]) == Lexer(tokens + [Str([w[0]])], true, true);
    LexInside(tokens, [w[0]], w[1..]);
    assert [w[0]] + w[1..] == w;
    LexSingle(Lexer(tokens + [Str(w)], true, true), QUOTE);
  }

  lemma {:induction false} LexSingle(s: Lexer, c: char)
    requires s.open ==> s.tokens != []
    ensures Lex(s, [c]) == Next(s, c)
  {
    assert [c][1..] == "";
  }

  lemma {:induction false} LexSymbol(tokens: seq<Token>, open: bool, c: char)
    requires (open ==> tokens != []) && c != QUOTE && KindOf(c) != String
    ensures Lex(Lexer(tokens, open, false), [c]) == Before(tokens + [Token(KindOf(c), "")])
  {
    LexSingle(Lexer(tokens, open, false), c);
  }

  /** A property: a space, a word, an equal sign, a word. */
  lemma {:induction false} LexProperty(tokens: seq<Token>, p: Property)
    requires tokens != [] && Word(p.key) && Word(p.value)
    ensures Lex(Behind(tokens), " " + Quoted(p.key) + "=" + Quoted(p.value))
         == Behind(tokens + [SPACE, Str(p.key), EQUAL, Str(p.value)])
  {
    var t1, t2, t3 := tokens + [SPACE], tokens + [SPACE, Str(p.key)], tokens + [SPACE, Str(p.key), EQUAL];
    LexAppend(Behind(tokens), " " + Quoted(p.key) + "=", Quoted(p.value));
    LexAppend(Behind(tokens), " " + Quoted(p.key), "=");
    LexAppend(Behind(tokens), " ", Quoted(p.key));
    LexSymbol(tokens, true, ' ');
    LexWord(t1, p.key);
    assert t1 + [Str(p.key)] == t2;
    LexSymbol(t2, true, '=');
    assert t2 + [EQUAL] == t3;
    LexWord(t3, p.value);
    assert t3 + [Str(p.value)] == tokens + [SPACE, Str(p.key), EQUAL, Str(p.value)];
  }

  lemma {:induction false} LexProperties(tokens: seq<Token>, ps: seq<Property>)
    requires tokens != [] && forall i :: 0 <= i < |ps| ==> Word(ps[i].key) && Word(ps[i].value)
    ensures Lex(Behind(tokens), PrintProperties(ps)) == Behind(tokens + PropertyTokens(ps))
    decreases |ps|
  {
    if ps == [] {
      assert tokens + [] == tokens;
    } else {
      var first := " " + Quoted(ps[0].key) + "=" + Quoted(ps[0].value);
      var next := tokens + [SPACE, Str(ps[0].key), EQUAL, Str(ps[0].value)];
      LexAppend(Behind(tokens), first, PrintProperties(ps[1..]));
      LexProperty(tokens, ps[0]);
      LexProperties(next, ps[1..]);
      Associate(tokens, [SPACE, Str(ps[0].key), EQUAL, Str(ps[0].value)], PropertyTokens(ps[1..]));
    }
  }

  lemma {:induction false} LexTask(tokens: seq<Token>, t: Task)
    requires Printable(t)
    ensures Lex(Before(tokens), PrintTask(t)) == Behind(tokens + TaskTokens(t))
  {
    LexAppend(Before(tokens), Quoted(t.name), PrintProperties(t.properties));
    LexWord(tokens, t.name);
    LexProperties(tokens + [Str(t.name)], t.properties);
    assert (tokens + [Str(t.name)]) + PropertyTokens(t.properties) == tokens + TaskTokens(t);
  }

  lemma {:induction false} LexBang(tokens: seq<Token>)
    requires tokens != []
    ensures Lex(Behind(tokens), " ! ") == Before(tokens + [SPACE, BANG, SPACE])
  {
    var t1, t2 := tokens + [SPACE], tokens + [SPACE, BANG];
    assert " ! " == (" " + "!") + " ";
    LexAppend(Behind(tokens), " " + "!", " ");
    LexAppend(Behind(tokens), " ", "!");
    LexSymbol(tokens, true, ' ');
    LexSymbol(t1, false, '!');
    assert t1 + [BANG] == t2;
    LexSymbol(t2, false, ' ');
    assert t2 + [SPACE] == tokens + [SPACE, BANG, SPACE];
  }

  lemma {:induction false} LexNextTask(tokens: seq<Token>, t: Task)
    requires tokens != [] && Printable(t)
    ensures Lex(Behind(tokens), " ! " + PrintTask(t)) == Behind((tokens + [SPACE, BANG, SPACE]) + TaskTokens(t))
  {
    LexAppend(Behind(tokens), " ! ", PrintTask(t));
    LexBang(tokens);
    LexTask(tokens + [SPACE, BANG, SPACE], t);
  }

  lemma {:induction false} Concatenate(a: seq<Token>, b: seq<Token>, c: seq<Token>, d: seq<Token>)
    ensures ((a + b) + c) + d == a + (b + (c + d))
  {
  }

  lemma {:induction false} LexMore(tokens: seq<Token>, tasks: seq<Task>)
    requires tokens != [] && forall i :: 0 <= i < |tasks| ==> Printable(tasks[i])
    ensures Lex(Behind(tokens), PrintMore(tasks)) == Behind(tokens + MoreTokens(tasks))
    decreases |tasks|
  {
    if tasks == [] {
      assert tokens + [] == tokens;
    } else {
      LexAppend(Behind(tokens), " ! " + PrintTask(tasks[0]), PrintMore(tasks[1..]));
      LexNextTask(tokens, tasks[0]);
      LexMore((tokens + [SPACE, BANG, SPACE]) + TaskTokens(tasks[0]), tasks[1..]);
      Concatenate(tokens, [SPACE, BANG, SPACE], TaskTokens(tasks[0]), MoreTokens(tasks[1..]));
    }
  }

  function ChainTokens(tasks: seq<Task>): seq<Token>
    requires tasks != []
  {
    TaskTokens(tasks[0]) + MoreTokens(tasks[1..])
  }

  function ChainsTokens(chains: seq<seq<Task>>): seq<Token>
    requires chains != [] && forall i :: 0 <= i < |chains| ==> chains[i] != []
  {
    ChainTokens(chains[0]) + if |chains| == 1 then [] else [SPACE] + ChainsTokens(chains[1..])
  }

  ghost predicate PrintableChain(tasks: seq<Task>) {
    tasks != [] && forall i :: 0 <= i < |tasks| ==> Printable(tasks[i])
  }

  ghost predicate PrintableChains(chains: seq<seq<Task>>) {
    chains != [] && forall i :: 0 <= i < |chains| ==> PrintableChain(chains[i])
  }

  lemma {:induction false} LexChainBehind(tokens: seq<Token>, tasks: seq<Task>)
    requires PrintableChain(tasks)
    ensures Lex(Before(tokens), PrintChain(tasks)) == Behind(tokens + ChainTokens(tasks))
  {
    LexAppend(Before(tokens), PrintTask(tasks[0]), PrintMore(tasks[1..]));
    LexTask(tokens, tasks[0]);
    LexMore(tokens + TaskTokens(tasks[0]), tasks[1..]);
    assert (tokens + TaskTokens(tasks[0])) + MoreTokens(tasks[1..]) == tokens + ChainTokens(tasks) by {
      Associate(tokens, TaskTokens(tasks[0]), MoreTokens(tasks[1..]));
    }
  }

  lemma {:induction false} LexSpaceBehind(tokens: seq<Token>, chain: seq<Token>)
    requires chain != []
    ensures Lex(Behind(tokens + chain), " ") == Before(tokens + (chain + [SPACE]))
  {
    LexSymbol(tokens + chain, true, ' ');
    assert (tokens + chain) + [SPACE] == tokens + (chain + [SPACE]);
  }

  /** Several chains: the first, a space, and the rest. */
  lemma {:induction false} LexNextChains(tokens: seq<Token>, chain: string, rest: string, chainTokens: seq<Token>, restTokens: seq<Token>)
    requires chainTokens != [] && Lex(Before(tokens), chain) == Behind(tokens + chainTokens)
    requires Lex(Before(tokens + (chainTokens + [SPACE])), rest) == Behind((tokens + (chainTokens + [SPACE])) + restTokens)
    ensures Lex(Before(tokens), chain + (" " + rest)) == Behind(tokens + (chainTokens + ([SPACE] + restTokens)))
  {
    LexAppend(Before(tokens), chain, " " + rest);
    LexAppend(Behind(tokens + chainTokens), " ", rest);
    LexSpaceBehind(tokens, chainTokens);
    assert (tokens + (chainTokens + [SPACE])) + restTokens == tokens + (chainTokens + ([SPACE] + restTokens));
  }

  lemma {:induction false} LexChainsBehind(tokens: seq<Token>, chains: seq<seq<Task>>)
    requires PrintableChains(chains)
    ensures Lex(Before(tokens), PrintChains(chains)) == Behind(tokens + ChainsTokens(chains))
    decreases |chains|
  {
    var chain, rest := ChainTokens(chains[0]), chains[1..];
    LexChainBehind(tokens, chains[0]);
    if |chains| == 1 {
      assert PrintChains(chains) == PrintChain(chains[0]) && ChainsTokens(chains) == chain;
    } else {
      LexChainsBehind(tokens + (chain + [SPACE]), rest);
      LexNextChains(tokens, PrintChain(chains[0]), PrintChains(rest), chain, ChainsTokens(rest));
    }
  }

  /** The tokens of printed chains. */
  lemma {:induction false} LexChains(chains: seq<seq<Task>>)
    requires PrintableChains(chains)
    ensures Lexed(PrintChains(chains)) == ChainsTokens(chains) + [STOP]
  {
    LexChainsBehind([], chains);
    assert [] + ChainsTokens(chains) == ChainsTokens(chains);
  }

  /** The tokens of one printed chain. */
  lemma {:induction false} LexChain(tasks: seq<Task>)
    requires PrintableChain(tasks)
    ensures Lexed(PrintChain(tasks)) == ChainTokens(tasks) + [STOP]
  {
    LexChainBehind([], tasks);
    assert [] + ChainTokens(tasks) == ChainTokens(tasks);
  }

  // Parsing these tokens.

  lemma {:induction false} SkipOne(ts: seq<Token>)
    requires ts != [] && ts[0].kind != Space
    ensures SkipSpaces([SPACE] + ts) == ts
  {
    assert ([SPACE] + ts)[1..] == ts;
  }

  lemma {:induction false} PropertyStep(p: Property, next: seq<Token>)
    ensures var here := [Str(p.key), EQUAL, Str(p.value)] + next;
            && PropertiesOf(here) == [p] + PropertiesOf(SkipSpaces(next))
            && AfterProperties(here) == AfterProperties(SkipSpaces(next))
  {
    var here := [Str(p.key), EQUAL, Str(p.value)] + next;
    assert here[3..] == next;
  }

  lemma {:induction false} PropertyFirst(ps: seq<Property>, rest: seq<Token>)
    requires ps != []
    ensures PropertyTokens(ps) + rest == [SPACE] + ([Str(ps[0].key), EQUAL, Str(ps[0].value)] + (PropertyTokens(ps[1..]) + rest))
  {
  }

  lemma {:induction false} FirstProperty(ps: seq<Property>, all: seq<Token>, next: seq<Token>, after: seq<Token>)
    requires ps != [] && all == [SPACE] + ([Str(ps[0].key), EQUAL, Str(ps[0].value)] + next)
    requires PropertiesOf(SkipSpaces(next)) == ps[1..] && AfterProperties(SkipSpaces(next)) == after
    ensures PropertiesOf(SkipSpaces(all)) == ps && AfterProperties(SkipSpaces(all)) == after
  {
    SkipOne([Str(ps[0].key), EQUAL, Str(ps[0].value)] + next);
    PropertyStep(ps[0], next);
  }

  lemma {:induction false} ParseProperties(ps: seq<Property>, rest: seq<Token>)
    requires !IsAssignment(SkipSpaces(rest))
    ensures PropertiesOf(SkipSpaces(PropertyTokens(ps) + rest)) == ps
    ensures AfterProperties(SkipSpaces(PropertyTokens(ps) + rest)) == SkipSpaces(rest)
    decreases |ps|
  {
    if ps == [] {
      assert PropertyTokens(ps) + rest == rest;
    } else {
      PropertyFirst(ps, rest);
      ParseProperties(ps[1..], rest);
      FirstProperty(ps, PropertyTokens(ps) + rest, PropertyTokens(ps[1..]) + rest, SkipSpaces(rest));
    }
  }

  lemma {:induction false} ParseTask(t: Task, rest: seq<Token>)
    requires !IsAssignment(SkipSpaces(rest))
    ensures var ts := TaskTokens(t) + rest;
            ts[0] == Str(t.name) && TaskOf(ts) == t && AfterTask(ts) == SkipSpaces(rest)
  {
    var ts := TaskTokens(t) + rest;
    assert ts[1..] == PropertyTokens(t.properties) + rest;
    ParseProperties(t.properties, rest);
  }

  ghost predicate AllKnown(known: string -> bool, tasks: seq<Task>) {
    forall i :: 0 <= i < |tasks| ==> known(tasks[i].name)
  }

  /** What can follow a task: it is not taken for a property. */
  predicate Follows(end: seq<Token>) { !IsAssignment(SkipSpaces(end)) }

  lemma {:induction false} MoreFirst(tasks: seq<Task>, end: seq<Token>)
    requires tasks != []
    ensures MoreTokens(tasks) + end == [SPACE] + ([BANG, SPACE] + (TaskTokens(tasks[0]) + (MoreTokens(tasks[1..]) + end)))
  {
  }

  /** The tokens behind a task begin with a space and an exclamation mark. */
  lemma {:induction false} SkipToBang(tasks: seq<Task>, end: seq<Token>)
    requires tasks != []
    ensures SkipSpaces(MoreTokens(tasks) + end) == [BANG, SPACE] + (TaskTokens(tasks[0]) + (MoreTokens(tasks[1..]) + end))
  {
    MoreFirst(tasks, end);
    SkipOne([BANG, SPACE] + (TaskTokens(tasks[0]) + (MoreTokens(tasks[1..]) + end)));
  }

  lemma {:induction false} MoreFollows(tasks: seq<Task>, end: seq<Token>)
    requires Follows(end)
    ensures Follows(MoreTokens(tasks) + end)
  {
    if tasks == [] {
      assert MoreTokens(tasks) + end == end;
    } else {
      SkipToBang(tasks, end);
    }
  }

  lemma {:induction false} BehindBang(tasks: seq<Task>, end: seq<Token>, task: seq<Token>)
    requires tasks != [] && task == TaskTokens(tasks[0]) + (MoreTokens(tasks[1..]) + end)
    ensures var here := SkipSpaces(MoreTokens(tasks) + end);
            here != [] && here[0] == BANG && SkipSpaces(here[1..]) == task
  {
    assert task != [] && task[0].kind != Space;
    assert ([BANG, SPACE] + task)[1..] == [SPACE] + task;
    SkipToBang(tasks, end);
    SkipOne(task);
  }

  lemma {:induction false} GoesOn(known: string -> bool, done: seq<Task>, here: seq<Token>, task: seq<Token>)
    requires here != [] && here[0].kind == Exclamation && task == SkipSpaces(here[1..])
    requires task != [] && task[0].kind == String && known(task[0].text)
    ensures MoreTasks(known, done, here) == MoreTasks(known, done + [TaskOf(task)], AfterTask(task))
  {
    assert SkipSpaces(here) == here;
  }

  lemma {:induction false} ParseNext(known: string -> bool, done: seq<Task>, tasks: seq<Task>, end: seq<Token>)
    requires tasks != [] && known(tasks[0].name) && Follows(end)
    ensures MoreTasks(known, done, SkipSpaces(MoreTokens(tasks) + end))
         == MoreTasks(known, done + [tasks[0]], SkipSpaces(MoreTokens(tasks[1..]) + end))
  {
    var rest := MoreTokens(tasks[1..]) + end;
    var task := TaskTokens(tasks[0]) + rest;
    BehindBang(tasks, end, task);
    MoreFollows(tasks[1..], end);
    ParseTask(tasks[0], rest);
    GoesOn(known, done, SkipSpaces(MoreTokens(tasks) + end), task);
  }

  lemma {:induction false} Shift(done: seq<Task>, tasks: seq<Task>)
    requires tasks != []
    ensures (done + [tasks[0]]) + tasks[1..] == done + tasks
  {
  }

  /** Known tasks behind exclamation marks are read, whatever follows. */
  lemma {:induction false} ParseMore(known: string -> bool, done: seq<Task>, tasks: seq<Task>, end: seq<Token>)
    requires AllKnown(known, tasks) && Follows(end)
    ensures MoreTasks(known, done, SkipSpaces(MoreTokens(tasks) + end)) == MoreTasks(known, done + tasks, SkipSpaces(end))
    decreases |tasks|
  {
    if tasks == [] {
      assert MoreTokens(tasks) + end == end && done + tasks == done;
    } else {
      assert known(tasks[0].name);
      ParseNext(known, done, tasks, end);
      ParseMore(known, done + [tasks[0]], tasks[1..], end);
      Shift(done, tasks);
    }
  }

  lemma {:induction false} ReadFirst(known: string -> bool, ts: seq<Token>, t: Task, rest: seq<Token>)
    requires ts != [] && ts[0].kind == String && known(ts[0].text) && TaskOf(ts) == t && AfterTask(ts) == rest
    ensures ReadChain(known, ts) == MoreTasks(known, [t], rest)
  {
  }

  lemma {:induction false} ParseHead(known: string -> bool, tasks: seq<Task>, end: seq<Token>)
    requires tasks != [] && known(tasks[0].name) && Follows(end)
    ensures ReadChain(known, ChainTokens(tasks) + end) == MoreTasks(known, [tasks[0]], SkipSpaces(MoreTokens(tasks[1..]) + end))
  {
    var rest := MoreTokens(tasks[1..]) + end;
    var all := TaskTokens(tasks[0]) + rest;
    MoreFollows(tasks[1..], end);
    ParseTask(tasks[0], rest);
    Associate(TaskTokens(tasks[0]), MoreTokens(tasks[1..]), end);
    ReadFirst(known, all, tasks[0], SkipSpaces(rest));
  }

  /** A chain of known tasks is read, whatever follows. */
  lemma {:induction false} ParseChain(known: string -> bool, tasks: seq<Task>, end: seq<Token>)
    requires tasks != [] && AllKnown(known, tasks) && Follows(end)
    ensures ReadChain(known, ChainTokens(tasks) + end) == MoreTasks(known, tasks, SkipSpaces(end))
  {
    assert known(tasks[0].name);
    ParseHead(known, tasks, end);
    ParseMore(known, [tasks[0]], tasks[1..], end);
    assert [tasks[0]] + tasks[1..] == tasks;
  }

  // What can follow a chain.

  /** The stop, or a token that is no exclamation mark, ends the chain and is left. */
  lemma {:induction false} ChainEnds(known: string -> bool, tasks: seq<Task>, end: seq<Token>)
    requires tasks != [] && AllKnown(known, tasks) && Follows(end)
    requires SkipSpaces(end) != [] && SkipSpaces(end)[0].kind != Exclamation && SkipSpaces(SkipSpaces(end)) == SkipSpaces(end)
    ensures ReadChain(known, ChainTokens(tasks) + end) == Chain(tasks, SkipSpaces(end), false)
  {
    ParseChain(known, tasks, end);
  }

  /** Behind an exclamation mark: a symbol, or an unknown task. */
  lemma {:induction false} Breaks(known: string -> bool, done: seq<Task>, here: seq<Token>, next: seq<Token>)
    requires here != [] && here[0].kind == Exclamation && next == SkipSpaces(here[1..]) != []
    requires next[0].kind == String ==> !known(next[0].text)
    ensures MoreTasks(known, done, here) == Chain(done, next[1..], next[0].kind == String)
  {
    assert SkipSpaces(here) == here;
  }

  lemma {:induction false} MarkAndSymbol(symbol: Token, end: seq<Token>) returns (here: seq<Token>)
    requires symbol.kind != Space
    ensures here == SkipSpaces([SPACE, BANG, SPACE, symbol] + end) != [] && here[0] == BANG
    ensures SkipSpaces(here[1..]) == [symbol] + end && ([symbol] + end)[1..] == end
  {
    here := [BANG, SPACE, symbol] + end;
    assert [SPACE, BANG, SPACE, symbol] + end == [SPACE] + here;
    SkipOne(here);
    assert here[1..] == [SPACE] + ([symbol] + end);
    SkipOne([symbol] + end);
  }

  /** An exclamation mark with another symbol behind it ends the chain; the symbol is dropped, and there
      is no error. */
  lemma {:induction false} DanglingMark(known: string -> bool, tasks: seq<Task>, symbol: Token, end: seq<Token>)
    requires tasks != [] && AllKnown(known, tasks) && symbol.kind != String && symbol.kind != Space
    ensures ReadChain(known, ChainTokens(tasks) + ([SPACE, BANG, SPACE, symbol] + end)) == Chain(tasks, end, false)
  {
    var here := MarkAndSymbol(symbol, end);
    ParseChain(known, tasks, [SPACE, BANG, SPACE, symbol] + end);
    Breaks(known, tasks, here, [symbol] + end);
  }

  /** The tokens behind the name of task `u`. */
  function BehindName(tasks: seq<Task>, u: nat): seq<Token>
    requires u < |tasks|
  {
    PropertyTokens(tasks[u].properties) + (MoreTokens(tasks[u + 1..]) + [STOP])
  }

  ghost predicate FirstUnknown(known: string -> bool, tasks: seq<Task>, u: nat) {
    u < |tasks| && AllKnown(known, tasks[..u]) && !known(tasks[u].name)
  }

  lemma {:induction false} NameFirst(tasks: seq<Task>, task: seq<Token>)
    requires tasks != [] && task == TaskTokens(tasks[0]) + (MoreTokens(tasks[1..]) + [STOP])
    ensures task != [] && task[0] == Str(tasks[0].name) && task[1..] == BehindName(tasks, 0)
  {
  }

  lemma {:induction false} UnknownNext(known: string -> bool, done: seq<Task>, tasks: seq<Task>)
    requires tasks != [] && !known(tasks[0].name)
    ensures MoreTasks(known, done, SkipSpaces(MoreTokens(tasks) + [STOP])) == Chain(done, BehindName(tasks, 0), true)
  {
    var task := TaskTokens(tasks[0]) + (MoreTokens(tasks[1..]) + [STOP]);
    BehindBang(tasks, [STOP], task);
    NameFirst(tasks, task);
    Breaks(known, done, SkipSpaces(MoreTokens(tasks) + [STOP]), task);
  }

  lemma {:induction false} MoreSplit(a: seq<Task>, b: seq<Task>, end: seq<Token>)
    ensures MoreTokens(a + b) + end == MoreTokens(a) + (MoreTokens(b) + end)
    decreases |a|
  {
    if a == [] {
      assert a + b == b && MoreTokens(a) == [];
    } else {
      assert (a + b)[1..] == a[1..] + b;
      MoreSplit(a[1..], b, end);
      MoreFirst(a + b, end);
      MoreFirst(a, MoreTokens(b) + end);
    }
  }

  lemma {:induction false} Associate(a: seq<Token>, b: seq<Token>, c: seq<Token>)
    ensures (a + b) + c == a + (b + c)
  {
  }

  lemma {:induction false} ChainSplit(tasks: seq<Task>, u: nat, end: seq<Token>)
    requires 0 < u <= |tasks|
    ensures ChainTokens(tasks) + end == ChainTokens(tasks[..u]) + (MoreTokens(tasks[u..]) + end)
  {
    var t, a, b := TaskTokens(tasks[0]), tasks[..u][1..], tasks[u..];
    assert tasks[1..] == a + b;
    MoreSplit(a, b, end);
    Associate(t, MoreTokens(tasks[1..]), end);
    Associate(t, MoreTokens(a), MoreTokens(b) + end);
  }

  lemma {:induction false} UnknownFirst(known: string -> bool, tasks: seq<Task>)
    requires tasks != [] && !known(tasks[0].name)
    ensures ReadChain(known, ChainTokens(tasks) + [STOP]) == Chain([], BehindName(tasks, 0), true)
  {
    Associate(TaskTokens(tasks[0]), MoreTokens(tasks[1..]), [STOP]);
    var all := ChainTokens(tasks) + [STOP];
    NameFirst(tasks, all);
    assert SkipSpaces(all) == all;
  }

  lemma {:induction false} UnknownBehind(known: string -> bool, tasks: seq<Task>, u: nat)
    requires FirstUnknown(known, tasks, u) && u > 0
    ensures MoreTasks(known, tasks[..u], SkipSpaces(MoreTokens(tasks[u..]) + [STOP])) == Chain(tasks[..u], BehindName(tasks, u), true)
  {
    UnknownNext(known, tasks[..u], tasks[u..]);
    assert tasks[u..][1..] == tasks[u + 1..];
  }

  /** Reading stops with an error at the first unknown task; the tasks before it were read. */
  lemma {:induction false} ReadUntilUnknown(known: string -> bool, tasks: seq<Task>, u: nat)
    requires FirstUnknown(known, tasks, u)
    ensures ReadChain(known, ChainTokens(tasks) + [STOP]) == Chain(tasks[..u], BehindName(tasks, u), true)
  {
    if u == 0 {
      UnknownFirst(known, tasks);
    } else {
      ChainSplit(tasks, u, [STOP]);
      assert SkipSpaces([STOP]) == [STOP];
      MoreFollows(tasks[u..], [STOP]);
      ParseChain(known, tasks[..u], MoreTokens(tasks[u..]) + [STOP]);
      UnknownBehind(known, tasks, u);
    }
  }

  // Whole descriptions.

  /** Printing, tokenizing and parsing a chain of known tasks rebuilds exactly that chain: the same
      tasks with the same properties, neighbours connected at port 0, and the parser stands at the
      stop. */
  lemma {:induction false} ChainRoundTrip(known: string -> bool, tasks: seq<Task>)
    requires PrintableChain(tasks) && AllKnown(known, tasks)
    ensures ParseFrom(known, Parsed([], [], Lexed(PrintChain(tasks)), false)) == Parsed(tasks, Links(0, |tasks|), [STOP], false)
  {
    LexChain(tasks);
    assert SkipSpaces([STOP]) == [STOP];
    ChainEnds(known, tasks, [STOP]);
    ParseOne(known, [], [], ChainTokens(tasks) + [STOP], tasks, [STOP]);
    assert [] + tasks == tasks && [] + Links(0, |tasks|) == Links(0, |tasks|);
    ParseEnds(known, tasks, Links(0, |tasks|), [STOP]);
  }

  /** With an unknown task the description is refused. The tasks before the first unknown one were read
      and connected. */
  lemma {:induction false} UnknownTask(known: string -> bool, tasks: seq<Task>, u: nat)
    requires PrintableChain(tasks) && FirstUnknown(known, tasks, u)
    ensures ParseFrom(known, Parsed([], [], Lexed(PrintChain(tasks)), false))
         == Parsed(tasks[..u], Links(0, u), BehindName(tasks, u), true)
  {
    LexChain(tasks);
    ReadUntilUnknown(known, tasks, u);
    assert [] + tasks[..u] == tasks[..u] && [] + Links(0, u) == Links(0, u);
  }

  lemma {:induction false} FindUnknown(known: string -> bool, tasks: seq<Task>) returns (u: nat)
    requires !AllKnown(known, tasks)
    ensures FirstUnknown(known, tasks, u)
    decreases |tasks|
  {
    var n := |tasks| - 1;
    if AllKnown(known, tasks[..n]) {
      u := n;
    } else {
      u := FindUnknown(known, tasks[..n]);
      assert tasks[..n][..u] == tasks[..u];
    }
  }

  /** A printed chain is refused exactly if one of its tasks is unknown. */
  lemma {:induction false} RefusedIffUnknown(known: string -> bool, tasks: seq<Task>)
    requires PrintableChain(tasks)
    ensures ParseFrom(known, Parsed([], [], Lexed(PrintChain(tasks)), false)).failed <==> !AllKnown(known, tasks)
  {
    if AllKnown(known, tasks) {
      ChainRoundTrip(known, tasks);
    } else {
      var u := FindUnknown(known, tasks);
      UnknownTask(known, tasks, u);
    }
  }

  /** A symbol where a chain should begin, as the stop is, ends the description without an error; what
      follows is ignored. */
  lemma {:induction false} ParseEnds(known: string -> bool, tasks: seq<Task>, links: seq<G.Edge>, rest: seq<Token>)
    requires rest != [] && rest[0].kind != String && rest[0].kind != Space
    ensures ParseFrom(known, Parsed(tasks, links, rest, false)) == Parsed(tasks, links, rest, false)
  {
    assert ReadChain(known, rest) == Chain([], rest, false);
    assert tasks + [] == tasks && links + [] == links;
  }

  /** One chain of a description. */
  lemma {:induction false} ParseOne(known: string -> bool, done: seq<Task>, links: seq<G.Edge>, ts: seq<Token>, tasks: seq<Task>,
                                    rest: seq<Token>)
    requires tasks != [] && ReadChain(known, ts) == Chain(tasks, rest, false)
    ensures ParseFrom(known, Parsed(done, links, ts, false))
         == ParseFrom(known, Parsed(done + tasks, links + Links(|done|, |tasks|), rest, false))
  {
  }

  function Joined(chains: seq<seq<Task>>): seq<Task> {
    if chains == [] then [] else chains[0] + Joined(chains[1..])
  }

  /** The connections of several chains, the first of them numbered from `first` on: none between
      different chains. */
  function AllLinks(first: nat, chains: seq<seq<Task>>): seq<G.Edge>
    decreases |chains|
  {
    if chains == [] then [] else Links(first, |chains[0]|) + AllLinks(first + |chains[0]|, chains[1..])
  }

  ghost predicate KnownChains(known: string -> bool, chains: seq<seq<Task>>) {
    forall i :: 0 <= i < |chains| ==> AllKnown(known, chains[i])
  }

  /** What follows a chain of a description: the stop, or a space and the next chain. */
  lemma {:induction false} ChainsFirst(chains: seq<seq<Task>>) returns (end: seq<Token>)
    requires PrintableChains(chains)
    ensures ChainsTokens(chains) + [STOP] == ChainTokens(chains[0]) + end && Follows(end)
    ensures SkipSpaces(end) == if |chains| == 1 then [STOP] else ChainsTokens(chains[1..]) + [STOP]
    ensures SkipSpaces(end) != [] && SkipSpaces(end)[0].kind != Exclamation && SkipSpaces(SkipSpaces(end)) == SkipSpaces(end)
  {
    if |chains| == 1 {
      end := [STOP];
      assert ChainsTokens(chains) == ChainTokens(chains[0]);
      assert SkipSpaces(end) == end;
    } else {
      var next := ChainsTokens(chains[1..]) + [STOP];
      end := [SPACE] + next;
      SkipOne(next);
      assert chains[1..][0] == chains[1];
      ChainStarts(chains[1..]);
      assert SkipSpaces(next) == next;
    }
  }

  /** A chain begins with a name, and no equal sign behind it. */
  lemma {:induction false} ChainStarts(chains: seq<seq<Task>>)
    requires PrintableChains(chains)
    ensures var next := ChainsTokens(chains) + [STOP]; next[0].kind == String && !IsAssignment(next)
  {
    var t := chains[0][0];
    var next := ChainsTokens(chains) + [STOP];
    assert next[0] == Str(t.name);
    if t.properties != [] {
      assert next[1] == SPACE;
    } else if |chains[0]| > 1 {
      assert next[1] == SPACE;
    } else if |chains| > 1 {
      assert next[1] == SPACE;
    } else {
      assert next[1] == STOP;
    }
  }

  lemma {:induction false} ParseChains(known: string -> bool, done: seq<Task>, links: seq<G.Edge>, chains: seq<seq<Task>>)
    requires PrintableChains(chains) && KnownChains(known, chains)
    ensures ParseFrom(known, Parsed(done, links, ChainsTokens(chains) + [STOP], false))
         == Parsed(done + Joined(chains), links + AllLinks(|done|, chains), [STOP], false)
    decreases |chains|
  {
    var chain, rest := chains[0], chains[1..];
    var end := ChainsFirst(chains);
    ChainEnds(known, chain, end);
    ParseOne(known, done, links, ChainsTokens(chains) + [STOP], chain, SkipSpaces(end));
    var done', links' := done + chain, links + Links(|done|, |chain|);
    if rest == [] {
      ParseEnds(known, done', links', [STOP]);
    } else {
      ParseChains(known, done', links', rest);
    }
    JoinedFirst(done, links, chains, done', links');
  }

  lemma {:induction false} JoinedFirst(done: seq<Task>, links: seq<G.Edge>, chains: seq<seq<Task>>, done': seq<Task>, links': seq<G.Edge>)
    requires chains != [] && done' == done + chains[0] && links' == links + Links(|done|, |chains[0]|)
    ensures done + Joined(chains) == done' + Joined(chains[1..])
    ensures links + AllLinks(|done|, chains) == links' + AllLinks(|done'|, chains[1..])
  {
  }

  /** Several chains of known tasks, printed one behind the other, are read as exactly these chains,
      with no connection between them. */
  lemma {:induction false} ChainsRoundTrip(known: string -> bool, chains: seq<seq<Task>>)
    requires PrintableChains(chains) && KnownChains(known, chains)
    ensures ParseFrom(known, Parsed([], [], Lexed(PrintChains(chains)), false)) == Parsed(Joined(chains), AllLinks(0, chains), [STOP], false)
  {
    LexChains(chains);
    ParseChains(known, [], [], chains);
    assert [] + Joined(chains) == Joined(chains) && [] + AllLinks(0, chains) == AllLinks(0, chains);
  }

  ghost predicate NoBracketsOrStops(ts: seq<Token>) {
    forall i :: 0 <= i < |ts| ==> ts[i].kind != ParenOpen && ts[i].kind != Stop
  }

  lemma {:induction false} PropertiesPlain(ps: seq<Property>)
    ensures NoBracketsOrStops(PropertyTokens(ps))
  {
    if ps != [] {
      PropertiesPlain(ps[1..]);
    }
  }

  lemma {:induction false} MorePlain(tasks: seq<Task>)
    ensures NoBracketsOrStops(MoreTokens(tasks))
  {
    if tasks != [] {
      PropertiesPlain(tasks[0].properties);
      MorePlain(tasks[1..]);
    }
  }

  lemma {:induction false} ChainsPlain(chains: seq<seq<Task>>)
    requires PrintableChains(chains)
    ensures NoBracketsOrStops(ChainsTokens(chains))
    decreases |chains|
  {
    PropertiesPlain(chains[0][0].properties);
    MorePlain(chains[0][1..]);
    if |chains| > 1 {
      ChainsPlain(chains[1..]);
    }
  }

  /** The tokens of printed chains are what the parser expects: no brackets, and a stop at the end. */
  lemma {:induction false} PrintedIsStopped(chains: seq<seq<Task>>)
    requires PrintableChains(chains)
    ensures Stopped(Lexed(PrintChains(chains))) && PrintChains([chains[0]]) == PrintChain(chains[0])
  {
    LexChains(chains);
    ChainsPlain(chains);
    assert PrintChain(chains[0]) + "" == PrintChain(chains[0]);
  }

  /** The connections of a chain of `n` tasks, and the graph that they make. */
  lemma {:induction false} LinksAre(first: nat, n: nat)
    requires n >= 1
    ensures |Links(first, n)| == n - 1
    ensures forall i :: 0 <= i < n - 1 ==> Links(first, n)[i] == G.Edge(first + i, first + i + 1, 0)
  {
    if n > 1 {
      LinksAre(first, n - 1);
    }
  }

  function ConnectAll(g: G.Topology, links: seq<G.Edge>): G.Topology {
    if links == [] then g
    else
      var n := |links| - 1;
      G.Connect(ConnectAll(g, links[..n]), links[n].source, links[n].target, links[n].lab)
  }

  function Numbers(n: nat): (r: seq<nat>)
    ensures |r| == n && forall i :: 0 <= i < n ==> r[i] == i
  {
    seq<nat>(n, i requires 0 <= i < n => i)
  }

  /** One more connection, from the last task to a new one. */
  lemma {:induction false} ConnectNew(n: nat, links: seq<G.Edge>)
    requires n >= 1 && !G.Joined(links, n - 1, n)
    ensures G.Connect(G.Topology(Numbers(n), links), n - 1, n, 0) == G.Topology(Numbers(n + 1), links + [G.Edge(n - 1, n, 0)])
  {
    assert Numbers(n)[n - 1] == n - 1;
    assert n !in Numbers(n);
    assert Numbers(n + 1) == Numbers(n) + [n];
  }

  lemma {:induction false} ConnectFirst()
    ensures G.Connect(G.Topology([], []), 0, 1, 0) == G.Topology(Numbers(2), [G.Edge(0, 1, 0)])
  {
    assert Numbers(2) == [0, 1];
  }

  lemma {:induction false} ConnectLast(g: G.Topology, links: seq<G.Edge>, e: G.Edge)
    ensures ConnectAll(g, links + [e]) == G.Connect(ConnectAll(g, links), e.source, e.target, e.lab)
  {
    assert (links + [e])[..|links|] == links;
  }

  /** Connecting the tasks of a chain of at least two in turn gives a graph with all tasks as nodes and
      one edge between neighbours. */
  lemma {:induction false} LinksMakeChain(n: nat)
    requires n >= 2
    ensures ConnectAll(G.Topology([], []), Links(0, n)) == G.Topology(Numbers(n), Links(0, n))
  {
    var fewer := Links(0, n - 1);
    ConnectLast(G.Topology([], []), fewer, G.Edge(n - 2, n - 1, 0));
    if n == 2 {
      ConnectFirst();
      assert Links(0, 1) == [];
    } else {
      LinksMakeChain(n - 1);
      LinksAre(0, n - 1);
      ConnectNew(n - 1, fewer);
    }
  }
}
