/** The tokens of a pipeline description: symbols, and strings of everything else. Single quotes keep
    symbols from being recognised and are dropped. */
module Tokenizer {

  datatype Kind = String | Space | Assignment | Exclamation | ParenOpen | ParenClose | Comma | Stop

  datatype Token = Token(kind: Kind, text: string)

  const QUOTE: char := '\''

  /** The kind of a symbol; other characters belong to strings. */
  function KindOf(c: char): Kind {
    match c
    case '=' => Assignment
    case '!' => Exclamation
    case ',' => Comma
    case '[' => ParenOpen
    case ']' => ParenClose
    case ' ' => Space
    case _ => String
  }

  function SymbolOf(k: Kind): string {
    match k
    case Assignment => "="
    case Exclamation => "!"
    case Comma => ","
    case ParenOpen => "["
    case ParenClose => "]"
    case Space => " "
    case _ => ""
  }

  /** The tokens so far, whether the last one is a string that goes on, and whether a quote is open. */
  datatype Lexer = Lexer(tokens: seq<Token>, open: bool, quoted: bool)

  const START := Lexer([], false, false)

  function Next(s: Lexer, c: char): Lexer
    requires s.open ==> s.tokens != []
  {
    var n := |s.tokens|;
    if c == QUOTE then s.(quoted := !s.quoted)
    else if !s.quoted && KindOf(c) != String then Lexer(s.tokens + [Token(KindOf(c), "")], false, s.quoted)
    else if s.open then s.(tokens := s.tokens[n - 1 := Token(String, s.tokens[n - 1].text + [c])])
    else Lexer(s.tokens + [Token(String, [c])], true, s.quoted)
  }

  function Lex(s: Lexer, text: string): (r: Lexer)
    requires s.open ==> s.tokens != []
    ensures r.open ==> r.tokens != []
    decreases |text|
  {
    if text == "" then s else Lex(Next(s, text[0]), text[1..])
  }

  const STOP := Token(Stop, "")

  function Lexed(text: string): seq<Token> { Lex(START, text).tokens + [STOP] }

  lemma {:induction false} LexAppend(s: Lexer, a: string, b: string)
    requires s.open ==> s.tokens != []
    ensures Lex(s, a + b) == Lex(Lex(s, a), b)
    decreases |a|
  {
    if a == "" {
      assert a + b == b;
    } else {
      assert (a + b)[0] == a[0] && (a + b)[1..] == a[1..] + b;
      LexAppend(Next(s, a[0]), a[1..], b);
    }
  }

  lemma LexOne(s: Lexer, text: string, c: char)
    requires s.open ==> s.tokens != []
    ensures Lex(s, text + [c]) == Next(Lex(s, text), c)
  {
    LexAppend(s, text, [c]);
    assert Lex(Lex(s, text), [c]) == Next(Lex(s, text), c) by {
      assert [c][1..] == "";
    }
  }

  method TokenizeArgs(pipeline: string) returns (tokens: seq<Token>)
    ensures tokens == Lexed(pipeline)
  {
    tokens := [];
    var open, insideQuote := false, false;
    for i := 0 to |pipeline|
      invariant open ==> tokens != []
      invariant Lexer(tokens, open, insideQuote) == Lex(START, pipeline[..i])
    {
      var c := pipeline[i];
      assert pipeline[..i + 1] == pipeline[..i] + [c];
      LexOne(START, pipeline[..i], c);
      if c == QUOTE {
        insideQuote := !insideQuote;
        continue;
      }
      if !insideQuote && KindOf(c) != String {
        tokens := tokens + [Token(KindOf(c), "")];
        open := false;
      } else {
        if !open {
          tokens := tokens + [Token(String, "")];
          open := true;
        }
        var n := |tokens| - 1;
        assert tokens[n].text == "" ==> tokens[n].text + [c] == [c];
        tokens := tokens[n := Token(String, tokens[n].text + [c])];
      }
    }
    assert pipeline[..|pipeline|] == pipeline;
    tokens := tokens + [STOP];
  }

  // The tokens are the text.

  function TextOf(t: Token): string { if t.kind == String then t.text else SymbolOf(t.kind) }

  function Flat(tokens: seq<Token>): string {
    if tokens == [] then "" else Flat(tokens[..|tokens| - 1]) + TextOf(tokens[|tokens| - 1])
  }

  function Unquoted(text: string): string {
    if text == "" then ""
    else Unquoted(text[..|text| - 1]) + if text[|text| - 1] == QUOTE then "" else [text[|text| - 1]]
  }

  /** Strings are not empty, no two of them are adjacent, and one goes on exactly if it is the last. */
  ghost predicate Tidy(s: Lexer) {
    && (forall i :: 0 <= i < |s.tokens| && s.tokens[i].kind == String ==> s.tokens[i].text != "")
    && (forall i :: 0 < i < |s.tokens| ==> NotBothStrings(s.tokens, i))
    && (s.open <==> s.tokens != [] && s.tokens[|s.tokens| - 1].kind == String)
    && (forall i :: 0 <= i < |s.tokens| ==> s.tokens[i].kind != Stop)
  }

  ghost predicate NotBothStrings(tokens: seq<Token>, i: nat)
    requires 0 < i < |tokens|
  {
    tokens[i - 1].kind != String || tokens[i].kind != String
  }

  lemma KindOfSymbol(c: char)
    ensures KindOf(c) != Stop && (KindOf(c) != String ==> SymbolOf(KindOf(c)) == [c])
  {
  }

  lemma FlatAppend(tokens: seq<Token>, t: Token)
    ensures Flat(tokens + [t]) == Flat(tokens) + TextOf(t)
  {
    assert (tokens + [t])[..|tokens|] == tokens;
  }

  /** A symbol, or the first character of a string, is a new token. */
  lemma NewTokenTidy(s: Lexer, t: Token, open: bool)
    requires Tidy(s) && t.kind != Stop && (if open then !s.open && t.kind == String && t.text != "" else t.kind != String)
    ensures Tidy(Lexer(s.tokens + [t], open, s.quoted)) && Flat(s.tokens + [t]) == Flat(s.tokens) + TextOf(t)
  {
    var tokens := s.tokens + [t];
    FlatAppend(s.tokens, t);
    forall i | 0 < i < |tokens|
      ensures NotBothStrings(tokens, i)
    {
      assert i < |s.tokens| ==> NotBothStrings(s.tokens, i);
    }
  }

  lemma LongerStringFlat(tokens: seq<Token>, c: char)
    requires tokens != [] && tokens[|tokens| - 1].kind == String
    ensures var n := |tokens| - 1; Flat(tokens[n := Token(String, tokens[n].text + [c])]) == Flat(tokens) + [c]
  {
    var n := |tokens| - 1;
    var t := Token(String, tokens[n].text + [c]);
    assert tokens[n := t][..n] == tokens[..n];
    assert Flat(tokens) == Flat(tokens[..n]) + tokens[n].text;
    assert Flat(tokens[n := t]) == Flat(tokens[..n]) + (tokens[n].text + [c]);
  }

  lemma LongerStringTidy(s: Lexer, c: char)
    requires Tidy(s) && s.open
    ensures var n := |s.tokens| - 1;
            var tokens := s.tokens[n := Token(String, s.tokens[n].text + [c])];
            Tidy(s.(tokens := tokens)) && Flat(tokens) == Flat(s.tokens) + [c]
  {
    LongerStringFlat(s.tokens, c);
    var n := |s.tokens| - 1;
    var tokens := s.tokens[n := Token(String, s.tokens[n].text + [c])];
    forall i | 0 < i < |tokens|
      ensures NotBothStrings(tokens, i)
    {
      assert NotBothStrings(s.tokens, i);
    }
  }

  lemma NextTidy(s: Lexer, c: char)
    requires Tidy(s)
    ensures Tidy(Next(s, c))
    ensures Flat(Next(s, c).tokens) == Flat(s.tokens) + if c == QUOTE then "" else [c]
  {
    KindOfSymbol(c);
    if c != QUOTE {
      if !s.quoted && KindOf(c) != String {
        NewTokenTidy(s, Token(KindOf(c), ""), false);
      } else if s.open {
        LongerStringTidy(s, c);
      } else {
        NewTokenTidy(s, Token(String, [c]), true);
      }
    }
  }

  lemma {:induction false} LexTidy(text: string)
    ensures Tidy(Lex(START, text)) && Flat(Lex(START, text).tokens) == Unquoted(text)
  {
    if text != "" {
      var n := |text| - 1;
      assert text == text[..n] + [text[n]];
      LexTidy(text[..n]);
      LexOne(START, text[..n], text[n]);
      NextTidy(Lex(START, text[..n]), text[n]);
    }
  }

  /** For every text: the tokens concatenate to the text without its quotes, no two strings are
      adjacent, and there is one stop, at the end. */
  lemma TokensAreText(text: string)
    ensures var tokens := Lexed(text); var n := |tokens| - 1;
            && n >= 0 && tokens[n] == STOP && Flat(tokens[..n]) == Unquoted(text)
            && (forall i :: 0 <= i < n ==> tokens[i].kind != Stop)
            && (forall i :: 0 < i < n ==> tokens[i - 1].kind != String || tokens[i].kind != String)
            && (forall i :: 0 <= i < n && tokens[i].kind == String ==> tokens[i].text != "")
  {
    LexTidy(text);
    var s := Lex(START, text);
    assert Lexed(text)[..|s.tokens|] == s.tokens;
    forall i | 0 < i < |s.tokens|
      ensures s.tokens[i - 1].kind != String || s.tokens[i].kind != String
    {
      assert NotBothStrings(s.tokens, i);
    }
  }

  /** No quote is open behind `text`. */
  predicate Balanced(text: string) {
    if text == "" then true
    else (text[|text| - 1] == QUOTE) != Balanced(text[..|text| - 1])
  }

  lemma {:induction false} QuotedIs(text: string)
    ensures Lex(START, text).quoted <==> !Balanced(text)
  {
    if text != "" {
      var n := |text| - 1;
      assert text == text[..n] + [text[n]];
      QuotedIs(text[..n]);
      LexOne(START, text[..n], text[n]);
    }
  }

  /** Tokens stay, but for a string that goes on. */
  lemma {:induction false} LexGrows(s: Lexer, text: string, k: nat)
    requires (s.open ==> s.tokens != []) && k <= |s.tokens| - if s.open then 1 else 0
    ensures k <= |Lex(s, text).tokens| && Lex(s, text).tokens[..k] == s.tokens[..k]
    decreases |text|
  {
    if text != "" {
      var next := Next(s, text[0]);
      assert next.tokens[..k] == s.tokens[..k];
      LexGrows(next, text[1..], k);
    }
  }

  /** Every symbol outside quotes is a token of its own, of its kind, wherever it stands in the text. */
  lemma SymbolIsToken(before: string, c: char, kind: Kind, after: string) returns (i: nat)
    requires Balanced(before) && IsSymbol(c, kind)
    ensures var tokens := Lexed(before + [c] + after);
            i < |tokens| && tokens[i] == Token(kind, "") && Flat(tokens[..i]) == Unquoted(before)
  {
    QuotedIs(before);
    LexTidy(before);
    LexOne(START, before, c);
    LexAppend(START, before + [c], after);
    var s := Lex(START, before);
    var n := Before(s.tokens + [Token(kind, "")]);
    SymbolNext(s, c, kind);
    i := |s.tokens|;
    LexGrows(n, after, i + 1);
    SplitAt(s.tokens, Token(kind, ""), Lex(n, after).tokens);
  }

  /** The lexer behind a symbol. */
  function Before(tokens: seq<Token>): Lexer { Lexer(tokens, false, false) }

  predicate IsSymbol(c: char, kind: Kind) {
    (c, kind) in {('=', Assignment), ('!', Exclamation), (',', Comma), ('[', ParenOpen), (']', ParenClose), (' ', Space)}
  }

  lemma SymbolNext(s: Lexer, c: char, kind: Kind)
    requires (s.open ==> s.tokens != []) && !s.quoted && IsSymbol(c, kind)
    ensures Next(s, c) == Before(s.tokens + [Token(kind, "")])
  {
  }

  lemma SplitAt(a: seq<Token>, t: Token, all: seq<Token>)
    requires |a| + 1 <= |all| && all[..|a| + 1] == a + [t]
    ensures all[|a|] == t && (all + [STOP])[..|a|] == a && (all + [STOP])[|a|] == t
  {
    assert all[|a|] == all[..|a| + 1][|a|];
    assert all[..|a|] == all[..|a| + 1][..|a|] == a;
  }
}
