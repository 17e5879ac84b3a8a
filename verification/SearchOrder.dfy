/** The order of the path search, in terms of the graph alone: where a walk starts, and where it goes. */
module SearchOrder {
  import opened G = Graph
  import opened Expand
  import opened Wrappers
  import opened PathSearch
  import U = UfoGraph

  ghost predicate WayFrom(g: Topology, u: nat, p: seq<nat>) {
    p != [] && p[0] == u && AllIn(g, p) && IsPath(g.edges, p)
  }

  /** No node below `u`, nor `u` itself, matches. */
  ghost predicate NoMatchBelow(g: Topology, pred: nat -> bool, u: nat) {
    forall p :: WayFrom(g, u, p) ==> !pred(p[|p| - 1])
  }

  /** At position `i` the path takes the first successor with a match below it. */
  ghost predicate FirstTurn(g: Topology, pred: nat -> bool, p: seq<nat>, i: int) {
    0 < i < |p| && Turns(g, pred, p[i - 1], p[i])
  }

  ghost predicate Turns(g: Topology, pred: nat -> bool, v: nat, u: nat) {
    exists j :: TurnsTo(g, pred, v, u, j)
  }

  ghost predicate TurnsTo(g: Topology, pred: nat -> bool, v: nat, u: nat, j: nat) {
    var s := Successors(g.edges, v);
    j < |s| && s[j] == u && NoneBefore(g, pred, v, j)
  }

  /** No match lies below the first `n` successors. */
  ghost predicate NoneBefore(g: Topology, pred: nat -> bool, v: nat, n: nat) {
    var s := Successors(g.edges, v);
    n <= |s| && forall k :: 0 <= k < n ==> NoMatchBelow(g, pred, s[k])
  }

  /** The way of a depth-first search from `p[0]` to the first match. */
  ghost predicate DepthFirst(g: Topology, pred: nat -> bool, p: seq<nat>) {
    && p != [] && AllIn(g, p) && pred(p[|p| - 1])
    && (forall i :: 0 <= i < |p| - 1 ==> !pred(p[i]))
    && forall i {:trigger FirstTurn(g, pred, p, i)} :: 0 < i < |p| ==> FirstTurn(g, pred, p, i)
  }

  lemma NoneFound(g: Topology, rank: nat -> nat, top: nat, pred: nat -> bool, u: nat)
    requires Acyclic(g, rank, top) && u in g.nodes && FirstMatch(g, rank, top, u, pred).None?
    ensures NoMatchBelow(g, pred, u)
  {
    forall p | WayFrom(g, u, p)
      ensures !pred(p[|p| - 1])
    {
      if pred(p[|p| - 1]) {
        FirstMatchFinds(g, rank, top, p, pred);
      }
    }
  }

  lemma PrependTurn(g: Topology, pred: nat -> bool, r: nat, q: seq<nat>, j: nat) returns (p: seq<nat>)
    requires DepthFirst(g, pred, q) && r in g.nodes && !pred(r) && TurnsTo(g, pred, r, q[0], j)
    ensures DepthFirst(g, pred, p) && p[0] == r && p[|p| - 1] == q[|q| - 1]
  {
    p := [r] + q;
    forall i | 0 < i < |p|
      ensures FirstTurn(g, pred, p, i)
    {
      if i > 1 {
        assert FirstTurn(g, pred, q, i - 1);
        var k :| TurnsTo(g, pred, q[i - 2], q[i - 1], k);
        assert TurnsTo(g, pred, p[i - 1], p[i], k);
      } else {
        assert TurnsTo(g, pred, p[i - 1], p[i], j);
      }
    }
  }

  lemma OneMoreNone(g: Topology, pred: nat -> bool, v: nat, n: nat)
    requires NoneBefore(g, pred, v, n) && n < |Successors(g.edges, v)| && NoMatchBelow(g, pred, Successors(g.edges, v)[n])
    ensures NoneBefore(g, pred, v, n + 1)
  {
  }

  /** What the search finds below `r` is the end of the depth-first way. */
  lemma {:induction false} FirstMatchIsFirst(g: Topology, rank: nat -> nat, top: nat, r: nat, pred: nat -> bool, v: nat)
    returns (p: seq<nat>)
    requires Acyclic(g, rank, top) && r in g.nodes && FirstMatch(g, rank, top, r, pred) == Some(v)
    ensures DepthFirst(g, pred, p) && p[0] == r && p[|p| - 1] == v
    decreases top - rank(r), |Successors(g.edges, r)| + 1
  {
    if pred(r) {
      p := [r];
    } else {
      p := FirstMatchInIsFirst(g, rank, top, r, 0, |Successors(g.edges, r)|, pred, v);
    }
  }

  lemma NextBelow(g: Topology, rank: nat -> nat, top: nat, r: nat, k: nat, n: nat, pred: nat -> bool) returns (u: nat)
    requires Acyclic(g, rank, top) && r in g.nodes && 0 < n && k + n == |Successors(g.edges, r)|
    ensures u == Successors(g.edges, r)[k] && u in g.nodes && rank(r) < rank(u) <= top
    ensures FirstMatchIn(g, rank, top, r, n, pred)
         == if FirstMatch(g, rank, top, u, pred).Some? then FirstMatch(g, rank, top, u, pred)
            else FirstMatchIn(g, rank, top, r, n - 1, pred)
  {
    u := Successors(g.edges, r)[k];
    SuccessorBelow(g, rank, top, r, u);
  }

  /** The same for the last `n` successors, when no match lies below the first `k`. */
  lemma {:induction false} FirstMatchInIsFirst(g: Topology, rank: nat -> nat, top: nat, r: nat, k: nat, n: nat,
                                               pred: nat -> bool, v: nat) returns (p: seq<nat>)
    requires Acyclic(g, rank, top) && r in g.nodes && k + n == |Successors(g.edges, r)| && !pred(r)
    requires NoneBefore(g, pred, r, k) && FirstMatchIn(g, rank, top, r, n, pred) == Some(v)
    ensures DepthFirst(g, pred, p) && p[0] == r && p[|p| - 1] == v
    decreases top - rank(r), n
  {
    var u := NextBelow(g, rank, top, r, k, n, pred);
    if FirstMatch(g, rank, top, u, pred).Some? {
      var q := FirstMatchIsFirst(g, rank, top, u, pred, v);
      p := PrependTurn(g, pred, r, q, k);
    } else {
      NoneFound(g, rank, top, pred, u);
      OneMoreNone(g, pred, r, k);
      p := FirstMatchInIsFirst(g, rank, top, r, k + 1, n - 1, pred, v);
    }
  }

  lemma RestOfWay(g: Topology, pred: nat -> bool, p: seq<nat>, i: nat)
    requires DepthFirst(g, pred, p) && i < |p|
    ensures WayFrom(g, p[i], p[i..]) && p[i..][|p[i..]| - 1] == p[|p| - 1]
  {
    var q := p[i..];
    forall k | 0 < k < |q|
      ensures Linked(g.edges, q, k)
    {
      assert FirstTurn(g, pred, p, i + k);
      var j :| TurnsTo(g, pred, p[i + k - 1], p[i + k], j);
      assert p[i + k] in Successors(g.edges, p[i + k - 1]);
      SuccessorsHas(g.edges, p[i + k - 1], p[i + k]);
    }
  }

  lemma TurnUnique(g: Topology, pred: nat -> bool, v: nat, u: nat, w: nat)
    requires Turns(g, pred, v, u) && Turns(g, pred, v, w) && !NoMatchBelow(g, pred, u) && !NoMatchBelow(g, pred, w)
    ensures u == w
  {
    var j: nat :| TurnsTo(g, pred, v, u, j);
    var k: nat :| TurnsTo(g, pred, v, w, k);
    assert !(j < k) && !(k < j);
  }

  lemma SameTurn(g: Topology, pred: nat -> bool, p: seq<nat>, q: seq<nat>, i: nat)
    requires DepthFirst(g, pred, p) && DepthFirst(g, pred, q) && 0 < i < |p| && i < |q| && p[i - 1] == q[i - 1]
    ensures p[i] == q[i]
  {
    assert FirstTurn(g, pred, p, i) && FirstTurn(g, pred, q, i);
    RestOfWay(g, pred, p, i);
    RestOfWay(g, pred, q, i);
    TurnUnique(g, pred, p[i - 1], p[i], q[i]);
  }

  lemma {:induction false} SameWay(g: Topology, pred: nat -> bool, p: seq<nat>, q: seq<nat>, n: nat)
    requires DepthFirst(g, pred, p) && DepthFirst(g, pred, q) && p[0] == q[0] && n < |p|
    ensures n < |q| && p[n] == q[n]
  {
    if n > 0 {
      SameWay(g, pred, p, q, n - 1);
      SameTurn(g, pred, p, q, n);
    }
  }

  /** The search finds `v` below `r` exactly if the depth-first way from `r` ends at `v`: it turns to the
      first successor with a match below it, over nodes that do not match. */
  lemma FirstMatchIff(g: Topology, rank: nat -> nat, top: nat, r: nat, pred: nat -> bool, v: nat)
    requires Acyclic(g, rank, top) && r in g.nodes
    ensures FirstMatch(g, rank, top, r, pred) == Some(v)
       <==> exists p :: DepthFirst(g, pred, p) && p[0] == r && p[|p| - 1] == v
  {
    if FirstMatch(g, rank, top, r, pred) == Some(v) {
      var p := FirstMatchIsFirst(g, rank, top, r, pred, v);
    }
    if p :| DepthFirst(g, pred, p) && p[0] == r && p[|p| - 1] == v {
      RestOfWay(g, pred, p, 0);
      assert p[0..] == p;
      FirstMatchFinds(g, rank, top, p, pred);
      var w := FirstMatch(g, rank, top, r, pred).value;
      var q := FirstMatchIsFirst(g, rank, top, r, pred, w);
      SameWay(g, pred, p, q, |p| - 1);
      SameWay(g, pred, q, p, |q| - 1);
    }
  }

  // The walk.

  /** Step `i` goes to the first matching successor. */
  ghost predicate FirstStep(g: Topology, pred: nat -> bool, p: seq<nat>, i: int) {
    0 < i < |p| && Steps(g, pred, p[i - 1], p[i])
  }

  ghost predicate Steps(g: Topology, pred: nat -> bool, v: nat, u: nat) {
    exists j :: StepsTo(g, pred, v, u, j)
  }

  ghost predicate StepsTo(g: Topology, pred: nat -> bool, v: nat, u: nat, j: nat) {
    var s := Successors(g.edges, v);
    j < |s| && s[j] == u && pred(u) && forall k :: 0 <= k < j ==> !pred(s[k])
  }

  lemma {:induction false} FirstOfIs(s: seq<nat>, pred: nat -> bool) returns (j: nat)
    requires FirstOf(s, pred).Some?
    ensures j < |s| && FirstOf(s, pred) == Some(s[j]) && pred(s[j]) && forall k :: 0 <= k < j ==> !pred(s[k])
  {
    if pred(s[0]) {
      j := 0;
    } else {
      var i := FirstOfIs(s[1..], pred);
      j := i + 1;
      forall k | 0 <= k < j
        ensures !pred(s[k])
      {
        assert k > 0 ==> s[k] == s[1..][k - 1];
      }
    }
  }

  ghost predicate NoneMatches(g: Topology, pred: nat -> bool, v: nat) {
    forall u :: u in Successors(g.edges, v) ==> !pred(u)
  }

  /** A walk that goes to the first matching successor at every step, until there is none. */
  ghost predicate TakesFirst(g: Topology, pred: nat -> bool, v: nat, p: seq<nat>) {
    && p != [] && p[0] == v && NoneMatches(g, pred, p[|p| - 1])
    && forall i {:trigger FirstStep(g, pred, p, i)} :: 0 < i < |p| ==> FirstStep(g, pred, p, i)
  }

  lemma PrependStep(g: Topology, pred: nat -> bool, v: nat, j: nat, u: nat, rest: seq<nat>)
    requires TakesFirst(g, pred, u, rest) && StepsTo(g, pred, v, u, j)
    ensures TakesFirst(g, pred, v, [v] + rest)
  {
    var p := [v] + rest;
    forall i | 0 < i < |p|
      ensures FirstStep(g, pred, p, i)
    {
      assert i > 1 ==> FirstStep(g, pred, rest, i - 1);
    }
  }

  lemma {:induction false} WalkTakesFirst(g: Topology, rank: nat -> nat, top: nat, v: nat, pred: nat -> bool)
    requires Acyclic(g, rank, top) && v in g.nodes
    ensures TakesFirst(g, pred, v, Greedy(g, rank, top, v, pred))
    decreases top - rank(v)
  {
    var s := Successors(g.edges, v);
    if FirstOf(s, pred).Some? {
      var j := FirstOfIs(s, pred);
      SuccessorBelow(g, rank, top, v, s[j]);
      WalkTakesFirst(g, rank, top, s[j], pred);
      PrependStep(g, pred, v, j, s[j], Greedy(g, rank, top, s[j], pred));
    } else {
      assert Greedy(g, rank, top, v, pred) == [v];
    }
  }

  lemma StepUnique(g: Topology, pred: nat -> bool, v: nat, u: nat, w: nat)
    requires Steps(g, pred, v, u) && Steps(g, pred, v, w)
    ensures u == w
  {
    var j: nat :| StepsTo(g, pred, v, u, j);
    var k: nat :| StepsTo(g, pred, v, w, k);
    assert !(j < k) && !(k < j);
  }

  lemma StepMatches(g: Topology, pred: nat -> bool, v: nat, u: nat)
    requires Steps(g, pred, v, u)
    ensures !NoneMatches(g, pred, v)
  {
    var j: nat :| StepsTo(g, pred, v, u, j);
    assert Successors(g.edges, v)[j] in Successors(g.edges, v);
  }

  lemma {:induction false} SameWalk(g: Topology, pred: nat -> bool, v: nat, p: seq<nat>, q: seq<nat>, n: nat)
    requires TakesFirst(g, pred, v, p) && TakesFirst(g, pred, v, q) && n < |p|
    ensures n < |q| && p[n] == q[n]
  {
    if n > 0 {
      SameWalk(g, pred, v, p, q, n - 1);
      assert FirstStep(g, pred, p, n);
      StepMatches(g, pred, p[n - 1], p[n]);
      assert FirstStep(g, pred, q, n);
      StepUnique(g, pred, p[n - 1], p[n], q[n]);
    }
  }

  /** What the search finds starts where a depth-first way from a root ends, and goes to the first
      matching successor at every step, until there is none. */
  lemma FoundIs(g: Topology, rank: nat -> nat, top: nat, pred: nat -> bool, path: seq<nat>) returns (p: seq<nat>)
    requires Acyclic(g, rank, top) && Longest(g, rank, top, pred, path) && path != []
    ensures DepthFirst(g, pred, p) && p[0] in U.Roots(g) && p[|p| - 1] == path[0] && TakesFirst(g, pred, path[0], path)
  {
    var r :| r in U.Roots(g) && r in g.nodes && FirstMatch(g, rank, top, r, pred) == Some(path[0]);
    p := FirstMatchIsFirst(g, rank, top, r, pred, path[0]);
    WalkTakesFirst(g, rank, top, path[0], pred);
  }

  /** And no other such walk is longer. */
  lemma FoundIsLongest(g: Topology, rank: nat -> nat, top: nat, pred: nat -> bool, path: seq<nat>, p: seq<nat>, q: seq<nat>)
    requires Acyclic(g, rank, top) && Longest(g, rank, top, pred, path)
    requires DepthFirst(g, pred, p) && p[0] in U.Roots(g) && TakesFirst(g, pred, p[|p| - 1], q)
    ensures |q| <= |path|
  {
    var v := p[|p| - 1];
    FirstMatchIff(g, rank, top, p[0], pred, v);
    assert Start(g, rank, top, pred, v);
    WalkTakesFirst(g, rank, top, v, pred);
    SameWalk(g, pred, v, q, Greedy(g, rank, top, v, pred), |q| - 1);
  }
}
