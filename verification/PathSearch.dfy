/** The search for a path to expand: a first match below every root, and from each of these a greedy
    walk along matching successors. The longest walk is the result. */
module PathSearch {
  import opened G = Graph
  import opened Expand
  import U = UfoGraph
  import opened Wrappers

  /** `rank` certifies that the graph has no cycle, and `top` bounds it. */
  ghost predicate Acyclic(g: Topology, rank: nat -> nat, top: nat) {
    Closed(g) && Ranked(g.edges, rank) && forall v :: v in g.nodes ==> rank(v) <= top
  }

  ghost predicate AllIn(g: Topology, s: seq<nat>) {
    forall i :: 0 <= i < |s| ==> s[i] in g.nodes
  }

  lemma SuccessorBelow(g: Topology, rank: nat -> nat, top: nat, v: nat, u: nat)
    requires Acyclic(g, rank, top) && u in Successors(g.edges, v)
    ensures u in g.nodes && rank(v) < rank(u) <= top && Joined(g.edges, v, u)
  {
    SuccessorsHas(g.edges, v, u);
    var j :| 0 <= j < |g.edges| && g.edges[j].source == v && g.edges[j].target == u;
    assert g.edges[j].target in g.nodes;
  }

  // The first match, depth first.

  ghost function FirstMatch(g: Topology, rank: nat -> nat, top: nat, v: nat, pred: nat -> bool): Option<nat>
    requires Acyclic(g, rank, top) && v in g.nodes
    decreases top - rank(v), |Successors(g.edges, v)| + 1
  {
    if pred(v) then Some(v) else FirstMatchIn(g, rank, top, v, |Successors(g.edges, v)|, pred)
  }

  /** The first match below the last `n` successors of `v`. */
  ghost function FirstMatchIn(g: Topology, rank: nat -> nat, top: nat, v: nat, n: nat, pred: nat -> bool): Option<nat>
    requires Acyclic(g, rank, top) && v in g.nodes && n <= |Successors(g.edges, v)|
    decreases top - rank(v), n
  {
    if n == 0 then None
    else
      var s := Successors(g.edges, v);
      SuccessorBelow(g, rank, top, v, s[|s| - n]);
      var r := FirstMatch(g, rank, top, s[|s| - n], pred);
      if r.Some? then r else FirstMatchIn(g, rank, top, v, n - 1, pred)
  }

  method FindFirstMatch(graph: U.UfoGraph, start: nat, pred: nat -> bool, ghost rank: nat -> nat, ghost top: nat)
    returns (result: Option<nat>)
    requires Acyclic(graph.Value(), rank, top) && start in graph.nodes
    ensures result == FirstMatch(graph.Value(), rank, top, start, pred)
    decreases top - rank(start)
  {
    if pred(start) {
      return Some(start);
    }
    var successors := graph.GetSuccessors(start);
    result := None;
    var i := 0;
    while i < |successors|
      invariant i <= |successors| && result == None
      invariant FirstMatch(graph.Value(), rank, top, start, pred)
             == FirstMatchIn(graph.Value(), rank, top, start, |successors| - i, pred)
    {
      SuccessorBelow(graph.Value(), rank, top, start, successors[i]);
      result := FindFirstMatch(graph, successors[i], pred, rank, top);
      if result != None {
        break;
      }
      i := i + 1;
    }
  }

  // The greedy walk.

  function FirstOf(s: seq<nat>, pred: nat -> bool): (r: Option<nat>)
    ensures r.Some? ==> r.value in s && pred(r.value)
    ensures r.None? ==> forall i :: 0 <= i < |s| ==> !pred(s[i])
  {
    if s == [] then None else if pred(s[0]) then Some(s[0]) else FirstOf(s[1..], pred)
  }

  /** From `v` on to the first matching successor, as long as there is one. */
  ghost function Greedy(g: Topology, rank: nat -> nat, top: nat, v: nat, pred: nat -> bool): seq<nat>
    requires Acyclic(g, rank, top) && v in g.nodes
    decreases top - rank(v)
  {
    var next := FirstOf(Successors(g.edges, v), pred);
    if next.None? then [v]
    else
      SuccessorBelow(g, rank, top, v, next.value);
      [v] + Greedy(g, rank, top, next.value, pred)
  }

  lemma {:induction false} FirstOfAt(s: seq<nat>, pred: nat -> bool, i: nat)
    requires i <= |s| && forall j :: 0 <= j < i ==> !pred(s[j])
    ensures FirstOf(s, pred) == FirstOf(s[i..], pred)
  {
    if i > 0 {
      assert s[1..][i - 1..] == s[i..];
      assert forall j :: 0 <= j < i - 1 ==> s[1..][j] == s[j + 1];
      FirstOfAt(s[1..], pred, i - 1);
    }
  }

  lemma GreedyStops(g: Topology, rank: nat -> nat, top: nat, v: nat, pred: nat -> bool)
    requires Acyclic(g, rank, top) && v in g.nodes
    requires forall j :: 0 <= j < |Successors(g.edges, v)| ==> !pred(Successors(g.edges, v)[j])
    ensures Greedy(g, rank, top, v, pred) == [v]
  {
  }

  lemma GreedyGoesOn(g: Topology, rank: nat -> nat, top: nat, v: nat, pred: nat -> bool, i: nat)
    requires Acyclic(g, rank, top) && v in g.nodes && i < |Successors(g.edges, v)| && pred(Successors(g.edges, v)[i])
    requires forall j :: 0 <= j < i ==> !pred(Successors(g.edges, v)[j])
    ensures var u := Successors(g.edges, v)[i];
            u in g.nodes && rank(v) < rank(u) <= top && Greedy(g, rank, top, v, pred) == [v] + Greedy(g, rank, top, u, pred)
  {
    FirstOfAt(Successors(g.edges, v), pred, i);
    SuccessorBelow(g, rank, top, v, Successors(g.edges, v)[i]);
  }

  method FollowPath(graph: U.UfoGraph, current: seq<nat>, pred: nat -> bool, ghost rank: nat -> nat, ghost top: nat)
    returns (path: seq<nat>)
    requires Acyclic(graph.Value(), rank, top) && current != [] && current[|current| - 1] in graph.nodes
    ensures path == current[..|current| - 1] + Greedy(graph.Value(), rank, top, current[|current| - 1], pred)
    decreases top - rank(current[|current| - 1])
  {
    var last := current[|current| - 1];
    var successors := graph.GetSuccessors(last);
    path := current;
    assert current == current[..|current| - 1] + [last];
    var i := 0;
    while i < |successors| && !pred(successors[i])
      invariant i <= |successors| && forall j :: 0 <= j < i ==> !pred(successors[j])
    {
      i := i + 1;
    }
    if i < |successors| {
      GreedyGoesOn(graph.Value(), rank, top, last, pred, i);
      path := FollowPath(graph, current + [successors[i]], pred, rank, top);
    } else {
      GreedyStops(graph.Value(), rank, top, last, pred);
    }
  }

  // The result.

  /** Where the walks start: the first matches below the roots. */
  ghost predicate Start(g: Topology, rank: nat -> nat, top: nat, pred: nat -> bool, v: nat)
    requires Acyclic(g, rank, top)
  {
    v in g.nodes && exists r :: r in U.Roots(g) && r in g.nodes && FirstMatch(g, rank, top, r, pred) == Some(v)
  }

  /** What the search finds: one of the longest walks, or nothing if there is no start. */
  ghost predicate Longest(g: Topology, rank: nat -> nat, top: nat, pred: nat -> bool, path: seq<nat>)
    requires Acyclic(g, rank, top)
  {
    if path == [] then forall v :: !Start(g, rank, top, pred, v)
    else
      && Start(g, rank, top, pred, path[0]) && path == Greedy(g, rank, top, path[0], pred)
      && forall v :: Start(g, rank, top, pred, v) ==> |Greedy(g, rank, top, v, pred)| <= |path|
  }

  lemma {:induction false} RootsInside(g: Topology, nodes: seq<nat>, v: nat)
    ensures v in U.RootsIn(g, nodes) <==> v in nodes && U.IsRoot(g, v)
  {
    if nodes != [] {
      var n := |nodes| - 1;
      RootsInside(g, nodes[..n], v);
      assert nodes == nodes[..n] + [nodes[n]];
    }
  }

  lemma {:induction false} FirstMatchMatches(g: Topology, rank: nat -> nat, top: nat, v: nat, pred: nat -> bool)
    requires Acyclic(g, rank, top) && v in g.nodes
    ensures var r := FirstMatch(g, rank, top, v, pred); r.Some? ==> r.value in g.nodes && pred(r.value)
    decreases top - rank(v), |Successors(g.edges, v)| + 1
  {
    if !pred(v) {
      FirstMatchInMatches(g, rank, top, v, |Successors(g.edges, v)|, pred);
    }
  }

  lemma {:induction false} FirstMatchInMatches(g: Topology, rank: nat -> nat, top: nat, v: nat, n: nat, pred: nat -> bool)
    requires Acyclic(g, rank, top) && v in g.nodes && n <= |Successors(g.edges, v)|
    ensures var r := FirstMatchIn(g, rank, top, v, n, pred); r.Some? ==> r.value in g.nodes && pred(r.value)
    decreases top - rank(v), n
  {
    if n > 0 {
      var s := Successors(g.edges, v);
      SuccessorBelow(g, rank, top, v, s[|s| - n]);
      FirstMatchMatches(g, rank, top, s[|s| - n], pred);
      FirstMatchInMatches(g, rank, top, v, n - 1, pred);
    }
  }

  ghost predicate NoneLonger(g: Topology, rank: nat -> nat, top: nat, pred: nat -> bool, done: set<nat>, n: nat)
    requires Acyclic(g, rank, top)
  {
    forall v :: v in done ==> v in g.nodes && |Greedy(g, rank, top, v, pred)| <= n
  }

  /** `result` is one of the longest walks from the starts `done`. */
  ghost predicate LongestOf(g: Topology, rank: nat -> nat, top: nat, pred: nat -> bool, done: set<nat>, result: seq<nat>)
    requires Acyclic(g, rank, top)
  {
    && NoneLonger(g, rank, top, pred, done, |result|) && (result == [] ==> done == {})
    && (result != [] ==> result[0] in done && result[0] in g.nodes && result == Greedy(g, rank, top, result[0], pred))
  }

  lemma AddWalk(g: Topology, rank: nat -> nat, top: nat, pred: nat -> bool, done: set<nat>, result: seq<nat>, v: nat,
                path: seq<nat>)
    requires Acyclic(g, rank, top) && LongestOf(g, rank, top, pred, done, result)
    requires v in g.nodes && path == Greedy(g, rank, top, v, pred)
    ensures LongestOf(g, rank, top, pred, done + {v}, if |path| > |result| then path else result)
  {
  }

  /** Follows one candidate and keeps the longer path; of equals, the earlier one. */
  method TryStart(graph: U.UfoGraph, v: nat, longest: seq<nat>, pred: nat -> bool, ghost rank: nat -> nat, ghost top: nat,
                  ghost done: set<nat>) returns (result: seq<nat>)
    requires Acyclic(graph.Value(), rank, top) && v in graph.nodes
    requires LongestOf(graph.Value(), rank, top, pred, done, longest)
    ensures LongestOf(graph.Value(), rank, top, pred, done + {v}, result)
  {
    var path := FollowPath(graph, [v], pred, rank, top);
    AddWalk(graph.Value(), rank, top, pred, done, longest, v, path);
    result := if |path| > |longest| then path else longest;
  }

  /** The candidates are kept in a hash table, whose order is not known. */
  method FindLongestPath(graph: U.UfoGraph, pred: nat -> bool, ghost rank: nat -> nat, ghost top: nat) returns (result: seq<nat>)
    requires Acyclic(graph.Value(), rank, top)
    ensures Longest(graph.Value(), rank, top, pred, result)
  {
    var starts := FindStarts(graph, pred, rank, top);
    var candidates := starts;
    result := [];
    ghost var done: set<nat> := {};
    while candidates != {}
      invariant done + candidates == starts && LongestOf(graph.Value(), rank, top, pred, done, result)
      decreases candidates
    {
      var v :| v in candidates;
      result := TryStart(graph, v, result, pred, rank, top, done);
      candidates, done := candidates - {v}, done + {v};
    }
    assert done == starts;
    StartsAll(graph.Value(), rank, top, pred, starts, result);
  }

  lemma StartsAll(g: Topology, rank: nat -> nat, top: nat, pred: nat -> bool, starts: set<nat>, result: seq<nat>)
    requires Acyclic(g, rank, top) && LongestOf(g, rank, top, pred, starts, result)
    requires Starts(g, rank, top, pred, starts)
    ensures Longest(g, rank, top, pred, result)
  {
  }

  ghost predicate Starts(g: Topology, rank: nat -> nat, top: nat, pred: nat -> bool, starts: set<nat>)
    requires Acyclic(g, rank, top)
  {
    forall v :: v in starts <==> Start(g, rank, top, pred, v)
  }

  /** `v` is the first match below one of the first `n` roots. */
  ghost predicate FromRoots(g: Topology, rank: nat -> nat, top: nat, pred: nat -> bool, roots: seq<nat>, n: nat, v: nat)
    requires Acyclic(g, rank, top) && n <= |roots|
  {
    exists j :: 0 <= j < n && roots[j] in g.nodes && FirstMatch(g, rank, top, roots[j], pred) == Some(v)
  }

  lemma OneMoreRoot(g: Topology, rank: nat -> nat, top: nat, pred: nat -> bool, roots: seq<nat>, n: nat, starts: set<nat>)
    requires Acyclic(g, rank, top) && n < |roots| && roots[n] in g.nodes
    requires forall v :: v in starts <==> FromRoots(g, rank, top, pred, roots, n, v)
    ensures var m := FirstMatch(g, rank, top, roots[n], pred);
            var next := if m.Some? then starts + {m.value} else starts;
            forall v :: v in next <==> FromRoots(g, rank, top, pred, roots, n + 1, v)
  {
  }

  lemma AllRoots(g: Topology, rank: nat -> nat, top: nat, pred: nat -> bool, v: nat)
    requires Acyclic(g, rank, top)
    ensures FromRoots(g, rank, top, pred, U.Roots(g), |U.Roots(g)|, v) <==> Start(g, rank, top, pred, v)
  {
    var roots := U.Roots(g);
    if FromRoots(g, rank, top, pred, roots, |roots|, v) {
      var j :| 0 <= j < |roots| && roots[j] in g.nodes && FirstMatch(g, rank, top, roots[j], pred) == Some(v);
      assert roots[j] in roots;
      FirstMatchMatches(g, rank, top, roots[j], pred);
    }
  }

  method FindStarts(graph: U.UfoGraph, pred: nat -> bool, ghost rank: nat -> nat, ghost top: nat) returns (starts: set<nat>)
    requires Acyclic(graph.Value(), rank, top)
    ensures Starts(graph.Value(), rank, top, pred, starts) && forall v :: v in starts ==> v in graph.nodes
  {
    ghost var g := graph.Value();
    var roots := graph.GetRoots();
    starts := {};
    for i := 0 to |roots|
      invariant forall v :: v in starts <==> FromRoots(g, rank, top, pred, roots, i, v)
    {
      assert roots[i] in roots;
      RootsInside(g, g.nodes, roots[i]);
      OneMoreRoot(g, rank, top, pred, roots, i, starts);
      var start := FindFirstMatch(graph, roots[i], pred, rank, top);
      if start != None {
        starts := starts + {start.value};
      }
    }
    forall v: nat
      ensures v in starts <==> Start(g, rank, top, pred, v)
    {
      AllRoots(g, rank, top, pred, v);
    }
  }

  // What the result is worth.

  /** Matching nodes along the edges from `v` on, up to one without matching successor. */
  ghost predicate Walk(g: Topology, pred: nat -> bool, v: nat, p: seq<nat>) {
    && p != [] && p[0] == v && IsPath(g.edges, p) && AllIn(g, p) && (forall i :: 0 <= i < |p| ==> pred(p[i]))
    && forall u :: u in Successors(g.edges, p[|p| - 1]) ==> !pred(u)
  }

  lemma ConsWalk(g: Topology, pred: nat -> bool, v: nat, u: nat, q: seq<nat>)
    requires Walk(g, pred, u, q) && v in g.nodes && pred(v) && Joined(g.edges, v, u)
    ensures Walk(g, pred, v, [v] + q)
  {
    var p := [v] + q;
    forall i | 0 < i < |p|
      ensures Linked(g.edges, p, i)
    {
      assert i > 1 ==> Linked(g.edges, q, i - 1);
    }
    assert p[|p| - 1] == q[|q| - 1];
  }

  lemma {:induction false} GreedyWalks(g: Topology, rank: nat -> nat, top: nat, v: nat, pred: nat -> bool)
    requires Acyclic(g, rank, top) && v in g.nodes && pred(v)
    ensures Walk(g, pred, v, Greedy(g, rank, top, v, pred))
    decreases top - rank(v)
  {
    var next := FirstOf(Successors(g.edges, v), pred);
    if next.Some? {
      SuccessorBelow(g, rank, top, v, next.value);
      GreedyWalks(g, rank, top, next.value, pred);
      ConsWalk(g, pred, v, next.value, Greedy(g, rank, top, next.value, pred));
    }
  }

  /** A result is a path of matching nodes that cannot be extended at its end. */
  lemma FoundPath(g: Topology, rank: nat -> nat, top: nat, pred: nat -> bool, path: seq<nat>)
    requires Acyclic(g, rank, top) && Longest(g, rank, top, pred, path) && path != []
    ensures IsPath(g.edges, path) && AllIn(g, path) && forall i :: 0 <= i < |path| ==> pred(path[i])
    ensures forall u :: u in Successors(g.edges, path[|path| - 1]) ==> !pred(u)
  {
    var r :| r in U.Roots(g) && r in g.nodes && FirstMatch(g, rank, top, r, pred) == Some(path[0]);
    FirstMatchMatches(g, rank, top, r, pred);
    GreedyWalks(g, rank, top, path[0], pred);
  }

  /** A way down from a root to `v`: in an acyclic graph every node has one. */
  lemma {:induction false} WayDown(g: Topology, rank: nat -> nat, top: nat, v: nat) returns (p: seq<nat>)
    requires Acyclic(g, rank, top) && v in g.nodes
    ensures p != [] && p[|p| - 1] == v && AllIn(g, p) && IsPath(g.edges, p) && p[0] in U.Roots(g)
    decreases rank(v)
  {
    if U.IsRoot(g, v) {
      p := [v];
      RootsInside(g, g.nodes, v);
    } else {
      var u :| u in g.nodes && Joined(g.edges, u, v);
      var j :| 0 <= j < |g.edges| && g.edges[j].source == u && g.edges[j].target == v;
      var q := WayDown(g, rank, top, u);
      p := q + [v];
      forall i | 0 < i < |p|
        ensures Linked(g.edges, p, i)
      {
        assert i < |q| ==> Linked(g.edges, q, i);
      }
    }
  }

  /** The search below a node finds something if there is something to find. */
  lemma {:induction false} FirstMatchFinds(g: Topology, rank: nat -> nat, top: nat, p: seq<nat>, pred: nat -> bool)
    requires Acyclic(g, rank, top) && p != [] && AllIn(g, p) && IsPath(g.edges, p) && pred(p[|p| - 1])
    ensures FirstMatch(g, rank, top, p[0], pred).Some?
    decreases |p|
  {
    if !pred(p[0]) {
      assert Linked(g.edges, p, 1);
      SuccessorsHas(g.edges, p[0], p[1]);
      var s := Successors(g.edges, p[0]);
      var i :| 0 <= i < |s| && s[i] == p[1];
      forall k | 0 < k < |p[1..]|
        ensures Linked(g.edges, p[1..], k)
      {
        assert Linked(g.edges, p, k + 1);
      }
      FirstMatchFinds(g, rank, top, p[1..], pred);
      FoundBelow(g, rank, top, p[0], |s|, pred, i);
    }
  }

  lemma {:induction false} FoundBelow(g: Topology, rank: nat -> nat, top: nat, v: nat, n: nat, pred: nat -> bool, i: nat)
    requires Acyclic(g, rank, top) && v in g.nodes && n <= |Successors(g.edges, v)|
    requires |Successors(g.edges, v)| - n <= i < |Successors(g.edges, v)|
    requires Successors(g.edges, v)[i] in g.nodes && FirstMatch(g, rank, top, Successors(g.edges, v)[i], pred).Some?
    ensures FirstMatchIn(g, rank, top, v, n, pred).Some?
    decreases n
  {
    var s := Successors(g.edges, v);
    SuccessorBelow(g, rank, top, v, s[|s| - n]);
    if i > |s| - n && FirstMatch(g, rank, top, s[|s| - n], pred).None? {
      FoundBelow(g, rank, top, v, n - 1, pred, i);
    }
  }

  /** The search finds nothing exactly when no node matches. */
  lemma NothingFound(g: Topology, rank: nat -> nat, top: nat, pred: nat -> bool, path: seq<nat>)
    requires Acyclic(g, rank, top) && Longest(g, rank, top, pred, path)
    ensures path == [] <==> forall v :: v in g.nodes ==> !pred(v)
  {
    if path != [] {
      FoundPath(g, rank, top, pred, path);
      assert path[0] in g.nodes && pred(path[0]);
    } else {
      forall v | v in g.nodes
        ensures !pred(v)
      {
        if pred(v) {
          var p := WayDown(g, rank, top, v);
          FirstMatchFinds(g, rank, top, p, pred);
          FirstMatchMatches(g, rank, top, p[0], pred);
          var start := FirstMatch(g, rank, top, p[0], pred).value;
          assert Start(g, rank, top, pred, start);
        }
      }
    }
  }

  // The walk need not be the longest matching path.

  /** Matching nodes along the edges, from `v` on. */
  ghost predicate MatchingPath(g: Topology, pred: nat -> bool, v: nat, p: seq<nat>) {
    p != [] && p[0] == v && IsPath(g.edges, p) && AllIn(g, p) && forall i :: 0 <= i < |p| ==> pred(p[i])
  }

  const FORK := Topology([0, 1, 2, 3], [Edge(0, 1, 0), Edge(1, 2, 0), Edge(0, 3, 0)])

  function Same(): nat -> nat { v => v }

  function Every(): nat -> bool { v => true }

  lemma ShorterBranch()
    requires Acyclic(FORK, Same(), 3)
    ensures Greedy(FORK, Same(), 3, 0, Every()) == [0, 3]
  {
    FirstSuccessor();
    GreedyGoesOn(FORK, Same(), 3, 0, Every(), 0);
    GreedyStops(FORK, Same(), 3, 3, Every());
  }

  /** The walk takes the first matching successor, which is the one connected last: in this graph it
      misses the longer of two branches. */
  lemma WalkCanBeShort()
    ensures Acyclic(FORK, Same(), 3) && Longest(FORK, Same(), 3, Every(), [0, 3])
    ensures MatchingPath(FORK, Every(), 0, [0, 1, 2]) && |[0, 1, 2]| > |[0, 3]|
  {
    ShorterBranch();
    forall v
      ensures Start(FORK, Same(), 3, Every(), v) <==> v == 0
    {
      OnlyStart(v);
    }
    LongerBranch();
  }

  lemma LongerBranch()
    ensures MatchingPath(FORK, Every(), 0, [0, 1, 2])
  {
    assert FORK.edges[0] == Edge(0, 1, 0) && FORK.edges[1] == Edge(1, 2, 0);
    assert Linked(FORK.edges, [0, 1, 2], 1) && Linked(FORK.edges, [0, 1, 2], 2);
  }

  lemma OnlyStart(v: nat)
    requires Acyclic(FORK, Same(), 3)
    ensures Start(FORK, Same(), 3, Every(), v) <==> v == 0
  {
    assert Joined(FORK.edges, 0, 1) && Joined(FORK.edges, 1, 2) && Joined(FORK.edges, 0, 3) by {
      assert FORK.edges[0] == Edge(0, 1, 0) && FORK.edges[1] == Edge(1, 2, 0) && FORK.edges[2] == Edge(0, 3, 0);
    }
    forall r: nat
      ensures r in U.Roots(FORK) <==> r == 0
    {
      RootsInside(FORK, FORK.nodes, r);
    }
    assert FirstMatch(FORK, Same(), 3, 0, Every()) == Some(0);
  }

  lemma FirstSuccessor()
    ensures Successors([Edge(0, 1, 0), Edge(1, 2, 0), Edge(0, 3, 0)], 0) == [3, 1]
    ensures Successors([Edge(0, 1, 0), Edge(1, 2, 0), Edge(0, 3, 0)], 3) == []
  {
    var e0, e1, e2 := Edge(0, 1, 0), Edge(1, 2, 0), Edge(0, 3, 0);
    forall v: nat
      ensures Successors([e0, e1, e2], v) ==
              (if v == 0 then [3] else []) + (if v == 1 then [2] else []) + (if v == 0 then [1] else [])
    {
      SuccessorsAppend([], e0, v);
      SuccessorsAppend([e0], e1, v);
      SuccessorsAppend([e0, e1], e2, v);
      assert [] + [e0] == [e0] && [e0] + [e1] == [e0, e1] && [e0, e1] + [e2] == [e0, e1, e2];
    }
    assert Successors([e0, e1, e2], 0) == [3, 1];
  }
}
