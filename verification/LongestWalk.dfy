/** When the path search keeps what it promises: its result is a longest matching path exactly when
    a start is as high as any node and the walk from there always goes to a highest successor. */
module LongestWalk {
  import opened G = Graph
  import opened Expand
  import opened PathSearch
  import opened Wrappers
  import U = UfoGraph

  /** The length of the longest matching path from a matching node `v`. */
  ghost function Height(g: Topology, rank: nat -> nat, top: nat, v: nat, pred: nat -> bool): nat
    requires Acyclic(g, rank, top) && v in g.nodes
    decreases top - rank(v), |Successors(g.edges, v)| + 1
  {
    1 + HeightBelow(g, rank, top, v, |Successors(g.edges, v)|, pred)
  }

  /** The greatest height among the first `n` successors of `v` that match. */
  ghost function HeightBelow(g: Topology, rank: nat -> nat, top: nat, v: nat, n: nat, pred: nat -> bool): nat
    requires Acyclic(g, rank, top) && v in g.nodes && n <= |Successors(g.edges, v)|
    decreases top - rank(v), n
  {
    if n == 0 then 0
    else
      var u := Successors(g.edges, v)[n - 1];
      SuccessorBelow(g, rank, top, v, u);
      var h, rest := if pred(u) then Height(g, rank, top, u, pred) else 0, HeightBelow(g, rank, top, v, n - 1, pred);
      if h > rest then h else rest
  }

  lemma {:induction false} BelowAtLeast(g: Topology, rank: nat -> nat, top: nat, v: nat, n: nat, pred: nat -> bool, i: nat)
    requires Acyclic(g, rank, top) && v in g.nodes && i < n <= |Successors(g.edges, v)| && pred(Successors(g.edges, v)[i])
    ensures Successors(g.edges, v)[i] in g.nodes
    ensures Height(g, rank, top, Successors(g.edges, v)[i], pred) <= HeightBelow(g, rank, top, v, n, pred)
  {
    SuccessorBelow(g, rank, top, v, Successors(g.edges, v)[n - 1]);
    if i < n - 1 {
      BelowAtLeast(g, rank, top, v, n - 1, pred, i);
    }
  }

  /** A successor that attains the maximum. */
  lemma {:induction false} BelowAttained(g: Topology, rank: nat -> nat, top: nat, v: nat, n: nat, pred: nat -> bool)
    returns (u: nat)
    requires Acyclic(g, rank, top) && v in g.nodes && n <= |Successors(g.edges, v)| && HeightBelow(g, rank, top, v, n, pred) > 0
    ensures u in Successors(g.edges, v) && pred(u) && u in g.nodes && rank(v) < rank(u) <= top && Joined(g.edges, v, u)
    ensures Height(g, rank, top, u, pred) == HeightBelow(g, rank, top, v, n, pred)
  {
    u := Successors(g.edges, v)[n - 1];
    SuccessorBelow(g, rank, top, v, u);
    if !pred(u) || Height(g, rank, top, u, pred) < HeightBelow(g, rank, top, v, n, pred) {
      u := BelowAttained(g, rank, top, v, n - 1, pred);
    }
  }

  lemma HigherThan(g: Topology, rank: nat -> nat, top: nat, v: nat, pred: nat -> bool, u: nat)
    requires Acyclic(g, rank, top) && v in g.nodes && u in Successors(g.edges, v) && pred(u)
    ensures u in g.nodes && rank(v) < rank(u) <= top
    ensures Height(g, rank, top, v, pred) >= 1 + Height(g, rank, top, u, pred)
  {
    SuccessorBelow(g, rank, top, v, u);
    var i :| 0 <= i < |Successors(g.edges, v)| && Successors(g.edges, v)[i] == u;
    BelowAtLeast(g, rank, top, v, |Successors(g.edges, v)|, pred, i);
  }

  lemma TailPath(g: Topology, pred: nat -> bool, v: nat, p: seq<nat>)
    requires MatchingPath(g, pred, v, p) && |p| >= 2
    ensures MatchingPath(g, pred, p[1], p[1..]) && Joined(g.edges, v, p[1])
  {
    assert Linked(g.edges, p, 1);
    forall i | 0 < i < |p[1..]|
      ensures Linked(g.edges, p[1..], i)
    {
      assert Linked(g.edges, p, i + 1);
    }
  }

  lemma ConsPath(g: Topology, pred: nat -> bool, v: nat, p: seq<nat>)
    requires p != [] && MatchingPath(g, pred, p[0], p) && v in g.nodes && pred(v) && Joined(g.edges, v, p[0])
    ensures MatchingPath(g, pred, v, [v] + p)
  {
    forall i | 0 < i < |[v] + p|
      ensures Linked(g.edges, [v] + p, i)
    {
      assert i > 1 ==> Linked(g.edges, p, i - 1);
    }
  }

  /** No matching path is longer than the height of its first node. */
  lemma {:induction false} HeightBounds(g: Topology, rank: nat -> nat, top: nat, v: nat, pred: nat -> bool, p: seq<nat>)
    requires Acyclic(g, rank, top) && v in g.nodes && MatchingPath(g, pred, v, p)
    ensures |p| <= Height(g, rank, top, v, pred)
    decreases |p|
  {
    if |p| >= 2 {
      TailPath(g, pred, v, p);
      SuccessorsHas(g.edges, v, p[1]);
      HigherThan(g, rank, top, v, pred, p[1]);
      HeightBounds(g, rank, top, p[1], pred, p[1..]);
    }
  }

  /** And one is as long. */
  lemma {:induction false} HeightReached(g: Topology, rank: nat -> nat, top: nat, v: nat, pred: nat -> bool) returns (p: seq<nat>)
    requires Acyclic(g, rank, top) && v in g.nodes && pred(v)
    ensures MatchingPath(g, pred, v, p) && |p| == Height(g, rank, top, v, pred)
    decreases top - rank(v)
  {
    if Height(g, rank, top, v, pred) == 1 {
      p := [v];
    } else {
      var u := BelowAttained(g, rank, top, v, |Successors(g.edges, v)|, pred);
      var q := HeightReached(g, rank, top, u, pred);
      ConsPath(g, pred, v, q);
      p := [v] + q;
    }
  }

  /** Every step of the walk goes to a matching successor of greatest height, and it ends only where
      there is none. */
  ghost predicate HighestSteps(g: Topology, rank: nat -> nat, top: nat, pred: nat -> bool, p: seq<nat>)
    requires Acyclic(g, rank, top) && AllIn(g, p)
  {
    forall i :: 0 < i < |p| ==> StepIsHighest(g, rank, top, pred, p, i)
  }

  ghost predicate StepIsHighest(g: Topology, rank: nat -> nat, top: nat, pred: nat -> bool, p: seq<nat>, i: nat)
    requires Acyclic(g, rank, top) && AllIn(g, p) && 0 < i < |p|
  {
    forall u :: u in Successors(g.edges, p[i - 1]) && u in g.nodes && pred(u) ==>
      Height(g, rank, top, u, pred) <= Height(g, rank, top, p[i], pred)
  }

  lemma StepHeight(g: Topology, rank: nat -> nat, top: nat, pred: nat -> bool, p: seq<nat>, i: nat)
    requires Acyclic(g, rank, top) && AllIn(g, p) && 0 < i < |p| && pred(p[i]) && p[i] in Successors(g.edges, p[i - 1])
    ensures StepIsHighest(g, rank, top, pred, p, i) <==>
            Height(g, rank, top, p[i - 1], pred) == 1 + Height(g, rank, top, p[i], pred)
  {
    HigherThan(g, rank, top, p[i - 1], pred, p[i]);
    var u := BelowAttained(g, rank, top, p[i - 1], |Successors(g.edges, p[i - 1])|, pred);
    if Height(g, rank, top, p[i - 1], pred) == 1 + Height(g, rank, top, p[i], pred) {
      forall w | w in Successors(g.edges, p[i - 1]) && w in g.nodes && pred(w)
        ensures Height(g, rank, top, w, pred) <= Height(g, rank, top, p[i], pred)
      {
        HigherThan(g, rank, top, p[i - 1], pred, w);
      }
    }
  }

  /** The walk from `v` is as long as any matching path from `v` exactly when its steps are highest. */
  lemma {:induction false} WalkHeight(g: Topology, rank: nat -> nat, top: nat, v: nat, pred: nat -> bool)
    requires Acyclic(g, rank, top) && v in g.nodes && pred(v)
    ensures var p := Greedy(g, rank, top, v, pred);
            && AllIn(g, p) && |p| <= Height(g, rank, top, v, pred)
            && (|p| == Height(g, rank, top, v, pred) <==> HighestSteps(g, rank, top, pred, p))
    decreases top - rank(v)
  {
    GreedyWalks(g, rank, top, v, pred);
    var p := Greedy(g, rank, top, v, pred);
    var next := FirstOf(Successors(g.edges, v), pred);
    if next.None? {
      WalkEnds(g, rank, top, v, pred);
    } else {
      var u := next.value;
      SuccessorBelow(g, rank, top, v, u);
      GreedyWalks(g, rank, top, u, pred);
      WalkHeight(g, rank, top, u, pred);
      HigherThan(g, rank, top, v, pred, u);
      StepHeight(g, rank, top, pred, p, 1);
      ShiftSteps(g, rank, top, pred, v, Greedy(g, rank, top, u, pred));
    }
  }

  lemma WalkEnds(g: Topology, rank: nat -> nat, top: nat, v: nat, pred: nat -> bool)
    requires Acyclic(g, rank, top) && v in g.nodes && FirstOf(Successors(g.edges, v), pred).None?
    ensures Height(g, rank, top, v, pred) == 1
  {
    if Height(g, rank, top, v, pred) > 1 {
      var u := BelowAttained(g, rank, top, v, |Successors(g.edges, v)|, pred);
    }
  }

  lemma ShiftSteps(g: Topology, rank: nat -> nat, top: nat, pred: nat -> bool, v: nat, q: seq<nat>)
    requires Acyclic(g, rank, top) && v in g.nodes && AllIn(g, q) && q != [] && AllIn(g, [v] + q)
    ensures HighestSteps(g, rank, top, pred, [v] + q) <==>
            StepIsHighest(g, rank, top, pred, [v] + q, 1) && HighestSteps(g, rank, top, pred, q)
  {
    var p := [v] + q;
    forall i | 0 < i < |q|
      ensures StepIsHighest(g, rank, top, pred, p, i + 1) <==> StepIsHighest(g, rank, top, pred, q, i)
    {
      assert p[i] == q[i - 1] && p[i + 1] == q[i];
    }
    if StepIsHighest(g, rank, top, pred, p, 1) && HighestSteps(g, rank, top, pred, q) {
      forall i | 0 < i < |p|
        ensures StepIsHighest(g, rank, top, pred, p, i)
      {
        assert i > 1 ==> StepIsHighest(g, rank, top, pred, q, i - 1);
      }
    }
    if HighestSteps(g, rank, top, pred, p) {
      forall i | 0 < i < |q|
        ensures StepIsHighest(g, rank, top, pred, q, i)
      {
        assert StepIsHighest(g, rank, top, pred, p, i + 1);
      }
    }
  }

  ghost predicate Highest(g: Topology, rank: nat -> nat, top: nat, pred: nat -> bool, s: nat)
    requires Acyclic(g, rank, top) && s in g.nodes
  {
    forall v :: v in g.nodes && pred(v) ==> Height(g, rank, top, v, pred) <= Height(g, rank, top, s, pred)
  }

  /** `s` is a start from which the walk is a longest matching path of the graph. */
  ghost predicate GoodStart(g: Topology, rank: nat -> nat, top: nat, pred: nat -> bool, s: nat)
    requires Acyclic(g, rank, top)
  {
    && Start(g, rank, top, pred, s) && pred(s) && Highest(g, rank, top, pred, s)
    && AllIn(g, Greedy(g, rank, top, s, pred)) && HighestSteps(g, rank, top, pred, Greedy(g, rank, top, s, pred))
  }

  ghost predicate IsLongest(g: Topology, pred: nat -> bool, path: seq<nat>) {
    forall v, p :: MatchingPath(g, pred, v, p) ==> |p| <= |path|
  }

  lemma GoodStartSuffices(g: Topology, rank: nat -> nat, top: nat, pred: nat -> bool, path: seq<nat>, s: nat)
    requires Acyclic(g, rank, top) && Longest(g, rank, top, pred, path) && GoodStart(g, rank, top, pred, s)
    ensures IsLongest(g, pred, path)
  {
    WalkHeight(g, rank, top, s, pred);
    forall v, p | MatchingPath(g, pred, v, p)
      ensures |p| <= |path|
    {
      assert p[0] in g.nodes && pred(p[0]);
      HeightBounds(g, rank, top, v, pred, p);
    }
  }

  lemma LongestIsGood(g: Topology, rank: nat -> nat, top: nat, pred: nat -> bool, path: seq<nat>)
    requires Acyclic(g, rank, top) && Longest(g, rank, top, pred, path) && path != [] && IsLongest(g, pred, path)
    ensures GoodStart(g, rank, top, pred, path[0])
  {
    var s := path[0];
    FoundPath(g, rank, top, pred, path);
    WalkHeight(g, rank, top, s, pred);
    forall v | v in g.nodes && pred(v)
      ensures Height(g, rank, top, v, pred) <= |path|
    {
      var p := HeightReached(g, rank, top, v, pred);
    }
    assert Height(g, rank, top, s, pred) == |path|;
  }

  /** The search returns a longest matching path exactly when a start is as high as any matching node
      and all steps of its walk are highest. */
  lemma SearchIsLongestIff(g: Topology, rank: nat -> nat, top: nat, pred: nat -> bool, path: seq<nat>)
    requires Acyclic(g, rank, top) && Longest(g, rank, top, pred, path) && path != []
    ensures IsLongest(g, pred, path) <==> exists s :: GoodStart(g, rank, top, pred, s)
  {
    if IsLongest(g, pred, path) {
      LongestIsGood(g, rank, top, pred, path);
    }
    if exists s :: GoodStart(g, rank, top, pred, s) {
      var s :| GoodStart(g, rank, top, pred, s);
      GoodStartSuffices(g, rank, top, pred, path, s);
    }
  }

  // A condition on edges and predicate alone.

  /** No matching node has two matching successors. */
  ghost predicate NoFork(g: Topology, pred: nat -> bool) {
    forall v, u, w :: Follows(g, pred, v, u) && Follows(g, pred, v, w) ==> u == w
  }

  ghost predicate Follows(g: Topology, pred: nat -> bool, v: nat, u: nat) {
    Joined(g.edges, v, u) && pred(v) && pred(u)
  }

  /** A matching node behind no other one. */
  ghost predicate Foremost(g: Topology, pred: nat -> bool, v: nat) {
    v in g.nodes && pred(v) && forall u :: !Follows(g, pred, u, v)
  }

  ghost predicate Way(g: Topology, r: nat, v: nat, p: seq<nat>) {
    p != [] && p[0] == r && p[|p| - 1] == v && IsPath(g.edges, p) && AllIn(g, p)
  }

  /** Below the root `r` nothing matches before `v`: some way leads from `r` to `v`, and every way from
      `r` to a matching node passes through `v`. */
  ghost predicate Entrance(g: Topology, pred: nat -> bool, r: nat, v: nat) {
    && r in g.nodes && U.IsRoot(g, r) && (exists p :: Way(g, r, v, p))
    && forall w, p :: Way(g, r, w, p) && pred(w) ==> v in p
  }

  ghost predicate Entered(g: Topology, pred: nat -> bool, v: nat) {
    exists r :: Entrance(g, pred, r, v)
  }

  /** The nodes before the last do not match. */
  ghost predicate Unmatched(pred: nat -> bool, p: seq<nat>) {
    forall i :: 0 <= i < |p| - 1 ==> !pred(p[i])
  }

  lemma ConsWay(g: Topology, r: nat, u: nat, v: nat, p: seq<nat>)
    requires r in g.nodes && Joined(g.edges, r, u) && Way(g, u, v, p)
    ensures Way(g, r, v, [r] + p)
  {
    var q := [r] + p;
    forall i | 0 < i < |q|
      ensures Linked(g.edges, q, i)
    {
      assert i > 1 ==> Linked(g.edges, p, i - 1);
    }
  }

  /** The first match below a node is reached over nodes that do not match. */
  lemma {:induction false} FirstMatchWay(g: Topology, rank: nat -> nat, top: nat, r: nat, pred: nat -> bool, v: nat)
    returns (p: seq<nat>)
    requires Acyclic(g, rank, top) && r in g.nodes && FirstMatch(g, rank, top, r, pred) == Some(v)
    ensures Way(g, r, v, p) && Unmatched(pred, p) && pred(v)
    decreases top - rank(r), |Successors(g.edges, r)| + 1
  {
    if pred(r) {
      p := [r];
    } else {
      p := FirstMatchInWay(g, rank, top, r, |Successors(g.edges, r)|, pred, v);
    }
  }

  lemma {:induction false} FirstMatchInWay(g: Topology, rank: nat -> nat, top: nat, r: nat, n: nat, pred: nat -> bool,
                                           v: nat) returns (p: seq<nat>)
    requires Acyclic(g, rank, top) && r in g.nodes && n <= |Successors(g.edges, r)| && !pred(r)
    requires FirstMatchIn(g, rank, top, r, n, pred) == Some(v)
    ensures Way(g, r, v, p) && Unmatched(pred, p) && pred(v)
    decreases top - rank(r), n
  {
    var s := Successors(g.edges, r);
    var u := s[|s| - n];
    SuccessorBelow(g, rank, top, r, u);
    if FirstMatch(g, rank, top, u, pred).Some? {
      var q := FirstMatchWay(g, rank, top, u, pred, v);
      ConsWay(g, r, u, v, q);
      p := [r] + q;
    } else {
      p := FirstMatchInWay(g, rank, top, r, n - 1, pred, v);
    }
  }

  /** So an entrance is where the search starts. */
  lemma EntranceStarts(g: Topology, rank: nat -> nat, top: nat, pred: nat -> bool, r: nat, v: nat)
    requires Acyclic(g, rank, top) && Entrance(g, pred, r, v) && v in g.nodes && pred(v)
    ensures Start(g, rank, top, pred, v)
  {
    var p :| Way(g, r, v, p);
    FirstMatchFinds(g, rank, top, p, pred);
    var w := FirstMatch(g, rank, top, r, pred).value;
    var q := FirstMatchWay(g, rank, top, r, pred, w);
    var i :| 0 <= i < |q| && q[i] == v;
    assert w == v;
    RootsInside(g, g.nodes, r);
  }

  lemma NoForkHighest(g: Topology, rank: nat -> nat, top: nat, pred: nat -> bool, v: nat)
    requires Acyclic(g, rank, top) && NoFork(g, pred) && v in g.nodes && pred(v)
    ensures |Greedy(g, rank, top, v, pred)| == Height(g, rank, top, v, pred)
  {
    var p := Greedy(g, rank, top, v, pred);
    GreedyWalks(g, rank, top, v, pred);
    WalkHeight(g, rank, top, v, pred);
    forall i | 0 < i < |p|
      ensures StepIsHighest(g, rank, top, pred, p, i)
    {
      assert Linked(g.edges, p, i) && Follows(g, pred, p[i - 1], p[i]);
      forall u | u in Successors(g.edges, p[i - 1]) && u in g.nodes && pred(u)
        ensures u == p[i]
      {
        SuccessorsHas(g.edges, p[i - 1], u);
        assert Follows(g, pred, p[i - 1], u);
      }
    }
  }

  /** Every matching path is the end of one that starts at a foremost node. */
  lemma {:induction false} FromForemost(g: Topology, rank: nat -> nat, top: nat, pred: nat -> bool, v: nat, p: seq<nat>)
    returns (u: nat, q: seq<nat>)
    requires Acyclic(g, rank, top) && MatchingPath(g, pred, v, p)
    ensures Foremost(g, pred, u) && MatchingPath(g, pred, u, q) && |p| <= |q|
    decreases rank(v)
  {
    if w :| Follows(g, pred, w, v) {
      var j :| 0 <= j < |g.edges| && g.edges[j].source == w && g.edges[j].target == v;
      ConsPath(g, pred, w, p);
      u, q := FromForemost(g, rank, top, pred, w, [w] + p);
    } else {
      u, q := v, p;
      assert p[0] in g.nodes && pred(p[0]);
    }
  }

  /** The search keeps its promise if matching nodes do not fork and every run of them is entered from a
      root of its own. */
  lemma SearchIsLongest(g: Topology, rank: nat -> nat, top: nat, pred: nat -> bool, path: seq<nat>)
    requires Acyclic(g, rank, top) && Longest(g, rank, top, pred, path)
    requires NoFork(g, pred) && forall v :: Foremost(g, pred, v) ==> Entered(g, pred, v)
    ensures IsLongest(g, pred, path)
  {
    forall v, p | MatchingPath(g, pred, v, p)
      ensures |p| <= |path|
    {
      var u, q := FromForemost(g, rank, top, pred, v, p);
      assert Entered(g, pred, u);
      var r :| Entrance(g, pred, r, u);
      EntranceStarts(g, rank, top, pred, r, u);
      NoForkHighest(g, rank, top, pred, u);
      HeightBounds(g, rank, top, u, pred, q);
    }
  }

  // The everyday failing input: two runs of matching nodes in a linear pipeline.

  const LINE := Topology([0, 1, 2, 3], [Edge(0, 1, 0), Edge(1, 2, 0), Edge(2, 3, 0)])

  function AllButOne(): nat -> bool { v => v != 1 }

  lemma LineSuccessors()
    ensures Successors(LINE.edges, 0) == [1] && Successors(LINE.edges, 2) == [3]
  {
    var e0, e1, e2 := Edge(0, 1, 0), Edge(1, 2, 0), Edge(2, 3, 0);
    assert LINE.edges == [e0] + ([e1] + [e2]) && LINE.edges[1..] == [e1, e2] && [e1, e2][1..] == [e2];
    assert Successors([e2], 0) == [] && Successors([e1, e2], 0) == [];
    assert Successors([e2], 2) == [3] && Successors([e1, e2], 2) == [3];
  }

  lemma LineStart(v: nat)
    requires Acyclic(LINE, Same(), 3)
    ensures Start(LINE, Same(), 3, AllButOne(), v) <==> v == 0
  {
    assert Joined(LINE.edges, 0, 1) && Joined(LINE.edges, 1, 2) && Joined(LINE.edges, 2, 3) by {
      assert LINE.edges[0] == Edge(0, 1, 0) && LINE.edges[1] == Edge(1, 2, 0) && LINE.edges[2] == Edge(2, 3, 0);
    }
    forall r: nat
      ensures r in U.Roots(LINE) <==> r == 0
    {
      RootsInside(LINE, LINE.nodes, r);
    }
    assert FirstMatch(LINE, Same(), 3, 0, AllButOne()) == Some(0);
  }

  lemma SecondRun()
    ensures MatchingPath(LINE, AllButOne(), 2, [2, 3])
  {
    assert LINE.edges[2] == Edge(2, 3, 0);
    assert Linked(LINE.edges, [2, 3], 1);
  }

  lemma FirstRun()
    requires Acyclic(LINE, Same(), 3)
    ensures Longest(LINE, Same(), 3, AllButOne(), [0])
  {
    LineSuccessors();
    GreedyStops(LINE, Same(), 3, 0, AllButOne());
    forall v
      ensures Start(LINE, Same(), 3, AllButOne(), v) <==> v == 0
    {
      LineStart(v);
    }
  }

  /** In the pipeline match, no match, match, match the search stops behind the first run and misses the
      second, which is longer. */
  lemma FirstRunOnly()
    ensures Acyclic(LINE, Same(), 3) && Longest(LINE, Same(), 3, AllButOne(), [0])
    ensures MatchingPath(LINE, AllButOne(), 2, [2, 3]) && !IsLongest(LINE, AllButOne(), [0])
  {
    FirstRun();
    SecondRun();
  }
}
