/** Which GPU a task gets: the one that a way from a root counts up to, turn by turn. */
module GpuWays {
  import opened G = Graph
  import opened Expand
  import opened PathSearch
  import opened Mapping
  import Progression
  import U = UfoGraph

  function Sum(turns: seq<nat>): nat {
    if turns == [] then 0 else turns[0] + Sum(turns[1..])
  }

  /** The way `p` turns to successor number `turns[i]` behind its node `i`. */
  ghost predicate Turning(g: Topology, p: seq<nat>, turns: seq<nat>) {
    |p| == |turns| + 1 && forall i {:trigger TurnAt(g, p, turns, i)} :: 0 <= i < |turns| ==> TurnAt(g, p, turns, i)
  }

  ghost predicate TurnAt(g: Topology, p: seq<nat>, turns: seq<nat>, i: int) {
    && 0 <= i < |turns| && i + 1 < |p|
    && turns[i] < |Successors(g.edges, p[i])| && Successors(g.edges, p[i])[turns[i]] == p[i + 1]
  }

  /** A way from `v`, visited with GPU `start`, counts up to `gpu` at `u`. */
  ghost predicate CountsTo(g: Topology, count: nat, v: nat, start: nat, u: nat, gpu: nat) {
    exists p, turns :: Counting(g, count, v, start, u, gpu, p, turns)
  }

  ghost predicate Counting(g: Topology, count: nat, v: nat, start: nat, u: nat, gpu: nat, p: seq<nat>, turns: seq<nat>) {
    count > 0 && Turning(g, p, turns) && p[0] == v && p[|p| - 1] == u && gpu == (start + Sum(turns)) % count
  }

  lemma ModuloTwice(a: nat, b: nat, n: nat)
    requires n > 0
    ensures (a % n + b) % n == (a + b) % n
  {
    var x, y := a % n + b, a / n;
    assert a + b == n * y + x;
    assert x == n * (x / n) + x % n;
    assert n * (y + x / n) == n * y + n * (x / n);
    Progression.Split(x % n, n, a + b, y + x / n);
  }

  lemma TurnFirst(g: Topology, v: nat, j: nat, p: seq<nat>, turns: seq<nat>)
    requires Turning(g, p, turns) && j < |Successors(g.edges, v)| && Successors(g.edges, v)[j] == p[0]
    ensures Turning(g, [v] + p, [j] + turns) && Sum([j] + turns) == j + Sum(turns)
  {
    var p', turns' := [v] + p, [j] + turns;
    assert turns'[1..] == turns;
    forall i | 0 <= i < |turns'|
      ensures TurnAt(g, p', turns', i)
    {
      assert i > 0 ==> TurnAt(g, p, turns, i - 1);
    }
  }

  /** A way that begins with a turn to successor `j`, which was visited with GPU `next`. */
  lemma CountsOn(g: Topology, count: nat, v: nat, start: nat, j: nat, next: nat, u: nat, gpu: nat)
    requires count > 0 && j < |Successors(g.edges, v)| && next == (start + j) % count
    requires CountsTo(g, count, Successors(g.edges, v)[j], next, u, gpu)
    ensures CountsTo(g, count, v, start, u, gpu)
  {
    var p, turns :| Counting(g, count, Successors(g.edges, v)[j], next, u, gpu, p, turns);
    TurnFirst(g, v, j, p, turns);
    ModuloTwice(start + j, Sum(turns), count);
    assert Counting(g, count, v, start, u, gpu, [v] + p, [j] + turns);
  }

  lemma CountsHere(g: Topology, count: nat, v: nat, start: nat)
    requires start < count
    ensures CountsTo(g, count, v, start, v, start)
  {
    Progression.Split(start, count, start, 0);
    assert Counting(g, count, v, start, v, start, [v], []);
  }

  /** The GPU after `j` steps. */
  function Advanced(d: Gpus, start: nat, j: nat): nat {
    if j == 0 then start else NextGpu(d, Advanced(d, start, j - 1))
  }

  lemma NextIs(d: Gpus, a: nat, index: nat, b: nat)
    requires d.count > 0 && index == a % d.count && b == a + 1
    ensures NextGpu(d, index) == b % d.count
  {
    Progression.NextTurn(a, d.count);
  }

  lemma {:induction false} AdvancedIs(d: Gpus, start: nat, j: nat)
    requires start < d.count
    ensures Advanced(d, start, j) == (start + j) % d.count
  {
    if j == 0 {
      Progression.Split(start, d.count, start, 0);
    } else {
      AdvancedIs(d, start, j - 1);
      NextIs(d, start + j - 1, Advanced(d, start, j - 1), start + j);
    }
  }

  lemma {:induction false} MapFromCounts(g: Topology, rank: nat -> nat, top: nat, d: Gpus, m: Assignment, v: nat, index: nat,
                                         u: nat, r: Assignment)
    requires Acyclic(g, rank, top) && v in g.nodes && index < d.count && r == MapFrom(g, rank, top, d, m, v, index)
    ensures NewCounted(g, d.count, v, index, m, r, u)
    decreases top - rank(v), |Successors(g.edges, v)| + 1
  {
    var m1 := Assigned(d, m, v, index);
    NextExtends(g, rank, top, d, m1, v, index, |Successors(g.edges, v)|, r);
    if u in m1 && u !in m {
      CountsHere(g, d.count, v, index);
    } else {
      MapBelowCounts(g, rank, top, d, m1, v, index, 0, index, |Successors(g.edges, v)|, u, r);
    }
  }

  /** What `r` has in addition to `m` was counted up to from `v`. */
  ghost predicate NewCounted(g: Topology, count: nat, v: nat, start: nat, m: Assignment, r: Assignment, u: nat) {
    u in r && u !in m ==> CountsTo(g, count, v, start, u, r[u])
  }

  lemma FirstCounted(g: Topology, d: Gpus, v: nat, start: nat, j: nat, index: nat, m: Assignment, m1: Assignment, r: Assignment, u: nat)
    requires start < d.count && j < |Successors(g.edges, v)| && index == Advanced(d, start, j) && u in m1 && Extends(d, m1, r)
    requires NewCounted(g, d.count, Successors(g.edges, v)[j], index, m, m1, u)
    ensures NewCounted(g, d.count, v, start, m, r, u)
  {
    if u !in m {
      AdvancedIs(d, start, j);
      CountsOn(g, d.count, v, start, j, index, u, m1[u]);
    }
  }

  lemma NextExtends(g: Topology, rank: nat -> nat, top: nat, d: Gpus, m1: Assignment, v: nat, index: nat, k: nat, r: Assignment)
    requires Acyclic(g, rank, top) && v in g.nodes && k <= |Successors(g.edges, v)| && r == MapBelow(g, rank, top, d, m1, v, index, k)
    ensures Extends(d, m1, r)
  {
    MapBelowExtends(g, rank, top, d, m1, v, index, k);
  }

  /** The visit to successor number `j`, and the rest. */
  lemma VisitAt(g: Topology, rank: nat -> nat, top: nat, d: Gpus, m: Assignment, v: nat, j: nat, index: nat, k: nat, r: Assignment)
    returns (u: nat, m1: Assignment, next: nat, rest: nat)
    requires Acyclic(g, rank, top) && v in g.nodes && 0 < k && j + k == |Successors(g.edges, v)| && index < d.count
    requires r == MapBelow(g, rank, top, d, m, v, index, k)
    ensures u == Successors(g.edges, v)[j] && u in g.nodes && rank(v) < rank(u) <= top
    ensures m1 == MapFrom(g, rank, top, d, m, u, index) && Extends(d, m, m1) && Extends(d, m1, r)
    ensures rest == k - 1 && next == NextGpu(d, index) < d.count && r == MapBelow(g, rank, top, d, m1, v, next, rest)
  {
    var r';
    u, m1, r' := NextVisit(g, rank, top, d, m, v, index, k);
    next, rest := NextGpu(d, index), k - 1;
    NextInRange(d, index);
    MapFromExtends(g, rank, top, d, m, u, index);
    MapBelowExtends(g, rank, top, d, m1, v, next, rest);
  }

  /** The same for the successors from number `j` on; the first of them is visited with GPU `index`. */
  lemma {:induction false} MapBelowCounts(g: Topology, rank: nat -> nat, top: nat, d: Gpus, m: Assignment, v: nat, start: nat,
                                          j: nat, index: nat, k: nat, u: nat, r: Assignment)
    requires Acyclic(g, rank, top) && v in g.nodes && j + k == |Successors(g.edges, v)|
    requires start < d.count && index < d.count && index == Advanced(d, start, j) && r == MapBelow(g, rank, top, d, m, v, index, k)
    ensures NewCounted(g, d.count, v, start, m, r, u)
    decreases top - rank(v), k
  {
    if k > 0 {
      var w, m1, next, rest := VisitAt(g, rank, top, d, m, v, j, index, k, r);
      if u in m1 {
        MapFromCounts(g, rank, top, d, m, w, index, u, m1);
        FirstCounted(g, d, v, start, j, index, m, m1, r, u);
      } else {
        MapBelowCounts(g, rank, top, d, m1, v, start, j + 1, next, rest, u, r);
      }
    }
  }

  lemma {:induction false} MapRootsCounts(g: Topology, rank: nat -> nat, top: nat, d: Gpus, m: Assignment, roots: seq<nat>, u: nat)
    returns (root: nat)
    requires Acyclic(g, rank, top) && AllIn(g, roots) && d.count > 0
    requires u in MapRoots(g, rank, top, d, m, roots) && u !in m
    ensures root in roots && CountsTo(g, d.count, root, 0, u, MapRoots(g, rank, top, d, m, roots)[u])
  {
    var n := |roots| - 1;
    var m1 := MapRoots(g, rank, top, d, m, roots[..n]);
    if u in m1 {
      root := MapRootsCounts(g, rank, top, d, m, roots[..n], u);
      MapFromExtends(g, rank, top, d, m1, roots[n], 0);
    } else {
      root := roots[n];
      MapFromCounts(g, rank, top, d, m1, roots[n], 0, u, MapRoots(g, rank, top, d, m, roots));
    }
  }

  /** Every task that gets a GPU gets the one that some way from a root counts up to: from GPU 0, a turn
      to successor number j advances by j, and behind the last GPU comes the first. */
  lemma MappedAlongWay(g: Topology, rank: nat -> nat, top: nat, d: Gpus, m: Assignment, u: nat)
    returns (root: nat, p: seq<nat>, turns: seq<nat>)
    requires Acyclic(g, rank, top) && AllIn(g, U.Roots(g))
    requires u in MapRoots(g, rank, top, d, m, U.Roots(g)) && u !in m
    ensures d.count > 0 && root in U.Roots(g) && Turning(g, p, turns) && p[0] == root && p[|p| - 1] == u
    ensures MapRoots(g, rank, top, d, m, U.Roots(g))[u] == Sum(turns) % d.count
  {
    var r := MapRoots(g, rank, top, d, m, U.Roots(g));
    MapRootsExtends(g, rank, top, d, m, U.Roots(g));
    root := MapRootsCounts(g, rank, top, d, m, U.Roots(g), u);
    p, turns :| Counting(g, d.count, root, 0, u, r[u], p, turns);
  }
}
