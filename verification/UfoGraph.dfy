/** The graph object: lists of nodes and edges that its methods change in place. */
module UfoGraph {
  import opened G = Graph
  import opened Expand
  import opened NodeTable

  /** Members of a list that match, in reverse order: the list is built by prepending. */
  function FoundAll(list: seq<Edge>, fits: Edge -> bool): seq<Edge> {
    if list == [] then []
    else FoundAll(list[1..], fits) + if fits(list[0]) then [list[0]] else []
  }

  function From(v: nat): Edge -> bool { (e: Edge) => e.source == v }

  function To(v: nat): Edge -> bool { (e: Edge) => e.target == v }

  predicate IsRoot(g: Topology, v: nat) {
    forall u :: u in g.nodes ==> !Joined(g.edges, u, v)
  }

  /** The nodes without predecessor, in the order of nodes. */
  function RootsIn(g: Topology, nodes: seq<nat>): seq<nat> {
    if nodes == [] then []
    else RootsIn(g, nodes[..|nodes| - 1]) + if IsRoot(g, nodes[|nodes| - 1]) then [nodes[|nodes| - 1]] else []
  }

  function Roots(g: Topology): seq<nat> { RootsIn(g, g.nodes) }

  /** The family table after the nodes of `made` were copied, one after the other. */
  function CopiedAll(t: Table, made: seq<nat>): (r: Table)
    requires Sound(t) && forall i :: 0 <= i < |made| ==> made[i] < |t.orig|
    ensures Sound(r) && |r.orig| == |t.orig| + |made|
  {
    if made == [] then t
    else
      var r := CopiedAll(t, made[..|made| - 1]);
      CopiedSound(r, made[|made| - 1]);
      Copied(r, made[|made| - 1])
  }

  /** The handles of `n` copies made from `first` on. */
  function Handles(first: nat, n: nat): seq<nat> {
    seq<nat>(n, k requires 0 <= k < n => first + k)
  }

  lemma {:induction false} FoundAllAppend(list: seq<Edge>, e: Edge, fits: Edge -> bool)
    ensures FoundAll(list + [e], fits) == (if fits(e) then [e] else []) + FoundAll(list, fits)
  {
    if list == [] {
      assert list + [e] == [e];
    } else {
      assert (list + [e])[1..] == list[1..] + [e];
      FoundAllAppend(list[1..], e, fits);
    }
  }

  lemma {:induction false} SuccessorsFound(edges: seq<Edge>, v: nat)
    ensures |Successors(edges, v)| == |FoundAll(edges, From(v))|
    ensures forall i :: 0 <= i < |Successors(edges, v)| ==> Successors(edges, v)[i] == FoundAll(edges, From(v))[i].target
  {
    if edges != [] {
      SuccessorsFound(edges[1..], v);
    }
  }

  /** Predecessors come in the order of edges: they are prepended from a reversed list. */
  lemma {:induction false} PredecessorsFound(edges: seq<Edge>, v: nat)
    ensures |Predecessors(edges, v)| == |FoundAll(edges, To(v))|
    ensures forall i :: 0 <= i < |Predecessors(edges, v)| ==>
              Predecessors(edges, v)[i] == FoundAll(edges, To(v))[|Predecessors(edges, v)| - 1 - i].source
  {
    if edges != [] {
      PredecessorsFound(edges[1..], v);
    }
  }

  lemma {:induction false} FirstEdge(edges: seq<Edge>, s: nat, t: nat, i: nat)
    requires i <= |edges| && forall j :: 0 <= j < i ==> edges[j].source != s || edges[j].target != t
    ensures Label(edges, s, t) == Label(edges[i..], s, t)
  {
    if i > 0 {
      assert edges[1..][i - 1..] == edges[i..];
      forall j | 0 <= j < i - 1
        ensures edges[1..][j].source != s || edges[1..][j].target != t
      {
        assert edges[1..][j] == edges[j + 1];
      }
      FirstEdge(edges[1..], s, t, i - 1);
    }
  }

  lemma CopiedOneMore(t: Table, made: seq<nat>, v: nat)
    requires Sound(t) && v < |t.orig| && forall i :: 0 <= i < |made| ==> made[i] < |t.orig|
    ensures CopiedAll(t, made + [v]) == Copied(CopiedAll(t, made), v)
  {
    assert (made + [v])[..|made|] == made;
  }

  /** What an expansion has done beside the lists of nodes and edges once it has copied the nodes
      `made`: from the table `t` and the list `before` it has made `table` and `copies`. */
  ghost predicate Grew(made: seq<nat>, t: Table, before: seq<nat>, table: Table, copies: seq<nat>) {
    && Sound(t) && (forall k :: 0 <= k < |made| ==> made[k] < |t.orig|)
    && copies == before + Handles(|t.orig|, |made|) && table == CopiedAll(t, made)
  }

  lemma GrewOneMore(made: seq<nat>, t: Table, before: seq<nat>, table: Table, copies: seq<nat>, v: nat)
    requires Grew(made, t, before, table, copies) && v < |t.orig|
    ensures v < |table.orig| == |table.index| == |table.total| && |table.orig| == |t.orig| + |made|
    ensures Sound(table) && Grew(made + [v], t, before, Copied(table, v), copies + [|t.orig| + |made|])
  {
    CopiedOneMore(t, made, v);
  }

  lemma OneAdvance(first: nat, x: Growth, path: seq<nat>, i: nat)
    requires 1 <= i < |path| - 1
    ensures ExpandFrom(first, x, path, i) == ExpandFrom(first, Advance(first, x, path, i), path, i + 1)
  {
  }

  /** Handles of nodes come from `family`, which numbers them. */
  class UfoGraph {
    var nodes: seq<nat>
    var edges: seq<Edge>
    var copies: seq<nat>
    const family: UfoNodes

    function Value(): Topology
      reads this
    {
      Topology(nodes, edges)
    }

    constructor (family: UfoNodes)
      ensures Value() == Topology([], []) && copies == [] && this.family == family
    {
      nodes, edges, copies := [], [], [];
      this.family := family;
    }

    /** The position of the first edge from `source` to `target`, or the number of edges. */
    method FindEdge(source: nat, target: nat) returns (i: nat)
      ensures i <= |edges| && (i < |edges| <==> Joined(edges, source, target))
      ensures Label(edges, source, target) == if i < |edges| then edges[i].lab else 0
    {
      i := 0;
      while i < |edges| && !(edges[i].source == source && edges[i].target == target)
        invariant i <= |edges|
        invariant forall j :: 0 <= j < i ==> edges[j].source != source || edges[j].target != target
      {
        i := i + 1;
      }
      FirstEdge(edges, source, target, i);
    }

    method IsConnected(source: nat, target: nat) returns (r: bool)
      ensures r == Joined(edges, source, target)
    {
      var i := FindEdge(source, target);
      r := i < |edges|;
    }

    method GetEdgeLabel(source: nat, target: nat) returns (lab: nat)
      ensures lab == Label(edges, source, target)
    {
      var i := FindEdge(source, target);
      lab := if i < |edges| then edges[i].lab else 0;
    }

    method AddNodeIfNotFound(v: nat)
      modifies this`nodes
      ensures nodes == WithNode(old(nodes), v)
    {
      if v !in nodes {
        nodes := nodes + [v];
      }
    }

    /** Connects two nodes, unless their first edge has this label already. */
    method ConnectNodes(source: nat, target: nat, lab: nat)
      modifies this`nodes, this`edges
      ensures Value() == Connect(old(Value()), source, target, lab)
    {
      var connected := IsConnected(source, target);
      if connected {
        var found := GetEdgeLabel(source, target);
        if found == lab {
          return;
        }
      }
      edges := edges + [Edge(source, target, lab)];
      AddNodeIfNotFound(source);
      AddNodeIfNotFound(target);
    }

    method FindAllData(list: seq<Edge>, fits: Edge -> bool) returns (result: seq<Edge>)
      ensures result == FoundAll(list, fits)
    {
      result := [];
      for i := 0 to |list|
        invariant result == FoundAll(list[..i], fits)
      {
        assert list[..i + 1] == list[..i] + [list[i]];
        FoundAllAppend(list[..i], list[i], fits);
        if fits(list[i]) {
          result := [list[i]] + result;
        }
      }
      assert list[..|list|] == list;
    }

    /** The successors of a node: targets of its edges, latest edge first. */
    method GetSuccessors(v: nat) returns (result: seq<nat>)
      ensures result == Successors(edges, v)
    {
      var found := FindAllData(edges, From(v));
      SuccessorsFound(edges, v);
      result := [];
      for i := 0 to |found|
        invariant result == Successors(edges, v)[..i]
      {
        result := result + [found[i].target];
      }
    }

    /** The predecessors of a node: sources of its edges, earliest edge first. */
    method GetPredecessors(v: nat) returns (result: seq<nat>)
      ensures result == Predecessors(edges, v)
    {
      var found := FindAllData(edges, To(v));
      PredecessorsFound(edges, v);
      result := [];
      for i := 0 to |found|
        invariant result == Predecessors(edges, v)[|found| - i..]
      {
        result := [found[i].source] + result;
      }
    }

    method GetNumPredecessors(v: nat) returns (n: nat)
      ensures n == |Predecessors(edges, v)|
    {
      var found := FindAllData(edges, To(v));
      PredecessorsFound(edges, v);
      n := |found|;
    }

    method HasNoPredecessor(v: nat) returns (r: bool)
      ensures r == IsRoot(Value(), v)
    {
      for i := 0 to |nodes|
        invariant forall j :: 0 <= j < i ==> !Joined(edges, nodes[j], v)
      {
        var connected := IsConnected(nodes[i], v);
        if connected {
          return false;
        }
      }
      return true;
    }

    method GetRoots() returns (roots: seq<nat>)
      ensures roots == Roots(Value())
    {
      roots := [];
      for i := 0 to |nodes|
        invariant roots == RootsIn(Value(), nodes[..i])
      {
        assert nodes[..i + 1][..i] == nodes[..i];
        var root := HasNoPredecessor(nodes[i]);
        if root {
          roots := roots + [nodes[i]];
        }
      }
      assert nodes[..|nodes|] == nodes;
    }

    /** One node of an expansion: the branch goes on from `current` with a copy of `next`, or with
        `next` itself if that has several inputs, under the label between `orig` and `next`. */
    method Branch(orig: nat, current: nat, next: nat) returns (c: nat)
      requires family.Valid() && next < |family.orig|
      modifies this, family
      ensures family.Valid()
      ensures |Predecessors(old(edges), next)| <= 1 ==>
                && c == old(|family.orig|) && copies == old(copies) + [c]
                && family.Value() == Copied(old(family.Value()), next)
      ensures |Predecessors(old(edges), next)| > 1 ==>
                c == next && copies == old(copies) && family.Value() == old(family.Value())
      ensures Value() == Connect(old(Value()), current, c, Label(old(edges), orig, next))
    {
      var n := GetNumPredecessors(next);
      var lab := GetEdgeLabel(orig, next);
      if n <= 1 {
        c := family.Copy(next);
        ConnectNodes(current, c, lab);
        copies := copies + [c];
      } else {
        c := next;
        ConnectNodes(current, next, lab);
      }
    }

    /** Position `i` of an expansion that has got to `x`. */
    method Grow(path: seq<nat>, i: nat, orig: nat, current: nat, ghost x: Growth, ghost t: Table, ghost before: seq<nat>)
      returns (c: nat)
      requires family.Valid() && 1 <= i < |path| && path[i] < |t.orig| && orig == path[i - 1]
      requires current == x.current && Value() == x.graph && Grew(x.made, t, before, family.Value(), copies)
      modifies this, family
      ensures family.Valid()
      ensures var y := Advance(|t.orig|, x, path, i);
              c == y.current && Value() == y.graph && Grew(y.made, t, before, family.Value(), copies)
    {
      GrewOneMore(x.made, t, before, family.Value(), copies, path[i]);
      c := Branch(orig, current, path[i]);
    }

    /** Duplicates the nodes between head and tail of `path`. */
    method Expand(path: seq<nat>)
      requires family.Valid() && forall i :: 0 <= i < |path| ==> path[i] < |family.orig|
      modifies this, family
      ensures Value() == Expanded(old(Value()), old(|family.orig|), path).graph
      ensures Grew(Expanded(old(Value()), old(|family.orig|), path).made, old(family.Value()), old(copies), family.Value(), copies)
      ensures family.Valid()
    {
      ghost var first, t, before := |family.orig|, family.Value(), copies;
      if |path| < 2 {
        return;
      }
      var orig, current := path[0], path[0];
      ghost var x := Growth(Value(), [], current);
      var i := 1;
      while i < |path| - 1
        invariant 1 <= i < |path| && orig == path[i - 1] && current == x.current && Value() == x.graph
        invariant ExpandFrom(first, x, path, i) == Expanded(old(Value()), first, path)
        invariant family.Valid() && Grew(x.made, t, before, family.Value(), copies)
        decreases |path| - i
      {
        OneAdvance(first, x, path, i);
        current := Grow(path, i, orig, current, x, t, before);
        orig := path[i];
        x := Advance(first, x, path, i);
        i := i + 1;
      }
      var lab := GetEdgeLabel(orig, path[i]);
      ConnectNodes(current, path[i], lab);
    }
  }
}
