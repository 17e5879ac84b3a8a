/** Setting up the groups of a task graph: every node gets a group of targets, and every target adds
    that group to the input port that the edge is labelled with. */
module GroupSetup {
  import opened G = Graph
  import opened Setup
  import opened TaskNode

  function Times(s: seq<nat>, x: nat): nat {
    if s == [] then 0 else Times(s[..|s| - 1], x) + if s[|s| - 1] == x then 1 else 0
  }

  function Repeat(x: nat, n: nat): seq<nat> {
    if n == 0 then [] else [x] + Repeat(x, n - 1)
  }

  /** What node `w` has added to port `p` of `t` after serving the first `j` of its successors. */
  function Added(g: Topology, w: nat, t: nat, p: nat, j: nat): seq<nat>
    requires j <= |Successors(g.edges, w)|
  {
    Repeat(w, if Label(g.edges, w, t) == p then Times(Successors(g.edges, w)[..j], t) else 0)
  }

  /** The groups at port `p` of `t` once the first `k` nodes are set up, as they are prepended. */
  function Feeders(g: Topology, t: nat, p: nat, k: nat): seq<nat>
    requires k <= |g.nodes|
  {
    if k == 0 then []
    else Added(g, g.nodes[k - 1], t, p, |Successors(g.edges, g.nodes[k - 1])|) + Feeders(g, t, p, k - 1)
  }

  /** The task nodes in the middle of setup: `k` nodes done, and `j` successors of the next one. */
  ghost predicate Adding(g: Topology, tasks: map<nat, UfoTaskNode>, k: nat, j: nat)
    reads set v | v in tasks :: tasks[v]
    requires k < |g.nodes| && j <= |Successors(g.edges, g.nodes[k])|
  {
    forall v :: v in tasks ==> tasks[v].Valid() && NodeAdding(g, v, tasks[v].inGroups, k, j)
  }

  ghost predicate NodeAdding(g: Topology, v: nat, inGroups: seq<seq<nat>>, k: nat, j: nat)
    requires |inGroups| == MAX_INPUTS && k < |g.nodes| && j <= |Successors(g.edges, g.nodes[k])|
  {
    forall p :: 0 <= p < MAX_INPUTS ==> inGroups[p] == Added(g, g.nodes[k], v, p, j) + Feeders(g, v, p, k)
  }

  ghost predicate NodeDone(g: Topology, v: nat, inGroups: seq<seq<nat>>, k: nat)
    requires |inGroups| == MAX_INPUTS && k <= |g.nodes|
  {
    forall p :: 0 <= p < MAX_INPUTS ==> inGroups[p] == Feeders(g, v, p, k)
  }

  ghost predicate Done(g: Topology, tasks: map<nat, UfoTaskNode>, k: nat)
    reads set v | v in tasks :: tasks[v]
    requires k <= |g.nodes|
  {
    forall v :: v in tasks ==> tasks[v].Valid() && NodeDone(g, v, tasks[v].inGroups, k)
  }

  lemma AddedOneMore(g: Topology, w: nat, j: nat, t: nat, p: nat)
    requires j < |Successors(g.edges, w)|
    ensures Added(g, w, t, p, j + 1) ==
            (if t == Successors(g.edges, w)[j] && p == Label(g.edges, w, t) then [w] else []) + Added(g, w, t, p, j)
  {
    var s := Successors(g.edges, w);
    assert s[..j + 1][..j] == s[..j];
  }

  lemma AddsNext(g: Topology, v: nat, before: seq<seq<nat>>, k: nat, j: nat, after: seq<seq<nat>>)
    requires |before| == MAX_INPUTS && k < |g.nodes| && j < |Successors(g.edges, g.nodes[k])|
    requires NodeAdding(g, v, before, k, j)
    requires var w, t := g.nodes[k], Successors(g.edges, g.nodes[k])[j];
             && Label(g.edges, w, t) < MAX_INPUTS
             && after == if v == t then before[Label(g.edges, w, t) := [w] + before[Label(g.edges, w, t)]] else before
    ensures NodeAdding(g, v, after, k, j + 1)
  {
    forall p | 0 <= p < MAX_INPUTS
      ensures after[p] == Added(g, g.nodes[k], v, p, j + 1) + Feeders(g, v, p, k)
    {
      AddedOneMore(g, g.nodes[k], j, v, p);
    }
  }

  lemma AddsNone(g: Topology, v: nat, inGroups: seq<seq<nat>>, k: nat)
    requires |inGroups| == MAX_INPUTS && k < |g.nodes| && NodeDone(g, v, inGroups, k)
    ensures NodeAdding(g, v, inGroups, k, 0)
  {
    forall p | 0 <= p < MAX_INPUTS
      ensures inGroups[p] == Added(g, g.nodes[k], v, p, 0) + Feeders(g, v, p, k)
    {
      assert Added(g, g.nodes[k], v, p, 0) == [];
    }
  }

  /** Graph labels are ports, and the tasks of different nodes are different objects. */
  ghost predicate Ready(g: Topology, tasks: map<nat, UfoTaskNode>) {
    && (forall v :: v in g.nodes <==> v in tasks)
    && (forall u, v :: u in tasks && v in tasks && u != v ==> tasks[u] != tasks[v])
    && Closed(g) && forall e :: 0 <= e < |g.edges| ==> g.edges[e].lab < MAX_INPUTS
  }

  lemma TargetReady(g: Topology, tasks: map<nat, UfoTaskNode>, w: nat, j: nat)
    requires Ready(g, tasks) && j < |Successors(g.edges, w)|
    ensures Successors(g.edges, w)[j] in tasks && Label(g.edges, w, Successors(g.edges, w)[j]) < MAX_INPUTS
  {
    var t := Successors(g.edges, w)[j];
    assert t in Successors(g.edges, w);
    SuccessorsHas(g.edges, w, t);
    var e := LabelFound(g.edges, [], w, t);
  }

  /** Adds the group of `g.nodes[k]` to all its targets. */
  method AddGroup(g: Topology, tasks: map<nat, UfoTaskNode>, k: nat) returns (successors: seq<nat>)
    requires Ready(g, tasks) && k < |g.nodes| && Done(g, tasks, k)
    modifies set v | v in tasks :: tasks[v]
    ensures Done(g, tasks, k + 1) && successors == Successors(g.edges, g.nodes[k])
  {
    var w := g.nodes[k];
    successors := Successors(g.edges, w);
    forall v | v in tasks
      ensures tasks[v].Valid() && NodeAdding(g, v, tasks[v].inGroups, k, 0)
    {
      AddsNone(g, v, tasks[v].inGroups, k);
    }
    for j := 0 to |successors|
      invariant Adding(g, tasks, k, j)
    {
      var t := successors[j];
      TargetReady(g, tasks, w, j);
      ghost var before := map v | v in tasks :: tasks[v].inGroups;
      tasks[t].AddInGroup(Label(g.edges, w, t), w);
      forall v | v in tasks
        ensures tasks[v].Valid() && NodeAdding(g, v, tasks[v].inGroups, k, j + 1)
      {
        AddsNext(g, v, before[v], k, j, tasks[v].inGroups);
      }
    }
    forall v | v in tasks
      ensures tasks[v].Valid() && NodeDone(g, v, tasks[v].inGroups, k + 1)
    {
      assert NodeAdding(g, v, tasks[v].inGroups, k, |successors|);
    }
  }

  method SetupGroups(g: Topology, tasks: map<nat, UfoTaskNode>) returns (groups: seq<seq<nat>>)
    requires Ready(g, tasks) && Done(g, tasks, 0)
    modifies set v | v in tasks :: tasks[v]
    ensures |groups| == |g.nodes| && forall i :: 0 <= i < |groups| ==> groups[i] == Successors(g.edges, g.nodes[i])
    ensures forall v, p :: v in g.nodes && 0 <= p < MAX_INPUTS ==>
              v in tasks && |tasks[v].inGroups| == MAX_INPUTS && tasks[v].inGroups[p] == Feeders(g, v, p, |g.nodes|)
  {
    groups := [];
    for k := 0 to |g.nodes|
      invariant |groups| == k && forall i :: 0 <= i < k ==> groups[i] == Successors(g.edges, g.nodes[i])
      invariant Done(g, tasks, k)
    {
      var successors := AddGroup(g, tasks, k);
      groups := groups + [successors];
    }
    forall v, p | v in g.nodes && 0 <= p < MAX_INPUTS
      ensures v in tasks && |tasks[v].inGroups| == MAX_INPUTS && tasks[v].inGroups[p] == Feeders(g, v, p, |g.nodes|)
    {
      assert tasks[v].Valid() && NodeDone(g, v, tasks[v].inGroups, |g.nodes|);
    }
  }

  // The lists that setup builds are those that the network is made of.

  lemma {:induction false} TimesJoined(edges: seq<Edge>, w: nat, t: nat)
    requires Simple(edges)
    ensures Times(Successors(edges, w), t) == if Joined(edges, w, t) then 1 else 0
  {
    if edges != [] {
      var rest, s := edges[1..], Successors(edges, w);
      TimesJoined(rest, w, t);
      if edges[0].source == w {
        assert s == Successors(rest, w) + [edges[0].target];
        assert s[..|s| - 1] == Successors(rest, w);
      } else {
        assert s == Successors(rest, w);
      }
      JoinedTail(edges, w, t);
    }
  }

  lemma JoinedTail(edges: seq<Edge>, w: nat, t: nat)
    requires Simple(edges) && edges != []
    ensures Joined(edges, w, t) <==> (edges[0].source == w && edges[0].target == t) || Joined(edges[1..], w, t)
    ensures edges[0].source == w && edges[0].target == t ==> !Joined(edges[1..], w, t)
  {
    if Joined(edges, w, t) {
      var j :| 0 <= j < |edges| && edges[j].source == w && edges[j].target == t;
      assert j > 0 ==> edges[1..][j - 1] == edges[j];
    }
    if Joined(edges[1..], w, t) {
      var j :| 0 <= j < |edges[1..]| && edges[1..][j].source == w && edges[1..][j].target == t;
      assert edges[j + 1] == edges[1..][j];
    }
  }

  /** What one node adds to a port is named by the edge between them. */
  lemma AddedIsHit(g: Topology, w: nat, t: nat, p: nat)
    requires Simple(g.edges)
    ensures var a, h := Added(g, w, t, p, |Successors(g.edges, w)|), Hits(g.edges, w, t, p, |g.edges|);
            && |a| == |h| <= 1 && (|h| == 1 ==> h[0] < |g.edges| && a[0] == g.edges[h[0]].source)
  {
    var s, h := Successors(g.edges, w), Hits(g.edges, w, t, p, |g.edges|);
    assert s[..|s|] == s;
    TimesJoined(g.edges, w, t);
    HitsOne(g.edges, w, t, p, |g.edges|);
    if h != [] {
      assert h[0] in h;
      HitsHas(g.edges, w, t, p, |g.edges|, h[0]);
      assert Joined(g.edges, w, t);
      LabelOfEdge(g.edges, h[0]);
      assert Repeat(w, 1) == [w];
    } else if Joined(g.edges, w, t) {
      var e := LabelFound(g.edges, [], w, t);
      HitsHas(g.edges, w, t, p, |g.edges|, e);
    }
  }

  /** The groups at a port, in the order of its list, are those of the sources of its edges. */
  lemma {:induction false} FeedersAreInputs(g: Topology, t: nat, p: nat, k: nat)
    requires Simple(g.edges) && k <= |g.nodes|
    ensures |Feeders(g, t, p, k)| == |InIdx(g, t, p, k)|
    ensures forall q :: 0 <= q < |InIdx(g, t, p, k)| ==>
              InIdx(g, t, p, k)[q] < |g.edges| && Feeders(g, t, p, k)[q] == g.edges[InIdx(g, t, p, k)[q]].source
  {
    if k > 0 {
      FeedersAreInputs(g, t, p, k - 1);
      AddedIsHit(g, g.nodes[k - 1], t, p);
    }
  }

  /** Setup makes the network: the targets of every group are those of the node's outgoing edges, and
      the groups at every port those of its incoming edges, both in the order of the network. */
  lemma SetupMakesNetwork<V>(g: Topology, job: Job<V>, v: nat)
    requires GraphOk(g, job) && v < |g.nodes|
    ensures var x := NetOf(g, job).nodes[v];
            && |Successors(g.edges, g.nodes[v])| == |x.outs|
            && (forall i :: 0 <= i < |x.outs| ==>
                  x.outs[i] < |g.edges| && Successors(g.edges, g.nodes[v])[i] == g.edges[x.outs[i]].target)
            && (forall p :: 0 <= p < |x.ins| ==>
                  && |Feeders(g, g.nodes[v], p, |g.nodes|)| == |x.ins[p]|
                  && forall q :: 0 <= q < |x.ins[p]| ==>
                       x.ins[p][q] < |g.edges| && Feeders(g, g.nodes[v], p, |g.nodes|)[q] == g.edges[x.ins[p][q]].source)
  {
    SuccessorsAt(g.edges, g.nodes[v], |g.edges|);
    assert g.edges[..|g.edges|] == g.edges;
    forall p | 0 <= p < job.task(g.nodes[v]).inputs
      ensures |Feeders(g, g.nodes[v], p, |g.nodes|)| == |Ins(g, g.nodes[v], p)|
      ensures forall q :: 0 <= q < |Ins(g, g.nodes[v], p)| ==>
                && Ins(g, g.nodes[v], p)[q] < |g.edges|
                && Feeders(g, g.nodes[v], p, |g.nodes|)[q] == g.edges[Ins(g, g.nodes[v], p)[q]].source
    {
      FeedersAreInputs(g, g.nodes[v], p, |g.nodes|);
    }
  }
}
