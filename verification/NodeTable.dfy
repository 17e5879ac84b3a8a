/** Nodes and their copies. Copies of one original form a family; each member has its own index and
    the original counts the members. */
module NodeTable {

  /** Handles of nodes index the three lists. */
  datatype Table = Table(orig: seq<nat>, total: seq<nat>, index: seq<nat>)

  ghost predicate Sound(t: Table) {
    && |t.orig| == |t.total| == |t.index|
    && forall v :: 0 <= v < |t.orig| ==> t.orig[v] < |t.orig| && t.orig[t.orig[v]] == t.orig[v]
  }

  /** The members of every family have the indices 0..total-1, each exactly once. */
  ghost predicate Numbered(t: Table)
    requires Sound(t)
  {
    && (forall v :: 0 <= v < |t.orig| ==> t.index[v] < t.total[t.orig[v]])
    && (forall u, v :: 0 <= u < v < |t.orig| && t.orig[u] == t.orig[v] ==> t.index[u] != t.index[v])
    && (forall o, i :: 0 <= o < |t.orig| && t.orig[o] == o && 0 <= i < t.total[o] ==> HasMember(t, o, i))
  }

  ghost predicate HasMember(t: Table, o: nat, i: nat)
    requires Sound(t)
  {
    exists v :: 0 <= v < |t.orig| && t.orig[v] == o && t.index[v] == i
  }

  function Copied(t: Table, v: nat): Table
    requires v < |t.orig| == |t.total| == |t.index| && t.orig[v] < |t.total|
  {
    var o := t.orig[v];
    Table(t.orig + [o], t.total[o := t.total[o] + 1] + [1], t.index + [t.total[o]])
  }

  lemma CopiedSound(t: Table, v: nat)
    requires Sound(t) && v < |t.orig|
    ensures Sound(Copied(t, v))
  {
  }

  /** A member stays what it is when nodes are added. */
  lemma MemberStays(t: Table, t': Table, o: nat, i: nat)
    requires Sound(t) && Sound(t') && HasMember(t, o, i)
    requires |t.orig| <= |t'.orig| && t'.orig[..|t.orig|] == t.orig && t'.index[..|t.orig|] == t.index
    ensures HasMember(t', o, i)
  {
    var w :| 0 <= w < |t.orig| && t.orig[w] == o && t.index[w] == i;
    assert t'.orig[..|t.orig|][w] == o && t'.index[..|t.orig|][w] == i;
    assert t'.orig[w] == o && t'.index[w] == i;
  }

  lemma CopiedNumbered(t: Table, v: nat)
    requires Sound(t) && Numbered(t) && v < |t.orig|
    ensures Sound(Copied(t, v)) && Numbered(Copied(t, v))
  {
    CopiedSound(t, v);
    var t' := Copied(t, v);
    var o := t.orig[v];
    forall r, i | 0 <= r < |t'.orig| && t'.orig[r] == r && 0 <= i < t'.total[r]
      ensures HasMember(t', r, i)
    {
      if r == o && i == t.total[o] {
        assert t'.orig[|t.orig|] == o && t'.index[|t.orig|] == i;
      } else {
        assert HasMember(t, r, i);
        MemberStays(t, t', r, i);
      }
    }
  }

  /** The table with one new node, which is its own original. */
  function Enlarged(t: Table): Table {
    Table(t.orig + [|t.orig|], t.total + [1], t.index + [0])
  }

  lemma EnlargedNumbered(t: Table)
    requires Sound(t) && Numbered(t)
    ensures Sound(Enlarged(t)) && Numbered(Enlarged(t))
  {
    var t', v := Enlarged(t), |t.orig|;
    forall o, i | 0 <= o < |t'.orig| && t'.orig[o] == o && 0 <= i < t'.total[o]
      ensures HasMember(t', o, i)
    {
      if o == v {
        assert t'.orig[v] == o && t'.index[v] == i;
      } else {
        assert HasMember(t, o, i);
        MemberStays(t, t', o, i);
      }
    }
  }

  class UfoNodes {
    var orig: seq<nat>
    var total: seq<nat>
    var index: seq<nat>

    function Value(): Table
      reads this
    {
      Table(orig, total, index)
    }

    ghost predicate Valid()
      reads this
    {
      Sound(Value()) && Numbered(Value())
    }

    constructor ()
      ensures Valid() && |orig| == 0
    {
      orig, total, index := [], [], [];
    }

    /** A new node is its own original and the only member of its family. */
    method New() returns (v: nat)
      requires Valid()
      modifies this
      ensures Valid() && v == old(|orig|)
      ensures Value() == Table(old(orig) + [v], old(total) + [1], old(index) + [0])
    {
      EnlargedNumbered(Value());
      v := |orig|;
      orig, total, index := orig + [v], total + [1], index + [0];
    }

    /** A copy joins the family of its original with the next free index. */
    method Copy(v: nat) returns (c: nat)
      requires Valid() && v < |orig|
      modifies this
      ensures Valid() && c == old(|orig|)
      ensures Value() == Copied(old(Value()), v)
    {
      CopiedNumbered(Value(), v);
      c := |orig|;
      var o := orig[v];
      orig := orig + [o];
      index := index + [total[o]];
      total := total[o := total[o] + 1] + [1];
    }
  }
}
