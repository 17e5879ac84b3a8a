/** The input side of a task node: for every port a list of groups, and a cursor into it. */
module TaskNode {
  import Progression

  const MAX_INPUTS: nat := 64

  /** The cursor after the next switch: it starts over behind the last group. */
  function Next(n: nat, cursor: nat): nat {
    if cursor + 1 < n then cursor + 1 else 0
  }

  function Switched(n: nat, k: nat): nat {
    if k == 0 then 0 else Next(n, Switched(n, k - 1))
  }

  lemma NextIsModular(n: nat, cursor: nat)
    requires cursor < n
    ensures Next(n, cursor) == (cursor + 1) % n
  {
    if cursor + 1 == n {
      assert n % n == 0;
    }
  }

  /** A port with `n` groups reads them in turn, for ever. */
  lemma {:induction false} SwitchedCycles(n: nat, k: nat)
    requires n >= 1
    ensures Switched(n, k) == k % n
  {
    if k > 0 {
      SwitchedCycles(n, k - 1);
      Progression.NextTurn(k - 1, n);
      NextIsModular(n, (k - 1) % n);
    }
  }

  /** The groups of a port after additions in this order. */
  function Prepended(groups: seq<nat>): seq<nat> {
    if groups == [] then [] else [groups[|groups| - 1]] + Prepended(groups[..|groups| - 1])
  }

  lemma {:induction false} PrependedAt(groups: seq<nat>, i: nat)
    requires i < |groups|
    ensures |Prepended(groups)| == |groups| && Prepended(groups)[i] == groups[|groups| - 1 - i]
  {
    var n := |groups| - 1;
    if n > 0 {
      PrependedAt(groups[..n], if i > 0 then i - 1 else 0);
    }
  }

  /** The port starts with the group that was added last and goes back through the additions, for ever:
      after k switches its current group is the one added k mod n additions before the last. */
  lemma CurrentAfter(groups: seq<nat>, k: nat)
    requires groups != []
    ensures var n := |groups|;
            && |Prepended(groups)| == n && Switched(n, k) < n
            && Prepended(groups)[Switched(n, k)] == groups[n - 1 - k % n]
  {
    SwitchedCycles(|groups|, k);
    PrependedAt(groups, k % |groups|);
  }

  /** A group is named after the node that owns it. `current[p]` is a position in `inGroups[p]`. The ghost
      fields record which groups were added to a port, in this order, and how often it was switched since. */
  class UfoTaskNode {
    var inGroups: seq<seq<nat>>
    var current: seq<nat>
    ghost var added: seq<seq<nat>>
    ghost var switches: seq<nat>

    ghost predicate PortOk(p: nat)
      requires |inGroups| == |current| == |added| == |switches| && p < |added|
      reads this
    {
      inGroups[p] == Prepended(added[p]) && (added[p] != [] ==> current[p] == Switched(|added[p]|, switches[p]))
    }

    ghost predicate Valid()
      reads this
    {
      && |inGroups| == |current| == |added| == |switches| == MAX_INPUTS
      && forall p :: 0 <= p < MAX_INPUTS ==> PortOk(p)
    }

    constructor ()
      ensures Valid() && added == seq(MAX_INPUTS, _ => []) && forall p :: 0 <= p < MAX_INPUTS ==> inGroups[p] == []
    {
      inGroups, current := seq(MAX_INPUTS, _ => []), seq(MAX_INPUTS, _ => 0);
      added, switches := seq(MAX_INPUTS, _ => []), seq(MAX_INPUTS, _ => 0);
    }

    /** A new group comes first and becomes the current one. */
    method AddInGroup(pos: nat, group: nat)
      requires Valid() && pos < MAX_INPUTS
      modifies this
      ensures Valid() && added == old(added)[pos := old(added[pos]) + [group]] && switches == old(switches)[pos := 0]
      ensures inGroups == old(inGroups)[pos := [group] + old(inGroups[pos])]
      ensures current == old(current)[pos := 0]
    {
      inGroups := inGroups[pos := [group] + inGroups[pos]];
      current := current[pos := 0];
      added, switches := added[pos := added[pos] + [group]], switches[pos := 0];
      forall p | 0 <= p < MAX_INPUTS
        ensures PortOk(p)
      {
        assert old(PortOk(p));
      }
    }

    /** The port reads the group added last first, and goes back through the additions, for ever. */
    method GetCurrentInGroup(pos: nat) returns (group: nat)
      requires Valid() && pos < MAX_INPUTS && inGroups[pos] != []
      ensures added[pos] != [] && group == added[pos][|added[pos]| - 1 - switches[pos] % |added[pos]|]
    {
      assert PortOk(pos);
      CurrentAfter(added[pos], switches[pos]);
      group := inGroups[pos][current[pos]];
    }

    method SwitchInGroup(pos: nat)
      requires Valid() && pos < MAX_INPUTS && inGroups[pos] != []
      modifies this`current, this`switches
      ensures Valid() && switches == old(switches)[pos := old(switches[pos]) + 1]
      ensures current == old(current)[pos := Next(|inGroups[pos]|, old(current[pos]))]
    {
      assert PortOk(pos);
      CurrentAfter(added[pos], switches[pos]);
      current := current[pos := current[pos] + 1];
      if current[pos] == |inGroups[pos]| {
        current := current[pos := 0];
      }
      switches := switches[pos := switches[pos] + 1];
      forall p | 0 <= p < MAX_INPUTS
        ensures PortOk(p)
      {
        assert old(PortOk(p));
      }
    }
  }
}
