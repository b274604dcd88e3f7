/**
 * The rule that decides which agents take part in an operation, as the
 * backend logic script writes it out three times: the group filter of
 * `construct_agents_for_group`, the per-pair access check, and the loop
 * that collects the operations an agent may join. An operation lists
 * agent ids, names a group, or neither; the ids take precedence.
 */
module AgentAccess {
  import opened Wrappers

  datatype Agent = Agent(paw: string, group: string, platform: string, host: string)

  /** An operation; `agentIds` is `None` when the object has no `agent_ids` attribute. */
  datatype Operation = Operation(name: string, group: string, agentIds: Option<seq<string>>)

  /** A truthy id list: present and not empty. */
  predicate HasIds(ids: Option<seq<string>>) {
    ids.Some? && ids.value != []
  }

  /** `can_agent_access_operation(agent, operation)`. */
  predicate CanAccess(a: Agent, op: Operation)
    ensures op.agentIds.Some? && a.paw in op.agentIds.value ==> CanAccess(a, op)
    ensures !CanAccess(a, op) ==> op.agentIds.Some? || op.group != ""
  {
    if HasIds(op.agentIds) then a.paw in op.agentIds.value
    else if op.group != "" then op.group == a.group
    else true
  }

  /** A non-empty id list decides alone: the agent's group and the operation's group play no part. */
  lemma IdsDecide(a: Agent, op: Operation, otherGroup: string, otherOpGroup: string)
    requires HasIds(op.agentIds)
    ensures CanAccess(a, op) <==> a.paw in op.agentIds.value
    ensures CanAccess(a, op) == CanAccess(a.(group := otherGroup), op.(group := otherOpGroup))
  {
  }

  /**
   * Without ids, a named group decides by equality: agents of that group
   * have access, any other agent has not, whatever its paw.
   */
  lemma GroupDecides(a: Agent, op: Operation, otherPaw: string)
    requires !HasIds(op.agentIds) && op.group != ""
    ensures CanAccess(a, op) <==> a.group == op.group
    ensures CanAccess(a, op) == CanAccess(a.(paw := otherPaw), op)
  {
  }

  /** With neither ids nor a group, every agent has access. */
  lemma OpenToAll(op: Operation)
    requires !HasIds(op.agentIds) && op.group == ""
    ensures forall a: Agent :: CanAccess(a, op)
  {
  }

  // ----- order-preserving selection -----

  /** The elements of `s` that satisfy `p`, in their order: a list comprehension with a condition. */
  function Select<T>(s: seq<T>, p: T -> bool): (r: seq<T>)
    ensures |r| <= |s|
    ensures forall x :: x in r ==> x in s && p(x)
    decreases |s|
  {
    if s == [] then []
    else if p(s[0]) then [s[0]] + Select(s[1..], p)
    else Select(s[1..], p)
  }

  /** `sub` is `s` with some elements left out and the rest in their order. */
  predicate IsSublist<T(==)>(sub: seq<T>, s: seq<T>)
    decreases |s|
  {
    if sub == [] then true
    else if s == [] then false
    else (sub[0] == s[0] && IsSublist(sub[1..], s[1..])) || IsSublist(sub, s[1..])
  }

  /** `Select` keeps every element that satisfies the condition, and keeps the order. */
  lemma {:induction false} SelectMeaning<T>(s: seq<T>, p: T -> bool)
    ensures forall x :: x in Select(s, p) <==> x in s && p(x)
    ensures IsSublist(Select(s, p), s)
    decreases |s|
  {
    if s != [] {
      SelectMeaning(s[1..], p);
      assert s == [s[0]] + s[1..];
      if p(s[0]) {
        var r := [s[0]] + Select(s[1..], p);
        assert r[1..] == Select(s[1..], p);
      }
    }
  }

  // ----- filter_agents_by_group -----

  /** `filter_agents_by_group(group, agent_ids)` over the known agents. */
  function FilterAgentsByGroup(agents: seq<Agent>, group: string, agentIds: Option<seq<string>>): (r: seq<Agent>)
    ensures |r| <= |agents|
    ensures forall x :: x in r ==> x in agents
    ensures agentIds.Some? && agentIds.value != [] ==> forall x :: x in r ==> x.paw in agentIds.value
  {
    if HasIds(agentIds) then Select(agents, (a: Agent) => a.paw in agentIds.value)
    else if group != "" then Select(agents, (a: Agent) => a.group == group)
    else agents
  }

  /**
   * The filter returns an order-preserving sub-list of the agents holding
   * exactly those agents the access check lets into an operation with the
   * same group and ids.
   */
  lemma FilterAgentsMeaning(agents: seq<Agent>, op: Operation)
    ensures IsSublist(FilterAgentsByGroup(agents, op.group, op.agentIds), agents)
    ensures forall a :: a in FilterAgentsByGroup(agents, op.group, op.agentIds) <==> a in agents && CanAccess(a, op)
  {
    if HasIds(op.agentIds) {
      SelectMeaning(agents, (a: Agent) => a.paw in op.agentIds.value);
    } else if op.group != "" {
      SelectMeaning(agents, (a: Agent) => a.group == op.group);
    } else {
      SublistRefl(agents);
    }
  }

  lemma {:induction false} SublistRefl<T>(s: seq<T>)
    ensures IsSublist(s, s)
    decreases |s|
  {
    if s != [] {
      SublistRefl(s[1..]);
    }
  }

  /** A sub-list stays one when the same element is appended to both, or to the longer list alone. */
  lemma {:induction false} SublistSnoc<T>(sub: seq<T>, s: seq<T>, x: T)
    requires IsSublist(sub, s)
    ensures IsSublist(sub + [x], s + [x])
    ensures IsSublist(sub, s + [x])
    decreases |s|
  {
    if s == [] {
      assert sub == [];
      assert (sub + [x])[1..] == [];
    } else {
      assert (s + [x])[1..] == s[1..] + [x];
      if sub == [] {
        SublistSnoc(sub, s[1..], x);
      } else {
        assert (sub + [x])[1..] == sub[1..] + [x];
        if sub[0] == s[0] && IsSublist(sub[1..], s[1..]) {
          SublistSnoc(sub[1..], s[1..], x);
        } else {
          SublistSnoc(sub, s[1..], x);
        }
      }
    }
  }

  // ----- simulate_add_agent_to_operation -----

  /** The operations `agent` may join, in their order. */
  function AccessibleOps(a: Agent, ops: seq<Operation>): (r: seq<Operation>)
    ensures |r| <= |ops|
    ensures forall op :: op in r ==> op in ops && CanAccess(a, op)
  {
    Select(ops, (op: Operation) => CanAccess(a, op))
  }

  /**
   * `simulate_add_agent_to_operation(agent, operations)`: the loop that
   * decides `can_access` for each operation in turn and appends those the
   * agent may join.
   */
  method SimulateAddAgentToOperation(a: Agent, ops: seq<Operation>) returns (accessible: seq<Operation>)
    ensures accessible == AccessibleOps(a, ops)
  {
    accessible := [];
    var i := 0;
    while i < |ops|
      invariant 0 <= i <= |ops|
      invariant accessible + AccessibleOps(a, ops[i..]) == AccessibleOps(a, ops)
    {
      var op := ops[i];
      var canAccess := false;
      if op.agentIds.Some? && op.agentIds.value != [] {
        canAccess := a.paw in op.agentIds.value;
      } else if op.group != "" {
        canAccess := op.group == a.group;
      } else {
        canAccess := true;
      }
      assert ops[i..][1..] == ops[i + 1..];
      if canAccess {
        accessible := accessible + [op];
      }
      i := i + 1;
    }
  }

  /**
   * The two views agree: an operation is among those an agent may join
   * exactly when the agent is among those the group filter selects for it;
   * and the operations come back as an order-preserving sub-list.
   */
  lemma AccessibleOpsMeaning(a: Agent, ops: seq<Operation>, agents: seq<Agent>)
    requires a in agents
    ensures IsSublist(AccessibleOps(a, ops), ops)
    ensures forall op :: op in ops ==>
      (op in AccessibleOps(a, ops) <==> a in FilterAgentsByGroup(agents, op.group, op.agentIds))
  {
    SelectMeaning(ops, (op: Operation) => CanAccess(a, op));
    forall op | op in ops
      ensures op in AccessibleOps(a, ops) <==> a in FilterAgentsByGroup(agents, op.group, op.agentIds)
    {
      FilterAgentsMeaning(agents, op);
    }
  }
}
