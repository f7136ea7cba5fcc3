/**
 * What an applied group leaves behind: states that are faithful to the tables, versions
 * that fall only through a conflict resolution, and conflicts closed by what resolves them.
 */
module ApplyTheorems {
  import opened Wrappers
  import opened SyncOperation
  import opened MutationAudit
  import opened Replica
  import opened RemoteApply

  // ---- States stay faithful ----

  /** Half-way through the group: tables and working states agree, untouched keys are as before. */
  ghost predicate Agree(d: Device, tables: Tables, working: States) {
    && Consistent(tables, d.states + working)
    && forall k :: k !in working ==> Get(tables, k) == Get(d.tables, k)
  }

  lemma CurrentIsFaithful(d: Device, tables: Tables, working: States, op: Operation)
    requires Agree(d, tables, working) && Propose(d, working, op).current.Some?
    ensures Faithful(Propose(d, working, op).current.value, op.command.key, Get(tables, op.command.key))
  {
    var k := op.command.key;
    if k in working || k in d.states { assert k in d.states + working; }
  }

  /** A state is kept only when the operation repeats it: same version, same value. */
  lemma KeptStateIsTheResult(d: Device, tables: Tables, working: States, op: Operation)
    requires Agree(d, tables, working) && Opened(op)
    requires ResultMatches(Propose(d, working, op).current, op)
    ensures Propose(d, working, op).current.value.version == op.command.result.version
    ensures Get(tables, op.command.key) == op.command.value
  {
    CurrentIsFaithful(d, tables, working, op);
  }

  lemma AcceptedOpAgrees(d: Device, tables: Tables, working: States, op: Operation)
    requires Agree(d, tables, working) && Opened(op) && AcceptedProposal(Propose(d, working, op))
    ensures Agree(d, ApplyValue(tables, op), WorkingAfter(working, Propose(d, working, op)))
  {
    var p := Propose(d, working, op);
    var key := op.command.key;
    var state := StateFor(p);
    if ResultMatches(p.current, op) {
      KeptStateIsTheResult(d, tables, working, op);
      CurrentIsFaithful(d, tables, working, op);
    }
    assert Faithful(state, key, op.command.value);
    var after, next := ApplyValue(tables, op), WorkingAfter(working, p);
    assert forall k :: Get(after, k) == if k == key then op.command.value else Get(tables, k);
    forall k | k in d.states + next ensures Faithful((d.states + next)[k], k, Get(after, k)) {
      if k != key { assert k in d.states + working; }
    }
  }

  predicate AllOpened(ops: seq<Operation>) {
    forall op :: op in ops ==> Opened(op)
  }

  /** The last operation's proposal, made on what the earlier ones left. */
  function LastProposal(d: Device, ops: seq<Operation>): Proposal
    requires ops != []
  {
    Propose(d, ProposeAll(d, ops[..|ops| - 1]).working, ops[|ops| - 1])
  }

  lemma ScanSnoc(d: Device, ops: seq<Operation>)
    requires ops != [] && AllOpened(ops) && AllAccepted(ProposeAll(d, ops).proposals)
    ensures AllOpened(ops[..|ops| - 1]) && Opened(ops[|ops| - 1])
    ensures AllAccepted(ProposeAll(d, ops[..|ops| - 1]).proposals) && AcceptedProposal(LastProposal(d, ops))
    ensures LastProposal(d, ops) in ProposeAll(d, ops).proposals
    ensures forall p :: p in ProposeAll(d, ops[..|ops| - 1]).proposals ==> p in ProposeAll(d, ops).proposals
    ensures ProposeAll(d, ops).working ==
      WorkingAfter(ProposeAll(d, ops[..|ops| - 1]).working, LastProposal(d, ops))
  {
    var n := |ops| - 1;
    assert ProposeAll(d, ops).proposals == ProposeAll(d, ops[..n]).proposals + [LastProposal(d, ops)];
    assert ops[n] in ops && forall op :: op in ops[..n] ==> op in ops;
  }

  lemma {:induction false} AcceptedOpsAgree(d: Device, ops: seq<Operation>)
    requires Consistent(d.tables, d.states) && AllOpened(ops)
    requires AllAccepted(ProposeAll(d, ops).proposals)
    ensures Agree(d, ApplyValues(d.tables, ops), ProposeAll(d, ops).working)
    decreases |ops|
  {
    if ops == [] {
      assert d.states + map[] == d.states;
    } else {
      var n := |ops| - 1;
      ScanSnoc(d, ops);
      AcceptedOpsAgree(d, ops[..n]);
      AcceptedOpAgrees(d, ApplyValues(d.tables, ops[..n]), ProposeAll(d, ops[..n]).working, ops[n]);
    }
  }

  lemma {:induction false} TouchedHaveStates(d: Device, ops: seq<Operation>, op: Operation)
    requires AllOpened(ops) && AllAccepted(ProposeAll(d, ops).proposals) && op in ops
    ensures op.command.key in ProposeAll(d, ops).working
    decreases |ops|
  {
    ScanSnoc(d, ops);
    if op in ops[..|ops| - 1] { TouchedHaveStates(d, ops[..|ops| - 1], op); }
  }

  /** The last operation on an entity decides its value. */
  lemma {:induction false} LastValueWins(t: Tables, ops: seq<Operation>, i: nat)
    requires i < |ops| && forall j :: i < j < |ops| ==> ops[j].command.key != ops[i].command.key
    ensures Get(ApplyValues(t, ops), ops[i].command.key) == ops[i].command.value
    decreases |ops|
  {
    if i < |ops| - 1 { LastValueWins(t, ops[..|ops| - 1], i); }
  }

  lemma {:induction false} OtherValuesStay(t: Tables, ops: seq<Operation>, k: EntityKey)
    requires forall op :: op in ops ==> op.command.key != k
    ensures Get(ApplyValues(t, ops), k) == Get(t, k)
    decreases |ops|
  {
    if ops != [] {
      assert ops[|ops| - 1] in ops;
      OtherValuesStay(t, ops[..|ops| - 1], k);
    }
  }

  /** The device just before the frontier and inbox are advanced. */
  function AppliedDevice(d: Device, ops: seq<Operation>): Device {
    d.(tables := ApplyValues(d.tables, ops), states := d.states + ProposeAll(d, ops).working,
       conflicts := MarkAllResolved(d.conflicts, ProposeAll(d, ops).proposals))
  }

  lemma AppliedMeans(d: Device, group: seq<Operation>, valid: FinanceRules)
    requires ApplyRemoteGroup(d, group, valid).Ok?
    requires ApplyRemoteGroup(d, group, valid).value.outcome == GroupApplied
    ensures
      var after := ApplyRemoteGroup(d, group, valid).value.device;
      var ops := SortOperations(group);
      && AllAccepted(ProposeAll(d, ops).proposals)
      && after.tables == AppliedDevice(d, ops).tables && after.states == AppliedDevice(d, ops).states
      && after.conflicts == AppliedDevice(d, ops).conflicts && valid(after.tables)
  {
    AdvanceMovesFrontier(AppliedDevice(d, SortOperations(group)), SortOperations(group), Applied, 0);
  }

  predicate SameEntity(before: Device, after: Device, k: EntityKey) {
    && Get(after.tables, k) == Get(before.tables, k)
    && (k in after.states <==> k in before.states)
    && (k in before.states ==> after.states[k] == before.states[k])
  }

  /** An applied group is valid finance data whose every state names its table value. */
  lemma AppliedStaysFaithful(d: Device, group: seq<Operation>, valid: FinanceRules)
    requires Consistent(d.tables, d.states) && AllOpened(SortOperations(group))
    requires ApplyRemoteGroup(d, group, valid).Ok?
    requires ApplyRemoteGroup(d, group, valid).value.outcome == GroupApplied
    ensures
      var after := ApplyRemoteGroup(d, group, valid).value.device;
      valid(after.tables) && Consistent(after.tables, after.states)
  {
    AppliedMeans(d, group, valid);
    AcceptedOpsAgree(d, SortOperations(group));
  }

  /** An entity of an applied group ends at its last operation's value, under a recorded state. */
  lemma AppliedWritesLastValue(d: Device, group: seq<Operation>, valid: FinanceRules, i: nat)
    requires AllOpened(SortOperations(group))
    requires ApplyRemoteGroup(d, group, valid).Ok?
    requires ApplyRemoteGroup(d, group, valid).value.outcome == GroupApplied
    requires
      var ops := SortOperations(group);
      i < |ops| && forall j :: i < j < |ops| ==> ops[j].command.key != ops[i].command.key
    ensures
      var after := ApplyRemoteGroup(d, group, valid).value.device;
      var op := SortOperations(group)[i];
      Get(after.tables, op.command.key) == op.command.value && op.command.key in after.states
  {
    AppliedMeans(d, group, valid);
    LastValueWins(d.tables, SortOperations(group), i);
    TouchedHaveStates(d, SortOperations(group), SortOperations(group)[i]);
  }

  /** An entity no operation of the group names keeps its value and its state. */
  lemma AppliedKeepsOthers(d: Device, group: seq<Operation>, valid: FinanceRules, k: EntityKey)
    requires ApplyRemoteGroup(d, group, valid).Ok?
    requires ApplyRemoteGroup(d, group, valid).value.outcome == GroupApplied
    requires forall op :: op in SortOperations(group) ==> op.command.key != k
    ensures SameEntity(d, ApplyRemoteGroup(d, group, valid).value.device, k)
  {
    AppliedMeans(d, group, valid);
    OtherValuesStay(d.tables, SortOperations(group), k);
    assert k !in ProposeAll(d, SortOperations(group)).working;
  }

  // ---- Versions ----

  /** Accepted neither by its precondition nor by its result: only because it resolves a conflict. */
  predicate OnlyResolves(p: Proposal) {
    !PreconditionMatches(p.current, p.operation) && !ResultMatches(p.current, p.operation)
  }

  function VersionOf(state: Option<EntityState>): nat {
    match state
    case None => 0
    case Some(s) => s.version
  }

  /** One accepted operation lowers a version exactly when it only resolves and starts further back. */
  lemma VersionFallsIff(p: Proposal)
    requires Opened(p.operation) && AcceptedProposal(p)
    ensures StateFor(p).version < VersionOf(p.current) <==>
      OnlyResolves(p) && p.operation.command.result.version < VersionOf(p.current)
  {}

  /** Some operation of the group on `k` was accepted only as a resolution. */
  predicate ResolvesOnly(d: Device, ops: seq<Operation>, k: EntityKey) {
    exists p :: p in ProposeAll(d, ops).proposals && p.operation.command.key == k && OnlyResolves(p)
  }

  lemma {:induction false} VersionsRise(d: Device, ops: seq<Operation>, k: EntityKey)
    requires AllOpened(ops) && AllAccepted(ProposeAll(d, ops).proposals) && !ResolvesOnly(d, ops, k)
    ensures k in ProposeAll(d, ops).working ==>
      VersionOf(StateOf(d.states, k, Get(d.tables, k))) <= ProposeAll(d, ops).working[k].version
    decreases |ops|
  {
    if ops != [] {
      ScanSnoc(d, ops);
      VersionsRise(d, ops[..|ops| - 1], k);
      VersionFallsIff(LastProposal(d, ops));
    }
  }

  /** No entity's version falls unless an operation on it was accepted only as a resolution. */
  lemma AppliedVersionsRise(d: Device, group: seq<Operation>, valid: FinanceRules, k: EntityKey)
    requires AllOpened(SortOperations(group)) && !ResolvesOnly(d, SortOperations(group), k)
    requires ApplyRemoteGroup(d, group, valid).Ok?
    requires ApplyRemoteGroup(d, group, valid).value.outcome == GroupApplied
    requires k in d.states
    ensures
      var after := ApplyRemoteGroup(d, group, valid).value.device;
      k in after.states && after.states[k].version >= d.states[k].version
  {
    AppliedMeans(d, group, valid);
    VersionsRise(d, SortOperations(group), k);
  }

  // ---- Conflicts ----

  /** A conflict is closed exactly when some operation of the group resolves it. */
  lemma {:induction false} ResolvedIff(conflicts: Conflicts, proposals: seq<Proposal>, id: OpaqueId)
    requires id in conflicts && conflicts[id].resolution == Pending
    ensures
      var after := MarkAllResolved(conflicts, proposals);
      && id in after && after[id].(resolution := Pending) == conflicts[id]
      && (after[id].resolution == Pending <==> forall p :: p in proposals ==> id !in p.resolved)
      && (after[id].resolution != Pending ==>
           exists p :: p in proposals && id in p.resolved && after[id].resolution == ResolvedCustom(p.operation.id))
    decreases |proposals|
  {
    if proposals != [] {
      var n := |proposals| - 1;
      ResolvedIff(conflicts, proposals[..n], id);
      assert proposals == proposals[..n] + [proposals[n]];
      assert proposals[n] in proposals && forall p :: p in proposals[..n] ==> p in proposals;
    }
  }
}
