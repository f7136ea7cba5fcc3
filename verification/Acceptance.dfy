/**
 * When a received group is applied and when it is filed as a conflict
 * (src/db/sync/operation-repository.ts, 690-900), in terms of table values, versions and hashes alone:
 * nothing is overwritten that its author had not seen, unless a pending conflict is resolved.
 */
module Acceptance {
  import opened Wrappers
  import opened SyncOperation
  import opened MutationAudit
  import opened Replica
  import opened RemoteApply
  import opened ApplyTheorems

  // ---- What a device holds of an entity ----

  /** Version 0 is an entity the device has never held; a deleted one keeps the record of its deletion. */
  datatype Holding = Holding(version: nat, value: Option<Json>, burial: Option<Tombstone>)

  /** A row that only a snapshot brought counts as version 1. */
  function HeldAt(d: Device, k: EntityKey): Holding {
    if k in d.states then Holding(d.states[k].version, Get(d.tables, k), d.states[k].canonicalTombstone)
    else if k in d.tables then Holding(1, Some(d.tables[k]), None)
    else Holding(0, None, None)
  }

  /** What an operation leaves. */
  function LeftBy(op: Operation): Holding {
    Holding(op.command.result.version, op.command.value, op.command.tombstone)
  }

  /** The operation was written on exactly this version, content and presence of its entity. */
  predicate WrittenOn(op: Operation, s: Holding) {
    var p := op.command.precondition;
    && p.version == s.version
    && (if s.version == 0 then p.hash.None? && !p.tombstone
        else p.hash == Some(StateDigest(op.command.key, s.version, s.value, s.burial))
             && (p.tombstone <==> s.value.None?))
  }

  /** It was written on what is there, or leaves what is there. */
  predicate Suits(op: Operation, s: Holding) {
    WrittenOn(op, s) || (s.version > 0 && LeftBy(op) == s)
  }

  /** The last operation of a list on an entity. */
  function LastOn(ops: seq<Operation>, k: EntityKey): (last: Option<Operation>)
    ensures last.Some? ==> last.value in ops && last.value.command.key == k
    ensures last.None? ==> forall op :: op in ops ==> op.command.key != k
  {
    if ops == [] then None
    else if ops[|ops| - 1].command.key == k then Some(ops[|ops| - 1])
    else LastOn(ops[..|ops| - 1], k)
  }

  /** What an operation on `k` meets after `ops`: what the last of them on `k` left, or what the device holds. */
  function MetAfter(d: Device, ops: seq<Operation>, k: EntityKey): Holding {
    match LastOn(ops, k)
    case Some(op) => LeftBy(op)
    case None => HeldAt(d, k)
  }

  function Met(d: Device, ops: seq<Operation>, i: nat): Holding
    requires i < |ops|
  {
    MetAfter(d, ops[..i], ops[i].command.key)
  }

  /** A conflict on the operation's own entity is pending, and the operation names the remote side of it. */
  predicate ResolvesPending(d: Device, op: Operation) {
    exists id :: id in d.conflicts && d.conflicts[id].resolution == Pending
      && d.conflicts[id].key == op.command.key && d.conflicts[id].remote.id in op.resolves
  }

  predicate Welcome(d: Device, ops: seq<Operation>, i: nat)
    requires i < |ops|
  {
    Suits(ops[i], Met(d, ops, i)) || ResolvesPending(d, ops[i])
  }

  predicate AllWelcome(d: Device, ops: seq<Operation>) {
    forall i :: 0 <= i < |ops| ==> Welcome(d, ops, i)
  }

  // ---- One operation ----

  /** The first phase knows of an entity what the tables hold of it. */
  predicate Describes(current: Option<EntityState>, k: EntityKey, s: Holding) {
    match current
    case None => s.version == 0
    case Some(state) =>
      && s.version > 0 && state.version == s.version && state.canonicalTombstone == s.burial
      && state.hash == StateDigest(k, s.version, s.value, s.burial) && (state.tombstone <==> s.value.None?)
  }

  lemma AcceptedIff(p: Proposal, s: Holding)
    requires Opened(p.operation) && Describes(p.current, p.operation.command.key, s)
    ensures AcceptedProposal(p) <==> Suits(p.operation, s) || p.resolved != {}
  {}

  lemma AcceptedDescribes(p: Proposal, s: Holding)
    requires Opened(p.operation) && Describes(p.current, p.operation.command.key, s)
    ensures Describes(Some(StateFor(p)), p.operation.command.key, LeftBy(p.operation))
  {}

  lemma ResolvedIsPending(d: Device, op: Operation)
    ensures ResolvedBy(d.conflicts, op) != {} <==> ResolvesPending(d, op)
  {
    if ResolvesPending(d, op) {
      var id :| id in d.conflicts && d.conflicts[id].resolution == Pending
        && d.conflicts[id].key == op.command.key && d.conflicts[id].remote.id in op.resolves;
      assert id in ResolvedBy(d.conflicts, op);
    }
  }

  lemma DeviceDescribes(d: Device, k: EntityKey)
    requires Consistent(d.tables, d.states)
    ensures Describes(StateOf(d.states, k, Get(d.tables, k)), k, HeldAt(d, k))
  {}

  /** What the scan works with for an entity after some accepted operations. */
  ghost predicate ScanDescribes(d: Device, ops: seq<Operation>, working: States, k: EntityKey) {
    Describes(if k in working then Some(working[k]) else StateOf(d.states, k, Get(d.tables, k)), k, MetAfter(d, ops, k))
  }

  lemma ScanDescribesNext(d: Device, ops: seq<Operation>, k: EntityKey)
    requires ops != [] && AllOpened(ops) && Consistent(d.tables, d.states)
    requires AllAccepted(ProposeAll(d, ops).proposals)
    requires ScanDescribes(d, ops[..|ops| - 1], ProposeAll(d, ops[..|ops| - 1]).working, k)
    ensures ScanDescribes(d, ops, ProposeAll(d, ops).working, k)
  {
    var n := |ops| - 1;
    ScanSnoc(d, ops);
    if ops[n].command.key == k {
      AcceptedDescribes(LastProposal(d, ops), MetAfter(d, ops[..n], k));
    }
  }

  lemma {:induction false} ScanFollows(d: Device, ops: seq<Operation>)
    requires AllOpened(ops) && Consistent(d.tables, d.states) && AllAccepted(ProposeAll(d, ops).proposals)
    ensures forall k :: ScanDescribes(d, ops, ProposeAll(d, ops).working, k)
    decreases |ops|
  {
    if ops == [] {
      forall k ensures ScanDescribes(d, ops, ProposeAll(d, ops).working, k) { DeviceDescribes(d, k); }
    } else {
      ScanSnoc(d, ops);
      ScanFollows(d, ops[..|ops| - 1]);
      forall k ensures ScanDescribes(d, ops, ProposeAll(d, ops).working, k) { ScanDescribesNext(d, ops, k); }
    }
  }

  // ---- A whole group ----

  lemma WelcomeFront(d: Device, ops: seq<Operation>)
    requires ops != []
    ensures AllWelcome(d, ops) <==> AllWelcome(d, ops[..|ops| - 1]) && Welcome(d, ops, |ops| - 1)
  {
    var n := |ops| - 1;
    forall i | 0 <= i < n ensures Welcome(d, ops[..n], i) <==> Welcome(d, ops, i) {
      assert ops[..n][i] == ops[i] && ops[..n][..i] == ops[..i];
    }
  }

  lemma LastIsAcceptedIff(d: Device, ops: seq<Operation>)
    requires ops != [] && AllOpened(ops) && Consistent(d.tables, d.states)
    requires AllAccepted(ProposeAll(d, ops[..|ops| - 1]).proposals)
    ensures AcceptedProposal(LastProposal(d, ops)) <==> Welcome(d, ops, |ops| - 1)
  {
    var n := |ops| - 1;
    assert ops[n] in ops && forall op :: op in ops[..n] ==> op in ops;
    ScanFollows(d, ops[..n]);
    assert ScanDescribes(d, ops[..n], ProposeAll(d, ops[..n]).working, ops[n].command.key);
    AcceptedIff(LastProposal(d, ops), Met(d, ops, n));
    ResolvedIsPending(d, ops[n]);
  }

  /** Every operation of a group is accepted exactly when each fits what it meets, or resolves a pending conflict. */
  lemma {:induction false} AllAcceptedIff(d: Device, ops: seq<Operation>)
    requires AllOpened(ops) && Consistent(d.tables, d.states)
    ensures AllAccepted(ProposeAll(d, ops).proposals) <==> AllWelcome(d, ops)
    decreases |ops|
  {
    if ops != [] {
      var n := |ops| - 1;
      assert ops[n] in ops && forall op :: op in ops[..n] ==> op in ops;
      AllAcceptedIff(d, ops[..n]);
      WelcomeFront(d, ops);
      ProposalsSnoc(d, ops);
      if AllAccepted(ProposeAll(d, ops[..n]).proposals) { LastIsAcceptedIff(d, ops); }
    }
  }

  lemma ProposalsSnoc(d: Device, ops: seq<Operation>)
    requires ops != []
    ensures AllAccepted(ProposeAll(d, ops).proposals) <==>
      AllAccepted(ProposeAll(d, ops[..|ops| - 1]).proposals) && AcceptedProposal(LastProposal(d, ops))
  {
    var n := |ops| - 1;
    var earlier, all := ProposeAll(d, ops[..n]).proposals, ProposeAll(d, ops).proposals;
    assert all == earlier + [LastProposal(d, ops)];
    assert LastProposal(d, ops) in all && forall p :: p in earlier ==> p in all;
  }

  /** Each entity holds what the last operation on it says, the others are as they were. */
  ghost predicate Overwritten(before: Tables, after: Tables, ops: seq<Operation>) {
    forall k :: Get(after, k) == match LastOn(ops, k) case Some(op) => op.command.value case None => Get(before, k)
  }

  lemma {:induction false} ValuesOverwrite(t: Tables, ops: seq<Operation>)
    ensures Overwritten(t, ApplyValues(t, ops), ops)
    decreases |ops|
  {
    if ops != [] { ValuesOverwrite(t, ops[..|ops| - 1]); }
  }

  /** After an applied group the device holds what the group left. */
  lemma AppliedHolds(d: Device, group: seq<Operation>, valid: FinanceRules, k: EntityKey)
    requires Consistent(d.tables, d.states) && AllOpened(SortOperations(group))
    requires ApplyRemoteGroup(d, group, valid).Ok?
    requires ApplyRemoteGroup(d, group, valid).value.outcome == GroupApplied
    ensures HeldAt(ApplyRemoteGroup(d, group, valid).value.device, k) == MetAfter(d, SortOperations(group), k)
  {
    var ops := SortOperations(group);
    var after := ApplyRemoteGroup(d, group, valid).value.device;
    AppliedMeans(d, group, valid);
    if LastOn(ops, k).None? {
      AppliedKeepsOthers(d, group, valid, k);
    } else {
      ScanFollows(d, ops);
      assert ScanDescribes(d, ops, ProposeAll(d, ops).working, k);
      TouchedHaveStates(d, ops, LastOn(ops, k).value);
      ValuesOverwrite(d.tables, ops);
    }
  }

  // ---- The outcome ----

  /**
   * What the states describe: tables that they are hashes of, and that hold whatever has no state.
   * These are the device's own tables, unless an edit waits to be prepared.
   */
  ghost predicate RecordedFrom(d: Device, base: Tables) {
    Consistent(base, d.states) && forall k :: k !in d.states ==> Get(base, k) == Get(d.tables, k)
  }

  lemma SameProposal(d: Device, base: Tables, working: States, op: Operation)
    requires RecordedFrom(d, base)
    ensures
      var p, q := Propose(d, working, op), Propose(d.(tables := base), working, op);
      WorkingAfter(working, p) == WorkingAfter(working, q) && (AcceptedProposal(p) <==> AcceptedProposal(q))
  {
    assert StateOf(d.states, op.command.key, Get(d.tables, op.command.key))
        == StateOf(d.states, op.command.key, Get(base, op.command.key));
  }

  lemma {:induction false} ScanIgnoresEdits(d: Device, base: Tables, ops: seq<Operation>)
    requires RecordedFrom(d, base)
    ensures
      var scan, other := ProposeAll(d, ops), ProposeAll(d.(tables := base), ops);
      scan.working == other.working && (AllAccepted(scan.proposals) <==> AllAccepted(other.proposals))
    decreases |ops|
  {
    if ops != [] {
      var front := ops[..|ops| - 1];
      ScanIgnoresEdits(d, base, front);
      SameProposal(d, base, ProposeAll(d, front).working, ops[|ops| - 1]);
      ProposalsSnoc(d, ops);
      ProposalsSnoc(d.(tables := base), ops);
    }
  }

  lemma AcceptedFromBase(d: Device, base: Tables, ops: seq<Operation>)
    requires RecordedFrom(d, base) && AllOpened(ops)
    ensures AllAccepted(ProposeAll(d, ops).proposals) <==> AllWelcome(d.(tables := base), ops)
  {
    ScanIgnoresEdits(d, base, ops);
    AllAcceptedIff(d.(tables := base), ops);
  }

  /** A whole staged group of one device, next in its sequence. */
  predicate Arrives(d: Device, ops: seq<Operation>, device: OpaqueId, from: nat) {
    && CompleteRemoteGroup(ops) && Continues(ops, device, from)
    && (forall op :: op in ops ==> op.id in d.inbox)
    && (FindRow(d.rows, device).None? || RowSequence(d.rows, device) == from)
  }

  lemma OutcomeOf(d: Device, ops: seq<Operation>, device: OpaqueId, from: nat, valid: FinanceRules)
    requires Arrives(d, ops, device, from)
    ensures
      var r := ApplyProposals(d, ProposeAll(d, ops), ops, valid);
      if !AllAccepted(ProposeAll(d, ops).proposals) then
        && r.Ok? && r.value.outcome == GroupConflicted
        && r.value.device.tables == d.tables && r.value.device.states == d.states
      else if !valid(ApplyValues(d.tables, ops)) then r == Err(InvalidFinanceData)
      else r.Ok? && r.value.outcome == GroupApplied && r.value.device.tables == ApplyValues(d.tables, ops)
  {
    var scan := ProposeAll(d, ops);
    if AllAccepted(scan.proposals) {
      OwnSequencesAdvance(AppliedDevice(d, ops), ops, Applied, device, from);
    } else {
      OwnSequencesAdvance(d.(conflicts := FileConflicts(d.conflicts, scan.proposals)), ops, Conflicted, device, from);
    }
  }

  /**
   * A group is applied exactly when each of its operations was written on what the device has recorded
   * of the entity, or on what the group itself left before, or leaves just that, or resolves a pending
   * conflict on it. Otherwise nothing changes and the group is filed. Where the outcome is not valid
   * finance data, the call fails.
   */
  lemma GroupAppliedIff(d: Device, base: Tables, group: seq<Operation>, device: OpaqueId, from: nat,
                        valid: FinanceRules)
    requires RecordedFrom(d, base)
    requires AllOpened(SortOperations(group)) && Arrives(d, SortOperations(group), device, from)
    ensures
      var ops := SortOperations(group);
      var r := ApplyRemoteGroup(d, group, valid);
      if !AllWelcome(d.(tables := base), ops) then
        && r.Ok? && r.value.outcome == GroupConflicted
        && r.value.device.tables == d.tables && r.value.device.states == d.states
      else if !valid(ApplyValues(d.tables, ops)) then r == Err(InvalidFinanceData)
      else r.Ok? && r.value.outcome == GroupApplied && Overwritten(d.tables, r.value.device.tables, ops)
  {
    var ops := SortOperations(group);
    AcceptedFromBase(d, base, ops);
    OutcomeOf(d, ops, device, from, valid);
    ValuesOverwrite(d.tables, ops);
  }

  // ---- What an applied group closes ----

  /** The operation resolves the conflict: it is on its entity, and names its remote side. */
  predicate Settles(op: Operation, c: Conflict) {
    op.command.key == c.key && c.remote.id in op.resolves
  }

  predicate IsSettled(c: Conflict, ops: seq<Operation>) {
    c.resolution == Pending && exists op :: op in ops && Settles(op, c)
  }

  predicate SettledBy(c: Conflict, after: Conflict, ops: seq<Operation>) {
    exists op :: op in ops && Settles(op, c) && after == c.(resolution := ResolvedCustom(op.id))
  }

  /** Exactly the pending conflicts that some operation settles are closed, by one that does. */
  predicate ClosedExactly(before: Conflicts, after: Conflicts, ops: seq<Operation>) {
    && after.Keys == before.Keys
    && forall id :: id in before ==>
         if IsSettled(before[id], ops) then SettledBy(before[id], after[id], ops) else after[id] == before[id]
  }

  lemma {:induction false} ProposalsResolve(d: Device, ops: seq<Operation>)
    ensures forall p :: p in ProposeAll(d, ops).proposals ==>
      p.operation in ops && p.resolved == ResolvedBy(d.conflicts, p.operation)
    ensures forall op :: op in ops ==>
      exists p :: p in ProposeAll(d, ops).proposals && p.operation == op && p.resolved == ResolvedBy(d.conflicts, op)
    decreases |ops|
  {
    if ops != [] {
      var n := |ops| - 1;
      ProposalsResolve(d, ops[..n]);
      var all := ProposeAll(d, ops).proposals;
      assert all == ProposeAll(d, ops[..n]).proposals + [LastProposal(d, ops)];
      assert LastProposal(d, ops) in all && forall p :: p in ProposeAll(d, ops[..n]).proposals ==> p in all;
      assert ops == ops[..n] + [ops[n]] && ops[n] in ops && forall op :: op in ops[..n] ==> op in ops;
    }
  }

  lemma {:induction false} SettledStays(conflicts: Conflicts, proposals: seq<Proposal>, id: OpaqueId)
    ensures MarkAllResolved(conflicts, proposals).Keys == conflicts.Keys
    ensures id in conflicts && conflicts[id].resolution != Pending ==>
      MarkAllResolved(conflicts, proposals)[id] == conflicts[id]
    decreases |proposals|
  {
    if proposals != [] { SettledStays(conflicts, proposals[..|proposals| - 1], id); }
  }

  lemma MarkedOne(d: Device, ops: seq<Operation>, id: OpaqueId)
    requires id in d.conflicts && d.conflicts[id].resolution == Pending
    ensures id in MarkAllResolved(d.conflicts, ProposeAll(d, ops).proposals)
    ensures
      var c, after := d.conflicts[id], MarkAllResolved(d.conflicts, ProposeAll(d, ops).proposals)[id];
      if IsSettled(c, ops) then SettledBy(c, after, ops) else after == c
  {
    var proposals := ProposeAll(d, ops).proposals;
    ProposalsResolve(d, ops);
    ResolvedIff(d.conflicts, proposals, id);
    forall p | p in proposals ensures id in p.resolved <==> Settles(p.operation, d.conflicts[id]) {}
  }

  lemma MarkedExactly(d: Device, ops: seq<Operation>)
    ensures ClosedExactly(d.conflicts, MarkAllResolved(d.conflicts, ProposeAll(d, ops).proposals), ops)
  {
    var proposals := ProposeAll(d, ops).proposals;
    var after := MarkAllResolved(d.conflicts, proposals);
    SettledStays(d.conflicts, proposals, 0);
    forall id | id in d.conflicts
      ensures
        if IsSettled(d.conflicts[id], ops) then SettledBy(d.conflicts[id], after[id], ops)
        else after[id] == d.conflicts[id]
    {
      SettledStays(d.conflicts, proposals, id);
      if d.conflicts[id].resolution == Pending { MarkedOne(d, ops, id); }
    }
  }

  /** An applied group closes exactly the pending conflicts that its operations settle. */
  lemma AppliedCloses(d: Device, group: seq<Operation>, valid: FinanceRules)
    requires ApplyRemoteGroup(d, group, valid).Ok?
    requires ApplyRemoteGroup(d, group, valid).value.outcome == GroupApplied
    ensures ClosedExactly(d.conflicts, ApplyRemoteGroup(d, group, valid).value.device.conflicts, SortOperations(group))
  {
    AppliedMeans(d, group, valid);
    MarkedExactly(d, SortOperations(group));
  }

  // ---- One operation at a prepared device ----

  predicate Alone(op: Operation) { op.groupIndex == 0 && op.groupSize == 1 }

  lemma AloneIsWhole(d: Device, op: Operation)
    requires Alone(op)
    ensures SortOperations([op]) == [op] && CompleteRemoteGroup([op])
    ensures AllWelcome(d, [op]) <==> Suits(op, HeldAt(d, op.command.key)) || ResolvesPending(d, op)
  {
    assert [op][1..] == [] && [op][..0] == [];
    assert AllWelcome(d, [op]) <==> Welcome(d, [op], 0);
  }

  lemma AloneArrives(d: Device, op: Operation)
    requires Alone(op) && op.id in d.inbox && op.sequence > 0
    requires FindRow(d.rows, op.device).None? || RowSequence(d.rows, op.device) == op.sequence - 1
    ensures Arrives(d, [op], op.device, op.sequence - 1)
  {}

  lemma OneValue(t: Tables, op: Operation)
    ensures ApplyValues(t, [op]) ==
      match op.command.value case None => t - {op.command.key} case Some(json) => t[op.command.key := json]
  {
    assert [op][..0] == [];
  }

  /**
   * With nothing waiting to be prepared, an operation of its own group that resolves no pending conflict
   * is applied exactly when it was written on the device's own version, value and deletion, or leaves them.
   */
  lemma SingleAppliedIff(d: Device, op: Operation, valid: FinanceRules)
    requires Consistent(d.tables, d.states) && Opened(op) && Alone(op) && op.id in d.inbox
    requires FindRow(d.rows, op.device).None? || RowSequence(d.rows, op.device) == op.sequence - 1
    requires !ResolvesPending(d, op)
    ensures
      var k := op.command.key;
      var r := ApplyRemoteGroup(d, [op], valid);
      var after := match op.command.value case None => d.tables - {k} case Some(json) => d.tables[k := json];
      if !Suits(op, HeldAt(d, k)) then r.Ok? && r.value.outcome == GroupConflicted && r.value.device.tables == d.tables
      else if !valid(after) then r == Err(InvalidFinanceData)
      else r.Ok? && r.value.outcome == GroupApplied && r.value.device.tables == after
  {
    AloneIsWhole(d, op);
    AllAcceptedIff(d, [op]);
    AloneArrives(d, op);
    OutcomeOf(d, [op], op.device, op.sequence - 1, valid);
    OneValue(d.tables, op);
  }

  // ---- Nothing is overwritten unseen ----

  /** What changes an entity in an applied group: an operation written on what the device held, or a resolution. */
  predicate Licensed(d: Device, ops: seq<Operation>, k: EntityKey) {
    exists op :: op in ops && op.command.key == k && (WrittenOn(op, HeldAt(d, k)) || ResolvesPending(d, op))
  }

  lemma {:induction false} UnlicensedStays(d: Device, ops: seq<Operation>, k: EntityKey)
    requires AllWelcome(d, ops) && !Licensed(d, ops, k)
    ensures LastOn(ops, k).Some? ==> LeftBy(LastOn(ops, k).value) == HeldAt(d, k)
    decreases |ops|
  {
    if ops != [] {
      var n := |ops| - 1;
      WelcomeFront(d, ops);
      assert ops[n] in ops && forall op :: op in ops[..n] ==> op in ops;
      UnlicensedStays(d, ops[..n], k);
    }
  }

  /** Whatever an applied group changes, its author had seen, or it resolves a pending conflict on it. */
  lemma NothingIsOverwrittenUnseen(d: Device, group: seq<Operation>, valid: FinanceRules, k: EntityKey)
    requires Consistent(d.tables, d.states) && AllOpened(SortOperations(group))
    requires ApplyRemoteGroup(d, group, valid).Ok?
    requires Get(ApplyRemoteGroup(d, group, valid).value.device.tables, k) != Get(d.tables, k)
    ensures ApplyRemoteGroup(d, group, valid).value.outcome == GroupApplied
    ensures Licensed(d, SortOperations(group), k)
  {
    var ops := SortOperations(group);
    AllAcceptedIff(d, ops);
    if AllAccepted(ProposeAll(d, ops).proposals) {
      AppliedMeans(d, group, valid);
      ValuesOverwrite(d.tables, ops);
      if !Licensed(d, ops, k) { UnlicensedStays(d, ops, k); }
    } else {
      var filed := d.(conflicts := FileConflicts(d.conflicts, ProposeAll(d, ops).proposals));
      AdvanceMovesFrontier(filed, ops, Conflicted, 0);
    }
  }
}
