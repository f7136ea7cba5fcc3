/**
 * Receiving groups that were written on something else (src/db/sync/operation-repository.ts, 690-900):
 * an entity whose value the group had not seen keeps it, and the group is filed.
 */
module Delivery {
  import opened Wrappers
  import opened SyncOperation
  import opened MutationAudit
  import opened Replica
  import opened RemoteApply
  import opened ApplyTheorems
  import opened Acceptance

  /** A group is staged and applied or filed. */
  function Deliver(d: Device, ops: seq<Operation>, cursors: OpaqueId -> nat, valid: FinanceRules)
    : Result<Device, ApplyError>
  {
    match ApplyRemoteGroup(Staged(d, ops, cursors), ops, valid)
    case Err(e) => Err(e)
    case Ok(done) => Ok(done.device)
  }

  /** Groups one after another; an error stops. */
  function DeliverAll(d: Device, groups: seq<seq<Operation>>, cursors: OpaqueId -> nat, valid: FinanceRules)
    : Result<Device, ApplyError>
  {
    if groups == [] then Ok(d)
    else
      match DeliverAll(d, groups[..|groups| - 1], cursors, valid)
      case Err(e) => Err(e)
      case Ok(mid) => Deliver(mid, groups[|groups| - 1], cursors, valid)
  }

  /** An ordinary group: it opens, it is whole and in order, and it resolves nothing. */
  predicate Whole(ops: seq<Operation>) {
    && AllOpened(ops) && CompleteRemoteGroup(ops) && SortOperations(ops) == ops
    && forall op :: op in ops ==> op.resolves == []
  }

  predicate Plain(ops: seq<Operation>) {
    Whole(ops) && DistinctOperations(ops)
  }

  /** No operation on `k` was written on what is held of it, nor leaves just that. */
  predicate Refuses(held: Holding, ops: seq<Operation>, k: EntityKey) {
    forall op :: op in ops && op.command.key == k ==> !Suits(op, held)
  }

  predicate Names(ops: seq<Operation>, k: EntityKey) {
    exists op :: op in ops && op.command.key == k
  }

  lemma RefusedIsNotAccepted(d: Device, working: States, op: Operation)
    requires Consistent(d.tables, d.states) && Opened(op) && op.resolves == [] && op.command.key !in working
    requires !Suits(op, HeldAt(d, op.command.key))
    ensures !AcceptedProposal(Propose(d, working, op))
  {
    DeviceDescribes(d, op.command.key);
    AcceptedIff(Propose(d, working, op), HeldAt(d, op.command.key));
  }

  /** No state has been worked out for the entity, and each operation on it is refused against the device's own. */
  predicate StaysOut(d: Device, scan: Scan, k: EntityKey) {
    && k !in scan.working
    && forall p :: p in scan.proposals && p.operation.command.key == k ==>
         !AcceptedProposal(p) && p.current == StateOf(d.states, k, Get(d.tables, k))
  }

  lemma OneMoreStaysOut(d: Device, scan: Scan, op: Operation, k: EntityKey)
    requires StaysOut(d, scan, k) && (op.command.key == k ==> !AcceptedProposal(Propose(d, scan.working, op)))
    ensures
      var p := Propose(d, scan.working, op);
      StaysOut(d, Scan(WorkingAfter(scan.working, p), scan.proposals + [p]), k)
  {}

  /** The first phase works out nothing for a refused entity: each operation on it finds the device's state. */
  lemma {:induction false} RefusedStaysOut(d: Device, ops: seq<Operation>, k: EntityKey)
    requires Consistent(d.tables, d.states) && AllOpened(ops) && (forall op :: op in ops ==> op.resolves == [])
    requires Refuses(HeldAt(d, k), ops, k)
    ensures StaysOut(d, ProposeAll(d, ops), k)
    decreases |ops|
  {
    if ops != [] {
      var n := |ops| - 1;
      assert ops[n] in ops && forall op :: op in ops[..n] ==> op in ops;
      RefusedStaysOut(d, ops[..n], k);
      if ops[n].command.key == k { RefusedIsNotAccepted(d, ProposeAll(d, ops[..n]).working, ops[n]); }
      OneMoreStaysOut(d, ProposeAll(d, ops[..n]), ops[n], k);
    }
  }

  lemma RefusedIsConflicted(d: Device, ops: seq<Operation>, k: EntityKey)
    requires Consistent(d.tables, d.states) && Plain(ops) && Refuses(HeldAt(d, k), ops, k) && Names(ops, k)
    ensures !AllAccepted(ProposeAll(d, ops).proposals)
  {
    RefusedStaysOut(d, ops, k);
    var op :| op in ops && op.command.key == k;
    var i :| 0 <= i < |ops| && ops[i] == op;
    assert ProposeAll(d, ops).proposals[i] in ProposeAll(d, ops).proposals;
  }

  /** A pending conflict on the operation: both sides of it, and the operation that left the local one. */
  predicate FiledAgainst(before: Device, after: Device, op: Operation) {
    var k := op.command.key;
    && op.id in after.conflicts
    && after.conflicts[op.id] ==
         Conflict(k, if k in before.states then before.states[k].lastOperation else None, op, Get(before.tables, k),
                  StateOf(before.states, k, Get(before.tables, k)), Pending)
  }

  lemma RefusedIsFiled(d: Device, ops: seq<Operation>, k: EntityKey, op: Operation)
    requires Consistent(d.tables, d.states) && Plain(ops) && Refuses(HeldAt(d, k), ops, k)
    requires op in ops && op.command.key == k
    ensures
      var filed := FileConflicts(d.conflicts, ProposeAll(d, ops).proposals);
      FiledAgainst(d, d.(conflicts := filed), op)
  {
    var i :| 0 <= i < |ops| && ops[i] == op;
    ConflictIsFiled(d, ops, i);
    RefusedStaysOut(d, ops, k);
    assert ProposeAll(d, ops).proposals[i] in ProposeAll(d, ops).proposals;
  }

  // ---- Delivering one group ----

  /** Where it is the value, version and state that a device had, it still is; where it was filed, it still is. */
  predicate Stands(before: Device, after: Device, k: EntityKey) {
    SameEntity(before, after, k) && HeldAt(after, k) == HeldAt(before, k)
  }

  /** A group that names the entity: it is filed, and changes nothing. */
  lemma RefusedGroup(d: Device, ops: seq<Operation>, k: EntityKey, cursors: OpaqueId -> nat, valid: FinanceRules)
    requires Consistent(d.tables, d.states) && Plain(ops) && Refuses(HeldAt(d, k), ops, k) && Names(ops, k)
    requires Deliver(d, ops, cursors, valid).Ok?
    ensures
      var after := Deliver(d, ops, cursors, valid).value;
      && after.tables == d.tables && after.states == d.states
      && forall op :: op in ops && op.command.key == k ==> FiledAgainst(d, after, op)
  {
    var staged := Staged(d, ops, cursors);
    assert HeldAt(staged, k) == HeldAt(d, k);
    RefusedIsConflicted(staged, ops, k);
    var filed := staged.(conflicts := FileConflicts(d.conflicts, ProposeAll(staged, ops).proposals));
    AdvanceMovesFrontier(filed, ops, Conflicted, 0);
    forall op | op in ops && op.command.key == k ensures FiledAgainst(d, Deliver(d, ops, cursors, valid).value, op) {
      RefusedIsFiled(staged, ops, k, op);
    }
  }

  /** A group that does not name the entity leaves it alone, whatever becomes of the group. */
  lemma OtherGroup(d: Device, ops: seq<Operation>, k: EntityKey, cursors: OpaqueId -> nat, valid: FinanceRules)
    requires Plain(ops) && !Names(ops, k) && Deliver(d, ops, cursors, valid).Ok?
    ensures Stands(d, Deliver(d, ops, cursors, valid).value, k)
  {
    var staged := Staged(d, ops, cursors);
    if ApplyRemoteGroup(staged, ops, valid).value.outcome == GroupApplied {
      AppliedKeepsOthers(staged, ops, valid, k);
    } else {
      ConflictedChangesNothing(staged, ops, valid);
    }
  }

  lemma DeliverKeepsConsistent(d: Device, ops: seq<Operation>, cursors: OpaqueId -> nat, valid: FinanceRules)
    requires Consistent(d.tables, d.states) && Plain(ops) && Deliver(d, ops, cursors, valid).Ok?
    ensures
      var after := Deliver(d, ops, cursors, valid).value;
      Consistent(after.tables, after.states)
  {
    var staged := Staged(d, ops, cursors);
    if ApplyRemoteGroup(staged, ops, valid).value.outcome == GroupApplied {
      AppliedStaysFaithful(staged, ops, valid);
    } else {
      ConflictedChangesNothing(staged, ops, valid);
    }
  }

  /** A pending conflict is still pending after a group of other operations that resolves nothing. */
  lemma DeliverKeepsConflict(d: Device, ops: seq<Operation>, id: OpaqueId, cursors: OpaqueId -> nat,
                             valid: FinanceRules)
    requires Plain(ops) && Deliver(d, ops, cursors, valid).Ok? && (forall op :: op in ops ==> op.id != id)
    requires id in d.conflicts && d.conflicts[id].resolution == Pending
    ensures
      var after := Deliver(d, ops, cursors, valid).value;
      id in after.conflicts && after.conflicts[id] == d.conflicts[id]
  {
    var staged := Staged(d, ops, cursors);
    if ApplyRemoteGroup(staged, ops, valid).value.outcome == GroupApplied {
      AppliedMeans(staged, ops, valid);
      var proposals := ProposeAll(staged, ops).proposals;
      ResolvedIff(d.conflicts, proposals, id);
      forall p | p in proposals ensures id !in p.resolved { ProposalResolvesNothing(staged, ops, p); }
    } else {
      ConflictedKeepsOthers(staged, ops, valid, id);
    }
  }

  lemma {:induction false} ProposalResolvesNothing(d: Device, ops: seq<Operation>, p: Proposal)
    requires (forall op :: op in ops ==> op.resolves == []) && p in ProposeAll(d, ops).proposals
    ensures p.resolved == {}
    decreases |ops|
  {
    var n := |ops| - 1;
    assert ops[n] in ops && forall op :: op in ops[..n] ==> op in ops;
    if p in ProposeAll(d, ops[..n]).proposals { ProposalResolvesNothing(d, ops[..n], p); }
  }

  // ---- Delivering all of them ----

  predicate AllPlain(groups: seq<seq<Operation>>) {
    forall ops :: ops in groups ==> Plain(ops)
  }

  lemma DistinctParts(front: seq<Operation>, ops: seq<Operation>)
    requires DistinctOperations(front + ops)
    ensures DistinctOperations(front) && DistinctOperations(ops)
    ensures forall a, b :: a in front && b in ops ==> a.id != b.id
  {
    var all := front + ops;
    forall i, j | 0 <= i < j < |front| ensures front[i].id != front[j].id {
      assert all[i] == front[i] && all[j] == front[j];
    }
    forall i, j | 0 <= i < j < |ops| ensures ops[i].id != ops[j].id {
      assert all[|front| + i] == ops[i] && all[|front| + j] == ops[j];
    }
    forall a, b | a in front && b in ops ensures a.id != b.id {
      var i, j :| 0 <= i < |front| && 0 <= j < |ops| && front[i] == a && ops[j] == b;
      assert all[i] == a && all[|front| + j] == b;
    }
  }

  predicate AllWhole(groups: seq<seq<Operation>>) {
    forall ops :: ops in groups ==> Whole(ops)
  }

  /** Whole groups with ids of their own, and so each of their beginnings. */
  lemma {:induction false} FrontIsPlain(groups: seq<seq<Operation>>, n: nat)
    requires AllWhole(groups) && DistinctOperations(AllOf(groups)) && n <= |groups|
    ensures AllPlain(groups[..n]) && DistinctOperations(AllOf(groups[..n]))
    ensures forall op :: op in AllOf(groups[..n]) ==> op in AllOf(groups)
    decreases |groups|
  {
    if groups == [] {
      assert groups[..n] == groups;
    } else {
      var m := |groups| - 1;
      DistinctParts(AllOf(groups[..m]), groups[m]);
      FrontIsPlain(groups[..m], if n <= m then n else m);
      if n <= m {
        assert groups[..m][..n] == groups[..n];
      } else {
        assert groups[..m][..m] == groups[..m] && groups[..n] == groups;
        assert forall ops :: ops in groups ==> ops in groups[..m] || ops == groups[m];
      }
    }
  }

  lemma SnocParts(groups: seq<seq<Operation>>, k: EntityKey, held: Holding)
    requires groups != [] && AllPlain(groups) && Refuses(held, AllOf(groups), k) && DistinctOperations(AllOf(groups))
    ensures
      var n := |groups| - 1;
      && AllPlain(groups[..n]) && Plain(groups[n])
      && Refuses(held, AllOf(groups[..n]), k) && Refuses(held, groups[n], k)
      && DistinctOperations(AllOf(groups[..n]))
      && forall a, b :: a in AllOf(groups[..n]) && b in groups[n] ==> a.id != b.id
  {
    var n := |groups| - 1;
    assert groups[n] in groups && forall ops :: ops in groups[..n] ==> ops in groups;
    assert forall op :: op in AllOf(groups[..n]) || op in groups[n] ==> op in AllOf(groups);
    DistinctParts(AllOf(groups[..n]), groups[n]);
  }

  /** What becomes of an entity that every operation on it is refused for. */
  ghost predicate Withstands(before: Device, after: Device, ops: seq<Operation>, k: EntityKey) {
    && Consistent(after.tables, after.states) && Stands(before, after, k)
    && forall op :: op in ops && op.command.key == k ==> FiledAgainst(before, after, op)
  }

  lemma FiledLater(start: Device, mid: Device, after: Device, op: Operation)
    requires FiledAgainst(mid, after, op) && Stands(start, mid, op.command.key)
    ensures FiledAgainst(start, after, op)
  {}

  lemma OneMoreWithstood(d: Device, mid: Device, front: seq<Operation>, ops: seq<Operation>, k: EntityKey,
                         cursors: OpaqueId -> nat, valid: FinanceRules)
    requires Withstands(d, mid, front, k) && Plain(ops) && Refuses(HeldAt(d, k), ops, k)
    requires forall a, b :: a in front && b in ops ==> a.id != b.id
    requires Deliver(mid, ops, cursors, valid).Ok?
    ensures Withstands(d, Deliver(mid, ops, cursors, valid).value, front + ops, k)
  {
    var after := Deliver(mid, ops, cursors, valid).value;
    DeliverKeepsConsistent(mid, ops, cursors, valid);
    if Names(ops, k) { RefusedGroup(mid, ops, k, cursors, valid); } else { OtherGroup(mid, ops, k, cursors, valid); }
    forall op | op in front + ops && op.command.key == k ensures FiledAgainst(d, after, op) {
      if op in front {
        DeliverKeepsConflict(mid, ops, op.id, cursors, valid);
      } else {
        FiledLater(d, mid, after, op);
      }
    }
  }

  /** Through any deliveries: the entity keeps value and state, and each operation on it waits as a conflict. */
  lemma {:induction false} RefusedAreFiled(d: Device, groups: seq<seq<Operation>>, k: EntityKey,
                                           cursors: OpaqueId -> nat, valid: FinanceRules)
    requires Consistent(d.tables, d.states) && AllPlain(groups) && DistinctOperations(AllOf(groups))
    requires Refuses(HeldAt(d, k), AllOf(groups), k) && DeliverAll(d, groups, cursors, valid).Ok?
    ensures Withstands(d, DeliverAll(d, groups, cursors, valid).value, AllOf(groups), k)
    decreases |groups|
  {
    if groups != [] {
      var n := |groups| - 1;
      SnocParts(groups, k, HeldAt(d, k));
      RefusedAreFiled(d, groups[..n], k, cursors, valid);
      var mid := DeliverAll(d, groups[..n], cursors, valid).value;
      OneMoreWithstood(d, mid, AllOf(groups[..n]), groups[n], k, cursors, valid);
    }
  }

  // ---- Groups that are all refused ----

  ghost predicate Turned(d: Device, ops: seq<Operation>) {
    exists k :: Names(ops, k) && Refuses(HeldAt(d, k), ops, k)
  }

  /** Nothing changes, and the sender's row has reached its last operation. */
  ghost predicate Untouched(before: Device, after: Device, device: OpaqueId, sequence: nat) {
    && after.tables == before.tables && after.states == before.states
    && (FindRow(after.rows, device).None? || RowSequence(after.rows, device) == sequence)
  }

  lemma TurnedAway(d: Device, ops: seq<Operation>, device: OpaqueId, from: nat, cursors: OpaqueId -> nat,
                   valid: FinanceRules)
    requires Consistent(d.tables, d.states) && Plain(ops) && Turned(d, ops) && Continues(ops, device, from)
    requires FindRow(d.rows, device).None? || RowSequence(d.rows, device) == from
    ensures Deliver(d, ops, cursors, valid).Ok?
    ensures Untouched(d, Deliver(d, ops, cursors, valid).value, device, from + |ops|)
  {
    var staged := Staged(d, ops, cursors);
    var k :| Names(ops, k) && Refuses(HeldAt(d, k), ops, k);
    assert HeldAt(staged, k) == HeldAt(d, k);
    RefusedIsConflicted(staged, ops, k);
    OwnSequencesAdvance(staged.(conflicts := FileConflicts(d.conflicts, ProposeAll(staged, ops).proposals)), ops,
      Conflicted, device, from);
  }

  lemma ContinuesParts(front: seq<Operation>, ops: seq<Operation>, device: OpaqueId, from: nat)
    requires Continues(front + ops, device, from)
    ensures Continues(front, device, from) && Continues(ops, device, from + |front|)
  {
    var all := front + ops;
    assert forall i :: 0 <= i < |front| ==> all[i] == front[i];
    assert forall i :: 0 <= i < |ops| ==> all[|front| + i] == ops[i];
  }

  /** Groups that each name a refused entity: no error, nothing changes, however many there are. */
  lemma {:induction false} AllTurnedAway(d: Device, groups: seq<seq<Operation>>, device: OpaqueId, from: nat,
                                         cursors: OpaqueId -> nat, valid: FinanceRules)
    requires Consistent(d.tables, d.states) && AllPlain(groups) && Continues(AllOf(groups), device, from)
    requires forall ops :: ops in groups ==> Turned(d, ops)
    requires FindRow(d.rows, device).None? || RowSequence(d.rows, device) == from
    ensures DeliverAll(d, groups, cursors, valid).Ok?
    ensures Untouched(d, DeliverAll(d, groups, cursors, valid).value, device, from + |AllOf(groups)|)
    decreases |groups|
  {
    if groups != [] {
      var n := |groups| - 1;
      assert groups[n] in groups && forall ops :: ops in groups[..n] ==> ops in groups;
      ContinuesParts(AllOf(groups[..n]), groups[n], device, from);
      AllTurnedAway(d, groups[..n], device, from, cursors, valid);
      var mid := DeliverAll(d, groups[..n], cursors, valid).value;
      TurnedStays(d, mid, groups[n]);
      TurnedAway(mid, groups[n], device, from + |AllOf(groups[..n])|, cursors, valid);
    }
  }

  lemma TurnedStays(d: Device, mid: Device, ops: seq<Operation>)
    requires Turned(d, ops) && mid.tables == d.tables && mid.states == d.states
    ensures Turned(mid, ops)
  {
    var k :| Names(ops, k) && Refuses(HeldAt(d, k), ops, k);
    assert HeldAt(mid, k) == HeldAt(d, k);
  }
}
