/**
 * Replica convergence: over any run of audited edits, preparations and uploads, the
 * sender never meets one of its consistency errors, and a second replica that applies
 * the prepared groups in order always applies them and ends in the sender's state.
 */
module Convergence {
  import opened Wrappers
  import opened SyncOperation
  import opened Causal
  import opened MutationAudit
  import opened Replica
  import opened Outbox
  import opened RemoteApply
  import opened ApplyTheorems
  import opened PrepareTheorems

  // ---- The sender's runs ----

  datatype Sender = Sender(tables: Tables, sync: SenderState)

  datatype Event =
    | Edit(writes: seq<Write>, groupId: OpaqueId, createdAt: nat, draw: nat -> OpaqueId)
    | Prepare
    | Uploaded(operationId: OpaqueId)
    | Failed(operationId: OpaqueId)

  /** `sent` lists the groups prepared so far, oldest first. */
  datatype World = World(sender: Sender, sent: seq<seq<Operation>>)

  function EditPending(s: Sender, e: Event): seq<PendingIntent>
    requires e.Edit?
  {
    Queued(e.draw, 0, EditIntents(s.tables, e.writes))
  }

  /** One audited transaction; if its outbox write fails, the tables roll back with it. */
  function AfterEdit(s: Sender, e: Event): Sender
    requires e.Edit?
  {
    match Finalized(true, s.sync.outbox, e.groupId, e.createdAt, EditPending(s, e))
    case Err(_) => s
    case Ok(outbox) => Sender(EditTables(s.tables, e.writes), s.sync.(outbox := outbox))
  }

  ghost function Step(w: World, e: Event, device: OpaqueId, rank: Collation): Result<World, PrepareError> {
    var s := w.sender;
    match e
    case Edit(_, _, _, _) => Ok(w.(sender := AfterEdit(s, e)))
    case Prepare =>
      (match PrepareNextGroup(s.sync, device, rank)
       case Err(error) => Err(error)
       case Ok(p) =>
         Ok(World(s.(sync := p.after), if p.after == s.sync then w.sent else w.sent + [OperationsOf(p.group)])))
    case Uploaded(id) => Ok(w.(sender := s.(sync := s.sync.(outbox := AcceptedLocal(s.sync.outbox, id)))))
    case Failed(id) => Ok(w.(sender := s.(sync := s.sync.(outbox := UploadFailed(s.sync.outbox, id)))))
  }

  ghost function Run(start: Sender, events: seq<Event>, device: OpaqueId, rank: Collation): Result<World, PrepareError>
  {
    if |events| == 0 then Ok(World(start, []))
    else
      match Run(start, events[..|events| - 1], device, rank)
      case Err(e) => Err(e)
      case Ok(w) => Step(w, events[|events| - 1], device, rank)
  }

  /** `r` sorts before every record written at `createdAt` under `groupId`, and belongs to another group. */
  predicate Older(r: OutboxRecord, createdAt: nat, groupId: OpaqueId, rank: Collation) {
    r.groupId != groupId
    && (r.createdAt < createdAt || (r.createdAt == createdAt && rank(r.groupId) < rank(groupId)))
  }

  /**
   * Each transaction takes a fresh group id and sorts after everything still queued, as it
   * does whenever the clock has moved on, and leaves valid finance data. Only a prepared
   * record is ever uploaded.
   */
  ghost predicate Plausible(w: World, e: Event, rank: Collation, valid: FinanceRules) {
    match e
    case Edit(writes, groupId, createdAt, _) =>
      && (forall r :: r in w.sender.sync.outbox ==> Older(r, createdAt, groupId, rank))
      && valid(EditTables(w.sender.tables, writes))
    case Failed(id) => Uploadable(w.sender.sync.outbox, id)
    case _ => true
  }

  ghost predicate PlausibleRun(start: Sender, events: seq<Event>, device: OpaqueId, rank: Collation,
                               valid: FinanceRules)
  {
    |events| == 0
    || (var n := |events| - 1;
        PlausibleRun(start, events[..n], device, rank, valid)
        && match Run(start, events[..n], device, rank)
           case Err(_) => true
           case Ok(w) => Plausible(w, events[n], rank, valid))
  }

  // ---- The receiver ----

  /** A group that is applied; `None` when it fails or conflicts. */
  function Receive(d: Device, ops: seq<Operation>, cursors: OpaqueId -> nat, valid: FinanceRules): Option<Device> {
    match ApplyRemoteGroup(Staged(d, ops, cursors), ops, valid)
    case Err(_) => None
    case Ok(done) => if done.outcome == GroupApplied then Some(done.device) else None
  }

  function ReceiveAll(d: Device, groups: seq<seq<Operation>>, cursors: OpaqueId -> nat,
                      valid: FinanceRules): Option<Device>
  {
    if groups == [] then Some(d)
    else
      match ReceiveAll(d, groups[..|groups| - 1], cursors, valid)
      case None => None
      case Some(mid) => Receive(mid, groups[|groups| - 1], cursors, valid)
  }

  // ---- Receiving one prepared group ----

  predicate FreshGroup(g: OutboxRows) {
    && CompleteGroup(g)
    && NonePrepared(g)
    && forall r :: r in g ==> RecordFits(r) && r.state != Uploading && r.createdAt == g[0].createdAt
  }

  lemma {:induction false} SortOfIndexed(ops: seq<Operation>)
    requires forall i, j :: 0 <= i < j < |ops| ==> ops[i].groupIndex <= ops[j].groupIndex
    ensures SortOperations(ops) == ops
  {
    if ops != [] {
      var rest := ops[1..];
      forall i, j | 0 <= i < j < |rest| ensures rest[i].groupIndex <= rest[j].groupIndex {
        assert rest[i] == ops[i + 1] && rest[j] == ops[j + 1];
      }
      SortOfIndexed(rest);
      assert ops == [ops[0]] + rest;
    }
  }

  /** The receiver holds the sender's prepared state and expects its next operation. */
  ghost predicate Follows(d: Device, sync: SenderState, device: OpaqueId) {
    && d.states == sync.states
    && Consistent(d.tables, d.states)
    && (FindRow(d.rows, device).None? || RowSequence(d.rows, device) == RowSequence(sync.rows, device))
  }

  lemma PreparedGroupIsComplete(prepared: OutboxRows, group: OutboxRows, device: OpaqueId, from: nat)
    requires CompleteGroup(group) && AllSealed(prepared, group, device, from)
    ensures AllPrepared(prepared)
    ensures
      var ops := OperationsOf(prepared);
      CompleteRemoteGroup(ops) && SortOperations(ops) == ops && Continues(ops, device, from)
  {
    SortOfIndexed(OperationsOf(prepared));
  }

  /** A receiver that is in step with the sender applies the group the sender prepares. */
  lemma PreparedGroupIsApplied(d: Device, sync: SenderState, group: OutboxRows, device: OpaqueId,
                               devices: set<OpaqueId>, rank: Collation, cursors: OpaqueId -> nat, valid: FinanceRules)
    requires Total(rank) && Follows(d, sync, device) && FreshGroup(group)
    requires RowsValid(sync.rows) && Fits(sync.rows, devices, rank) && device in devices
    requires Replay(d.tables, GroupIntents(group)).Some? && valid(Replay(d.tables, GroupIntents(group)).value)
    ensures
      var p := Progress(sync.states, sync.rows, MaximumLamport(sync.states));
      && PrepareAll(p, group, device, rank).Ok?
      && var batch := PrepareAll(p, group, device, rank).value;
         var r := Receive(d, OperationsOf(batch.prepared), cursors, valid);
         && r.Some?
         && r.value.tables == Replay(d.tables, GroupIntents(group)).value
         && Follows(r.value, SenderState(batch.progress.states, batch.progress.rows, []), device)
         && RowsValid(batch.progress.rows) && Fits(batch.progress.rows, devices, rank)
  {
    var p := Progress(sync.states, sync.rows, MaximumLamport(sync.states));
    var batch := PreparedFacts(d, p, group, device, devices, rank);
    ReceivePrepared(d, Replay(d.tables, GroupIntents(group)).value, batch, group, device,
      RowSequence(p.rows, device), cursors, valid);
  }

  lemma ReceivePrepared(d: Device, t: Tables, batch: Batch, group: OutboxRows, device: OpaqueId, from: nat,
                        cursors: OpaqueId -> nat, valid: FinanceRules)
    requires CompleteGroup(group) && AllPrepared(batch.prepared) && AllSealed(batch.prepared, group, device, from)
    requires InStep(d, t, batch.progress, OperationsOf(batch.prepared)) && valid(t)
    requires FindRow(d.rows, device).None? || RowSequence(d.rows, device) == from
    ensures
      var r := Receive(d, OperationsOf(batch.prepared), cursors, valid);
      && r.Some? && r.value.tables == t && r.value.states == batch.progress.states
      && Consistent(t, batch.progress.states)
      && RowSequence(r.value.rows, device) == from + |group|
  {
    PreparedGroupIsComplete(batch.prepared, group, device, from);
    ReceiveInStep(d, t, batch.progress, OperationsOf(batch.prepared), device, from, cursors, valid);
  }

  lemma ReceiveInStep(d: Device, t: Tables, p: Progress, ops: seq<Operation>, device: OpaqueId, from: nat,
                      cursors: OpaqueId -> nat, valid: FinanceRules)
    requires InStep(d, t, p, ops) && valid(t)
    requires CompleteRemoteGroup(ops) && SortOperations(ops) == ops && Continues(ops, device, from)
    requires FindRow(d.rows, device).None? || RowSequence(d.rows, device) == from
    ensures
      var r := Receive(d, ops, cursors, valid);
      && r.Some? && r.value.tables == t && r.value.states == p.states && Consistent(t, p.states)
      && RowSequence(r.value.rows, device) == from + |ops|
  {
    var staged := Staged(d, ops, cursors);
    InStepOfStaged(d, staged, t, p, ops);
    var applied := AppliedDevice(staged, ops);
    OwnSequencesAdvance(applied, ops, Applied, device, from);
    ReceiveMeans(d, ops, cursors, valid);
  }

  lemma ReceiveMeans(d: Device, ops: seq<Operation>, cursors: OpaqueId -> nat, valid: FinanceRules)
    requires CompleteRemoteGroup(ops) && SortOperations(ops) == ops
    requires AllAccepted(ProposeAll(Staged(d, ops, cursors), ops).proposals)
    requires
      var applied := AppliedDevice(Staged(d, ops, cursors), ops);
      valid(applied.tables) && AdvanceAll(applied, ops, Applied).Ok?
    ensures Receive(d, ops, cursors, valid) ==
      Some(AdvanceAll(AppliedDevice(Staged(d, ops, cursors), ops), ops, Applied).value)
  {}

  /** The sender's half: the group is prepared, in order, and a device in its state is in step. */
  lemma PreparedFacts(d: Device, p: Progress, group: OutboxRows, device: OpaqueId, devices: set<OpaqueId>,
                      rank: Collation)
    returns (batch: Batch)
    requires Total(rank) && FreshGroup(group) && p.states == d.states && Ready(p, d.tables, device, devices, rank)
    requires Replay(d.tables, GroupIntents(group)).Some?
    ensures PrepareAll(p, group, device, rank) == Ok(batch) && AllPrepared(batch.prepared)
    ensures InStep(d, Replay(d.tables, GroupIntents(group)).value, batch.progress, OperationsOf(batch.prepared))
    ensures RowsValid(batch.progress.rows) && Fits(batch.progress.rows, devices, rank)
    ensures RowSequence(batch.progress.rows, device) == RowSequence(p.rows, device) + |group|
    ensures AllSealed(batch.prepared, group, device, RowSequence(p.rows, device))
  {
    WholeGroupInStep(d, p, group, device, devices, rank);
    batch := PrepareAll(p, group, device, rank).value;
    PreparedInOrder(p, group, device, rank);
  }

  lemma WholeGroupInStep(d: Device, p: Progress, group: OutboxRows, device: OpaqueId, devices: set<OpaqueId>,
                         rank: Collation)
    requires Total(rank) && FreshGroup(group) && p.states == d.states && Ready(p, d.tables, device, devices, rank)
    requires Replay(d.tables, GroupIntents(group)).Some?
    ensures PrepareAll(p, group, device, rank).Ok?
    ensures
      var batch := PrepareAll(p, group, device, rank).value;
      && InStep(d, Replay(d.tables, GroupIntents(group)).value, batch.progress, OperationsOf(batch.prepared))
      && RowsValid(batch.progress.rows) && Fits(batch.progress.rows, devices, rank)
  {
    assert group[..|group|] == group && GroupIntents(group)[..|group|] == GroupIntents(group);
    var t, batch := GroupKeepsInStep(d, p, group, |group|, device, devices, rank);
  }

  lemma {:induction false} ProposalsIgnoreInbox(d: Device, staged: Device, ops: seq<Operation>)
    requires staged == d.(inbox := staged.inbox)
    ensures ProposeAll(staged, ops) == ProposeAll(d, ops)
    decreases |ops|
  {
    if ops != [] { ProposalsIgnoreInbox(d, staged, ops[..|ops| - 1]); }
  }

  /** What being in step means for the staged group: all accepted, with the sender's states. */
  lemma InStepOfStaged(d: Device, staged: Device, t: Tables, p: Progress, ops: seq<Operation>)
    requires InStep(d, t, p, ops) && staged == d.(inbox := staged.inbox)
    ensures AllAccepted(ProposeAll(staged, ops).proposals)
    ensures AppliedDevice(staged, ops).tables == t && AppliedDevice(staged, ops).states == p.states
    ensures Consistent(t, p.states)
  {
    ProposalsIgnoreInbox(d, staged, ops);
  }
}
