/**
 * The chain of a device's operations in the inbox, over every run of the sync tables
 * (src/db/sync/operation-repository.ts, 493-900): no staged operation ever loses its predecessor
 * or what it refers to.
 */
module StagingRuns {
  import opened Wrappers
  import opened SyncOperation
  import opened Causal
  import opened Replica
  import opened Outbox
  import opened PrepareTheorems
  import opened RemoteApply
  import opened Staging

  /** The previous operation of its device is in the inbox, or is what the frontier row stands at. */
  ghost predicate HasPredecessor(d: Device, op: Operation) {
    op.sequence > 1 ==> PredecessorInInbox(d, op) || PredecessorOnFrontier(d, op)
  }

  /** Each causal reference is at or behind the frontier, or staged at a smaller cursor. */
  ghost predicate HasReferences(d: Device, record: InboxRecord) {
    forall c :: c in record.operation.frontier ==>
      c.sequence <= RowSequence(d.rows, c.device) || StagedAt(d.inbox, c.device, c.sequence, c.hash, record.cursor)
  }

  /** The record came from another device, and what it builds on is there. */
  ghost predicate Founded(d: Device, record: InboxRecord, device: OpaqueId) {
    record.operation.device != device && HasPredecessor(d, record.operation) && HasReferences(d, record)
  }

  ghost predicate Chained(d: Device, device: OpaqueId) {
    forall id :: IsWaiting(d.inbox, id) ==> Founded(d, d.inbox[id], device)
  }

  /** No two records of another device carry one sequence. */
  ghost predicate NoForks(inbox: Inbox, device: OpaqueId) {
    forall i, j ::
      && i in inbox && j in inbox && inbox[i].operation.device == inbox[j].operation.device != device
      && inbox[i].operation.sequence == inbox[j].operation.sequence
      ==> i == j
  }

  /** Records keep their operations and cursors. */
  predicate InboxKept(before: Inbox, after: Inbox) {
    forall id :: id in before ==>
      id in after && after[id].operation == before[id].operation && after[id].cursor == before[id].cursor
  }

  predicate SameRow(before: Rows, after: Rows, device: OpaqueId) {
    RowSequence(after, device) == RowSequence(before, device) && RowHash(after, device) == RowHash(before, device)
  }

  lemma PredecessorStays(d: Device, after: Device, op: Operation)
    requires InboxKept(d.inbox, after.inbox) && HasPredecessor(d, op)
    requires SameRow(d.rows, after.rows, op.device) || (op.sequence > 1 ==> PredecessorInInbox(d, op))
    ensures HasPredecessor(after, op)
  {
    if op.sequence > 1 && PredecessorInInbox(d, op) {
      var id :| id in d.inbox && HasIdentity(d.inbox[id], op.device, op.sequence - 1)
        && op.previousHash == Some(OperationDigest(d.inbox[id].operation));
      assert id in after.inbox && HasIdentity(after.inbox[id], op.device, op.sequence - 1);
    }
  }

  lemma ReferencesStay(d: Device, after: Device, record: InboxRecord)
    requires InboxKept(d.inbox, after.inbox) && RowsRise(d.rows, after.rows) && HasReferences(d, record)
    ensures HasReferences(after, record)
  {
    forall c | c in record.operation.frontier
      ensures c.sequence <= RowSequence(after.rows, c.device)
        || StagedAt(after.inbox, c.device, c.sequence, c.hash, record.cursor)
    {
      if StagedAt(d.inbox, c.device, c.sequence, c.hash, record.cursor) {
        var id :| id in d.inbox && HasIdentity(d.inbox[id], c.device, c.sequence)
          && OperationDigest(d.inbox[id].operation) == c.hash && d.inbox[id].cursor < record.cursor;
        assert id in after.inbox && HasIdentity(after.inbox[id], c.device, c.sequence);
      }
    }
  }

  lemma StaysFounded(d: Device, after: Device, record: InboxRecord, device: OpaqueId)
    requires InboxKept(d.inbox, after.inbox) && RowsRise(d.rows, after.rows) && Founded(d, record, device)
    requires SameRow(d.rows, after.rows, record.operation.device)
    ensures Founded(after, record, device)
  {
    PredecessorStays(d, after, record.operation);
    ReferencesStay(d, after, record);
  }

  // ---- Pages ----

  predicate Pullable(d: Device, p: Pulled, device: OpaqueId) {
    && (p.operation.device == device ==> p.operation.id in d.inbox)
    && (p.operation.sequence > 1 ==> p.operation.previousHash.Some?)
  }

  lemma NewRecordIsFounded(d: Device, p: Pulled, device: OpaqueId)
    requires Pullable(d, p, device) && StageOne(d, p).Ok? && p.operation.id !in d.inbox
    ensures Founded(d, InboxRecord(p.operation, p.cursor, Received), device)
  {
    StagedIsChained(d, p);
  }

  lemma StageOneKeepsChained(d: Device, p: Pulled, device: OpaqueId)
    requires Chained(d, device) && Pullable(d, p, device) && StageOne(d, p).Ok?
    ensures Chained(StageOne(d, p).value, device) && InboxKept(d.inbox, StageOne(d, p).value.inbox)
  {
    var op, after := p.operation, StageOne(d, p).value;
    if op.id !in d.inbox {
      NewRecordIsFounded(d, p, device);
      forall id | IsWaiting(after.inbox, id) ensures Founded(after, after.inbox[id], device) {
        if id != op.id { assert IsWaiting(d.inbox, id); }
        StaysFounded(d, after, after.inbox[id], device);
      }
    }
  }

  lemma {:induction false} StageAllKeepsChained(d: Device, page: seq<Pulled>, device: OpaqueId)
    requires Chained(d, device) && StageAll(d, page).Ok?
    requires forall p :: p in page ==> Pullable(d, p, device)
    ensures Chained(StageAll(d, page).value, device) && InboxKept(d.inbox, StageAll(d, page).value.inbox)
    decreases |page|
  {
    if page != [] {
      var n := |page| - 1;
      assert page[n] in page && forall p :: p in page[..n] ==> p in page;
      StageAllKeepsChained(d, page[..n], device);
      StageOneKeepsChained(StageAll(d, page[..n]).value, page[n], device);
    }
  }

  // ---- Groups ----

  lemma {:induction false} InsertedIsMember(sorted: seq<Operation>, op: Operation, x: Operation)
    requires x in InsertOperation(sorted, op)
    ensures x == op || x in sorted
  {
    if sorted != [] && op.groupIndex > sorted[0].groupIndex && x != sorted[0] {
      InsertedIsMember(sorted[1..], op, x);
    }
  }

  lemma {:induction false} SortedIsMember(ops: seq<Operation>, x: Operation)
    requires x in SortOperations(ops)
    ensures x in ops
  {
    if ops != [] {
      InsertedIsMember(SortOperations(ops[1..]), ops[0], x);
      if x != ops[0] { SortedIsMember(ops[1..], x); }
    }
  }

  /** The first operation of a device in a group takes the sequence after its row. */
  lemma {:induction false} FirstFollowsRow(d: Device, ops: seq<Operation>, status: InboxStatus, device: OpaqueId)
    returns (first: Operation)
    requires AdvanceAll(d, ops, status).Ok? && FindRow(d.rows, device).Some? && CountOf(ops, device) > 0
    ensures first in ops && first.device == device && first.sequence == RowSequence(d.rows, device) + 1
    decreases |ops|
  {
    var n := |ops| - 1;
    if CountOf(ops[..n], device) > 0 {
      first := FirstFollowsRow(d, ops[..n], status, device);
    } else {
      AdvanceMovesFrontier(d, ops[..n], status, device);
      first := ops[n];
    }
  }

  /**
   * A record that still waits after its group phase was not in the group, so its row has not moved past
   * its predecessor.
   */
  lemma AdvanceKeepsPredecessor(d: Device, ops: seq<Operation>, status: InboxStatus, device: OpaqueId, w: OpaqueId)
    requires AdvanceAll(d, ops, status).Ok? && status != Received
    requires Chained(d, device) && NoForks(d.inbox, device)
    requires forall op :: op in ops && op.id in d.inbox ==> op == d.inbox[op.id].operation
    requires IsWaiting(AdvanceAll(d, ops, status).value.inbox, w)
    ensures
      var after := AdvanceAll(d, ops, status).value;
      && IsWaiting(d.inbox, w) && after.inbox[w] == d.inbox[w]
      && HasPredecessor(after, d.inbox[w].operation)
  {
    var after := AdvanceAll(d, ops, status).value;
    AdvanceKeepsOthers(d, ops, status, w);
    assert IsWaiting(d.inbox, w);
    var op := d.inbox[w].operation;
    AdvanceKeepsInbox(d, ops, status);
    AdvanceMovesFrontier(d, ops, status, op.device);
    if op.sequence > 1 && !PredecessorInInbox(d, op) && CountOf(ops, op.device) > 0 {
      var first := FirstFollowsRow(d, ops, status, op.device);
      AdvanceMarksInbox(d, ops, status, first);
      AdvanceKeepsOthers(d, ops, status, first.id);
      assert false;
    }
    PredecessorStays(d, after, op);
  }

  lemma AdvanceKeepsInbox(d: Device, ops: seq<Operation>, status: InboxStatus)
    requires AdvanceAll(d, ops, status).Ok?
    ensures InboxKept(d.inbox, AdvanceAll(d, ops, status).value.inbox)
  {
    var after := AdvanceAll(d, ops, status).value.inbox;
    forall id | id in d.inbox
      ensures id in after && after[id].operation == d.inbox[id].operation && after[id].cursor == d.inbox[id].cursor
    {
      AdvanceKeepsOthers(d, ops, status, id);
    }
  }

  lemma AdvanceRises(d: Device, ops: seq<Operation>, status: InboxStatus)
    requires AdvanceAll(d, ops, status).Ok?
    ensures RowsRise(d.rows, AdvanceAll(d, ops, status).value.rows)
  {
    var after := AdvanceAll(d, ops, status).value.rows;
    forall x
      ensures RowSequence(d.rows, x) <= RowSequence(after, x) && RowAcknowledged(d.rows, x) <= RowAcknowledged(after, x)
    {
      AdvanceMovesFrontier(d, ops, status, x);
    }
  }

  lemma AdvanceKeepsChained(d: Device, ops: seq<Operation>, status: InboxStatus, device: OpaqueId)
    requires AdvanceAll(d, ops, status).Ok? && status != Received
    requires Chained(d, device) && NoForks(d.inbox, device)
    requires forall op :: op in ops && op.id in d.inbox ==> op == d.inbox[op.id].operation
    ensures Chained(AdvanceAll(d, ops, status).value, device)
  {
    var after := AdvanceAll(d, ops, status).value;
    AdvanceKeepsInbox(d, ops, status);
    AdvanceRises(d, ops, status);
    forall w | IsWaiting(after.inbox, w) ensures Founded(after, after.inbox[w], device) {
      AdvanceKeepsPredecessor(d, ops, status, device, w);
      ReferencesStay(d, after, d.inbox[w]);
    }
  }

  lemma ChainedElsewhere(d: Device, other: Device, device: OpaqueId)
    requires Chained(d, device) && other.inbox == d.inbox && other.rows == d.rows
    ensures Chained(other, device)
  {
    OtherRowsKeepChained(d, other, device);
  }

  lemma GroupKeepsChained(d: Device, group: seq<Operation>, valid: FinanceRules, device: OpaqueId)
    requires Chained(d, device) && NoForks(d.inbox, device) && ApplyRemoteGroup(d, group, valid).Ok?
    requires forall op :: op in group && op.id in d.inbox ==> op == d.inbox[op.id].operation
    ensures Chained(ApplyRemoteGroup(d, group, valid).value.device, device)
  {
    var ops := SortOperations(group);
    var scan := ProposeAll(d, ops);
    forall op | op in ops ensures op in group { SortedIsMember(group, op); }
    if AllAccepted(scan.proposals) {
      var applied := d.(tables := ApplyValues(d.tables, ops), states := d.states + scan.working,
                        conflicts := MarkAllResolved(d.conflicts, scan.proposals));
      ChainedElsewhere(d, applied, device);
      AdvanceKeepsChained(applied, ops, Applied, device);
    } else {
      var filed := d.(conflicts := FileConflicts(d.conflicts, scan.proposals));
      ChainedElsewhere(d, filed, device);
      AdvanceKeepsChained(filed, ops, Conflicted, device);
    }
  }

  // ---- The device's own operations, acknowledgements and seeds ----

  /** Only rows without a waiting record change. */
  lemma OtherRowsKeepChained(d: Device, after: Device, device: OpaqueId)
    requires Chained(d, device) && after.inbox == d.inbox && RowsRise(d.rows, after.rows)
    requires forall w :: IsWaiting(d.inbox, w) ==> SameRow(d.rows, after.rows, d.inbox[w].operation.device)
    ensures Chained(after, device)
  {
    forall w | IsWaiting(after.inbox, w) ensures Founded(after, after.inbox[w], device) {
      StaysFounded(d, after, d.inbox[w], device);
    }
  }

  lemma {:induction false} PrepareAllKeepsRows(p: Progress, group: OutboxRows, device: OpaqueId, rank: Collation,
                                               d: OpaqueId)
    requires PrepareAll(p, group, device, rank).Ok? && d != device
    ensures FindRow(PrepareAll(p, group, device, rank).value.progress.rows, d) == FindRow(p.rows, d)
    decreases |group|
  {
    if group != [] {
      var n := |group| - 1;
      PrepareUnfolds(p, group, device, rank);
      PrepareAllKeepsRows(p, group[..n], device, rank, d);
      OneIsSealed(PrepareAll(p, group[..n], device, rank).value.progress, group[n], device, rank);
    }
  }

  lemma PrepareKeepsRows(s: SenderState, device: OpaqueId, rank: Collation, d: OpaqueId)
    requires PrepareNextGroup(s, device, rank).Ok? && d != device
    ensures FindRow(PrepareNextGroup(s, device, rank).value.after.rows, d) == FindRow(s.rows, d)
  {
    var p := Progress(s.states, s.rows, MaximumLamport(s.states));
    forall group | PrepareAll(p, group, device, rank).Ok?
      ensures FindRow(PrepareAll(p, group, device, rank).value.progress.rows, d) == FindRow(s.rows, d)
    {
      PrepareAllKeepsRows(p, group, device, rank, d);
    }
  }

  lemma LocalKeepsChained(d: Device, op: Operation, cursor: nat, device: OpaqueId)
    requires Chained(d, device) && op.id !in d.inbox
    ensures Chained(AcceptLocal(d, op, cursor), device)
  {
    var after := AcceptLocal(d, op, cursor);
    forall w | IsWaiting(after.inbox, w) ensures Founded(after, after.inbox[w], device) {
      assert IsWaiting(d.inbox, w);
      StaysFounded(d, after, d.inbox[w], device);
    }
  }

  /** A seed writes only rows that no operation has advanced yet. */
  lemma {:induction false} SeedKeepsAdvanced(rows: Rows, verified: seq<SnapshotDevice>, d: OpaqueId)
    requires SeedAll(rows, verified).Ok? && RowSequence(rows, d) > 0
    ensures FindRow(SeedAll(rows, verified).value, d) == FindRow(rows, d)
    decreases |verified|
  {
    if verified != [] { SeedKeepsAdvanced(rows, verified[..|verified| - 1], d); }
  }

  // ---- Runs ----

  /**
   * Pages hold operations of other devices, or known ones; a group is opened from its inbox
   * records; an accepted local operation is new to the inbox.
   */
  ghost predicate Orderly(d: Device, e: SyncEvent, device: OpaqueId) {
    match e
    case Page(page, _) => forall p :: p in page ==> Pullable(d, p, device)
    case AcceptedLocal(op, _) => op.id !in d.inbox
    case ApplyGroup(group) => forall op :: op in group && op.id in d.inbox ==> op == d.inbox[op.id].operation
    case _ => true
  }

  ghost predicate OrderlyRun(s: SyncState, events: seq<SyncEvent>, device: OpaqueId, rank: Collation,
                             valid: FinanceRules)
  {
    events == []
    || (var before := RunSync(s, events[..|events| - 1], device, rank, valid);
        && OrderlyRun(s, events[..|events| - 1], device, rank, valid)
        && NoForks(before.device.inbox, device) && Orderly(before.device, events[|events| - 1], device))
  }

  lemma PrepareKeepsChained(s: SyncState, device: OpaqueId, rank: Collation, valid: FinanceRules)
    requires Chained(s.device, device)
    ensures Chained(Step(s, PrepareLocal, device, rank, valid).device, device)
  {
    var after := Step(s, PrepareLocal, device, rank, valid).device;
    var sender := SenderState(s.device.states, s.device.rows, s.outbox);
    if PrepareNextGroup(sender, device, rank).Ok? {
      PrepareRises(sender, device, rank);
      forall w | IsWaiting(s.device.inbox, w)
        ensures SameRow(s.device.rows, after.rows, s.device.inbox[w].operation.device)
      {
        PrepareKeepsRows(sender, device, rank, s.device.inbox[w].operation.device);
      }
      OtherRowsKeepChained(s.device, after, device);
    }
  }

  /** A seed under waiting records, as after a gap in the chain: the row a predecessor stands at stays. */
  lemma SeedKeepsFounded(d: Device, verified: seq<SnapshotDevice>, record: InboxRecord, device: OpaqueId)
    requires SeedAll(d.rows, verified).Ok? && Founded(d, record, device)
    ensures Founded(d.(rows := SeedAll(d.rows, verified).value), record, device)
  {
    var after := d.(rows := SeedAll(d.rows, verified).value);
    var op := record.operation;
    SeedingRises(d.rows, verified);
    if op.sequence > 1 && !PredecessorInInbox(d, op) { SeedKeepsAdvanced(d.rows, verified, op.device); }
    PredecessorStays(d, after, op);
    ReferencesStay(d, after, record);
  }

  lemma SeedKeepsChained(s: SyncState, verified: seq<SnapshotDevice>, device: OpaqueId, rank: Collation,
                         valid: FinanceRules)
    requires Chained(s.device, device)
    ensures Chained(Step(s, Seed(verified), device, rank, valid).device, device)
  {
    if SeedAll(s.device.rows, verified).Ok? {
      forall w | IsWaiting(s.device.inbox, w)
        ensures Founded(Step(s, Seed(verified), device, rank, valid).device, s.device.inbox[w], device)
      {
        SeedKeepsFounded(s.device, verified, s.device.inbox[w], device);
      }
    }
  }

  lemma PageKeepsChained(s: SyncState, page: seq<Pulled>, nextCursor: nat,
                         device: OpaqueId, rank: Collation, valid: FinanceRules)
    requires Chained(s.device, device) && forall p :: p in page ==> Pullable(s.device, p, device)
    ensures Chained(Step(s, Page(page, nextCursor), device, rank, valid).device, device)
  {
    if StageAll(s.device, page).Ok? { StageAllKeepsChained(s.device, page, device); }
  }

  lemma AcknowledgeKeepsChained(s: SyncState, device: OpaqueId)
    requires Chained(s.device, device)
    ensures Chained(Acknowledge(s, device).device, device)
  {
    OtherRowsKeepChained(s.device, Acknowledge(s, device).device, device);
  }

  lemma StepKeepsChained(s: SyncState, e: SyncEvent, device: OpaqueId, rank: Collation, valid: FinanceRules)
    requires Chained(s.device, device) && NoForks(s.device.inbox, device) && Orderly(s.device, e, device)
    ensures Chained(Step(s, e, device, rank, valid).device, device)
  {
    match e {
      case Page(page, nextCursor) => PageKeepsChained(s, page, nextCursor, device, rank, valid);
      case PrepareLocal => PrepareKeepsChained(s, device, rank, valid);
      case AcceptedLocal(op, cursor) => LocalKeepsChained(s.device, op, cursor, device);
      case ApplyGroup(group) =>
        if ApplyRemoteGroup(s.device, group, valid).Ok? { GroupKeepsChained(s.device, group, valid, device); }
      case AcknowledgeCursor => AcknowledgeKeepsChained(s, device);
      case Seed(verified) => SeedKeepsChained(s, verified, device, rank, valid);
    }
  }

  /**
   * Over every orderly run without forks: whatever waits has its predecessor in the inbox or on the
   * frontier row, and each of its references behind the frontier or staged at a smaller cursor.
   */
  lemma {:induction false} WaitingStaysChained(
    s: SyncState, events: seq<SyncEvent>, device: OpaqueId, rank: Collation, valid: FinanceRules)
    requires Chained(s.device, device) && OrderlyRun(s, events, device, rank, valid)
    ensures Chained(RunSync(s, events, device, rank, valid).device, device)
    decreases |events|
  {
    if events != [] {
      var n := |events| - 1;
      WaitingStaysChained(s, events[..n], device, rank, valid);
      StepKeepsChained(RunSync(s, events[..n], device, rank, valid), events[n], device, rank, valid);
    }
  }
}
