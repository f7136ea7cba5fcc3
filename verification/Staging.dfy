/**
 * Staging pulled pages, acknowledging cursors and seeding the frontier from a snapshot
 * (src/db/sync/operation-repository.ts, 493-624 and 942-979; src/db/sync/snapshot-repository.ts, 414-451).
 */
module Staging {
  import opened Wrappers
  import opened Extrema
  import opened SyncOperation
  import opened Causal
  import opened Replica
  import opened Outbox
  import opened RemoteApply

  datatype StageError = ForkedOperation | ChainGap | NotProvable | CursorRollback | SnapshotRace

  /** A device's sync tables together with the cursor of its last pull. */
  datatype SyncState = SyncState(device: Device, outbox: OutboxRows, lastServerCursor: nat)

  datatype Pulled = Pulled(operation: Operation, cursor: nat)

  // ---- Staging a page ----

  predicate HasIdentity(record: InboxRecord, device: OpaqueId, sequence: nat) {
    record.operation.device == device && record.operation.sequence == sequence
  }

  function WithIdentity(inbox: Inbox, device: OpaqueId, sequence: nat): set<OpaqueId> {
    set id | id in inbox && HasIdentity(inbox[id], device, sequence)
  }

  /** The first inbox record of a device's sequence; ties on the index go to the smallest key. */
  ghost function InboxAt(inbox: Inbox, device: OpaqueId, sequence: nat): (found: Option<InboxRecord>)
    ensures found.Some? ==> HasIdentity(found.value, device, sequence)
    ensures found.Some? ==> exists id :: id in inbox && inbox[id] == found.value
  {
    var ids := WithIdentity(inbox, device, sequence);
    if ids == {} then None else Some(inbox[Least(ids)])
  }

  ghost function PredecessorHash(d: Device, op: Operation): Option<Digest>
    requires op.sequence > 1
  {
    match InboxAt(d.inbox, op.device, op.sequence - 1)
    case Some(record) => Some(OperationDigest(record.operation))
    case None => if RowSequence(d.rows, op.device) == op.sequence - 1 then RowHash(d.rows, op.device) else None
  }

  predicate OnFrontier(d: Device, c: Entry) {
    FindRow(d.rows, c.device).Some? && RowSequence(d.rows, c.device) == c.sequence
    && RowHash(d.rows, c.device) == Some(c.hash)
  }

  /** A causal reference is the applied frontier, or a staged operation at a smaller cursor. */
  ghost predicate Provable(d: Device, c: Entry, cursor: nat) {
    OnFrontier(d, c)
    || (InboxAt(d.inbox, c.device, c.sequence).Some?
        && OperationDigest(InboxAt(d.inbox, c.device, c.sequence).value.operation) == c.hash
        && InboxAt(d.inbox, c.device, c.sequence).value.cursor < cursor)
  }

  ghost function StageOne(d: Device, p: Pulled): Result<Device, StageError> {
    var op := p.operation;
    if op.id in d.inbox then
      if d.inbox[op.id].cursor != p.cursor || d.inbox[op.id].operation != op then Err(ForkedOperation) else Ok(d)
    else if op.sequence > 1 && PredecessorHash(d, op) != op.previousHash then Err(ChainGap)
    else if exists c :: c in op.frontier && !Provable(d, c, p.cursor) then Err(NotProvable)
    else Ok(d.(inbox := d.inbox[op.id := InboxRecord(op, p.cursor, Received)]))
  }

  ghost function StageAll(d: Device, page: seq<Pulled>): Result<Device, StageError> {
    if page == [] then Ok(d)
    else
      match StageAll(d, page[..|page| - 1])
      case Err(e) => Err(e)
      case Ok(mid) => StageOne(mid, page[|page| - 1])
  }

  /** The whole page and the new pull cursor, or nothing. */
  ghost function StagePage(s: SyncState, page: seq<Pulled>, nextCursor: nat): Result<SyncState, StageError> {
    match StageAll(s.device, page)
    case Err(e) => Err(e)
    case Ok(d) => if nextCursor < s.lastServerCursor then Err(CursorRollback)
      else Ok(SyncState(d, s.outbox, nextCursor))
  }

  /** `recordAcceptedLocal`, on the inbox side. */
  function AcceptLocal(d: Device, op: Operation, cursor: nat): Device {
    d.(inbox := d.inbox[op.id := InboxRecord(op, cursor, Applied)])
  }

  // ---- Acknowledging ----

  function ReceivedCursors(inbox: Inbox): set<nat> {
    set id | id in inbox && inbox[id].status == Received :: inbox[id].cursor
  }

  function CursorsBelow(inbox: Inbox, bound: nat): set<nat> {
    set id | id in inbox && inbox[id].cursor < bound :: inbox[id].cursor
  }

  /** The last cursor before the first operation that still waits. */
  ghost function AckCursor(s: SyncState): nat {
    var received := ReceivedCursors(s.device.inbox);
    if received == {} then s.lastServerCursor else Greatest(CursorsBelow(s.device.inbox, Least(received)))
  }

  function Max(a: nat, b: nat): nat { if a < b then b else a }

  function AckRow(rows: Rows, device: OpaqueId, cursor: nat): FrontierRow {
    FrontierRow(device, RowSequence(rows, device), RowHash(rows, device), Max(RowAcknowledged(rows, device), cursor))
  }

  ghost function Acknowledge(s: SyncState, device: OpaqueId): SyncState {
    s.(device := s.device.(rows := PutRow(s.device.rows, AckRow(s.device.rows, device, AckCursor(s)))))
  }

  // ---- Seeding from a verified snapshot ----

  datatype SnapshotDevice = SnapshotDevice(device: OpaqueId, sequence: nat, hash: Option<Digest>)

  function SeedOne(rows: Rows, v: SnapshotDevice): Result<Rows, StageError> {
    if v.sequence == 0 then Ok(rows)
    else
      match FindRow(rows, v.device)
      case None => Ok(PutRow(rows, FrontierRow(v.device, v.sequence, v.hash, 0)))
      case Some(row) =>
        if row.sequence == 0 && row.hash.None? then
          Ok(PutRow(rows, FrontierRow(v.device, v.sequence, v.hash, row.acknowledged)))
        else if row.sequence < v.sequence || (row.sequence == v.sequence && row.hash != v.hash) then Err(SnapshotRace)
        else Ok(rows)
  }

  function SeedAll(rows: Rows, verified: seq<SnapshotDevice>): Result<Rows, StageError> {
    if verified == [] then Ok(rows)
    else
      match SeedAll(rows, verified[..|verified| - 1])
      case Err(e) => Err(e)
      case Ok(mid) => SeedOne(mid, verified[|verified| - 1])
  }

  /** `later` never falls behind `earlier` on any device, and no acknowledgement moves back. */
  ghost predicate RowsRise(earlier: Rows, later: Rows) {
    forall d ::
      RowSequence(earlier, d) <= RowSequence(later, d) && RowAcknowledged(earlier, d) <= RowAcknowledged(later, d)
  }

  predicate Covers(rows: Rows, v: SnapshotDevice) {
    v.sequence == 0 || RowSequence(rows, v.device) > v.sequence
    || (RowSequence(rows, v.device) == v.sequence && RowHash(rows, v.device) == v.hash)
  }

  /** Seeding never lowers a row, and afterwards every snapshot device is covered without a fork. */
  lemma {:induction false} SeedingRises(rows: Rows, verified: seq<SnapshotDevice>)
    requires SeedAll(rows, verified).Ok?
    ensures RowsRise(rows, SeedAll(rows, verified).value)
    ensures forall d :: RowAcknowledged(SeedAll(rows, verified).value, d) == RowAcknowledged(rows, d)
    ensures forall v :: v in verified ==> Covers(SeedAll(rows, verified).value, v)
  {
    if verified != [] {
      var n := |verified| - 1;
      SeedingRises(rows, verified[..n]);
      var mid, after := SeedAll(rows, verified[..n]).value, SeedAll(rows, verified).value;
      SeedOneRises(mid, verified[n]);
      forall v | v in verified ensures Covers(after, v) {
        if v in verified[..n] { CoverStays(mid, verified[n], v); } else { assert v == verified[n]; }
      }
    }
  }

  lemma SeedOneRises(rows: Rows, v: SnapshotDevice)
    requires SeedOne(rows, v).Ok?
    ensures RowsRise(rows, SeedOne(rows, v).value) && Covers(SeedOne(rows, v).value, v)
    ensures forall d :: RowAcknowledged(SeedOne(rows, v).value, d) == RowAcknowledged(rows, d)
  {}

  lemma CoverStays(rows: Rows, v: SnapshotDevice, covered: SnapshotDevice)
    requires SeedOne(rows, v).Ok? && Covers(rows, covered)
    ensures Covers(SeedOne(rows, v).value, covered)
  {}

  // ---- What staging checks ----

  predicate StagedFrom(page: seq<Pulled>, id: OpaqueId, record: InboxRecord) {
    exists p :: p in page && p.operation.id == id && record == InboxRecord(p.operation, p.cursor, Received)
  }

  /** The new records of a page, and nothing else, join the inbox. */
  lemma {:induction false} StagingOnlyAdds(d: Device, page: seq<Pulled>, id: OpaqueId)
    requires StageAll(d, page).Ok?
    ensures
      var after := StageAll(d, page).value;
      && after == d.(inbox := after.inbox)
      && (id in d.inbox ==> id in after.inbox && after.inbox[id] == d.inbox[id])
      && (id in after.inbox && id !in d.inbox ==> StagedFrom(page, id, after.inbox[id]))
  {
    if page != [] {
      var n := |page| - 1;
      StagingOnlyAdds(d, page[..n], id);
      assert page[n] in page && forall p :: p in page[..n] ==> p in page;
    }
  }

  /** A staged record, wherever it came from, is still there with the same operation and cursor. */
  ghost predicate StagedAt(inbox: Inbox, device: OpaqueId, sequence: nat, hash: Digest, below: nat) {
    exists id :: id in inbox && HasIdentity(inbox[id], device, sequence)
      && OperationDigest(inbox[id].operation) == hash && inbox[id].cursor < below
  }

  ghost predicate PredecessorInInbox(d: Device, op: Operation)
    requires op.sequence > 1
  {
    exists id :: id in d.inbox && HasIdentity(d.inbox[id], op.device, op.sequence - 1)
                 && op.previousHash == Some(OperationDigest(d.inbox[id].operation))
  }

  predicate PredecessorOnFrontier(d: Device, op: Operation)
    requires op.sequence > 1
  {
    RowSequence(d.rows, op.device) == op.sequence - 1 && op.previousHash == RowHash(d.rows, op.device)
  }

  /**
   * A newly staged operation carries the hash of its device's previous operation, and each
   * causal reference is the applied frontier or sits at a strictly smaller cursor.
   */
  lemma StagedIsChained(d: Device, p: Pulled)
    requires StageOne(d, p).Ok? && p.operation.id !in d.inbox
    requires p.operation.sequence > 1 ==> p.operation.previousHash.Some?
    ensures p.operation.sequence > 1 ==> PredecessorInInbox(d, p.operation) || PredecessorOnFrontier(d, p.operation)
    ensures forall c :: c in p.operation.frontier ==>
      OnFrontier(d, c) || StagedAt(d.inbox, c.device, c.sequence, c.hash, p.cursor)
  {
    var op := p.operation;
    forall c | c in op.frontier ensures OnFrontier(d, c) || StagedAt(d.inbox, c.device, c.sequence, c.hash, p.cursor) {
      assert Provable(d, c, p.cursor);
    }
  }

  // ---- Runs of a device ----

  datatype SyncEvent =
    | Page(page: seq<Pulled>, nextCursor: nat)
    | PrepareLocal
    | AcceptedLocal(operation: Operation, cursor: nat)
    | ApplyGroup(group: seq<Operation>)
    | AcknowledgeCursor
    | Seed(verified: seq<SnapshotDevice>)

  /** An error leaves the state as it was. */
  ghost function Step(s: SyncState, e: SyncEvent, device: OpaqueId, rank: Collation, valid: FinanceRules): SyncState {
    match e
    case Page(page, nextCursor) =>
      (match StagePage(s, page, nextCursor) case Err(_) => s case Ok(next) => next)
    case PrepareLocal =>
      (match PrepareNextGroup(SenderState(s.device.states, s.device.rows, s.outbox), device, rank)
       case Err(_) => s
       case Ok(p) =>
         s.(device := s.device.(states := p.after.states, rows := p.after.rows), outbox := p.after.outbox))
    case AcceptedLocal(op, cursor) =>
      if !Uploadable(s.outbox, op.id) then s
      else s.(device := AcceptLocal(s.device, op, cursor), outbox := WithoutRecord(s.outbox, op.id))
    case ApplyGroup(group) =>
      (match ApplyRemoteGroup(s.device, group, valid)
       case Err(_) => s
       case Ok(done) => s.(device := done.device))
    case AcknowledgeCursor => Acknowledge(s, device)
    case Seed(verified) =>
      (match SeedAll(s.device.rows, verified)
       case Err(_) => s
       case Ok(rows) => s.(device := s.device.(rows := rows)))
  }

  ghost function RunSync(s: SyncState, events: seq<SyncEvent>, device: OpaqueId, rank: Collation,
                         valid: FinanceRules): SyncState
  {
    if events == [] then s
    else Step(RunSync(s, events[..|events| - 1], device, rank, valid), events[|events| - 1], device, rank, valid)
  }

  /** Pages hold cursors after the last pull, up to the next one. */
  ghost predicate PageFits(s: SyncState, e: SyncEvent) {
    e.Page? ==> forall p :: p in e.page ==> s.lastServerCursor < p.cursor <= e.nextCursor
  }

  ghost predicate PagesFit(s: SyncState, events: seq<SyncEvent>, device: OpaqueId, rank: Collation, valid: FinanceRules)
  {
    events == []
    || (PagesFit(s, events[..|events| - 1], device, rank, valid)
        && PageFits(RunSync(s, events[..|events| - 1], device, rank, valid), events[|events| - 1]))
  }

  /** Nothing that still waits lies at or below the stored acknowledgement. */
  ghost predicate AckSafe(s: SyncState, device: OpaqueId) {
    && RowAcknowledged(s.device.rows, device) <= s.lastServerCursor
    && forall id :: id in s.device.inbox && s.device.inbox[id].status == Received ==>
         RowAcknowledged(s.device.rows, device) < s.device.inbox[id].cursor <= s.lastServerCursor
  }

  lemma PageKeepsAckSafe(s: SyncState, page: seq<Pulled>, nextCursor: nat, device: OpaqueId)
    requires AckSafe(s, device) && PageFits(s, Page(page, nextCursor)) && StagePage(s, page, nextCursor).Ok?
    ensures AckSafe(StagePage(s, page, nextCursor).value, device)
  {
    var next := StagePage(s, page, nextCursor).value;
    StagingOnlyAdds(s.device, page, 0);
    forall id | id in next.device.inbox && next.device.inbox[id].status == Received
      ensures RowAcknowledged(next.device.rows, device) < next.device.inbox[id].cursor <= next.lastServerCursor
    {
      StagingOnlyAdds(s.device, page, id);
    }
  }

  /** The acknowledged cursor stays below everything received and within the last pull. */
  lemma AckCursorIsSafe(s: SyncState, device: OpaqueId)
    requires AckSafe(s, device)
    ensures AckCursor(s) <= s.lastServerCursor
    ensures forall id :: id in s.device.inbox && s.device.inbox[id].status == Received ==>
      AckCursor(s) < s.device.inbox[id].cursor
  {
    var received := ReceivedCursors(s.device.inbox);
    if received != {} {
      var least := Least(received);
      var id :| id in s.device.inbox && s.device.inbox[id].status == Received && s.device.inbox[id].cursor == least;
      assert AckCursor(s) < least || AckCursor(s) == 0;
    }
    forall id | id in s.device.inbox && s.device.inbox[id].status == Received
      ensures AckCursor(s) < s.device.inbox[id].cursor
    {
      assert s.device.inbox[id].cursor in received;
    }
  }

  lemma GroupKeepsAckSafe(d: Device, group: seq<Operation>, valid: FinanceRules, device: OpaqueId, id: OpaqueId)
    requires ApplyRemoteGroup(d, group, valid).Ok?
    ensures
      var after := ApplyRemoteGroup(d, group, valid).value.device;
      && RowAcknowledged(after.rows, device) == RowAcknowledged(d.rows, device)
      && RowSequence(after.rows, device) >= RowSequence(d.rows, device)
      && (id in after.inbox <==> id in d.inbox)
      && (id in d.inbox ==> after.inbox[id].cursor == d.inbox[id].cursor)
      && (id in d.inbox && after.inbox[id].status == Received ==> d.inbox[id].status == Received)
  {
    var ops := SortOperations(group);
    var scan := ProposeAll(d, ops);
    if AllAccepted(scan.proposals) {
      var applied := d.(tables := ApplyValues(d.tables, ops), states := d.states + scan.working,
                        conflicts := MarkAllResolved(d.conflicts, scan.proposals));
      AdvanceMovesFrontier(applied, ops, Applied, device);
      AdvanceKeepsOthers(applied, ops, Applied, id);
    } else {
      var filed := d.(conflicts := FileConflicts(d.conflicts, scan.proposals));
      AdvanceMovesFrontier(filed, ops, Conflicted, device);
      AdvanceKeepsOthers(filed, ops, Conflicted, id);
    }
  }

  lemma {:induction false} PrepareAllRises(p: Progress, group: OutboxRows, device: OpaqueId, rank: Collation)
    requires PrepareAll(p, group, device, rank).Ok?
    ensures
      var rows := PrepareAll(p, group, device, rank).value.progress.rows;
      RowsRise(p.rows, rows) && forall d :: RowAcknowledged(rows, d) == RowAcknowledged(p.rows, d)
    decreases |group|
  {
    if group != [] { PrepareAllRises(p, group[..|group| - 1], device, rank); }
  }

  lemma PrepareRises(s: SenderState, device: OpaqueId, rank: Collation)
    requires PrepareNextGroup(s, device, rank).Ok?
    ensures
      var rows := PrepareNextGroup(s, device, rank).value.after.rows;
      RowsRise(s.rows, rows) && forall d :: RowAcknowledged(rows, d) == RowAcknowledged(s.rows, d)
  {
    forall group | PrepareAll(Progress(s.states, s.rows, MaximumLamport(s.states)), group, device, rank).Ok?
      ensures
        var all := PrepareAll(Progress(s.states, s.rows, MaximumLamport(s.states)), group, device, rank);
        var rows := all.value.progress.rows;
        RowsRise(s.rows, rows) && forall d :: RowAcknowledged(rows, d) == RowAcknowledged(s.rows, d)
    {
      PrepareAllRises(Progress(s.states, s.rows, MaximumLamport(s.states)), group, device, rank);
    }
  }

  lemma StepKeepsAckSafe(s: SyncState, e: SyncEvent, device: OpaqueId, rank: Collation, valid: FinanceRules)
    requires AckSafe(s, device) && PageFits(s, e)
    ensures AckSafe(Step(s, e, device, rank, valid), device)
  {
    match e {
      case Page(page, nextCursor) =>
        if StagePage(s, page, nextCursor).Ok? { PageKeepsAckSafe(s, page, nextCursor, device); }
      case PrepareLocal =>
        if PrepareNextGroup(SenderState(s.device.states, s.device.rows, s.outbox), device, rank).Ok? {
          PrepareRises(SenderState(s.device.states, s.device.rows, s.outbox), device, rank);
        }
      case AcceptedLocal(op, cursor) =>
      case ApplyGroup(group) =>
        if ApplyRemoteGroup(s.device, group, valid).Ok? {
          var after := Step(s, e, device, rank, valid);
          GroupKeepsAckSafe(s.device, group, valid, device, 0);
          forall id | id in after.device.inbox && after.device.inbox[id].status == Received
            ensures RowAcknowledged(after.device.rows, device) < after.device.inbox[id].cursor <= after.lastServerCursor
          {
            GroupKeepsAckSafe(s.device, group, valid, device, id);
          }
        }
      case AcknowledgeCursor => AckCursorIsSafe(s, device);
      case Seed(verified) =>
        if SeedAll(s.device.rows, verified).Ok? { SeedingRises(s.device.rows, verified); }
    }
  }

  /** Over every run: no waiting operation is ever acknowledged. */
  lemma {:induction false} WaitingIsNeverAcknowledged(
    s: SyncState, events: seq<SyncEvent>, device: OpaqueId, rank: Collation, valid: FinanceRules)
    requires AckSafe(s, device) && PagesFit(s, events, device, rank, valid)
    ensures AckSafe(RunSync(s, events, device, rank, valid), device)
    decreases |events|
  {
    if events != [] {
      var n := |events| - 1;
      WaitingIsNeverAcknowledged(s, events[..n], device, rank, valid);
      StepKeepsAckSafe(RunSync(s, events[..n], device, rank, valid), events[n], device, rank, valid);
    }
  }

  lemma StepRises(s: SyncState, e: SyncEvent, device: OpaqueId, rank: Collation, valid: FinanceRules)
    ensures
      var next := Step(s, e, device, rank, valid);
      s.lastServerCursor <= next.lastServerCursor && RowsRise(s.device.rows, next.device.rows)
  {
    match e {
      case Page(page, _) => if StageAll(s.device, page).Ok? { StagingOnlyAdds(s.device, page, 0); }
      case PrepareLocal =>
        if PrepareNextGroup(SenderState(s.device.states, s.device.rows, s.outbox), device, rank).Ok? {
          PrepareRises(SenderState(s.device.states, s.device.rows, s.outbox), device, rank);
        }
      case AcceptedLocal(op, cursor) =>
      case ApplyGroup(group) =>
        if ApplyRemoteGroup(s.device, group, valid).Ok? {
          forall d
            ensures
              var after := ApplyRemoteGroup(s.device, group, valid).value.device;
              RowSequence(s.device.rows, d) <= RowSequence(after.rows, d)
              && RowAcknowledged(s.device.rows, d) <= RowAcknowledged(after.rows, d)
          {
            GroupKeepsAckSafe(s.device, group, valid, d, 0);
          }
        }
      case AcknowledgeCursor =>
      case Seed(verified) =>
        if SeedAll(s.device.rows, verified).Ok? { SeedingRises(s.device.rows, verified); }
    }
  }

  /** Over every run: pull cursor, frontier sequences and acknowledgements never move back. */
  lemma {:induction false} CursorsNeverMoveBack(
    s: SyncState, events: seq<SyncEvent>, n: nat, device: OpaqueId, rank: Collation, valid: FinanceRules)
    requires n <= |events|
    ensures
      var earlier, later := RunSync(s, events[..n], device, rank, valid), RunSync(s, events, device, rank, valid);
      earlier.lastServerCursor <= later.lastServerCursor && RowsRise(earlier.device.rows, later.device.rows)
    decreases |events|
  {
    if n == |events| {
      assert events[..n] == events;
    } else {
      var shorter := events[..|events| - 1];
      assert shorter[..n] == events[..n];
      CursorsNeverMoveBack(s, shorter, n, device, rank, valid);
      StepRises(RunSync(s, shorter, device, rank, valid), events[|events| - 1], device, rank, valid);
    }
  }

  // ---- The returned cursor ----

  predicate IsWaiting(inbox: Inbox, id: OpaqueId) { id in inbox && inbox[id].status == Received }

  /** A record at or after the stored acknowledgement, before everything that still waits. */
  ghost predicate HandledSince(inbox: Inbox, acknowledged: nat) {
    exists id :: id in inbox && acknowledged <= inbox[id].cursor
      && forall w :: IsWaiting(inbox, w) ==> inbox[id].cursor < inbox[w].cursor
  }

  lemma NothingWaits(inbox: Inbox)
    ensures ReceivedCursors(inbox) == {} <==> forall id :: !IsWaiting(inbox, id)
  {
    forall id | IsWaiting(inbox, id) ensures inbox[id].cursor in ReceivedCursors(inbox) {}
    if ReceivedCursors(inbox) != {} {
      var c :| c in ReceivedCursors(inbox);
      var id :| id in inbox && inbox[id].status == Received && inbox[id].cursor == c;
      assert IsWaiting(inbox, id);
    }
  }

  /** `bound` is the cursor of the first record that waits. */
  predicate FirstWaits(inbox: Inbox, bound: nat) {
    bound in ReceivedCursors(inbox) && forall c :: c in ReceivedCursors(inbox) ==> bound <= c
  }

  lemma FirstIsAWaiter(inbox: Inbox, bound: nat) returns (first: OpaqueId)
    requires FirstWaits(inbox, bound)
    ensures IsWaiting(inbox, first) && inbox[first].cursor == bound
    ensures forall w :: IsWaiting(inbox, w) ==> bound <= inbox[w].cursor
  {
    first :| first in inbox && inbox[first].status == Received && inbox[first].cursor == bound;
    forall w | IsWaiting(inbox, w)
      ensures bound <= inbox[w].cursor
    {
      assert inbox[w].cursor in ReceivedCursors(inbox);
    }
  }

  lemma HandledIsBelow(inbox: Inbox, bound: nat, acknowledged: nat)
    requires FirstWaits(inbox, bound) && HandledSince(inbox, acknowledged)
    ensures exists c :: c in CursorsBelow(inbox, bound) && acknowledged <= c
  {
    var first := FirstIsAWaiter(inbox, bound);
    var id :| id in inbox && acknowledged <= inbox[id].cursor
      && forall w :: IsWaiting(inbox, w) ==> inbox[id].cursor < inbox[w].cursor;
    assert inbox[id].cursor in CursorsBelow(inbox, bound);
  }

  lemma BelowIsHandled(inbox: Inbox, bound: nat, acknowledged: nat, c: nat)
    requires FirstWaits(inbox, bound) && c in CursorsBelow(inbox, bound) && acknowledged <= c
    ensures HandledSince(inbox, acknowledged)
  {
    var first := FirstIsAWaiter(inbox, bound);
    var id :| id in inbox && inbox[id].cursor < bound && inbox[id].cursor == c;
    assert forall w :: IsWaiting(inbox, w) ==> inbox[id].cursor < inbox[w].cursor;
  }

  lemma GreatestKeepsUpIff(inbox: Inbox, bound: nat, acknowledged: nat)
    requires FirstWaits(inbox, bound)
    ensures Greatest(CursorsBelow(inbox, bound)) >= acknowledged <==>
      acknowledged == 0 || HandledSince(inbox, acknowledged)
  {
    var greatest := Greatest(CursorsBelow(inbox, bound));
    if HandledSince(inbox, acknowledged) { HandledIsBelow(inbox, bound, acknowledged); }
    if 0 < acknowledged <= greatest { BelowIsHandled(inbox, bound, acknowledged, greatest); }
  }

  /**
   * The caller is given the computed cursor, not the stored one. It is at least what is stored
   * exactly when nothing waits, nothing was acknowledged yet, or a record between the two is left.
   */
  lemma ReturnedCursorKeepsUpIff(s: SyncState, device: OpaqueId)
    requires AckSafe(s, device)
    ensures
      var acknowledged := RowAcknowledged(s.device.rows, device);
      AckCursor(s) >= acknowledged <==>
        (forall id :: !IsWaiting(s.device.inbox, id)) || acknowledged == 0 || HandledSince(s.device.inbox, acknowledged)
  {
    var received := ReceivedCursors(s.device.inbox);
    NothingWaits(s.device.inbox);
    if received != {} {
      var bound := Least(received);
      assert FirstWaits(s.device.inbox, bound);
      GreatestKeepsUpIff(s.device.inbox, bound, RowAcknowledged(s.device.rows, device));
      assert AckCursor(s) == Greatest(CursorsBelow(s.device.inbox, bound));
    }
  }

  const FreshDevice := SyncState(Device(map[], map[], [], map[], map[]), [], 0)

  lemma RunOneMore(events: seq<SyncEvent>, e: SyncEvent, s: SyncState, device: OpaqueId, rank: Collation,
                   valid: FinanceRules)
    requires RunSync(FreshDevice, events, device, rank, valid) == s
    ensures RunSync(FreshDevice, events + [e], device, rank, valid) == Step(s, e, device, rank, valid)
  {
    assert (events + [e])[..|events|] == events;
  }

  lemma EmptyPage(s: SyncState, device: OpaqueId, rank: Collation, valid: FinanceRules)
    requires s == FreshDevice
    ensures Step(s, Page([], 10), device, rank, valid) == s.(lastServerCursor := 10)
  {}

  lemma FirstArrives(s: SyncState, op: Operation, device: OpaqueId, rank: Collation, valid: FinanceRules)
    requires s.device.inbox == map[] && s.lastServerCursor == 10 && op.sequence == 1 && op.frontier == []
    ensures
      var next := Step(s, Page([Pulled(op, 12)], 12), device, rank, valid);
      && next.device.rows == s.device.rows && next.device.inbox == map[op.id := InboxRecord(op, 12, Received)]
  {
    assert [Pulled(op, 12)][..0] == [];
    assert StageOne(s.device, Pulled(op, 12)) == Ok(s.device.(inbox := map[][op.id := InboxRecord(op, 12, Received)]));
    assert StageAll(s.device, [Pulled(op, 12)]) == StageOne(s.device, Pulled(op, 12));
  }

  lemma OnlyWaitingReturnsZero(s: SyncState, op: Operation)
    requires s.device.inbox == map[op.id := InboxRecord(op, 12, Received)]
    ensures AckCursor(s) == 0
  {
    assert s.device.inbox[op.id].cursor in ReceivedCursors(s.device.inbox);
    assert ReceivedCursors(s.device.inbox) == {12};
    assert CursorsBelow(s.device.inbox, 12) == {};
  }

  /** A pull without operations acknowledged at 10, then one operation waiting at 12: the cursor returned is 0. */
  lemma ReturnedCursorCanFallBack(op: Operation, device: OpaqueId, rank: Collation, valid: FinanceRules)
    requires op.sequence == 1 && op.frontier == []
    ensures
      var s := RunSync(FreshDevice, [Page([], 10), AcknowledgeCursor, Page([Pulled(op, 12)], 12)], device, rank, valid);
      RowAcknowledged(s.device.rows, device) == 10 && AckCursor(s) == 0
  {
    var pulled := FreshDevice.(lastServerCursor := 10);
    EmptyPage(FreshDevice, device, rank, valid);
    RunOneMore([], Page([], 10), FreshDevice, device, rank, valid);
    RunOneMore([Page([], 10)], AcknowledgeCursor, pulled, device, rank, valid);
    var acked := Acknowledge(pulled, device);
    assert [] + [Page([], 10)] == [Page([], 10)];
    assert [Page([], 10)] + [AcknowledgeCursor] == [Page([], 10), AcknowledgeCursor];
    RunOneMore([Page([], 10), AcknowledgeCursor], Page([Pulled(op, 12)], 12), acked, device, rank, valid);
    FirstArrives(acked, op, device, rank, valid);
    OnlyWaitingReturnsZero(Step(acked, Page([Pulled(op, 12)], 12), device, rank, valid), op);
    assert [Page([], 10), AcknowledgeCursor] + [Page([Pulled(op, 12)], 12)] ==
      [Page([], 10), AcknowledgeCursor, Page([Pulled(op, 12)], 12)];
  }
}
