/**
 * Preparing the next outbox group (src/db/sync/operation-repository.ts, 132-476): the
 * audited intents of one transaction become signed operations that chain to the
 * device's previous one.
 */
module Outbox {
  import opened Wrappers
  import opened SyncOperation
  import opened Causal
  import opened MutationAudit
  import opened Replica

  datatype PrepareError =
    | InconsistentRemainder | IncompleteGroup | PartiallyPrepared
    | NoPreviousValue | ChangedOutsideOutbox | InvalidOperation

  type OutboxRows = seq<OutboxRecord>

  // ---- Choosing the group ----

  /** `compareOutbox(a, b) <= 0` */
  predicate NotAfter(a: OutboxRecord, b: OutboxRecord, rank: Collation) {
    a.createdAt < b.createdAt
    || (a.createdAt == b.createdAt
        && (rank(a.groupId) < rank(b.groupId)
            || (rank(a.groupId) == rank(b.groupId) && a.groupIndex <= b.groupIndex)))
  }

  function InsertRecord(sorted: OutboxRows, r: OutboxRecord, rank: Collation): OutboxRows {
    if sorted == [] then [r]
    else if NotAfter(r, sorted[0], rank) then [r] + sorted
    else [sorted[0]] + InsertRecord(sorted[1..], r, rank)
  }

  function SortOutbox(rows: OutboxRows, rank: Collation): OutboxRows {
    if rows == [] then [] else InsertRecord(SortOutbox(rows[1..], rank), rows[0], rank)
  }

  function InsertByIndex(sorted: OutboxRows, r: OutboxRecord): OutboxRows {
    if sorted == [] then [r]
    else if r.groupIndex <= sorted[0].groupIndex then [r] + sorted
    else [sorted[0]] + InsertByIndex(sorted[1..], r)
  }

  function SortByIndex(rows: OutboxRows): OutboxRows {
    if rows == [] then [] else InsertByIndex(SortByIndex(rows[1..]), rows[0])
  }

  function OfGroup(rows: OutboxRows, groupId: OpaqueId): OutboxRows {
    if rows == [] then []
    else if rows[0].groupId == groupId then [rows[0]] + OfGroup(rows[1..], groupId)
    else OfGroup(rows[1..], groupId)
  }

  function NotUploading(rows: OutboxRows): OutboxRows {
    if rows == [] then []
    else if rows[0].state != Uploading then [rows[0]] + NotUploading(rows[1..])
    else NotUploading(rows[1..])
  }

  /** `assertConsistentGroupRemainder`: what is left of a group once some of it was accepted. */
  predicate ConsistentRemainder(group: OutboxRows) {
    group != []
    && (forall i, j :: 0 <= i < j < |group| ==> group[i].groupIndex != group[j].groupIndex)
    && forall i :: 0 <= i < |group| ==>
         group[i].groupId == group[0].groupId && group[i].groupSize == group[0].groupSize
         && group[i].groupIndex < group[0].groupSize
  }

  predicate AllPrepared(group: OutboxRows) {
    forall r :: r in group ==> r.envelope.Some?
  }

  predicate NonePrepared(group: OutboxRows) {
    forall r :: r in group ==> r.envelope.None?
  }

  // ---- Preparing one record ----

  /** The tables the preparation loop updates as it goes. */
  datatype Progress = Progress(states: States, rows: Rows, lamport: nat)

  function TombstoneFor(p: Progress, r: OutboxRecord, device: OpaqueId, previous: Digest, rank: Collation): Tombstone {
    Tombstone(r.intent.key, PreconditionOf(StateOf(p.states, r.intent.key, r.intent.previous)).version + 1, previous,
      r.operationId, device, RowSequence(p.rows, device) + 1, p.lamport + 1, CausalFrontier(p.rows, rank), r.createdAt)
  }

  function OperationWith(p: Progress, r: OutboxRecord, device: OpaqueId, tombstone: Option<Tombstone>, rank: Collation)
    : Operation
  {
    var before := PreconditionOf(StateOf(p.states, r.intent.key, r.intent.previous));
    var after := CommandResult(before.version + 1,
      StateDigest(r.intent.key, before.version + 1, r.intent.value, tombstone), tombstone.Some?);
    Operation(r.operationId, r.groupId, r.groupIndex, r.groupSize, device, RowSequence(p.rows, device) + 1,
      p.lamport + 1, CausalFrontier(p.rows, rank), r.intent.resolves,
      Command(r.intent.action, r.intent.key, before, after, r.intent.value, tombstone),
      RowHash(p.rows, device), r.createdAt)
  }

  /** The operation of a record; a deletion of an unknown entity has no hash to bury. */
  function OperationFor(p: Progress, r: OutboxRecord, device: OpaqueId, rank: Collation): Option<Operation> {
    if r.intent.action == Upsert then Some(OperationWith(p, r, device, None, rank))
    else
      match PreconditionOf(StateOf(p.states, r.intent.key, r.intent.previous)).hash
      case None => None
      case Some(previous) =>
        Some(OperationWith(p, r, device, Some(TombstoneFor(p, r, device, previous, rank)), rank))
  }

  /** A live entity must still be what the intent replaced. */
  function PreviousError(state: Option<EntityState>, i: Intent): Option<PrepareError> {
    if state.None? || state.value.tombstone then None
    else if i.previous.None? then Some(NoPreviousValue)
    else if StateDigest(i.key, state.value.version, i.previous, None) != state.value.hash
      then Some(ChangedOutsideOutbox)
    else None
  }

  function Advanced(p: Progress, op: Operation): Progress {
    Progress(p.states[op.command.key := StateAfter(op)],
      PutRow(p.rows, FrontierRow(op.device, op.sequence, Some(OperationDigest(op)),
        RowAcknowledged(p.rows, op.device))),
      op.lamport)
  }

  function PrepareOne(p: Progress, r: OutboxRecord, device: OpaqueId, rank: Collation): Result<Operation, PrepareError>
  {
    match PreviousError(StateOf(p.states, r.intent.key, r.intent.previous), r.intent)
    case Some(e) => Err(e)
    case None =>
      match OperationFor(p, r, device, rank)
      case None => Err(InvalidOperation)
      case Some(op) => if ValidOperation(op) then Ok(op) else Err(InvalidOperation)
  }

  function Sealed(r: OutboxRecord, op: Operation): OutboxRecord {
    r.(sequence := op.sequence, state := Encrypted, envelope := Some(op))
  }

  datatype Batch = Batch(progress: Progress, prepared: OutboxRows)

  function PrepareAll(p: Progress, group: OutboxRows, device: OpaqueId, rank: Collation)
    : (r: Result<Batch, PrepareError>)
    ensures r.Ok? ==> AllPrepared(r.value.prepared)
  {
    if group == [] then Ok(Batch(p, []))
    else
      match PrepareAll(p, group[..|group| - 1], device, rank)
      case Err(e) => Err(e)
      case Ok(batch) =>
        var r := group[|group| - 1];
        match PrepareOne(batch.progress, r, device, rank)
        case Err(e) => Err(e)
        case Ok(op) => Ok(Batch(Advanced(batch.progress, op), batch.prepared + [Sealed(r, op)]))
  }

  /** `put`s of records already in the outbox, found by operation id. */
  function PutRecord(rows: OutboxRows, r: OutboxRecord): (updated: OutboxRows)
    ensures |updated| == |rows|
    ensures forall i :: 0 <= i < |rows| ==>
      updated[i] == if rows[i].operationId == r.operationId then r else rows[i]
  {
    if rows == [] then []
    else [if rows[0].operationId == r.operationId then r else rows[0]] + PutRecord(rows[1..], r)
  }

  function PutRecords(rows: OutboxRows, records: OutboxRows): (updated: OutboxRows)
    ensures |updated| == |rows|
  {
    if records == [] then rows
    else PutRecord(PutRecords(rows, records[..|records| - 1]), records[|records| - 1])
  }

  // ---- Preparing the next group ----

  datatype SenderState = SenderState(states: States, rows: Rows, outbox: OutboxRows)

  datatype Prepared = Prepared(after: SenderState, group: OutboxRows)

  ghost function PrepareNextGroup(s: SenderState, device: OpaqueId, rank: Collation)
    : (r: Result<Prepared, PrepareError>)
    ensures r.Ok? ==> AllPrepared(r.value.group)
  {
    var pending := SortOutbox(NotUploading(s.outbox), rank);
    if pending == [] then Ok(Prepared(s, []))
    else
      var group := SortByIndex(OfGroup(pending, pending[0].groupId));
      if !ConsistentRemainder(group) then Err(InconsistentRemainder)
      else if AllPrepared(group) then Ok(Prepared(s, group))
      else if !CompleteGroup(group) then Err(IncompleteGroup)
      else if !NonePrepared(group) then Err(PartiallyPrepared)
      else
        var current := SortByIndex(OfGroup(s.outbox, pending[0].groupId));
        if !CompleteGroup(current) then Err(IncompleteGroup)
        else
          match PrepareAll(Progress(s.states, s.rows, MaximumLamport(s.states)), current, device, rank)
          case Err(e) => Err(e)
          case Ok(batch) =>
            Ok(Prepared(
              SenderState(batch.progress.states, batch.progress.rows, PutRecords(s.outbox, batch.prepared)),
              batch.prepared))
  }

  // ---- Upload results ----

  /** `recordAcceptedLocal`: the record leaves the outbox, if it is still there and prepared. */
  function WithoutRecord(rows: OutboxRows, id: OpaqueId): OutboxRows {
    if rows == [] then []
    else if rows[0].operationId == id then WithoutRecord(rows[1..], id)
    else [rows[0]] + WithoutRecord(rows[1..], id)
  }

  predicate Uploadable(rows: OutboxRows, id: OpaqueId) {
    exists r :: r in rows && r.operationId == id && r.envelope.Some?
  }

  function AcceptedLocal(rows: OutboxRows, id: OpaqueId): OutboxRows {
    if Uploadable(rows, id) then WithoutRecord(rows, id) else rows
  }

  function FailedIf(r: OutboxRecord, id: OpaqueId): OutboxRecord {
    if r.operationId == id then r.(state := Failed, attempts := r.attempts + 1) else r
  }

  /** `markUploadFailed` */
  function UploadFailed(rows: OutboxRows, id: OpaqueId): OutboxRows {
    if rows == [] then [] else [FailedIf(rows[0], id)] + UploadFailed(rows[1..], id)
  }

  // ---- Sorting what is already in order changes nothing ----

  ghost predicate InOrder(rows: OutboxRows, rank: Collation) {
    forall i, j :: 0 <= i < j < |rows| ==> NotAfter(rows[i], rows[j], rank)
  }

  ghost predicate IndexesAscend(rows: OutboxRows) {
    forall i, j :: 0 <= i < j < |rows| ==> rows[i].groupIndex < rows[j].groupIndex
  }

  lemma {:induction false} SortOfOrdered(rows: OutboxRows, rank: Collation)
    requires InOrder(rows, rank)
    ensures SortOutbox(rows, rank) == rows
  {
    if rows != [] {
      var rest := rows[1..];
      forall i, j | 0 <= i < j < |rest| ensures NotAfter(rest[i], rest[j], rank) {
        assert rest[i] == rows[i + 1] && rest[j] == rows[j + 1];
      }
      SortOfOrdered(rest, rank);
      assert rows == [rows[0]] + rows[1..];
    }
  }

  lemma {:induction false} SortOfAscending(rows: OutboxRows)
    requires IndexesAscend(rows)
    ensures SortByIndex(rows) == rows
  {
    if rows != [] {
      var rest := rows[1..];
      forall i, j | 0 <= i < j < |rest| ensures rest[i].groupIndex < rest[j].groupIndex {
        assert rest[i] == rows[i + 1] && rest[j] == rows[j + 1];
      }
      SortOfAscending(rest);
      assert rows == [rows[0]] + rows[1..];
    }
  }

  lemma {:induction false} NothingUploading(rows: OutboxRows)
    requires forall r :: r in rows ==> r.state != Uploading
    ensures NotUploading(rows) == rows
  {
    if rows != [] {
      NothingUploading(rows[1..]);
      assert rows == [rows[0]] + rows[1..];
    }
  }

  lemma {:induction false} OfGroupFirst(group: OutboxRows, rest: OutboxRows, groupId: OpaqueId)
    requires forall r :: r in group ==> r.groupId == groupId
    requires forall r :: r in rest ==> r.groupId != groupId
    ensures OfGroup(group + rest, groupId) == group
  {
    if group != [] {
      assert (group + rest)[1..] == group[1..] + rest;
      OfGroupFirst(group[1..], rest, groupId);
      assert group == [group[0]] + group[1..];
    } else if rest != [] {
      assert group + rest == rest;
      assert [] + rest[1..] == rest[1..];
      OfGroupFirst([], rest[1..], groupId);
    }
  }

  /** With the oldest group in front, exactly that group is chosen. */
  lemma ChoosesFirstGroup(group: OutboxRows, rest: OutboxRows, rank: Collation)
    requires group != [] && IndexesAscend(group) && InOrder(group + rest, rank)
    requires forall r :: r in group ==> r.groupId == group[0].groupId
    requires forall r :: r in rest ==> r.groupId != group[0].groupId
    requires forall r :: r in group + rest ==> r.state != Uploading
    ensures
      var pending := SortOutbox(NotUploading(group + rest), rank);
      && pending == group + rest
      && SortByIndex(OfGroup(pending, pending[0].groupId)) == group
  {
    NothingUploading(group + rest);
    SortOfOrdered(group + rest, rank);
    OfGroupFirst(group, rest, group[0].groupId);
    SortOfAscending(group);
  }
}
