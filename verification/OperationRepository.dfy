/**
 * `SyncOperationRepository` (src/db/sync/operation-repository.ts) and the frontier seeding
 * of `SyncSnapshotRepository`: each method updates its tables row by row and restores them
 * when the transaction throws.
 */
module OperationRepository {
  import opened Wrappers
  import opened Extrema
  import opened SyncOperation
  import opened Causal
  import opened MutationAudit
  import opened Replica
  import opened Outbox
  import opened RemoteApply
  import opened Staging

  lemma MaximumIsUnique(states: States, m: nat)
    requires AtLeast(states, m)
    requires m == 0 || exists k :: k in states && states[k].lastLamport == m
    ensures m == MaximumLamport(states)
  {}

  lemma {:induction false} PrepareErrorStays(p: Progress, group: OutboxRows, n: nat, device: OpaqueId, rank: Collation,
                                             e: PrepareError)
    requires n <= |group| && PrepareAll(p, group[..n], device, rank) == Err(e)
    ensures PrepareAll(p, group, device, rank) == Err(e)
    decreases |group|
  {
    if n == |group| {
      assert group[..n] == group;
    } else {
      assert group[..|group| - 1][..n] == group[..n];
      PrepareErrorStays(p, group[..|group| - 1], n, device, rank, e);
    }
  }

  lemma {:induction false} AdvanceErrorStays(d: Device, ops: seq<Operation>, n: nat, status: InboxStatus, e: ApplyError)
    requires n <= |ops| && AdvanceAll(d, ops[..n], status) == Err(e)
    ensures AdvanceAll(d, ops, status) == Err(e)
    decreases |ops|
  {
    if n == |ops| {
      assert ops[..n] == ops;
    } else {
      assert ops[..|ops| - 1][..n] == ops[..n];
      AdvanceErrorStays(d, ops[..|ops| - 1], n, status, e);
    }
  }

  lemma {:induction false} StageErrorStays(d: Device, page: seq<Pulled>, n: nat, e: StageError)
    requires n <= |page| && StageAll(d, page[..n]) == Err(e)
    ensures StageAll(d, page) == Err(e)
    decreases |page|
  {
    if n == |page| {
      assert page[..n] == page;
    } else {
      assert page[..|page| - 1][..n] == page[..n];
      StageErrorStays(d, page[..|page| - 1], n, e);
    }
  }

  lemma {:induction false} SeedErrorStays(rows: Rows, verified: seq<SnapshotDevice>, n: nat, e: StageError)
    requires n <= |verified| && SeedAll(rows, verified[..n]) == Err(e)
    ensures SeedAll(rows, verified) == Err(e)
    decreases |verified|
  {
    if n == |verified| {
      assert verified[..n] == verified;
    } else {
      assert verified[..|verified| - 1][..n] == verified[..n];
      SeedErrorStays(rows, verified[..|verified| - 1], n, e);
    }
  }

  function Closed(c: Conflict, resolver: OpaqueId): Conflict {
    if c.resolution == Pending then c.(resolution := ResolvedCustom(resolver)) else c
  }

  lemma ProposeNext(d: Device, ops: seq<Operation>, i: nat)
    requires i < |ops|
    ensures
      var scan := ProposeAll(d, ops[..i]);
      var p := Propose(d, scan.working, ops[i]);
      ProposeAll(d, ops[..i + 1]) == Scan(WorkingAfter(scan.working, p), scan.proposals + [p])
  {
    assert ops[..i + 1][..i] == ops[..i];
  }

  lemma AdvanceNext(d: Device, ops: seq<Operation>, i: nat, status: InboxStatus)
    requires i < |ops| && AdvanceAll(d, ops[..i], status).Ok?
    ensures AdvanceAll(d, ops[..i + 1], status) == AdvanceOne(AdvanceAll(d, ops[..i], status).value, ops[i], status)
  {
    assert ops[..i + 1][..i] == ops[..i];
  }

  lemma PutRecordsSnoc(rows: OutboxRows, records: OutboxRows, r: OutboxRecord)
    ensures PutRecords(rows, records + [r]) == PutRecord(PutRecords(rows, records), r)
  {
    assert (records + [r])[..|records|] == records;
  }

  lemma {:induction false} FailedRecordByRecord(rows: OutboxRows, marked: OutboxRows, id: OpaqueId)
    requires |marked| == |rows| && forall i :: 0 <= i < |rows| ==> marked[i] == FailedIf(rows[i], id)
    ensures marked == UploadFailed(rows, id)
  {
    if rows != [] {
      FailedRecordByRecord(rows[1..], marked[1..], id);
      assert marked == [marked[0]] + marked[1..];
    }
  }

  class SyncOperationRepository {
    const device: OpaqueId
    const rank: Collation
    const valid: FinanceRules
    var tables: Tables
    var states: States
    var rows: Rows
    var inbox: Inbox
    var conflicts: Conflicts
    var outbox: OutboxRows
    var lastServerCursor: nat

    constructor (device: OpaqueId, rank: Collation, valid: FinanceRules, start: SyncState)
      ensures this.device == device && this.rank == rank && this.valid == valid && View() == start
    {
      this.device, this.rank, this.valid := device, rank, valid;
      tables, states, rows := start.device.tables, start.device.states, start.device.rows;
      inbox, conflicts := start.device.inbox, start.device.conflicts;
      outbox, lastServerCursor := start.outbox, start.lastServerCursor;
    }

    function Here(): Device
      reads this
    {
      Device(tables, states, rows, inbox, conflicts)
    }

    function View(): SyncState
      reads this
    {
      SyncState(Here(), outbox, lastServerCursor)
    }

    method GreatestLamport() returns (greatest: nat)
      ensures greatest == MaximumLamport(states)
    {
      greatest := 0;
      var todo := states.Keys;
      while todo != {}
        invariant todo <= states.Keys
        invariant forall k :: k in states && k !in todo ==> states[k].lastLamport <= greatest
        invariant greatest == 0 || exists k :: k in states && states[k].lastLamport == greatest
        decreases todo
      {
        var k :| k in todo;
        if greatest < states[k].lastLamport { greatest := states[k].lastLamport; }
        todo := todo - {k};
      }
      MaximumIsUnique(states, greatest);
    }

    /** Checks one record against the device's state and seals it, or fails before any write. */
    method PrepareRecord(record: OutboxRecord, lamport: nat) returns (r: Result<OutboxRecord, PrepareError>)
      modifies this`states, this`rows, this`outbox
      ensures
        match PrepareOne(Progress(old(states), old(rows), lamport), record, device, rank)
        case Err(e) => r == Err(e) && states == old(states) && rows == old(rows) && outbox == old(outbox)
        case Ok(op) =>
          && r == Ok(Sealed(record, op)) && outbox == PutRecord(old(outbox), Sealed(record, op))
          && Progress(states, rows, lamport + 1) == Advanced(Progress(old(states), old(rows), lamport), op)
    {
      var state := StateOf(states, record.intent.key, record.intent.previous);
      var error := PreviousError(state, record.intent);
      if error.Some? { return Err(error.value); }
      var operation := OperationFor(Progress(states, rows, lamport), record, device, rank);
      if operation.None? || !ValidOperation(operation.value) { return Err(InvalidOperation); }
      var op := operation.value;
      outbox := PutRecord(outbox, Sealed(record, op));
      states := states[record.intent.key := StateAfter(op)];
      rows := PutRow(rows, FrontierRow(device, op.sequence, Some(OperationDigest(op)), RowAcknowledged(rows, device)));
      r := Ok(Sealed(record, op));
    }

    /** Seals the records one by one; on an error every write of the transaction is undone. */
    method PrepareRecords(group: OutboxRows) returns (r: Result<OutboxRows, PrepareError>)
      modifies this`states, this`rows, this`outbox
      ensures
        match PrepareAll(Progress(old(states), old(rows), MaximumLamport(old(states))), group, device, rank)
        case Err(e) => r == Err(e) && states == old(states) && rows == old(rows) && outbox == old(outbox)
        case Ok(batch) =>
          r == Ok(batch.prepared) && states == batch.progress.states && rows == batch.progress.rows
          && outbox == PutRecords(old(outbox), batch.prepared)
    {
      var before := (states, rows, outbox);
      var lamport := GreatestLamport();
      ghost var start := Progress(states, rows, lamport);
      var prepared: OutboxRows := [];
      for i := 0 to |group|
        invariant PrepareAll(start, group[..i], device, rank) == Ok(Batch(Progress(states, rows, lamport), prepared))
        invariant outbox == PutRecords(old(outbox), prepared)
      {
        assert group[..i + 1][..i] == group[..i];
        var sealedRecord := PrepareRecord(group[i], lamport);
        if sealedRecord.Err? {
          PrepareErrorStays(start, group, i + 1, device, rank, sealedRecord.error);
          states, rows, outbox := before.0, before.1, before.2;
          return Err(sealedRecord.error);
        }
        lamport := lamport + 1;
        PutRecordsSnoc(old(outbox), prepared, sealedRecord.value);
        prepared := prepared + [sealedRecord.value];
      }
      assert group[..|group|] == group;
      r := Ok(prepared);
    }

    method PrepareNextGroup() returns (r: Result<OutboxRows, PrepareError>)
      modifies this`states, this`rows, this`outbox
      ensures
        match Outbox.PrepareNextGroup(old(SenderState(states, rows, outbox)), device, rank)
        case Err(e) => r == Err(e) && states == old(states) && rows == old(rows) && outbox == old(outbox)
        case Ok(p) => r == Ok(p.group) && SenderState(states, rows, outbox) == p.after
    {
      var pending := SortOutbox(NotUploading(outbox), rank);
      if pending == [] { return Ok([]); }
      var first := pending[0];
      var group := SortByIndex(OfGroup(pending, first.groupId));
      if !ConsistentRemainder(group) { return Err(InconsistentRemainder); }
      if AllPrepared(group) { return Ok(group); }
      if !CompleteGroup(group) { return Err(IncompleteGroup); }
      if !NonePrepared(group) { return Err(PartiallyPrepared); }
      var current := SortByIndex(OfGroup(outbox, first.groupId));
      if !CompleteGroup(current) { return Err(IncompleteGroup); }
      r := PrepareRecords(current);
    }

    /** Only the state and the attempts of that record change; nothing moves, appears or disappears. */
    method MarkUploadFailed(id: OpaqueId)
      modifies this`outbox
      ensures |outbox| == |old(outbox)|
      ensures forall i :: 0 <= i < |outbox| && old(outbox[i]).operationId != id ==> outbox[i] == old(outbox[i])
      ensures forall i :: 0 <= i < |outbox| && old(outbox[i]).operationId == id ==>
        && outbox[i].state == Failed && outbox[i].attempts == old(outbox[i]).attempts + 1
        && outbox[i].(state := old(outbox[i]).state, attempts := old(outbox[i]).attempts) == old(outbox[i])
      ensures outbox == UploadFailed(old(outbox), id)
    {
      ghost var before := outbox;
      for i := 0 to |outbox|
        invariant |outbox| == |before|
        invariant outbox[i..] == before[i..]
        invariant forall j :: 0 <= j < i ==> outbox[j] == FailedIf(before[j], id)
      {
        assert outbox[i] == outbox[i..][0] == before[i..][0];
        if outbox[i].operationId == id {
          outbox := outbox[i := outbox[i].(state := Failed, attempts := outbox[i].attempts + 1)];
        }
      }
      FailedRecordByRecord(before, outbox, id);
    }

    method RecordAcceptedLocal(operation: Operation, cursor: nat) returns (recorded: bool)
      modifies this`inbox, this`outbox
      ensures recorded == Uploadable(old(outbox), operation.id)
      ensures View() == Step(old(View()), AcceptedLocal(operation, cursor), device, rank, valid)
    {
      recorded := Uploadable(outbox, operation.id);
      if !recorded { return; }
      inbox := inbox[operation.id := InboxRecord(operation, cursor, Applied)];
      outbox := WithoutRecord(outbox, operation.id);
    }

    // ---- Applying a group ----

    method ScanProposals(ops: seq<Operation>) returns (scan: Scan)
      ensures scan == ProposeAll(Here(), ops)
    {
      var working: States := map[];
      var proposals: seq<Proposal> := [];
      for i := 0 to |ops|
        invariant Scan(working, proposals) == ProposeAll(Here(), ops[..i])
      {
        ProposeNext(Here(), ops, i);
        var op := ops[i];
        var local := Get(tables, op.command.key);
        var current := if op.command.key in working then Some(working[op.command.key])
                       else StateOf(states, op.command.key, local);
        var p := Proposal(op, current, local, ResolvedBy(conflicts, op));
        proposals := proposals + [p];
        if AcceptedProposal(p) {
          var preserves := ResultMatches(current, op) && op.command.result.version <= current.value.version;
          working := working[op.command.key := if preserves then current.value else StateAfter(op)];
        }
      }
      assert ops[..|ops|] == ops;
      scan := Scan(working, proposals);
    }

    method WriteValues(ops: seq<Operation>)
      modifies this`tables
      ensures tables == ApplyValues(old(tables), ops)
    {
      for i := 0 to |ops|
        invariant tables == ApplyValues(old(tables), ops[..i])
      {
        assert ops[..i + 1][..i] == ops[..i];
        var command := ops[i].command;
        if command.value.None? { tables := tables - {command.key}; }
        else { tables := tables[command.key := command.value.value]; }
      }
      assert ops[..|ops|] == ops;
    }

    method ResolveConflicts(proposals: seq<Proposal>)
      modifies this`conflicts
      ensures conflicts == MarkAllResolved(old(conflicts), proposals)
    {
      for i := 0 to |proposals|
        invariant conflicts == MarkAllResolved(old(conflicts), proposals[..i])
      {
        assert proposals[..i + 1][..i] == proposals[..i];
        var todo := proposals[i].resolved;
        ghost var before, done := conflicts, {};
        while todo != {}
          invariant todo + done == proposals[i].resolved && todo !! done
          invariant conflicts.Keys == before.Keys
          invariant forall id :: id in before ==>
            conflicts[id] == if id in done then Closed(before[id], proposals[i].operation.id) else before[id]
          decreases todo
        {
          var id :| id in todo;
          if id in conflicts && conflicts[id].resolution == Pending {
            conflicts := conflicts[id := conflicts[id].(resolution := ResolvedCustom(proposals[i].operation.id))];
          }
          todo, done := todo - {id}, done + {id};
        }
        assert conflicts == MarkResolved(before, proposals[i]);
      }
      assert proposals[..|proposals|] == proposals;
    }

    method FilePending(proposals: seq<Proposal>)
      modifies this`conflicts
      ensures conflicts == FileConflicts(old(conflicts), proposals)
    {
      for i := 0 to |proposals|
        invariant conflicts == FileConflicts(old(conflicts), proposals[..i])
      {
        assert proposals[..i + 1][..i] == proposals[..i];
        conflicts := conflicts[proposals[i].operation.id := ConflictFor(proposals[i])];
      }
      assert proposals[..|proposals|] == proposals;
    }

    method AdvanceOperation(op: Operation, status: InboxStatus) returns (error: Option<ApplyError>)
      modifies this`rows, this`inbox
      ensures
        match AdvanceOne(old(Here()), op, status)
        case Err(e) => error == Some(e)
        case Ok(d) => error == None && Here() == d
    {
      var current := FindRow(rows, op.device);
      if current.Some? && op.sequence != current.value.sequence + 1 { return Some(SequenceSkipped); }
      if op.id !in inbox { return Some(NotStaged); }
      rows := PutRow(rows, FrontierRow(op.device, op.sequence, Some(OperationDigest(op)),
                                       if current.Some? then current.value.acknowledged else 0));
      inbox := inbox[op.id := inbox[op.id].(status := status)];
      error := None;
    }

    method AdvanceFrontier(ops: seq<Operation>, status: InboxStatus) returns (error: Option<ApplyError>)
      modifies this`rows, this`inbox
      ensures
        match AdvanceAll(old(Here()), ops, status)
        case Err(e) => error == Some(e)
        case Ok(d) => error == None && Here() == d
    {
      ghost var before := Here();
      for i := 0 to |ops|
        invariant AdvanceAll(before, ops[..i], status) == Ok(Here())
      {
        AdvanceNext(before, ops, i, status);
        error := AdvanceOperation(ops[i], status);
        if error.Some? {
          AdvanceErrorStays(before, ops, i + 1, status, error.value);
          return;
        }
      }
      assert ops[..|ops|] == ops;
      error := None;
    }

    /** The second phase; false when the finance rules reject the new tables. */
    method WriteGroup(ops: seq<Operation>, scan: Scan) returns (written: bool)
      modifies this`tables, this`states, this`conflicts
      ensures written == (AllAccepted(scan.proposals) ==> valid(ApplyValues(old(tables), ops)))
      ensures written && AllAccepted(scan.proposals) ==>
        Here() == old(Here()).(tables := ApplyValues(old(tables), ops), states := old(states) + scan.working,
                               conflicts := MarkAllResolved(old(conflicts), scan.proposals))
      ensures written && !AllAccepted(scan.proposals) ==>
        Here() == old(Here()).(conflicts := FileConflicts(old(conflicts), scan.proposals))
    {
      if AllAccepted(scan.proposals) {
        WriteValues(ops);
        if !valid(tables) { return false; }
        states := states + scan.working;
        ResolveConflicts(scan.proposals);
      } else {
        FilePending(scan.proposals);
      }
      written := true;
    }

    /** A thrown error undoes every write of the transaction. */
    method RollBack(before: Device)
      modifies this`tables, this`states, this`rows, this`inbox, this`conflicts
      ensures Here() == before
    {
      tables, states, rows, inbox, conflicts :=
        before.tables, before.states, before.rows, before.inbox, before.conflicts;
    }

    /** The transaction: every table changes together, or none does. */
    method ApplyRemoteGroup(group: seq<Operation>) returns (r: Result<Outcome, ApplyError>)
      modifies this`tables, this`states, this`rows, this`inbox, this`conflicts
      ensures
        match RemoteApply.ApplyRemoteGroup(old(Here()), group, valid)
        case Err(e) => r == Err(e) && Here() == old(Here())
        case Ok(done) => r == Ok(done.outcome) && Here() == done.device
    {
      var ops := SortOperations(group);
      if !CompleteRemoteGroup(ops) { return Err(IncompleteRemoteGroup); }
      var before := Here();
      var scan := ScanProposals(ops);
      var written := WriteGroup(ops, scan);
      var error: Option<ApplyError> := Some(InvalidFinanceData);
      var outcome := if AllAccepted(scan.proposals) then GroupApplied else GroupConflicted;
      if written {
        error := AdvanceFrontier(ops, if outcome == GroupApplied then InboxStatus.Applied else InboxStatus.Conflicted);
      }
      if error.Some? {
        RollBack(before);
        return Err(error.value);
      }
      r := Ok(outcome);
    }

    // ---- Staging and acknowledging ----

    /** The index lookup of a device's sequence: a scan that keeps the smallest key. */
    method FindInbox(sender: OpaqueId, sequence: nat) returns (found: Option<InboxRecord>)
      ensures found == InboxAt(inbox, sender, sequence)
    {
      var ids := WithIdentity(inbox, sender, sequence);
      if ids == {} { return None; }
      var least := FindLeast(ids);
      found := Some(inbox[least]);
    }

    method CheckCausality(op: Operation, cursor: nat) returns (provable: bool)
      ensures provable <==> forall c :: c in op.frontier ==> Provable(Here(), c, cursor)
    {
      for i := 0 to |op.frontier|
        invariant forall j :: 0 <= j < i ==> Provable(Here(), op.frontier[j], cursor)
      {
        var c := op.frontier[i];
        if !OnFrontier(Here(), c) {
          var referenced := FindInbox(c.device, c.sequence);
          if referenced.None? || OperationDigest(referenced.value.operation) != c.hash
            || referenced.value.cursor >= cursor {
            assert !Provable(Here(), c, cursor) && c in op.frontier;
            return false;
          }
        }
      }
      provable := true;
    }

    method StageOperation(p: Pulled) returns (error: Option<StageError>)
      modifies this`inbox
      ensures
        match StageOne(old(Here()), p)
        case Err(e) => error == Some(e) && inbox == old(inbox)
        case Ok(d) => error == None && Here() == d
    {
      var op := p.operation;
      if op.id in inbox {
        if inbox[op.id].cursor != p.cursor || inbox[op.id].operation != op { return Some(ForkedOperation); }
        return None;
      }
      if op.sequence > 1 {
        var predecessor := FindInbox(op.device, op.sequence - 1);
        var hash :=
          if predecessor.Some? then Some(OperationDigest(predecessor.value.operation))
          else if RowSequence(rows, op.device) == op.sequence - 1 then RowHash(rows, op.device) else None;
        if hash != op.previousHash { return Some(ChainGap); }
      }
      var provable := CheckCausality(op, p.cursor);
      if !provable { return Some(NotProvable); }
      inbox := inbox[op.id := InboxRecord(op, p.cursor, Received)];
      error := None;
    }

    method StageRemoteOperations(page: seq<Pulled>, nextCursor: nat) returns (error: Option<StageError>)
      modifies this`inbox, this`lastServerCursor
      ensures
        match StagePage(old(View()), page, nextCursor)
        case Err(e) => error == Some(e) && View() == old(View())
        case Ok(s) => error == None && View() == s
    {
      var before := inbox;
      ghost var start := Here();
      for i := 0 to |page|
        invariant StageAll(start, page[..i]) == Ok(Here()) && lastServerCursor == old(lastServerCursor)
      {
        assert page[..i + 1][..i] == page[..i];
        error := StageOperation(page[i]);
        if error.Some? {
          StageErrorStays(start, page, i + 1, error.value);
          inbox := before;
          return;
        }
      }
      assert page[..|page|] == page;
      if nextCursor < lastServerCursor {
        inbox := before;
        return Some(CursorRollback);
      }
      lastServerCursor := nextCursor;
      error := None;
    }

    method AdvanceAcknowledgedCursor() returns (cursor: nat)
      modifies this`rows
      ensures cursor == AckCursor(old(View()))
      ensures View() == Acknowledge(old(View()), device)
    {
      var received := ReceivedCursors(inbox);
      if received == {} {
        cursor := lastServerCursor;
      } else {
        var least := FindLeast(received);
        cursor := FindGreatest(CursorsBelow(inbox, least));
      }
      rows := PutRow(rows, AckRow(rows, device, cursor));
    }

    method SeedVerifiedFrontier(verified: seq<SnapshotDevice>) returns (error: Option<StageError>)
      modifies this`rows
      ensures
        match SeedAll(old(rows), verified)
        case Err(e) => error == Some(e) && rows == old(rows)
        case Ok(seeded) => error == None && rows == seeded
    {
      var before := rows;
      for i := 0 to |verified|
        invariant SeedAll(before, verified[..i]) == Ok(rows)
      {
        assert verified[..i + 1][..i] == verified[..i];
        var v := verified[i];
        if v.sequence == 0 { continue; }
        var existing := FindRow(rows, v.device);
        if existing.Some? {
          var row := existing.value;
          if row.sequence == 0 && row.hash.None? {
            rows := PutRow(rows, row.(sequence := v.sequence, hash := v.hash));
            continue;
          }
          if row.sequence < v.sequence || (row.sequence == v.sequence && row.hash != v.hash) {
            SeedErrorStays(before, verified, i + 1, SnapshotRace);
            rows := before;
            return Some(SnapshotRace);
          }
          continue;
        }
        rows := PutRow(rows, FrontierRow(v.device, v.sequence, v.hash, 0));
      }
      assert verified[..|verified|] == verified;
      error := None;
    }
  }
}
