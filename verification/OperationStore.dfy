/** The request handlers of the operation log, each run without interruption. */
module OperationStore {
  import opened Wrappers
  import opened Extrema
  import opened OperationLog
  import opened OperationLogRuns

  datatype AckOutcome = AckStored | ContextConflict | RollbackDetected

  /** The table's unique constraints. */
  predicate UniqueRows(changes: seq<Change>) {
    forall i, j :: 0 <= i < j < |changes| ==>
      changes[i].operationId != changes[j].operationId
      && (changes[i].device != changes[j].device || changes[i].sequence != changes[j].sequence)
  }

  predicate SameRow(c: Change, operationId: nat, device: DeviceId, sequence: nat) {
    c.operationId == operationId || (c.device == device && c.sequence == sequence)
  }

  /** A cleanup run still has an expired row to take. */
  predicate ExpiredLeft(changes: seq<Change>, victims: set<nat>, now: nat) {
    exists c :: c in changes && Expired(c, now) && c.cursor !in victims
  }

  class OperationStore {
    var changes: seq<Change>
    var nextCursor: nat
    var acks: map<DeviceId, Ack>
    var pointer: Pointer
    var members: map<DeviceId, Member>

    constructor (start: Log)
      ensures View() == start.(handlers := [])
    {
      changes, nextCursor, acks := start.changes, start.nextCursor, start.acks;
      pointer, members := start.pointer, start.members;
    }

    function View(): Log
      reads this
    {
      Log(changes, nextCursor, acks, pointer, members, [])
    }

    method FindExisting(operationId: nat, device: DeviceId, sequence: nat) returns (found: Option<Change>)
      ensures found.Some? <==> Taken(changes, operationId, device, sequence)
      ensures found.Some? ==> found.value in changes && SameRow(found.value, operationId, device, sequence)
    {
      for i := 0 to |changes|
        invariant forall j :: 0 <= j < i ==> !SameRow(changes[j], operationId, device, sequence)
      {
        if SameRow(changes[i], operationId, device, sequence) { return Some(changes[i]); }
      }
      found := None;
    }

    /** An exact retry answers with the first cursor; anything else must continue its device. */
    method HandleUploadOperation(device: DeviceId, operationId: nat, sequence: nat, envelope: string)
      returns (outcome: UploadOutcome)
      requires UniqueRows(changes)
      modifies this`changes, this`nextCursor
      ensures UniqueRows(changes)
      ensures outcome.Accepted? <==>
        (exists c :: c in old(changes) && ExactRetry(c, device, operationId, sequence, envelope))
        || (!Taken(old(changes), operationId, device, sequence)
            && sequence == LastSequence(old(changes), device) + 1 && |old(changes)| < MAX_RETAINED)
      ensures outcome.Accepted? ==>
        exists c :: c in changes && c.cursor == outcome.cursor && ExactRetry(c, device, operationId, sequence, envelope)
      ensures View() ==
        if outcome.Accepted? then Insert(old(View()), device, operationId, sequence, envelope) else old(View())
    {
      var existing := FindExisting(operationId, device, sequence);
      if existing.Some? {
        if !ExactRetry(existing.value, device, operationId, sequence, envelope) { return IdentityReused; }
        return Accepted(existing.value.cursor);
      }
      if sequence != LastSequence(changes, device) + 1 { return SequenceConflict; }
      if |changes| >= MAX_RETAINED { return QuotaExceeded; }
      var row := Change(nextCursor, operationId, device, sequence, envelope, None);
      outcome := Accepted(nextCursor);
      changes := changes + [row];
      nextCursor := nextCursor + 1;
      assert row in changes;
    }

    /** The query: at most `most` rows after the cursor. */
    method ReadAfter(cursor: nat, most: nat) returns (rows: seq<Change>)
      ensures var all := After(changes, cursor); rows == if |all| <= most then all else all[..most]
    {
      rows := [];
      var i := 0;
      assert After(changes, cursor) == rows + After(changes[i..], cursor);
      while i < |changes| && |rows| < most
        invariant i <= |changes| && |rows| <= most
        invariant After(changes, cursor) == rows + After(changes[i..], cursor)
      {
        assert changes[i..][1..] == changes[i + 1..];
        if changes[i].cursor > cursor { rows := rows + [changes[i]]; }
        i := i + 1;
      }
    }

    method HandleGetChanges(cursor: nat, limit: nat) returns (page: Page)
      ensures page == PageAfter(changes, cursor, limit)
    {
      var rows := ReadAfter(cursor, limit + 1);
      var kept := if |rows| <= limit then rows else rows[..limit];
      page := Page(kept, if kept == [] then cursor else kept[|kept| - 1].cursor, |rows| > |kept|);
    }

    /** The four statements of the request, one after another. */
    method HandleAcknowledgeChanges(device: DeviceId, cursor: nat, acknowledged: Pointer, now: nat)
      returns (outcome: AckOutcome)
      modifies this`changes, this`acks
      ensures View() ==
        StepLog(StepLog(StepLog(StepLog(old(View()), AckBegin(device, cursor, acknowledged), now),
                                AckWrite(0), now), AckMeasure(0), now), AckCompact(0), now)
      ensures outcome ==
        if !AckAllowed(old(View()), cursor, acknowledged) then ContextConflict
        else if device in old(acks) && cursor < old(acks)[device].cursor then RollbackDetected else AckStored
    {
      if cursor > MaximumCursor(changes) || acknowledged != pointer { return ContextConflict; }
      if device in acks && cursor < acks[device].cursor { return RollbackDetected; }
      outcome := AckStored;
      acks := acks[device := Ack(cursor, acknowledged)];
      if acknowledged.snapshot.None? { return; }
      var live := Live(members, now);
      var cursors := AckCursors(View(), live);
      if cursors == {} || exists d :: d in live && !OperationLog.Acknowledged(View(), d, acknowledged) { return; }
      var upTo := FindLeast(cursors);
      changes := Compact(changes, upTo, now);
    }

    /** The expired row that comes first in the order of the cleanup. */
    method SoonestExpired(victims: set<nat>, now: nat) returns (soonest: Option<Change>)
      ensures soonest.Some? <==> ExpiredLeft(changes, victims, now)
      ensures soonest.Some? ==>
        && soonest.value in changes && Expired(soonest.value, now) && soonest.value.cursor !in victims
        && forall c :: c in changes && Expired(c, now) && c.cursor !in victims ==> !Sooner(c, soonest.value)
    {
      soonest := None;
      for i := 0 to |changes|
        invariant soonest.Some? ==>
          soonest.value in changes && Expired(soonest.value, now) && soonest.value.cursor !in victims
        invariant forall j :: 0 <= j < i && Expired(changes[j], now) && changes[j].cursor !in victims ==>
          soonest.Some? && !Sooner(changes[j], soonest.value)
      {
        var c := changes[i];
        if Expired(c, now) && c.cursor !in victims && (soonest.None? || Sooner(c, soonest.value)) {
          soonest := Some(c);
        }
      }
    }

    /** At most `limit` expired rows, the soonest first. */
    method PruneChanges(limit: nat, now: nat) returns (victims: set<nat>)
      requires Ascending(changes)
      modifies this`changes
      ensures PruneBatch(old(changes), victims, now) && |victims| <= limit
      ensures |victims| == limit || !ExpiredLeft(old(changes), victims, now)
      ensures changes == Without(old(changes), victims)
    {
      victims := {};
      while |victims| < limit
        invariant changes == old(changes) && PruneBatch(changes, victims, now) && |victims| <= limit
        decreases limit - |victims|
      {
        var soonest := SoonestExpired(victims, now);
        if soonest.None? { break; }
        TakingSoonest(changes, victims, soonest.value, now);
        victims := victims + {soonest.value.cursor};
      }
      changes := Without(changes, victims);
    }
  }

  lemma TakingSoonest(changes: seq<Change>, victims: set<nat>, next: Change, now: nat)
    requires Ascending(changes) && PruneBatch(changes, victims, now)
    requires next in changes && Expired(next, now) && next.cursor !in victims
    requires forall c :: c in changes && Expired(c, now) && c.cursor !in victims ==> !Sooner(c, next)
    ensures PruneBatch(changes, victims + {next.cursor}, now)
  {
    var more := victims + {next.cursor};
    forall a, b | a in changes && b in changes && Expired(a, now) && Expired(b, now) && b.cursor in more && Sooner(a, b)
      ensures a.cursor in more
    {
      if b.cursor == next.cursor {
        var i :| 0 <= i < |changes| && changes[i] == b;
        var j :| 0 <= j < |changes| && changes[j] == next;
        assert i == j;
      }
    }
    forall v | v in more ensures exists c :: c in changes && c.cursor == v && Expired(c, now) {
      if v == next.cursor { assert next in changes; }
    }
  }
}
