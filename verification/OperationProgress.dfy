/**
 * Progress of the operation log (services/sync-worker/src/operations.ts, 292-373): when an acknowledgement
 * compacts a row, in terms of the devices it has to wait for.
 */
module OperationProgress {
  import opened Wrappers
  import opened Extrema
  import opened OperationLog
  import opened OperationLogRuns

  /** Every device that counts has acknowledged this snapshot at or past the cursor, and some device counts. */
  ghost predicate ReachedByAll(l: Log, pointer: Pointer, now: nat, cursor: nat) {
    && (exists d :: Counts(l, d, now))
    && forall d :: Counts(l, d, now) ==>
         d in l.acks && l.acks[d].pointer == pointer && cursor <= l.acks[d].cursor
  }

  lemma LiveCount(l: Log, now: nat)
    ensures forall d :: d in Live(l.members, now) <==> Counts(l, d, now)
  {}

  /** A measured cursor covers exactly the rows that every counted device has reached. */
  lemma MeasureIff(l: Log, pointer: Pointer, now: nat, cursor: nat)
    requires pointer.snapshot.Some?
    ensures
      var measured := CompactCursor(l, pointer, now);
      (measured.Some? && cursor <= measured.value) <==> ReachedByAll(l, pointer, now, cursor)
  {
    var live := Live(l.members, now);
    var cursors := AckCursors(l, live);
    LiveCount(l, now);
    if ReachedByAll(l, pointer, now, cursor) {
      var d :| Counts(l, d, now);
      assert l.acks[d].cursor in cursors;
    }
    if CompactCursor(l, pointer, now).Some? {
      var least := Least(cursors);
      var d :| d in live && d in l.acks && l.acks[d].cursor == least;
      assert Counts(l, d, now);
      forall e | Counts(l, e, now)
        ensures e in l.acks && l.acks[e].pointer == pointer && least <= l.acks[e].cursor
      {
        assert Acknowledged(l, e, pointer) && l.acks[e].cursor in cursors;
      }
    }
  }

  /** The request without interruption. */
  ghost function Acknowledging(l: Log, device: DeviceId, cursor: nat, pointer: Pointer, now: nat): Log {
    StepLog(StepLog(StepLog(StepLog(l, AckBegin(device, cursor, pointer), now), AckWrite(0), now), AckMeasure(0), now),
            AckCompact(0), now)
  }

  function Stamped(c: Change, now: nat): Change {
    c.(stamp := Some(Stamp(now, now + RETENTION_AFTER_COMPACTION)))
  }

  /** The cursor is 0, or some operation that is still there lies at or past it. */
  predicate Reached(l: Log, cursor: nat) {
    cursor == 0 || exists c :: c in l.changes && cursor <= c.cursor
  }

  lemma {:induction false} MaximumIsReached(changes: seq<Change>, cursor: nat)
    ensures cursor <= MaximumCursor(changes) <==> cursor == 0 || exists c :: c in changes && cursor <= c.cursor
    decreases |changes|
  {
    if changes != [] {
      var n := |changes| - 1;
      MaximumIsReached(changes[..n], cursor);
      assert changes == changes[..n] + [changes[n]];
    }
  }

  /** The acknowledgement names the current snapshot and a cursor that was reached, and does not go back. */
  predicate Acceptable(l: Log, device: DeviceId, cursor: nat, pointer: Pointer) {
    Reached(l, cursor) && pointer == l.pointer && (device in l.acks ==> l.acks[device].cursor <= cursor)
  }

  /** The first two statements: the acknowledgement is stored, or nothing happens. */
  lemma AckIsStored(l: Log, device: DeviceId, cursor: nat, pointer: Pointer, now: nat)
    requires l.handlers == []
    ensures StepLog(StepLog(l, AckBegin(device, cursor, pointer), now), AckWrite(0), now) ==
      if Acceptable(l, device, cursor, pointer)
      then l.(acks := l.acks[device := Ack(cursor, pointer)], handlers := [Written(pointer, now)]) else l
  {
    MaximumIsReached(l.changes, cursor);
  }

  /** The last two: what a measured cursor covers is compacted. */
  lemma MeasuredIsCompacted(l: Log, pointer: Pointer, now: nat, i: nat)
    requires l.handlers == [Written(pointer, now)] && i < |l.changes|
    ensures
      var after := StepLog(StepLog(l, AckMeasure(0), now), AckCompact(0), now);
      && after.acks == l.acks && after.members == l.members && |after.changes| == |l.changes|
      && after.changes[i] ==
           if pointer.snapshot.Some? && l.changes[i].stamp.None? && ReachedByAll(l, pointer, now, l.changes[i].cursor)
           then Stamped(l.changes[i], now) else l.changes[i]
  {
    if pointer.snapshot.Some? { MeasureIff(l, pointer, now, l.changes[i].cursor); }
  }

  lemma SameReached(l: Log, after: Log, pointer: Pointer, now: nat, cursor: nat)
    requires l.acks == after.acks && l.members == after.members
    ensures ReachedByAll(l, pointer, now, cursor) <==> ReachedByAll(after, pointer, now, cursor)
  {
    assert forall d :: Counts(l, d, now) <==> Counts(after, d, now);
  }

  /**
   * An acknowledgement is stored exactly when it names the current snapshot and a cursor some operation has
   * reached, and does not go back; else it changes nothing. It then compacts exactly the rows that every device
   * that is active, with a grant not expired for longer than the grace period, has acknowledged under that
   * snapshot, if there is such a device and a snapshot.
   */
  lemma AcknowledgementCompactsIff(l: Log, device: DeviceId, cursor: nat, pointer: Pointer, now: nat, i: nat)
    requires l.handlers == [] && i < |l.changes|
    ensures
      var after := Acknowledging(l, device, cursor, pointer, now);
      var row := l.changes[i];
      if !Acceptable(l, device, cursor, pointer) then after == l
      else
        && after.acks == l.acks[device := Ack(cursor, l.pointer)] && after.members == l.members
        && |after.changes| == |l.changes|
        && after.changes[i] ==
             if l.pointer.snapshot.Some? && row.stamp.None? && ReachedByAll(after, l.pointer, now, row.cursor)
             then Stamped(row, now) else row
  {
    AckIsStored(l, device, cursor, pointer, now);
    if Acceptable(l, device, cursor, pointer) {
      var written := l.(acks := l.acks[device := Ack(cursor, pointer)], handlers := [Written(pointer, now)]);
      MeasuredIsCompacted(written, pointer, now, i);
      SameReached(written, Acknowledging(l, device, cursor, pointer, now), pointer, now, l.changes[i].cursor);
    }
  }

  // ---- Acknowledgements name what is there ----

  /** Every acknowledgement, stored or on its way, lies below the next cursor. */
  predicate AcksAssigned(l: Log) {
    && l.nextCursor > 0
    && (forall c :: c in l.changes ==> c.cursor < l.nextCursor)
    && (forall d :: d in l.acks ==> l.acks[d].cursor < l.nextCursor)
    && forall h :: h in l.handlers && h.Checked? ==> h.cursor < l.nextCursor
  }

  lemma CompactKeepsCursors(changes: seq<Change>, cursor: nat, now: nat, bound: nat)
    requires forall c :: c in changes ==> c.cursor < bound
    ensures forall c :: c in Compact(changes, cursor, now) ==> c.cursor < bound
  {
    var after := Compact(changes, cursor, now);
    forall c | c in after ensures c.cursor < bound {
      var j :| 0 <= j < |after| && after[j] == c;
      assert changes[j] in changes;
    }
  }

  lemma AckKeepsAssigned(l: Log, e: Event, clock: nat)
    requires AcksAssigned(l) && (e.AckBegin? || e.AckWrite? || e.AckMeasure?)
    ensures AcksAssigned(StepLog(l, e, clock))
  {
    if e.AckBegin? { MaximumIsReached(l.changes, e.cursor); }
  }

  lemma StepKeepsAssigned(l: Log, e: Event, clock: nat)
    requires AcksAssigned(l)
    ensures AcksAssigned(StepLog(l, e, clock))
  {
    match e {
      case AckBegin(_, _, _) => AckKeepsAssigned(l, e, clock);
      case AckWrite(_) => AckKeepsAssigned(l, e, clock);
      case AckMeasure(_) => AckKeepsAssigned(l, e, clock);
      case AckCompact(i) =>
        if i < |l.handlers| && l.handlers[i].Ready? {
          CompactKeepsCursors(l.changes, l.handlers[i].cursor, l.handlers[i].now, l.nextCursor);
        }
      case Prune(victims) => WithoutKeeps(l.changes, victims);
      case _ =>
    }
  }

  lemma WithoutKeeps(changes: seq<Change>, victims: set<nat>)
    ensures forall c :: c in Without(changes, victims) ==> c in changes
  {}

  lemma {:induction false} RunKeepsAssigned(start: Server, events: seq<Event>)
    requires AcksAssigned(start.log)
    ensures AcksAssigned(Run(start, events).log)
    decreases |events|
  {
    if events != [] {
      var before := Run(start, events[..|events| - 1]);
      RunKeepsAssigned(start, events[..|events| - 1]);
      StepKeepsAssigned(before.log, events[|events| - 1], before.clock);
    }
  }

  /**
   * Over every run, whatever the requests interleave: an operation accepted after an acknowledgement lies past
   * it, so no acknowledgement ever covers an operation that its device cannot have seen.
   */
  lemma LaterOperationsAreUnacknowledged(start: Server, events: seq<Event>, d: DeviceId, device: DeviceId,
                                         operationId: nat, sequence: nat, envelope: string)
    requires AcksAssigned(start.log)
    requires
      var before := Run(start, events).log;
      d in before.acks && !Taken(before.changes, operationId, device, sequence)
    ensures
      var before := Run(start, events);
      var after := StepLog(before.log, Upload(device, operationId, sequence, envelope), before.clock);
      && |after.changes| == |before.log.changes| + 1
      && after.changes[|after.changes| - 1].operationId == operationId
      && before.log.acks[d].cursor < after.changes[|after.changes| - 1].cursor
  {
    RunKeepsAssigned(start, events);
  }
}
