/**
 * Pruning over runs: compactions keep the clean-up times in log order exactly when none
 * of them runs under an older clock than one whose rows are still there, and then
 * every pruning removes a prefix (services/sync-worker/src/operations.ts, 268-373;
 * services/sync-worker/src/cleanup.ts, 427-444).
 */
module PruningRuns {
  import opened Wrappers
  import opened OperationLog
  import opened OperationLogRuns

  /** Every row is kept for the same time after its compaction. */
  predicate KeptAlike(changes: seq<Change>) {
    forall c :: c in changes && c.stamp.Some? ==>
      c.stamp.value.cleanupAfter == c.stamp.value.compactedAt + RETENTION_AFTER_COMPACTION
  }

  predicate Tended(l: Log) {
    Ordered(l) && KeptAlike(l.changes)
  }

  /** No row that is still there was compacted later. */
  predicate CompactedBy(changes: seq<Change>, now: nat) {
    forall c :: c in changes && c.stamp.Some? ==> c.stamp.value.compactedAt <= now
  }

  /** The request that is about to compact some row did not start before the compaction of a row that is still there. */
  predicate InTurn(l: Log, e: Event) {
    e.AckCompact? && e.handler < |l.handlers| && l.handlers[e.handler].Ready?
    && HasUncompacted(l.changes, l.handlers[e.handler].cursor) ==>
      CompactedBy(l.changes, l.handlers[e.handler].now)
  }

  // ---- One step ----

  lemma CompactKeepsAlike(changes: seq<Change>, cursor: nat, now: nat)
    requires KeptAlike(changes)
    ensures KeptAlike(Compact(changes, cursor, now))
  {
    var after := Compact(changes, cursor, now);
    forall c | c in after && c.stamp.Some?
      ensures c.stamp.value.cleanupAfter == c.stamp.value.compactedAt + RETENTION_AFTER_COMPACTION
    {
      var k :| 0 <= k < |after| && after[k] == c;
      assert changes[k] in changes;
    }
  }

  lemma CompactKeepsBelow(changes: seq<Change>, cursor: nat, now: nat, bound: nat)
    requires Below(changes, bound)
    ensures Below(Compact(changes, cursor, now), bound)
  {
    var after := Compact(changes, cursor, now);
    forall c | c in after ensures c.cursor < bound {
      var k :| 0 <= k < |after| && after[k] == c;
      assert changes[k] in changes;
    }
  }

  lemma StepKeepsTended(s: Server, e: Event)
    requires Tended(s.log)
    ensures Tended(Step(s, e).log)
  {
    var l := s.log;
    match e {
      case Upload(device, operationId, sequence, envelope) =>
        InsertKeepsPrefix(l, device, operationId, sequence, envelope);
      case AckCompact(i) =>
        if i < |l.handlers| && l.handlers[i].Ready? {
          CompactKeepsPrefix(l.changes, l.handlers[i].cursor, l.handlers[i].now);
          CompactKeepsAlike(l.changes, l.handlers[i].cursor, l.handlers[i].now);
          CompactKeepsBelow(l.changes, l.handlers[i].cursor, l.handlers[i].now, l.nextCursor);
        }
      case Prune(victims) =>
        WithoutSelects(l.changes, victims);
        WithoutKeepsPrefix(l.changes, victims);
      case _ =>
    }
  }

  lemma InsertKeepsStamps(l: Log, device: DeviceId, operationId: nat, sequence: nat, envelope: string)
    requires StampsRise(l.changes)
    ensures StampsRise(Insert(l, device, operationId, sequence, envelope).changes)
  {}

  lemma {:induction false} WithoutKeepsStamps(changes: seq<Change>, victims: set<nat>)
    requires Ascending(changes) && StampsRise(changes)
    ensures StampsRise(Without(changes, victims))
  {
    var after := Without(changes, victims);
    WithoutSelects(changes, victims);
    forall i, j | 0 <= i < j < |after| && after[i].stamp.Some? && after[j].stamp.Some?
      ensures after[i].stamp.value.cleanupAfter <= after[j].stamp.value.cleanupAfter
    {
      assert after[i] in after && after[j] in after;
      var p :| 0 <= p < |changes| && changes[p] == after[i];
      var q :| 0 <= q < |changes| && changes[q] == after[j];
      assert p < q;
    }
  }

  /** All rows being kept for the same time, clean-up times compare as the compactions do. */
  lemma NotLaterIff(changes: seq<Change>, now: nat)
    requires KeptAlike(changes)
    ensures NoLaterStamp(changes, now + RETENTION_AFTER_COMPACTION) <==> CompactedBy(changes, now)
  {
    if CompactedBy(changes, now) {
      forall k | 0 <= k < |changes| && changes[k].stamp.Some?
        ensures changes[k].stamp.value.cleanupAfter <= now + RETENTION_AFTER_COMPACTION
      {
        assert changes[k] in changes;
      }
    }
    if NoLaterStamp(changes, now + RETENTION_AFTER_COMPACTION) {
      forall c | c in changes && c.stamp.Some? ensures c.stamp.value.compactedAt <= now {
        var k :| 0 <= k < |changes| && changes[k] == c;
      }
    }
  }

  lemma CompactInTurnIff(l: Log, i: nat)
    requires Tended(l) && StampsRise(l.changes) && i < |l.handlers| && l.handlers[i].Ready?
    ensures StampsRise(Compact(l.changes, l.handlers[i].cursor, l.handlers[i].now)) <==> InTurn(l, AckCompact(i))
  {
    StampsRiseIff(l.changes, l.handlers[i].cursor, l.handlers[i].now);
    NotLaterIff(l.changes, l.handlers[i].now);
  }

  /** Whatever the step, it keeps the clean-up times in log order exactly when it is in turn. */
  lemma StepKeepsStampsIff(s: Server, e: Event)
    requires Tended(s.log) && StampsRise(s.log.changes)
    ensures StampsRise(Step(s, e).log.changes) <==> InTurn(s.log, e)
  {
    var l := s.log;
    match e {
      case Upload(device, operationId, sequence, envelope) =>
        InsertKeepsStamps(l, device, operationId, sequence, envelope);
      case AckCompact(i) => if i < |l.handlers| && l.handlers[i].Ready? { CompactInTurnIff(l, i); }
      case Prune(victims) => WithoutKeepsStamps(l.changes, victims);
      case _ =>
    }
  }

  // ---- Runs ----

  ghost predicate AllInTurn(s: Server, events: seq<Event>) {
    forall n :: 0 <= n < |events| ==> InTurn(Run(s, events[..n]).log, events[n])
  }

  ghost predicate StampsAlwaysRise(s: Server, events: seq<Event>) {
    forall n :: 0 <= n <= |events| ==> StampsRise(Run(s, events[..n]).log.changes)
  }

  lemma {:induction false} RunKeepsTended(s: Server, events: seq<Event>)
    requires Tended(s.log)
    ensures Tended(Run(s, events).log)
    decreases |events|
  {
    if events != [] {
      RunKeepsTended(s, events[..|events| - 1]);
      StepKeepsTended(Run(s, events[..|events| - 1]), events[|events| - 1]);
    }
  }

  lemma PrefixRun(s: Server, events: seq<Event>, n: nat)
    requires n < |events|
    ensures Run(s, events[..n + 1]) == Step(Run(s, events[..n]), events[n])
  {
    assert events[..n + 1][..n] == events[..n];
  }

  /** Over every run: the clean-up times stay in log order exactly when every compaction is in turn. */
  lemma StampsStayInOrderIff(s: Server, events: seq<Event>)
    requires Tended(s.log) && StampsRise(s.log.changes)
    ensures StampsAlwaysRise(s, events) <==> AllInTurn(s, events)
  {
    if StampsAlwaysRise(s, events) {
      forall n | 0 <= n < |events| ensures InTurn(Run(s, events[..n]).log, events[n]) {
        RunKeepsTended(s, events[..n]);
        PrefixRun(s, events, n);
        assert StampsRise(Run(s, events[..n + 1]).log.changes);
        StepKeepsStampsIff(Run(s, events[..n]), events[n]);
      }
    }
    if AllInTurn(s, events) {
      forall n | 0 <= n <= |events|
        ensures StampsRise(Run(s, events[..n]).log.changes)
      {
        InTurnKeepsStamps(s, events, n);
      }
    }
  }

  lemma {:induction false} InTurnKeepsStamps(s: Server, events: seq<Event>, n: nat)
    requires Tended(s.log) && StampsRise(s.log.changes) && AllInTurn(s, events) && n <= |events|
    ensures StampsRise(Run(s, events[..n]).log.changes)
    decreases n
  {
    if n > 0 {
      InTurnKeepsStamps(s, events, n - 1);
      RunKeepsTended(s, events[..n - 1]);
      PrefixRun(s, events, n - 1);
      StepKeepsStampsIff(Run(s, events[..n - 1]), events[n - 1]);
    }
  }

  /**
   * Every pruning the run could make, at every moment of it, removes a prefix exactly when every
   * compaction is in turn.
   */
  lemma PruningRemovesPrefixesIff(s: Server, events: seq<Event>)
    requires Tended(s.log) && StampsRise(s.log.changes)
    ensures (forall n :: 0 <= n <= |events| ==> AlwaysPrunesPrefix(Run(s, events[..n]).log.changes)) <==>
      AllInTurn(s, events)
  {
    StampsStayInOrderIff(s, events);
    forall n | 0 <= n <= |events|
      ensures AlwaysPrunesPrefix(Run(s, events[..n]).log.changes) <==> StampsRise(Run(s, events[..n]).log.changes)
    {
      RunKeepsTended(s, events[..n]);
      PruneRemovesPrefixIff(Run(s, events[..n]).log.changes);
    }
  }

  // ---- Two overlapping acknowledgements ----

  const Here := Pointer(Some(9), 1)
  const Only := map[1 := Member(true, 1_000_000_000)]

  function Row(cursor: nat, operationId: nat, stamp: Option<Stamp>): Change {
    Change(cursor, operationId, 1, cursor, "", stamp)
  }

  function StampAt(now: nat): Option<Stamp> { Some(Stamp(now, now + RETENTION_AFTER_COMPACTION)) }

  /** The vault of one device, with two operations, at clock 1. */
  function Vault(first: Option<Stamp>, second: Option<Stamp>, acks: map<DeviceId, Ack>, handlers: seq<Handler>): Log {
    Log([Row(1, 10, first), Row(2, 11, second)], 3, acks, Here, Only, handlers)
  }

  function At(l: Log, clock: nat): Server {
    Server(l, clock, [Row(1, 10, None), Row(2, 11, None)], 0, [])
  }

  const EmptyVault := Server(Log([], 1, map[], Here, Only, []), 1, [], 0, [])

  /** The first request starts at clock 1 and acknowledges both operations; the second starts at 2 and overtakes it. */
  const Overlap := [
    Upload(1, 10, 1, ""), Upload(1, 11, 2, ""), AckBegin(1, 2, Here), Tick(2), AckBegin(1, 1, Here),
    AckWrite(1), AckMeasure(1), AckCompact(1), AckWrite(0), AckMeasure(0), AckCompact(0)]

  lemma OneMeasured(l: Log, ack: Ack, now: nat)
    requires l.members == Only && l.acks == map[1 := ack] && ack.pointer == Here && now < 1_000_000_000
    ensures CompactCursor(l, Here, now) == Some(ack.cursor)
  {
    assert Live(l.members, now) == {1};
    assert AckCursors(l, Live(l.members, now)) == {ack.cursor};
  }

  /** One more event of the run. */
  lemma OverlapNext(n: nat, e: Event, before: Server, after: Server)
    requires n < |Overlap| && Overlap[n] == e
    requires Run(EmptyVault, Overlap[..n]) == before && Step(before, e) == after
    ensures Run(EmptyVault, Overlap[..n + 1]) == after
  {
    PrefixRun(EmptyVault, Overlap, n);
  }

  const Uploaded1 := Server(Log([Row(1, 10, None)], 2, map[], Here, Only, []), 1, [Row(1, 10, None)], 0, [])
  const Uploaded2 := At(Vault(None, None, map[], []), 1)
  const Begun1 := At(Vault(None, None, map[], [Checked(1, 2, Here, 1)]), 1)
  const Ticked := At(Vault(None, None, map[], [Checked(1, 2, Here, 1)]), 2)
  const Begun2 := At(Vault(None, None, map[], [Checked(1, 2, Here, 1), Checked(1, 1, Here, 2)]), 2)
  const Written2 := At(Vault(None, None, map[1 := Ack(1, Here)], [Checked(1, 2, Here, 1), Written(Here, 2)]), 2)
  const Measured2 := At(Vault(None, None, map[1 := Ack(1, Here)], [Checked(1, 2, Here, 1), Ready(1, 2)]), 2)
  const Compacted2 := At(Vault(StampAt(2), None, map[1 := Ack(1, Here)], [Checked(1, 2, Here, 1)]), 2)
  const Written1 := At(Vault(StampAt(2), None, map[1 := Ack(2, Here)], [Written(Here, 1)]), 2)
  const Measured1 := At(Vault(StampAt(2), None, map[1 := Ack(2, Here)], [Ready(2, 1)]), 2)
  const Compacted1 := At(Vault(StampAt(2), StampAt(1), map[1 := Ack(2, Here)], []), 2)

  lemma UploadSteps()
    ensures Step(EmptyVault, Upload(1, 10, 1, "")) == Uploaded1
    ensures Step(Uploaded1, Upload(1, 11, 2, "")) == Uploaded2
  {}

  lemma BeginSteps()
    ensures Step(Uploaded2, AckBegin(1, 2, Here)) == Begun1
    ensures Step(Begun1, Tick(2)) == Ticked
    ensures Step(Ticked, AckBegin(1, 1, Here)) == Begun2
  {
    assert MaximumCursor([Row(1, 10, None), Row(2, 11, None)]) == 2;
  }

  lemma SecondSteps()
    ensures Step(Begun2, AckWrite(1)) == Written2
    ensures Step(Written2, AckMeasure(1)) == Measured2
  {
    OneMeasured(Written2.log, Ack(1, Here), 2);
  }

  lemma SecondCompacts()
    ensures Step(Measured2, AckCompact(1)) == Compacted2
  {
    assert Compact([Row(1, 10, None), Row(2, 11, None)], 1, 2) == [Row(1, 10, StampAt(2)), Row(2, 11, None)];
    assert Drop([Checked(1, 2, Here, 1), Ready(1, 2)], 1) == [Checked(1, 2, Here, 1)];
  }

  lemma FirstSteps()
    ensures Step(Compacted2, AckWrite(0)) == Written1
    ensures Step(Written1, AckMeasure(0)) == Measured1
  {
    OneMeasured(Written1.log, Ack(2, Here), 1);
  }

  lemma FirstCompacts()
    ensures Step(Measured1, AckCompact(0)) == Compacted1
  {
    assert Compact([Row(1, 10, StampAt(2)), Row(2, 11, None)], 2, 1) ==
      [Row(1, 10, StampAt(2)), Row(2, 11, StampAt(1))];
    assert Drop([Ready(2, 1)], 0) == [];
  }

  lemma OverlapUploads()
    ensures Run(EmptyVault, Overlap[..2]) == Uploaded2
  {
    assert Overlap[..0] == [];
    UploadSteps();
    OverlapNext(0, Upload(1, 10, 1, ""), EmptyVault, Uploaded1);
    OverlapNext(1, Upload(1, 11, 2, ""), Uploaded1, Uploaded2);
  }

  lemma OverlapBeginsFirst()
    ensures Run(EmptyVault, Overlap[..3]) == Begun1
  {
    OverlapUploads();
    BeginSteps();
    assert Overlap[2] == AckBegin(1, 2, Here);
    OverlapNext(2, AckBegin(1, 2, Here), Uploaded2, Begun1);
  }

  lemma OverlapTicks()
    ensures Run(EmptyVault, Overlap[..4]) == Ticked
  {
    OverlapBeginsFirst();
    BeginSteps();
    assert Overlap[3] == Tick(2);
    OverlapNext(3, Tick(2), Begun1, Ticked);
  }

  lemma OverlapBegins()
    ensures Run(EmptyVault, Overlap[..5]) == Begun2
  {
    OverlapTicks();
    BeginSteps();
    OverlapNext(4, AckBegin(1, 1, Here), Ticked, Begun2);
  }

  lemma OverlapMeasures()
    ensures Run(EmptyVault, Overlap[..7]) == Measured2
  {
    OverlapBegins();
    SecondSteps();
    OverlapNext(5, AckWrite(1), Begun2, Written2);
    OverlapNext(6, AckMeasure(1), Written2, Measured2);
  }

  lemma OverlapOvertakes()
    ensures Run(EmptyVault, Overlap[..8]) == Compacted2
  {
    OverlapMeasures();
    SecondCompacts();
    OverlapNext(7, AckCompact(1), Measured2, Compacted2);
  }

  lemma OverlapEnds()
    ensures Run(EmptyVault, Overlap) == Compacted1
  {
    OverlapOvertakes();
    FirstSteps();
    FirstCompacts();
    OverlapNext(8, AckWrite(0), Compacted2, Written1);
    OverlapNext(9, AckMeasure(0), Written1, Measured1);
    OverlapNext(10, AckCompact(0), Measured1, Compacted1);
    assert Overlap[..11] == Overlap;
  }

  /** The request that started first stamps the later row with the earlier time. */
  lemma OverlapStampsOutOfOrder()
    ensures
      var changes := Run(EmptyVault, Overlap).log.changes;
      && changes == [Row(1, 10, StampAt(2)), Row(2, 11, StampAt(1))]
      && !StampsRise(changes) && !AlwaysPrunesPrefix(changes)
  {
    OverlapEnds();
    var changes := [Row(1, 10, StampAt(2)), Row(2, 11, StampAt(1))];
    assert changes[0].stamp.value.cleanupAfter > changes[1].stamp.value.cleanupAfter;
    PruneRemovesPrefixIff(changes);
  }
}
