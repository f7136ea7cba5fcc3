/**
 * The theorem of SameInstant for audited edits and runs of the sender, and two runs that show
 * what goes wrong: a preparation that is refused, and a deleted row that stays recorded as live.
 */
module SameInstantRuns {
  import opened Wrappers
  import opened SyncOperation
  import opened Causal
  import opened MutationAudit
  import opened Replica
  import opened Outbox
  import opened PrepareTheorems
  import opened Convergence
  import opened ConvergenceRuns
  import opened Reordering
  import opened QueueRuns
  import opened SameInstant

  // ---- Two edits ----

  lemma NothingAround<T>(a: seq<T>, b: seq<T>)
    ensures [] + a == a && a + (b + []) == a + b
  {}

  lemma TwoAreTied(s: SenderState, t0: Tables, a: OutboxRows, b: OutboxRows, rank: Collation)
    requires s.outbox == a + b && FreshGroup(a) && Block(a) && FreshGroup(b) && Block(b) && OtherIds(a, b)
    requires a[0].createdAt == b[0].createdAt && a[0].groupId != b[0].groupId
    requires Replay(t0, GroupIntents(a)).Some?
    requires Replay(Replay(t0, GroupIntents(a)).value, GroupIntents(b)).Some?
    ensures Tied(s, t0, a, b, [], rank)
  {
    NothingAround(a, b);
  }

  /** Two edits in one millisecond, with nothing else queued, leave two tied groups. */
  lemma EditsAreTied(s: Sender, first: Event, second: Event, rank: Collation)
    requires first.Edit? && second.Edit? && s.sync.outbox == []
    requires IsRecorded(s, first) && IsRecorded(AfterEdit(s, first), second)
    requires first.createdAt == second.createdAt && first.groupId != second.groupId
    ensures
      var mid := AfterEdit(s, first);
      var a, b := EditGroup(s, first), EditGroup(mid, second);
      && Tied(AfterEdit(mid, second).sync, s.tables, a, b, [], rank)
      && Replay(s.tables, GroupIntents(a)).value == mid.tables
      && Replay(mid.tables, GroupIntents(b)).value == AfterEdit(mid, second).tables
  {
    var mid := AfterEdit(s, first);
    EditIsRecorded(s, first, rank);
    EditIsRecorded(mid, second, rank);
    var a, b := EditGroup(s, first), EditGroup(mid, second);
    NothingAround(a, b);
    TwoAreTied(AfterEdit(mid, second).sync, s.tables, a, b, rank);
  }

  lemma PairRuns(s: Sender, first: Event, second: Event, device: OpaqueId, rank: Collation)
    requires first.Edit? && second.Edit?
    ensures
      var end := AfterEdit(AfterEdit(s, first), second);
      RunsTo(s, [first, second], end.tables, Ok(end.sync), device, rank)
  {
    EditsRun(s, [first, second], device, rank);
    assert [first, second][..1] == [first] && [first][..0] == [];
    assert AfterEdits(s, [first]) == AfterEdit(s, first);
  }

  /** Both edits prepared and uploaded, for any two edits of one millisecond and whatever ids they draw. */
  lemma TwoEditsPrepareIff(s: Sender, first: Event, second: Event,
                           device: OpaqueId, devices: set<OpaqueId>, rank: Collation)
    returns (more: seq<Event>)
    requires Total(rank) && Settled(s.sync, s.tables, device, devices, rank) && s.sync.outbox == []
    requires first.Edit? && second.Edit?
    requires IsRecorded(s, first) && IsRecorded(AfterEdit(s, first), second)
    requires first.createdAt == second.createdAt && first.groupId != second.groupId
    ensures
      var mid := AfterEdit(s, first);
      var end := AfterEdit(mid, second);
      var shared := Shared(EditIntents(s.tables, first.writes), EditIntents(mid.tables, second.writes));
      var ordered := rank(first.groupId) < rank(second.groupId);
      var run := Run(s, [first, second] + more, device, rank);
      && (run.Ok? <==>
            ordered || forall k :: k in shared ==> Survives(k, s.sync.states.Keys, s.tables, mid.tables, end.tables))
      && (run.Ok? ==>
            var after := run.value.sender;
            && after.tables == end.tables && after.sync.outbox == []
            && (Consistent(after.tables, after.sync.states) <==>
                  ordered || forall k :: k in shared ==> Get(mid.tables, k) == Get(end.tables, k))
            && (!ordered ==> forall k :: k in shared ==>
                  k in after.sync.states && Faithful(after.sync.states[k], k, Get(mid.tables, k))))
  {
    var mid := AfterEdit(s, first);
    var end := AfterEdit(mid, second);
    EditsAreTied(s, first, second, rank);
    EditIsRecorded(s, first, rank);
    EditIsRecorded(mid, second, rank);
    SameInstantPreparesIff(end.sync, s.tables, EditGroup(s, first), EditGroup(mid, second), [], device, devices, rank);
    PairRuns(s, first, second, device, rank);
    PairIsBoth(end.sync, device, rank);
    more := PrepareTimesIsARun(s, [first, second], end.tables, end.sync, 2, device, rank);
  }

  // ---- Two transactions in one millisecond ----

  const TieKey := EntityKey(Account, "a")
  const TieRank: Collation := (id: OpaqueId) => id as int
  const TieStart := Sender(map[TieKey := "v0"], SenderState(map[TieKey := StateFromValue(TieKey, "v0")], [], []))
  const TieFirst := Intent(TieKey, Upsert, [], Some("v0"), Some("v1"))
  const TieSecond := Intent(TieKey, Upsert, [], Some("v1"), Some("v2"))
  const TieRecord1 := RecordOf(2, 0, 1, 5, PendingIntent(10, TieFirst))
  const TieRecord2 := RecordOf(1, 0, 1, 5, PendingIntent(20, TieSecond))

  lemma OneWrite(s: Sender, e: Event, before: Json, json: Json)
    requires e.Edit? && e.writes == [Put(TieKey, json)] && s.tables == map[TieKey := before] && before != json
    requires forall r :: r in s.sync.outbox ==> r.operationId != e.draw(0)
    ensures AfterEdit(s, e) == Sender(map[TieKey := json], s.sync.(outbox := s.sync.outbox +
      [RecordOf(e.groupId, 0, 1, e.createdAt,
        PendingIntent(e.draw(0), Intent(TieKey, Upsert, [], Some(before), Some(json))))]))
  {
    var i := Intent(TieKey, Upsert, [], Some(before), Some(json));
    assert e.writes[1..] == [];
    assert EditIntents(s.tables, e.writes) == [i];
    assert EditPending(s, e) == [PendingIntent(e.draw(0), i)];
    assert GroupOf(e.groupId, e.createdAt, [PendingIntent(e.draw(0), i)]) ==
      [RecordOf(e.groupId, 0, 1, e.createdAt, PendingIntent(e.draw(0), i))];
    assert EditTables(s.tables, e.writes) == map[TieKey := json];
  }

  lemma RunSnoc(events: seq<Event>, e: Event, s: Sender)
    requires e.Edit? && Run(TieStart, events, 7, TieRank) == Ok(World(s, []))
    ensures Run(TieStart, events + [e], 7, TieRank) == Ok(World(AfterEdit(s, e), []))
  {
    assert (events + [e])[..|events|] == events;
  }

  lemma TieIsSortedBackwards()
    ensures SortOutbox(NotUploading([TieRecord1, TieRecord2]), TieRank) == [TieRecord2, TieRecord1]
    ensures SortByIndex(OfGroup([TieRecord2, TieRecord1], 1)) == [TieRecord2]
    ensures SortByIndex(OfGroup([TieRecord1, TieRecord2], 1)) == [TieRecord2]
  {
    var a, b := TieRecord1, TieRecord2;
    assert [a, b][1..] == [b] && [b][1..] == [] && [b, a][1..] == [a] && [a][1..] == [];
    NothingUploading([a, b]);
    assert SortOutbox([b], TieRank) == [b];
    assert InsertRecord([b], a, TieRank) == [b] + InsertRecord([b][1..], a, TieRank) == [b] + [a];
    assert OfGroup([a], 1) == [] && OfGroup([b], 1) == [b];
    assert OfGroup([b, a], 1) == [b] && OfGroup([a, b], 1) == [b];
  }

  lemma TieIsRefused(s: SenderState)
    requires s == TieStart.sync.(outbox := [TieRecord1, TieRecord2])
    ensures PrepareNextGroup(s, 7, TieRank) == Err(ChangedOutsideOutbox)
  {
    TieIsSortedBackwards();
    var p := Progress(s.states, s.rows, MaximumLamport(s.states));
    assert [TieRecord2][..0] == [];
    assert PrepareOne(p, TieRecord2, 7, TieRank) == Err(ChangedOutsideOutbox);
    assert PrepareAll(p, [TieRecord2], 7, TieRank) == Err(ChangedOutsideOutbox);
  }

  lemma RunStops(events: seq<Event>, s: Sender, error: PrepareError)
    requires Run(TieStart, events, 7, TieRank) == Ok(World(s, []))
    requires PrepareNextGroup(s.sync, 7, TieRank) == Err(error)
    ensures Run(TieStart, events + [Prepare], 7, TieRank) == Err(error)
  {
    assert (events + [Prepare])[..|events|] == events;
  }

  const TieMiddle := Sender(map[TieKey := "v1"], TieStart.sync.(outbox := [TieRecord1]))
  const TieEnd := Sender(map[TieKey := "v2"], TieStart.sync.(outbox := [TieRecord1, TieRecord2]))

  lemma FirstEdit(e: Event)
    requires e == Edit([Put(TieKey, "v1")], 2, 5, (n: nat) => 10 + n)
    ensures AfterEdit(TieStart, e) == TieMiddle
  {
    OneWrite(TieStart, e, "v0", "v1");
    assert [] + [TieRecord1] == [TieRecord1];
  }

  lemma SecondEdit(e: Event)
    requires e == Edit([Put(TieKey, "v2")], 1, 5, (n: nat) => 20 + n)
    ensures AfterEdit(TieMiddle, e) == TieEnd
  {
    OneWrite(TieMiddle, e, "v1", "v2");
    assert [TieRecord1] + [TieRecord2] == [TieRecord1, TieRecord2];
  }

  lemma TwoEdits(first: Event, second: Event)
    requires first.Edit? && AfterEdit(TieStart, first) == TieMiddle
    requires second.Edit? && AfterEdit(TieMiddle, second) == TieEnd
    ensures Run(TieStart, [first, second], 7, TieRank) == Ok(World(TieEnd, []))
  {
    assert [] + [first] == [first] && [first] + [second] == [first, second];
    RunSnoc([], first, TieStart);
    RunSnoc([first], second, TieMiddle);
  }

  /**
   * The outbox order is by time, then by random group id: two edits of one entity in the
   * same millisecond can sort backwards, and then the second is refused, before the first,
   * because it does not start from the recorded state.
   */
  lemma SameInstantCanBlockPreparation(first: Event, second: Event)
    requires first == Edit([Put(TieKey, "v1")], 2, 5, (n: nat) => 10 + n)
    requires second == Edit([Put(TieKey, "v2")], 1, 5, (n: nat) => 20 + n)
    ensures Consistent(TieStart.tables, TieStart.sync.states)
    ensures Run(TieStart, [first, second, Prepare], 7, TieRank) == Err(ChangedOutsideOutbox)
  {
    FirstEdit(first);
    SecondEdit(second);
    TwoEdits(first, second);
    TieIsRefused(TieEnd.sync);
    RunStops([first, second], TieEnd, ChangedOutsideOutbox);
    assert [first, second, Prepare] == [first, second] + [Prepare];
  }

  // ---- A row that is gone, recorded as live ----

  const EmptyStart := Sender(map[], SenderState(map[], [], []))
  const CreatedMiddle := Sender(map[TieKey := "v0"], SenderState(map[], [], [CreatedRecord]))
  const CreatedRecord := RecordOf(2, 0, 1, 5, PendingIntent(10, Created))
  const Created := Intent(TieKey, Upsert, [], None, Some("v0"))
  const Deleted := Intent(TieKey, Delete, [], Some("v0"), None)

  lemma CreateEdit(e: Event)
    requires e == Edit([Put(TieKey, "v0")], 2, 5, (n: nat) => 10 + n)
    ensures EditIntents(EmptyStart.tables, e.writes) == [Created]
    ensures IsRecorded(EmptyStart, e) && AfterEdit(EmptyStart, e) == CreatedMiddle
  {
    assert e.writes[1..] == [];
    assert EditIntents(EmptyStart.tables, e.writes) == [Created];
    assert EditPending(EmptyStart, e) == [PendingIntent(10, Created)];
    assert GroupOf(2, 5, [PendingIntent(10, Created)]) == [CreatedRecord];
    assert EditTables(EmptyStart.tables, e.writes) == map[TieKey := "v0"];
    assert [] + [CreatedRecord] == [CreatedRecord];
  }

  lemma DeleteEdit(e: Event)
    requires e == Edit([Remove(TieKey)], 1, 5, (n: nat) => 20 + n)
    ensures EditIntents(CreatedMiddle.tables, e.writes) == [Deleted]
    ensures IsRecorded(CreatedMiddle, e) && AfterEdit(CreatedMiddle, e).tables == map[]
  {
    assert e.writes[1..] == [];
    assert EditIntents(CreatedMiddle.tables, e.writes) == [Deleted];
    assert EditPending(CreatedMiddle, e) == [PendingIntent(20, Deleted)];
    assert EditTables(CreatedMiddle.tables, e.writes) == map[];
  }

  /**
   * A row created and deleted again in one millisecond, with the deletion sorting first: both are
   * prepared and uploaded without an error, and the sender ends with a live state for the row.
   */
  lemma SameInstantCanLeaveALiveState(first: Event, second: Event) returns (more: seq<Event>)
    requires first == Edit([Put(TieKey, "v0")], 2, 5, (n: nat) => 10 + n)
    requires second == Edit([Remove(TieKey)], 1, 5, (n: nat) => 20 + n)
    ensures Consistent(EmptyStart.tables, EmptyStart.sync.states)
    ensures
      var run := Run(EmptyStart, [first, second] + more, 7, TieRank);
      && run.Ok? && run.value.sender.sync.outbox == []
      && TieKey !in run.value.sender.tables
      && TieKey in run.value.sender.sync.states && !run.value.sender.sync.states[TieKey].tombstone
  {
    CreateEdit(first);
    DeleteEdit(second);
    assert Created in [Created] && Deleted in [Deleted];
    assert KeysOf([Created]) == {TieKey} && KeysOf([Deleted]) == {TieKey};
    more := TwoEditsPrepareIff(EmptyStart, first, second, 7, {7}, TieRank);
  }
}
