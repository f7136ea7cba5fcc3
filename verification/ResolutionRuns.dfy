/**
 * A resolution from one device to another (src/db/sync/conflict-repository.ts, 95-166, and
 * src/db/sync/operation-repository.ts, 254-900), and a filed group whose resolution can never be sent.
 */
module ResolutionRuns {
  import opened Wrappers
  import opened SyncOperation
  import opened Causal
  import opened MutationAudit
  import opened Replica
  import opened Outbox
  import opened RemoteApply
  import opened PrepareTheorems
  import opened Acceptance
  import opened Delivery
  import opened Convergence
  import opened ConcurrentEdits
  import opened Resolutions
  import opened ConflictRepository
  import opened ConcurrencyWitnesses

  // ---- Both devices end alike ----

  /** The prepared operations of a resolution, whole and next in the device's sequence. */
  lemma ResolutionIsSent(s: SenderState, t: Tables, cs: seq<Conflict>, selection: Selection, groupId: OpaqueId,
                         at: nat, draw: nat -> OpaqueId, device: OpaqueId, devices: set<OpaqueId>, rank: Collation)
    requires Total(rank) && Consistent(t, s.states) && RowsValid(s.rows) && Fits(s.rows, devices, rank)
    requires device in devices && cs != [] && |cs| <= MAX_GROUP_SIZE && Settleable(s.states, t, cs, selection)
    requires s.outbox == ResolvingGroup(t, cs, selection, groupId, at, draw)
    ensures PrepareNextGroup(s, device, rank).Ok?
    ensures
      var p := PrepareNextGroup(s, device, rank).value;
      var ops := OperationsOf(p.group);
      && AllSettled(ops, t, cs, selection) && Stated(p.after.states, ops)
      && CompleteRemoteGroup(ops) && SortOperations(ops) == ops && Continues(ops, device, RowSequence(s.rows, device))
  {
    var g := s.outbox;
    var pending := Queued(draw, 0, ResolvingIntents(t, cs, selection));
    var p := Progress(s.states, s.rows, MaximumLamport(s.states));
    ResolutionPreparesIff(s, t, cs, selection, groupId, at, draw, device, devices, rank);
    WholeGroupIsNext(s, g, groupId, at, pending, device, rank);
    GroupIsWhole(g, groupId, at, pending);
    PreparedInOrder(p, g, device, rank);
    PreparedAreStated(p, g, device, rank);
    PreparedGroupIsComplete(PrepareAll(p, g, device, rank).value.prepared, g, device, RowSequence(s.rows, device));
  }

  /** The resolver holds of a settled entity what its last operation on it left. */
  lemma ResolverHolds(d: Device, t: Tables, cs: seq<Conflict>, selection: Selection, ops: seq<Operation>, k: EntityKey)
    requires AllSettled(ops, t, cs, selection) && Stated(d.states, ops)
    requires d.tables == ResolvedTables(t, cs, selection) && LastOn(ops, k).Some?
    ensures HeldAt(d, k) == LeftBy(LastOn(ops, k).value)
  {
    ResolvedIsLast(t, cs, selection, ops, k);
  }

  lemma SettledAlike(staged: Device, after: Device, t: Tables, cs: seq<Conflict>, selection: Selection,
                     ops: seq<Operation>, valid: FinanceRules, c: Conflict)
    requires c in cs && AllSettled(ops, t, cs, selection) && Stated(after.states, ops) && SortOperations(ops) == ops
    requires after.tables == ResolvedTables(t, cs, selection) && Consistent(staged.tables, staged.states)
    requires ApplyRemoteGroup(staged, ops, valid).Ok?
    requires ApplyRemoteGroup(staged, ops, valid).value.outcome == GroupApplied
    ensures HeldAt(ApplyRemoteGroup(staged, ops, valid).value.device, c.key) == HeldAt(after, c.key)
  {
    forall op | op in ops ensures Opened(op) {
      var i :| 0 <= i < |ops| && ops[i] == op;
      assert SettlesAs(ops[i], t, cs, selection, i);
    }
    TouchedByOps(ops, t, cs, selection, c.key);
    AppliedHolds(staged, ops, valid, c.key);
    ResolverHolds(after, t, cs, selection, ops, c.key);
  }

  lemma DeliveredAlike(other: Device, after: Device, t: Tables, cs: seq<Conflict>, selection: Selection,
                       ops: seq<Operation>, device: OpaqueId, from: nat, cursors: OpaqueId -> nat,
                       valid: FinanceRules)
    requires AllSettled(ops, t, cs, selection) && Stated(after.states, ops)
    requires CompleteRemoteGroup(ops) && SortOperations(ops) == ops && Continues(ops, device, from)
    requires after.tables == ResolvedTables(t, cs, selection) && Consistent(other.tables, other.states)
    requires forall c :: c in cs ==> Answered(other.conflicts, c)
    requires FindRow(other.rows, device).None? || RowSequence(other.rows, device) == from
    ensures
      var end := Deliver(other, ops, cursors, valid);
      if end.Err? then end == Err(InvalidFinanceData)
      else
        && (forall c :: c in cs ==> HeldAt(end.value, c.key) == HeldAt(after, c.key))
        && TakesOver(other.tables, end.value.tables, after.tables, cs)
        && ClosesExactly(other.conflicts, end.value.conflicts, cs)
  {
    var staged := Staged(other, ops, cursors);
    ResolutionIsAccepted(staged, ops, t, cs, selection, device, from, valid);
    if Deliver(other, ops, cursors, valid).Ok? {
      forall c | c in cs ensures HeldAt(Deliver(other, ops, cursors, valid).value, c.key) == HeldAt(after, c.key) {
        SettledAlike(staged, after, t, cs, selection, ops, valid, c);
      }
    }
  }

  /**
   * One device resolves a filed group and another, where every conflict of it has a pending counterpart,
   * receives the resolution: unless the finance rules refuse it there, both hold the same value and version
   * of every settled entity, and exactly the counterparts are closed.
   */
  lemma ResolutionSettlesBoth(resolver: Device, outbox: OutboxRows, other: Device, cs: seq<Conflict>,
                              selection: Selection, groupId: OpaqueId, at: nat, draw: nat -> OpaqueId,
                              device: OpaqueId, devices: set<OpaqueId>, rank: Collation,
                              cursors: OpaqueId -> nat, valid: FinanceRules)
    requires Total(rank) && Consistent(resolver.tables, resolver.states)
    requires RowsValid(resolver.rows) && Fits(resolver.rows, devices, rank) && device in devices
    requires cs != [] && |cs| <= MAX_GROUP_SIZE && Settleable(resolver.states, resolver.tables, cs, selection)
    requires outbox == ResolvingGroup(resolver.tables, cs, selection, groupId, at, draw)
    requires Consistent(other.tables, other.states) && forall c :: c in cs ==> Answered(other.conflicts, c)
    requires FindRow(other.rows, device).None? || RowSequence(other.rows, device) == RowSequence(resolver.rows, device)
    ensures
      var p := PrepareNextGroup(SenderState(resolver.states, resolver.rows, outbox), device, rank);
      && p.Ok?
      && var end := Deliver(other, OperationsOf(p.value.group), cursors, valid);
         var after := resolver.(tables := ResolvedTables(resolver.tables, cs, selection),
                                states := p.value.after.states, rows := p.value.after.rows);
         if end.Err? then end == Err(InvalidFinanceData)
         else
           && (forall c :: c in cs ==> HeldAt(end.value, c.key) == HeldAt(after, c.key))
           && TakesOver(other.tables, end.value.tables, after.tables, cs)
           && ClosesExactly(other.conflicts, end.value.conflicts, cs)
  {
    var s := SenderState(resolver.states, resolver.rows, outbox);
    ResolutionIsSent(s, resolver.tables, cs, selection, groupId, at, draw, device, devices, rank);
    var p := PrepareNextGroup(s, device, rank).value;
    var after := resolver.(tables := ResolvedTables(resolver.tables, cs, selection), states := p.after.states,
                           rows := p.after.rows);
    DeliveredAlike(other, after, resolver.tables, cs, selection, OperationsOf(p.group), device,
      RowSequence(s.rows, device), cursors, valid);
  }

  // ---- A filed group whose resolution can never be sent ----

  const L := EntityKey(Transaction, "b")

  /** One transaction that changes the row and creates another. */
  function ChangeAndCreate(x: Json, y: Json): Event {
    Edit([Put(K, x), Put(L, y)], 10, 1, (n: nat) => 10 + n)
  }

  function ChangeIntents(v: Json, x: Json, y: Json): seq<Intent> {
    [Intent(K, Upsert, [], Some(v), Some(x)), Intent(L, Upsert, [], None, Some(y))]
  }

  function ChangeGroup(v: Json, x: Json, y: Json): OutboxRows {
    GroupOf(10, 1, Queued((n: nat) => 10 + n, 0, ChangeIntents(v, x, y)))
  }

  lemma ChangeIsRecorded(v: Json, x: Json, y: Json)
    requires v != x
    ensures EditIntents(map[K := v], [Put(K, x), Put(L, y)]) == ChangeIntents(v, x, y)
    ensures EditTables(map[K := v], [Put(K, x), Put(L, y)]) == map[K := x, L := y]
    ensures AfterEdit(SenderOf(Fresh(v)), ChangeAndCreate(x, y)) ==
      Sender(map[K := x, L := y], SenderOf(Fresh(v)).sync.(outbox := ChangeGroup(v, x, y)))
  {
    var t: Tables := map[K := v];
    var writes := [Put(K, x), Put(L, y)];
    assert writes[1..] == [Put(L, y)] && [Put(L, y)][1..] == [];
    assert Written(t, writes[0]) == map[K := x];
    assert EditIntents(map[K := x], writes[1..]) == IntentFor(map[K := x], Put(L, y)) + [];
    assert EditTables(map[K := x], writes[1..]) == map[K := x, L := y];
    var pending := EditPending(SenderOf(Fresh(v)), ChangeAndCreate(x, y));
    assert pending == Queued((n: nat) => 10 + n, 0, ChangeIntents(v, x, y));
    assert [] + ChangeGroup(v, x, y) == ChangeGroup(v, x, y);
  }

  lemma ChangeReplays(v: Json, x: Json, y: Json)
    ensures Replay(map[K := v], GroupIntents(ChangeGroup(v, x, y))) == Some(map[K := x, L := y])
  {
    var intents := ChangeIntents(v, x, y);
    var t: Tables := map[K := v];
    assert GroupIntents(ChangeGroup(v, x, y)) == intents;
    assert intents == [intents[0]] + [intents[1]];
    assert Patch(t, intents[0]) == map[K := x] && Patch(map[K := x], intents[1]) == map[K := x, L := y];
    assert Replay(t, []) == Some(t) && Replay(t, [] + [intents[0]]) == Some(map[K := x]) by {
      ReplaySnoc(t, [], intents[0]);
    }
    assert [] + [intents[0]] == [intents[0]];
    ReplaySnoc(t, [intents[0]], intents[1]);
  }

  /** What device 1 sends: the change, and the creation in the same group. */
  lemma ChangeIsSent(v: Json, x: Json, y: Json) returns (w: World, change: Operation, creation: Operation)
    requires v != x
    ensures
      var events := [ChangeAndCreate(x, y), Prepare];
      && Run(SenderOf(Fresh(v)), events, 1, RankById) == Ok(w)
      && PlausibleRun(SenderOf(Fresh(v)), events, 1, RankById, _ => true)
    ensures w.sent == [[change, creation]]
    ensures change.id == 10 && change.groupId == 10 && change.groupIndex == 0 && change.groupSize == 2
    ensures change.command.key == K && change.command.value == Some(x)
    ensures creation.id == 11 && creation.groupId == 10 && creation.groupIndex == 1 && creation.groupSize == 2
    ensures creation.command.key == L && creation.command.value == Some(y)
  {
    var mid := ChangeIsEdited(v, x, y);
    w, change, creation := ChangeIsStepped(v, x, y, mid);
    TwoSteps(SenderOf(Fresh(v)), ChangeAndCreate(x, y), Prepare, mid, w, 1, RankById, _ => true);
  }

  lemma ChangeIsEdited(v: Json, x: Json, y: Json) returns (mid: World)
    requires v != x
    ensures Step(World(SenderOf(Fresh(v)), []), ChangeAndCreate(x, y), 1, RankById) == Ok(mid)
    ensures Plausible(World(SenderOf(Fresh(v)), []), ChangeAndCreate(x, y), RankById, _ => true)
    ensures mid.sent == []
    ensures mid.sender.sync == SenderState(Fresh(v).states, [], ChangeGroup(v, x, y))
  {
    ChangeIsRecorded(v, x, y);
    mid := World(AfterEdit(SenderOf(Fresh(v)), ChangeAndCreate(x, y)), []);
  }

  lemma ChangeIsStepped(v: Json, x: Json, y: Json, mid: World)
    returns (w: World, change: Operation, creation: Operation)
    requires mid.sent == [] && mid.sender.sync == SenderState(Fresh(v).states, [], ChangeGroup(v, x, y))
    ensures Step(mid, Prepare, 1, RankById) == Ok(w) && w.sent == [[change, creation]]
    ensures change.id == 10 && change.groupId == 10 && change.groupIndex == 0 && change.groupSize == 2
    ensures change.command.key == K && change.command.value == Some(x)
    ensures creation.id == 11 && creation.groupId == 10 && creation.groupIndex == 1 && creation.groupSize == 2
    ensures creation.command.key == L && creation.command.value == Some(y)
  {
    var g := ChangeGroup(v, x, y);
    ChangeIsPrepared(v, x, y, mid.sender.sync, g);
    ChangeIsPair(v, x, y);
    var p := PrepareNextGroup(mid.sender.sync, 1, RankById).value;
    change, creation := PairOfGroup(OperationsOf(p.group), g, x, y);
    StepPrepares(mid, p, 1, RankById);
    w := World(mid.sender.(sync := p.after), [] + [OperationsOf(p.group)]);
  }

  /** The change and the creation, as records of one group or as its operations. */
  predicate IsPair(g: OutboxRows, x: Json, y: Json) {
    && |g| == 2 && g[0].groupId == g[1].groupId == 10
    && g[0].operationId == 10 && g[0].groupIndex == 0 && g[0].groupSize == 2
    && g[1].operationId == 11 && g[1].groupIndex == 1 && g[1].groupSize == 2
    && g[0].intent.key == K && g[0].intent.value == Some(x) && g[1].intent.key == L && g[1].intent.value == Some(y)
  }

  lemma ChangeIsPair(v: Json, x: Json, y: Json)
    ensures IsPair(ChangeGroup(v, x, y), x, y)
  {}

  lemma PairOfGroup(ops: seq<Operation>, g: OutboxRows, x: Json, y: Json)
    returns (change: Operation, creation: Operation)
    requires IsPair(g, x, y) && |ops| == 2 && OperationsFor(ops, g, 1)
    ensures ops == [change, creation]
    ensures change.id == 10 && change.groupId == 10 && change.groupIndex == 0 && change.groupSize == 2
    ensures change.command.key == K && change.command.value == Some(x)
    ensures creation.id == 11 && creation.groupId == 10 && creation.groupIndex == 1 && creation.groupSize == 2
    ensures creation.command.key == L && creation.command.value == Some(y)
  {
    change, creation := ops[0], ops[1];
    assert OperationOf(ops[0], g[0], 1) && OperationOf(ops[1], g[1], 1);
  }

  lemma TwoSteps(start: Sender, e1: Event, e2: Event, mid: World, next: World, device: OpaqueId, rank: Collation,
                 valid: FinanceRules)
    requires Step(World(start, []), e1, device, rank) == Ok(mid) && Plausible(World(start, []), e1, rank, valid)
    requires Step(mid, e2, device, rank) == Ok(next) && Plausible(mid, e2, rank, valid)
    ensures Run(start, [e1, e2], device, rank) == Ok(next) && PlausibleRun(start, [e1, e2], device, rank, valid)
  {
    RunOneMore(start, [], e1, World(start, []), mid, device, rank, valid);
    RunOneMore(start, [] + [e1], e2, mid, next, device, rank, valid);
    assert [] + [e1] + [e2] == [e1, e2];
  }

  lemma ChangeStands(v: Json, x: Json, y: Json, states: States)
    ensures
      var g := ChangeGroup(v, x, y);
      |g| == 2 && (forall r :: r in g ==> RecordStands(r)) && AllGrounded(states, map[K := v], g, 2)
  {}

  /** A whole group at a fresh device. */
  lemma PreparesAtFresh(v: Json, s: SenderState, g: OutboxRows, pending: seq<PendingIntent>)
    requires s.outbox == g && pending != [] && g == GroupOf(10, 1, pending)
    requires s.states == Fresh(v).states && s.rows == []
    requires (forall r :: r in g ==> RecordStands(r)) && Replay(map[K := v], GroupIntents(g)).Some?
    requires AllGrounded(s.states, map[K := v], g, |g|)
    ensures
      var r := PrepareNextGroup(s, 1, RankById);
      && r.Ok? && |r.value.group| == |g| && OperationsFor(OperationsOf(r.value.group), g, 1)
      && RowSequence(r.value.after.rows, 1) == |g|
  {
    var p := Progress(s.states, s.rows, MaximumLamport(s.states));
    FreshTwins(v);
    GroupPreparesIff(p, map[K := v], g, 1, {1, 2}, RankById);
    PreparedInOrder(p, g, 1, RankById);
    WholeGroupIsNext(s, g, 10, 1, pending, 1, RankById);
  }

  lemma ChangeIsPrepared(v: Json, x: Json, y: Json, s: SenderState, g: OutboxRows)
    requires g == ChangeGroup(v, x, y) && s.outbox == g && s.states == Fresh(v).states && s.rows == []
    ensures
      var r := PrepareNextGroup(s, 1, RankById);
      && r.Ok? && |r.value.group| == 2 && OperationsFor(OperationsOf(r.value.group), g, 1)
      && RowSequence(r.value.after.rows, 1) == 2
  {
    ChangeReplays(v, x, y);
    ChangeStands(v, x, y, s.states);
    PreparesAtFresh(v, s, g, Queued((n: nat) => 10 + n, 0, ChangeIntents(v, x, y)));
  }

  lemma {:induction false} AdvanceKeepsRows(d: Device, ops: seq<Operation>, status: InboxStatus,
                                            devices: set<OpaqueId>, rank: Collation)
    requires RowsValid(d.rows) && Fits(d.rows, devices, rank) && AdvanceAll(d, ops, status).Ok?
    requires forall op :: op in ops ==> op.device in devices && op.sequence > 0
    ensures RowsValid(AdvanceAll(d, ops, status).value.rows)
    ensures Fits(AdvanceAll(d, ops, status).value.rows, devices, rank)
    decreases |ops|
  {
    if ops != [] {
      assert ops[|ops| - 1] in ops && forall op :: op in ops[..|ops| - 1] ==> op in ops;
      AdvanceKeepsRows(d, ops[..|ops| - 1], status, devices, rank);
    }
  }

  /** The operation waits as a pending conflict. */
  predicate IsFiled(d: Device, op: Operation) {
    && op.id in d.conflicts && d.conflicts[op.id].remote == op && d.conflicts[op.id].key == op.command.key
    && d.conflicts[op.id].resolution == Pending
  }

  ghost predicate IsConflicted(d: Device, ops: seq<Operation>, valid: FinanceRules) {
    ApplyRemoteGroup(d, ops, valid).Ok? && ApplyRemoteGroup(d, ops, valid).value.outcome == GroupConflicted
  }

  lemma NothingElseIsFiled(d: Device, ops: seq<Operation>, valid: FinanceRules, id: OpaqueId)
    requires Plain(ops) && IsConflicted(d, ops, valid) && d.conflicts == map[]
    requires id in ApplyRemoteGroup(d, ops, valid).value.device.conflicts
    ensures exists op :: op in ops && op.id == id
  {
    if forall op :: op in ops ==> op.id != id { ConflictedKeepsOthers(d, ops, valid, id); }
  }

  lemma ConflictedMeans(d: Device, ops: seq<Operation>, valid: FinanceRules)
    requires SortOperations(ops) == ops && IsConflicted(d, ops, valid)
    ensures
      var filed := d.(conflicts := FileConflicts(d.conflicts, ProposeAll(d, ops).proposals));
      AdvanceAll(filed, ops, Conflicted) == Ok(ApplyRemoteGroup(d, ops, valid).value.device)
  {}

  lemma GroupIsFiled(d: Device, ops: seq<Operation>, valid: FinanceRules, i: nat)
    requires Plain(ops) && IsConflicted(d, ops, valid) && i < |ops|
    ensures IsFiled(ApplyRemoteGroup(d, ops, valid).value.device, ops[i])
  {
    ConflictedMeans(d, ops, valid);
    ConflictedFiles(d, ops, i);
  }

  lemma FilingKeepsRows(d: Device, ops: seq<Operation>, valid: FinanceRules, devices: set<OpaqueId>, rank: Collation)
    requires Plain(ops) && IsConflicted(d, ops, valid) && RowsValid(d.rows) && Fits(d.rows, devices, rank)
    requires forall op :: op in ops ==> op.device in devices && op.sequence > 0
    ensures
      var rows := ApplyRemoteGroup(d, ops, valid).value.device.rows;
      RowsValid(rows) && Fits(rows, devices, rank)
  {
    ConflictedMeans(d, ops, valid);
    AdvanceKeepsRows(d.(conflicts := FileConflicts(d.conflicts, ProposeAll(d, ops).proposals)), ops, Conflicted,
      devices, rank);
  }

  // ---- Keeping the local side of a group that creates a row ----

  lemma PairIsSent(v: Json, x: Json, y: Json, w: World, ops: seq<Operation>)
    requires Run(SenderOf(Fresh(v)), [ChangeAndCreate(x, y), Prepare], 1, RankById) == Ok(w)
    requires PlausibleRun(SenderOf(Fresh(v)), [ChangeAndCreate(x, y), Prepare], 1, RankById, _ => true)
    requires w.sent == [ops]
    ensures Whole(ops) && WrittenInTurn(Fresh(v), ops) && Continues(ops, 1, 0)
  {
    FreshTwins(v);
    SentIsWritten(Fresh(v), Fresh(v), [ChangeAndCreate(x, y), Prepare], 1, {1, 2}, RankById, _ => true);
    assert SentBy(Fresh(v), [ChangeAndCreate(x, y), Prepare], 1, RankById) == [ops];
    assert [ops][..0] == [] && [] + ops == ops && AllOf([ops]) == ops;
    assert ops in [ops];
  }

  lemma EditIsKnown(v: Json, z: Json, w: World, op: Operation)
    requires Run(SenderOf(Fresh(v)), CycleOf(z, 20, 1, 20), 2, RankById) == Ok(w)
    requires PlausibleRun(SenderOf(Fresh(v)), CycleOf(z, 20, 1, 20), 2, RankById, _ => true)
    requires w.sent == [[op]] && w.sender.sync.outbox == [] && op.command.key == K
    ensures WrittenInTurn(Fresh(v), [op]) && Knows(Fresh(v), Took(Fresh(v), w), [op])
    ensures LastOn([op], K) == Some(op) && FindRow(w.sender.sync.rows, 1).None?
  {
    FreshTwins(v);
    ListOfOne(op);
    SentIsWritten(Fresh(v), Fresh(v), CycleOf(z, 20, 1, 20), 2, {1, 2}, RankById, _ => true);
    RanHolds(Fresh(v), Fresh(v), Took(Fresh(v), w), CycleOf(z, 20, 1, 20), 2, {1, 2}, RankById, _ => true);
    RunKeepsRow(SenderOf(Fresh(v)), CycleOf(z, 20, 1, 20), 2, RankById, 1);
    assert SentBy(Fresh(v), CycleOf(z, 20, 1, 20), 2, RankById) == [[op]];
  }

  lemma ChangeIsRefused(start: Device, held: Device, op: Operation, change: Operation, creation: Operation)
    requires Consistent(start.tables, start.states) && WrittenInTurn(start, [op]) && Knows(start, held, [op])
    requires WrittenInTurn(start, [change, creation]) && op.command.key == K && LastOn([op], K) == Some(op)
    requires change.command.key == K && creation.command.key == L && change.command.value != op.command.value
    ensures Refuses(HeldAt(held, K), [change, creation], K) && Names([change, creation], K)
  {
    EditedRefuses(start, held, [op], [change, creation], K);
    assert [change, creation][0] in [change, creation];
  }

  /** Device 2 after its own edit and the group of device 1. */
  lemma ChangeMeetsEdit(v: Json, x: Json, y: Json, z: Json, cursors: OpaqueId -> nat)
    returns (w1: World, w2: World, change: Operation, creation: Operation)
    requires v != x && v != z && x != z
    ensures Run(SenderOf(Fresh(v)), [ChangeAndCreate(x, y), Prepare], 1, RankById) == Ok(w1)
    ensures Run(SenderOf(Fresh(v)), CycleOf(z, 20, 1, 20), 2, RankById) == Ok(w2)
    ensures w1.sent == [[change, creation]] && Plain([change, creation])
    ensures change.id == 10 && change.groupId == 10 && change.groupIndex == 0 && change.groupSize == 2
    ensures creation.id == 11 && creation.groupId == 10 && creation.groupIndex == 1 && creation.groupSize == 2
    ensures change.command.key == K && creation.command.key == L
    ensures change.device == 1 && change.sequence > 0 && creation.device == 1 && creation.sequence > 0
    ensures w2.sender.tables == map[K := z] && w2.sender.sync.states.Keys == {K} && w2.sender.sync.outbox == []
    ensures RowsValid(w2.sender.sync.rows) && Fits(w2.sender.sync.rows, {1, 2}, RankById)
    ensures Consistent(w2.sender.tables, w2.sender.sync.states)
    ensures IsConflicted(Staged(Took(Fresh(v), w2), [change, creation], cursors), [change, creation], _ => true)
  {
    var opz;
    w1, change, creation := ChangeIsSent(v, x, y);
    w2, opz := FirstRun(v, z, 2);
    var ops := [change, creation];
    PairIsSent(v, x, y, w1, ops);
    EditIsKnown(v, z, w2, opz);
    PairMeetsEdit(Fresh(v), Took(Fresh(v), w2), opz, change, creation, cursors);
  }

  lemma PairMeetsEdit(start: Device, held: Device, op: Operation, change: Operation, creation: Operation,
                      cursors: OpaqueId -> nat)
    requires Consistent(start.tables, start.states) && WrittenInTurn(start, [op]) && Knows(start, held, [op])
    requires op.command.key == K && LastOn([op], K) == Some(op) && change.command.value != op.command.value
    requires change.command.key == K && creation.command.key == L && change.id != creation.id
    requires Whole([change, creation]) && WrittenInTurn(start, [change, creation])
    requires Continues([change, creation], 1, 0)
    requires Consistent(held.tables, held.states) && FindRow(held.rows, 1).None?
    ensures Plain([change, creation])
    ensures IsConflicted(Staged(held, [change, creation], cursors), [change, creation], _ => true)
  {
    ChangeIsRefused(start, held, op, change, creation);
    RefusedGroupIsConflicted(held, [change, creation], cursors, K, 1, _ => true);
  }

  lemma NotAcceptedIsConflicted(d: Device, ops: seq<Operation>, valid: FinanceRules)
    requires SortOperations(ops) == ops && !AllAccepted(ProposeAll(d, ops).proposals)
    requires ApplyRemoteGroup(d, ops, valid).Ok?
    ensures IsConflicted(d, ops, valid)
  {}

  lemma RefusedGroupIsConflicted(held: Device, ops: seq<Operation>, cursors: OpaqueId -> nat, k: EntityKey,
                                 device: OpaqueId, valid: FinanceRules)
    requires Consistent(held.tables, held.states) && Plain(ops) && Continues(ops, device, 0)
    requires Refuses(HeldAt(held, k), ops, k) && Names(ops, k) && FindRow(held.rows, device).None?
    ensures IsConflicted(Staged(held, ops, cursors), ops, valid)
  {
    var staged := Staged(held, ops, cursors);
    TurnedApplies(held, ops, cursors, k, device, valid);
    StagedRefuses(held, ops, cursors, k);
    NotAcceptedIsConflicted(staged, ops, valid);
  }

  lemma TurnedApplies(held: Device, ops: seq<Operation>, cursors: OpaqueId -> nat, k: EntityKey, device: OpaqueId,
                      valid: FinanceRules)
    requires Consistent(held.tables, held.states) && Plain(ops) && Continues(ops, device, 0)
    requires Refuses(HeldAt(held, k), ops, k) && Names(ops, k) && FindRow(held.rows, device).None?
    ensures ApplyRemoteGroup(Staged(held, ops, cursors), ops, valid).Ok?
  {
    assert Turned(held, ops);
    TurnedAway(held, ops, device, 0, cursors, valid);
  }

  lemma StagedRefuses(held: Device, ops: seq<Operation>, cursors: OpaqueId -> nat, k: EntityKey)
    requires Consistent(held.tables, held.states) && Plain(ops)
    requires Refuses(HeldAt(held, k), ops, k) && Names(ops, k)
    ensures !AllAccepted(ProposeAll(Staged(held, ops, cursors), ops).proposals)
  {
    assert HeldAt(Staged(held, ops, cursors), k) == HeldAt(held, k);
    RefusedIsConflicted(Staged(held, ops, cursors), ops, k);
  }

  /** Both conflicts of the group, in its order. */
  lemma BothAreListed(d: Device, change: Operation, creation: Operation)
    requires IsFiled(d, change) && IsFiled(d, creation) && d.conflicts.Keys == {10, 11}
    requires change.id == 10 && change.groupId == 10 && change.groupIndex == 0 && change.groupSize == 2
    requires creation.id == 11 && creation.groupId == 10 && creation.groupIndex == 1 && creation.groupSize == 2
    ensures IsOrder(d.conflicts, 10, [10, 11])
    ensures ConflictsAt(d.conflicts, [10, 11]) == [d.conflicts[10], d.conflicts[11]]
  {
    assert Members([10, 11]) == {10, 11};
  }

  lemma FiledKeys(d: Device, change: Operation, creation: Operation)
    requires Plain([change, creation]) && IsConflicted(d, [change, creation], _ => true) && d.conflicts == map[]
    requires change.id == 10 && creation.id == 11
    ensures
      var end := ApplyRemoteGroup(d, [change, creation], _ => true).value.device;
      IsFiled(end, change) && IsFiled(end, creation) && end.conflicts.Keys == {10, 11}
  {
    var ops := [change, creation];
    var end := ApplyRemoteGroup(d, ops, _ => true).value.device;
    GroupIsFiled(d, ops, _ => true, 0);
    GroupIsFiled(d, ops, _ => true, 1);
    forall id | id in end.conflicts ensures id in {10, 11} { NothingElseIsFiled(d, ops, _ => true, id); }
  }

  lemma UnknownIsNotSettleable(states: States, t: Tables, change: Conflict, creation: Conflict)
    requires change.key == K && creation.key == L && L !in states && L !in t
    ensures !Settleable(states, t, [change, creation], KeepLocal)
  {
    assert !Settled(states, t, [change, creation], KeepLocal, 1);
  }

  /**
   * A group that changes a row and creates another is filed, because the row was edited here as well. Keeping
   * the local side of it records the deletion of a row this device has never held, and that can never be
   * prepared.
   */
  lemma KeepingLocalCanBlock(v: Json, x: Json, y: Json, z: Json, cursors: OpaqueId -> nat, auditGroup: OpaqueId,
                             at: nat, draw: nat -> OpaqueId)
    returns (w1: World, w2: World, end: Device)
    requires v != x && v != z && x != z
    ensures Run(SenderOf(Fresh(v)), [ChangeAndCreate(x, y), Prepare], 1, RankById) == Ok(w1)
    ensures Run(SenderOf(Fresh(v)), CycleOf(z, 20, 1, 20), 2, RankById) == Ok(w2)
    ensures DeliverAll(Took(Fresh(v), w2), w1.sent, cursors, _ => true) == Ok(end)
    ensures IsOrder(end.conflicts, 10, [10, 11])
    ensures
      var cs := ConflictsAt(end.conflicts, [10, 11]);
      var outbox := ResolvingGroup(end.tables, cs, KeepLocal, auditGroup, at, draw);
      && ResolvedTables(end.tables, cs, KeepLocal) == map[K := z]
      && PrepareNextGroup(SenderState(end.states, end.rows, outbox), 2, RankById) == Err(InvalidOperation)
  {
    var change, creation;
    w1, w2, change, creation := ChangeMeetsEdit(v, x, y, z, cursors);
    var held := Took(Fresh(v), w2);
    end := PairIsFiled(held, change, creation, cursors);
    OneDelivery(held, [change, creation], cursors, _ => true);
    BothAreListed(end, change, creation);
    KeepingBlocks(end, end.conflicts[10], end.conflicts[11], z, auditGroup, at, draw);
  }

  lemma OneDelivery(d: Device, ops: seq<Operation>, cursors: OpaqueId -> nat, valid: FinanceRules)
    ensures DeliverAll(d, [ops], cursors, valid) == Deliver(d, ops, cursors, valid)
  {
    assert [ops][..0] == [];
  }

  /** What filing the pair leaves: tables and states as they were, and both conflicts. */
  lemma PairIsFiled(held: Device, change: Operation, creation: Operation, cursors: OpaqueId -> nat)
    returns (end: Device)
    requires
      var ops := [change, creation];
      Plain(ops) && IsConflicted(Staged(held, ops, cursors), ops, _ => true) && held.conflicts == map[]
    requires RowsValid(held.rows) && Fits(held.rows, {1, 2}, RankById) && change.id == 10 && creation.id == 11
    requires change.device == 1 && change.sequence > 0 && creation.device == 1 && creation.sequence > 0
    ensures Deliver(held, [change, creation], cursors, _ => true) == Ok(end)
    ensures end.tables == held.tables && end.states == held.states
    ensures RowsValid(end.rows) && Fits(end.rows, {1, 2}, RankById)
    ensures IsFiled(end, change) && IsFiled(end, creation) && end.conflicts.Keys == {10, 11}
  {
    var ops := [change, creation];
    var staged := Staged(held, ops, cursors);
    end := ApplyRemoteGroup(staged, ops, _ => true).value.device;
    FiledKeys(staged, change, creation);
    FilingKeepsTables(staged, ops, _ => true);
    FilingKeepsRows(staged, ops, _ => true, {1, 2}, RankById);
  }

  lemma FilingKeepsTables(d: Device, ops: seq<Operation>, valid: FinanceRules)
    requires SortOperations(ops) == ops && IsConflicted(d, ops, valid)
    ensures ApplyRemoteGroup(d, ops, valid).value.device.tables == d.tables
    ensures ApplyRemoteGroup(d, ops, valid).value.device.states == d.states
  {
    ConflictedMeans(d, ops, valid);
    AdvanceMovesFrontier(d.(conflicts := FileConflicts(d.conflicts, ProposeAll(d, ops).proposals)), ops, Conflicted, 0);
  }

  lemma KeptTables(change: Conflict, creation: Conflict, z: Json)
    requires change.key == K && creation.key == L
    ensures ResolvedTables(map[K := z], [change, creation], KeepLocal) == map[K := z]
  {
    assert [change, creation][..1] == [change] && [change][..0] == [];
    assert ResolvedTables(map[K := z], [change], KeepLocal) == map[K := z];
  }

  lemma KeepingBlocks(end: Device, change: Conflict, creation: Conflict, z: Json, auditGroup: OpaqueId, at: nat,
                      draw: nat -> OpaqueId)
    requires change.key == K && creation.key == L && end.tables == map[K := z] && end.states.Keys == {K}
    requires Consistent(end.tables, end.states) && RowsValid(end.rows) && Fits(end.rows, {1, 2}, RankById)
    ensures
      var cs := [change, creation];
      var outbox := ResolvingGroup(end.tables, cs, KeepLocal, auditGroup, at, draw);
      && ResolvedTables(end.tables, cs, KeepLocal) == map[K := z]
      && PrepareNextGroup(SenderState(end.states, end.rows, outbox), 2, RankById) == Err(InvalidOperation)
  {
    var cs := [change, creation];
    UnknownIsNotSettleable(end.states, end.tables, change, creation);
    ResolutionPreparesIff(SenderState(end.states, end.rows,
      ResolvingGroup(end.tables, cs, KeepLocal, auditGroup, at, draw)), end.tables, cs, KeepLocal, auditGroup, at, draw,
      2, {1, 2}, RankById);
    KeptTables(change, creation, z);
  }
}
