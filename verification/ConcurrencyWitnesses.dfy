/**
 * Runs of two replicas: one edit against two of the same entity, and a group that arrives while an edit
 * still waits to be prepared (src/features/sync/operation-service.ts, 173-246).
 */
module ConcurrencyWitnesses {
  import opened Wrappers
  import opened SyncOperation
  import opened Causal
  import opened MutationAudit
  import opened Replica
  import opened Outbox
  import opened RemoteApply
  import opened ApplyTheorems
  import opened PrepareTheorems
  import opened Acceptance
  import opened Convergence
  import opened Delivery
  import opened ConcurrentEdits

  // ---- One edit that is prepared and uploaded ----

  const K := EntityKey(Account, "a")

  /** Just one row, recorded at the given version. */
  ghost predicate HoldsOne(s: Sender, json: Json, version: nat) {
    && s.tables == map[K := json] && s.sync.states.Keys == {K}
    && Consistent(s.tables, s.sync.states) && s.sync.states[K].version == version
  }

  function EditTo(json: Json, groupId: OpaqueId, at: nat, id: OpaqueId): Event {
    Edit([Put(K, json)], groupId, at, (n: nat) => id + n)
  }

  function RecordTo(before: Json, json: Json, groupId: OpaqueId, at: nat, id: OpaqueId): OutboxRecord {
    RecordOf(groupId, 0, 1, at, PendingIntent(id, Intent(K, Upsert, [], Some(before), Some(json))))
  }

  lemma EditToOne(s: Sender, before: Json, json: Json, groupId: OpaqueId, at: nat, id: OpaqueId)
    requires s.tables == map[K := before] && before != json && s.sync.outbox == []
    ensures AfterEdit(s, EditTo(json, groupId, at, id)) ==
      Sender(map[K := json], s.sync.(outbox := [RecordTo(before, json, groupId, at, id)]))
  {
    var e := EditTo(json, groupId, at, id);
    var i := Intent(K, Upsert, [], Some(before), Some(json));
    assert e.writes[1..] == [];
    assert EditIntents(s.tables, e.writes) == [i];
    assert EditPending(s, e) == [PendingIntent(id, i)];
    assert GroupOf(groupId, at, [PendingIntent(id, i)]) == [RecordTo(before, json, groupId, at, id)];
    assert EditTables(s.tables, e.writes) == map[K := json];
    assert [] + [RecordTo(before, json, groupId, at, id)] == [RecordTo(before, json, groupId, at, id)];
  }

  lemma OneIsChosen(r: OutboxRecord, rank: Collation)
    requires r.state == IntentOnly
    ensures SortOutbox(NotUploading([r]), rank) == [r]
    ensures SortByIndex(OfGroup([r], r.groupId)) == [r]
  {
    assert [r][1..] == [] && OfGroup([r], r.groupId) == [r];
  }

  lemma OneIsPut(r: OutboxRecord, op: Operation)
    ensures PutRecords([r], [Sealed(r, op)]) == [Sealed(r, op)]
  {
    assert [r][1..] == [] && [Sealed(r, op)][..0] == [];
    assert PutRecords([r], [Sealed(r, op)]) == PutRecord([r], Sealed(r, op));
  }

  lemma OnePrepared(p: Progress, r: OutboxRecord, op: Operation, device: OpaqueId, rank: Collation)
    requires PrepareOne(p, r, device, rank) == Ok(op)
    ensures PrepareAll(p, [r], device, rank) == Ok(Batch(Advanced(p, op), [Sealed(r, op)]))
  {
    assert [r][..0] == [] && [] + [Sealed(r, op)] == [Sealed(r, op)];
  }

  /** The whole outbox is one group that nothing was prepared of. */
  ghost predicate IsOneGroup(g: OutboxRows, rank: Collation) {
    && g != [] && SortOutbox(NotUploading(g), rank) == g && SortByIndex(OfGroup(g, g[0].groupId)) == g
    && CompleteGroup(g) && ConsistentRemainder(g) && NonePrepared(g) && !AllPrepared(g)
  }

  lemma OneIsOneGroup(r: OutboxRecord, rank: Collation)
    requires r.envelope.None? && r.state == IntentOnly && r.groupIndex == 0 && r.groupSize == 1
    ensures IsOneGroup([r], rank)
  {
    OneIsChosen(r, rank);
    assert r in [r];
  }

  lemma OneGroupPrepares(s: SenderState, g: OutboxRows, batch: Batch, device: OpaqueId, rank: Collation)
    requires s.outbox == g && IsOneGroup(g, rank)
    requires PrepareAll(Progress(s.states, s.rows, MaximumLamport(s.states)), g, device, rank) == Ok(batch)
    ensures PrepareNextGroup(s, device, rank) ==
      Ok(Prepared(SenderState(batch.progress.states, batch.progress.rows, PutRecords(g, batch.prepared)),
        batch.prepared))
  {}

  lemma OnePrepares(s: SenderState, r: OutboxRecord, op: Operation, device: OpaqueId, rank: Collation)
    requires s.outbox == [r] && r.envelope.None? && r.state == IntentOnly && r.groupIndex == 0 && r.groupSize == 1
    requires PrepareOne(Progress(s.states, s.rows, MaximumLamport(s.states)), r, device, rank) == Ok(op)
    ensures
      var p := Advanced(Progress(s.states, s.rows, MaximumLamport(s.states)), op);
      PrepareNextGroup(s, device, rank) == Ok(Prepared(SenderState(p.states, p.rows, [Sealed(r, op)]), [Sealed(r, op)]))
  {
    var p := Progress(s.states, s.rows, MaximumLamport(s.states));
    OneIsOneGroup(r, rank);
    OneIsPut(r, op);
    OnePrepared(p, r, op, device, rank);
    OneGroupPrepares(s, [r], Batch(Advanced(p, op), [Sealed(r, op)]), device, rank);
  }

  // ---- The cycle of one edit ----

  /** Edited to `json`, prepared by this device and uploaded: one version on, and one group more sent. */
  ghost predicate Cycled(w: World, next: World, op: Operation, json: Json, version: nat, id: OpaqueId) {
    && next.sent == w.sent + [[op]] && next.sender.sync.outbox == []
    && HoldsOne(next.sender, json, version + 1)
    && op.id == id && op.command.key == K && LeftBy(op) == Holding(version + 1, Some(json), None)
  }

  lemma OpOfEdit(s: Sender, before: Json, json: Json, version: nat, groupId: OpaqueId, at: nat, id: OpaqueId,
                 device: OpaqueId, devices: set<OpaqueId>, rank: Collation)
    returns (op: Operation)
    requires Total(rank) && HoldsOne(s, before, version) && before != json && s.sync.outbox == []
    requires RowsValid(s.sync.rows) && Fits(s.sync.rows, devices, rank) && device in devices
    ensures
      var p := Progress(s.sync.states, s.sync.rows, MaximumLamport(s.sync.states));
      PrepareOne(p, RecordTo(before, json, groupId, at, id), device, rank) == Ok(op)
    ensures op.id == id && op.command.key == K && LeftBy(op) == Holding(version + 1, Some(json), None)
    ensures Opened(op) && op.device == device && op.sequence > 0
  {
    var p := Progress(s.sync.states, s.sync.rows, MaximumLamport(s.sync.states));
    var r := RecordTo(before, json, groupId, at, id);
    PrepareStep(p, s.tables, r, device, devices, rank);
    op := PrepareOne(p, r, device, rank).value;
  }

  function AfterOne(s: Sender, json: Json, op: Operation, outbox: OutboxRows): Sender {
    Sender(map[K := json], SenderState(s.sync.states[op.command.key := StateAfter(op)],
      PutRow(s.sync.rows, RowAfter(s.sync.rows, op)), outbox))
  }

  lemma PrepareStepOfOne(w: World, s: Sender, r: OutboxRecord, json: Json, op: Operation, device: OpaqueId,
                         rank: Collation)
    requires w.sender == Sender(map[K := json], s.sync.(outbox := [r]))
    requires r.envelope.None? && r.state == IntentOnly && r.groupIndex == 0 && r.groupSize == 1
    requires PrepareOne(Progress(s.sync.states, s.sync.rows, MaximumLamport(s.sync.states)), r, device, rank) == Ok(op)
    requires op.device == device
    ensures Step(w, Prepare, device, rank) == Ok(World(AfterOne(s, json, op, [Sealed(r, op)]), w.sent + [[op]]))
  {
    var p := Advanced(Progress(s.sync.states, s.sync.rows, MaximumLamport(s.sync.states)), op);
    var after := SenderState(p.states, p.rows, [Sealed(r, op)]);
    OnePrepares(w.sender.sync, r, op, device, rank);
    assert OperationsOf([Sealed(r, op)]) == [op];
    assert after.outbox[0] != w.sender.sync.outbox[0];
    StepPrepares(w, Prepared(after, [Sealed(r, op)]), device, rank);
  }

  lemma StepPrepares(w: World, p: Prepared, device: OpaqueId, rank: Collation)
    requires PrepareNextGroup(w.sender.sync, device, rank) == Ok(p) && p.after != w.sender.sync
    ensures Step(w, Prepare, device, rank) == Ok(World(w.sender.(sync := p.after), w.sent + [OperationsOf(p.group)]))
  {}

  lemma UploadStepOfOne(w: World, r: OutboxRecord, device: OpaqueId, rank: Collation)
    requires w.sender.sync.outbox == [r] && r.envelope.Some?
    ensures Step(w, Uploaded(r.operationId), device, rank) ==
      Ok(w.(sender := w.sender.(sync := w.sender.sync.(outbox := []))))
  {
    assert r in [r] && [r][1..] == [];
    assert Uploadable([r], r.operationId);
    assert WithoutRecord([r], r.operationId) == WithoutRecord([], r.operationId);
  }

  lemma AfterOneHolds(s: Sender, before: Json, json: Json, version: nat, op: Operation, devices: set<OpaqueId>,
                      rank: Collation)
    requires HoldsOne(s, before, version) && Opened(op) && op.command.key == K
    requires LeftBy(op) == Holding(version + 1, Some(json), None)
    requires RowsValid(s.sync.rows) && Fits(s.sync.rows, devices, rank) && op.device in devices
    ensures HoldsOne(AfterOne(s, json, op, []), json, version + 1)
    ensures
      var rows := AfterOne(s, json, op, []).sync.rows;
      RowsValid(rows) && Fits(rows, devices, rank)
  {}

  lemma OneCycle(w: World, before: Json, json: Json, version: nat, groupId: OpaqueId, at: nat, id: OpaqueId,
                 device: OpaqueId, devices: set<OpaqueId>, rank: Collation)
    returns (mid: World, wrapped: World, next: World, op: Operation)
    requires Total(rank) && HoldsOne(w.sender, before, version) && before != json && w.sender.sync.outbox == []
    requires RowsValid(w.sender.sync.rows) && Fits(w.sender.sync.rows, devices, rank) && device in devices
    ensures Step(w, EditTo(json, groupId, at, id), device, rank) == Ok(mid)
    ensures Step(mid, Prepare, device, rank) == Ok(wrapped) && Step(wrapped, Uploaded(id), device, rank) == Ok(next)
    ensures Cycled(w, next, op, json, version, id)
    ensures RowsValid(next.sender.sync.rows) && Fits(next.sender.sync.rows, devices, rank)
  {
    var s := w.sender;
    var r := RecordTo(before, json, groupId, at, id);
    EditToOne(s, before, json, groupId, at, id);
    mid := World(Sender(map[K := json], s.sync.(outbox := [r])), w.sent);
    op := OpOfEdit(s, before, json, version, groupId, at, id, device, devices, rank);
    PrepareStepOfOne(mid, s, r, json, op, device, rank);
    wrapped := World(AfterOne(s, json, op, [Sealed(r, op)]), w.sent + [[op]]);
    UploadStepOfOne(wrapped, Sealed(r, op), device, rank);
    next := World(AfterOne(s, json, op, []), w.sent + [[op]]);
    AfterOneHolds(s, before, json, version, op, devices, rank);
  }

  function CycleOf(json: Json, groupId: OpaqueId, at: nat, id: OpaqueId): seq<Event> {
    [EditTo(json, groupId, at, id), Prepare, Uploaded(id)]
  }

  lemma RunOneMore(start: Sender, events: seq<Event>, e: Event, w: World, next: World, device: OpaqueId,
                   rank: Collation, valid: FinanceRules)
    requires Run(start, events, device, rank) == Ok(w) && Step(w, e, device, rank) == Ok(next)
    requires PlausibleRun(start, events, device, rank, valid) && Plausible(w, e, rank, valid)
    ensures Run(start, events + [e], device, rank) == Ok(next)
    ensures PlausibleRun(start, events + [e], device, rank, valid)
  {
    assert (events + [e])[..|events|] == events;
  }

  lemma RunThreeMore(start: Sender, events: seq<Event>, e1: Event, e2: Event, e3: Event, w: World, mid: World,
                     wrapped: World, next: World, device: OpaqueId, rank: Collation, valid: FinanceRules)
    requires Run(start, events, device, rank) == Ok(w) && PlausibleRun(start, events, device, rank, valid)
    requires Step(w, e1, device, rank) == Ok(mid) && Plausible(w, e1, rank, valid)
    requires Step(mid, e2, device, rank) == Ok(wrapped) && Plausible(mid, e2, rank, valid)
    requires Step(wrapped, e3, device, rank) == Ok(next) && Plausible(wrapped, e3, rank, valid)
    ensures Run(start, events + [e1, e2, e3], device, rank) == Ok(next)
    ensures PlausibleRun(start, events + [e1, e2, e3], device, rank, valid)
  {
    RunOneMore(start, events, e1, w, mid, device, rank, valid);
    RunOneMore(start, events + [e1], e2, mid, wrapped, device, rank, valid);
    RunOneMore(start, events + [e1] + [e2], e3, wrapped, next, device, rank, valid);
    assert events + [e1] + [e2] + [e3] == events + [e1, e2, e3];
  }

  /** A run goes on by one cycle. */
  lemma RunCycle(start: Sender, events: seq<Event>, w: World, before: Json, json: Json, version: nat,
                 groupId: OpaqueId, at: nat, id: OpaqueId, device: OpaqueId, devices: set<OpaqueId>, rank: Collation)
    returns (next: World, op: Operation)
    requires Run(start, events, device, rank) == Ok(w) && PlausibleRun(start, events, device, rank, _ => true)
    requires Total(rank) && HoldsOne(w.sender, before, version) && before != json && w.sender.sync.outbox == []
    requires RowsValid(w.sender.sync.rows) && Fits(w.sender.sync.rows, devices, rank) && device in devices
    ensures Run(start, events + CycleOf(json, groupId, at, id), device, rank) == Ok(next)
    ensures PlausibleRun(start, events + CycleOf(json, groupId, at, id), device, rank, _ => true)
    ensures Cycled(w, next, op, json, version, id)
    ensures RowsValid(next.sender.sync.rows) && Fits(next.sender.sync.rows, devices, rank)
  {
    var mid, wrapped;
    mid, wrapped, next, op := OneCycle(w, before, json, version, groupId, at, id, device, devices, rank);
    RunThreeMore(start, events, EditTo(json, groupId, at, id), Prepare, Uploaded(id), w, mid, wrapped, next, device,
      rank, _ => true);
  }

  // ---- One edit against two ----

  const RankById: Collation := (id: OpaqueId) => id as int

  /** A device that took its one row from a snapshot and recorded it. */
  function Fresh(json: Json): Device {
    Device(map[K := json], map[K := StateFromValue(K, json)], [], map[], map[])
  }

  lemma FreshTwins(json: Json)
    ensures Total(RankById) && Twins(Fresh(json), Fresh(json), 1, 2, {1, 2}, RankById)
    ensures HoldsOne(SenderOf(Fresh(json)), json, 1)
    ensures RowsValid([]) && Fits([], {1, 2}, RankById)
  {}

  /** A run of one edit, and what it sends. */
  lemma FirstRun(v: Json, x: Json, device: OpaqueId) returns (w: World, op: Operation)
    requires v != x && device in {1, 2}
    ensures
      var events := CycleOf(x, 10 * device, 1, 10 * device);
      && Run(SenderOf(Fresh(v)), events, device, RankById) == Ok(w)
      && PlausibleRun(SenderOf(Fresh(v)), events, device, RankById, _ => true)
    ensures w.sent == [[op]] && w.sender.sync.outbox == [] && HoldsOne(w.sender, x, 2)
    ensures op.id == 10 * device && op.command.key == K && LeftBy(op) == Holding(2, Some(x), None)
    ensures RowsValid(w.sender.sync.rows) && Fits(w.sender.sync.rows, {1, 2}, RankById)
  {
    FreshTwins(v);
    var start := World(SenderOf(Fresh(v)), []);
    w, op := RunCycle(start.sender, [], start, v, x, 1, 10 * device, 1, 10 * device, device, {1, 2}, RankById);
    assert [] + CycleOf(x, 10 * device, 1, 10 * device) == CycleOf(x, 10 * device, 1, 10 * device);
    assert [] + [[op]] == [[op]];
  }

  lemma SecondRun(v: Json, y: Json, z: Json) returns (w: World, op1: Operation, op2: Operation)
    requires v != y && y != z
    ensures
      var events := CycleOf(y, 20, 1, 20) + CycleOf(z, 21, 2, 21);
      && Run(SenderOf(Fresh(v)), events, 2, RankById) == Ok(w)
      && PlausibleRun(SenderOf(Fresh(v)), events, 2, RankById, _ => true)
    ensures w.sent == [[op1], [op2]] && w.sender.sync.outbox == [] && HoldsOne(w.sender, z, 3)
    ensures op1.id == 20 && op1.command.key == K && LeftBy(op1) == Holding(2, Some(y), None)
    ensures op2.id == 21 && op2.command.key == K && LeftBy(op2) == Holding(3, Some(z), None)
  {
    FreshTwins(v);
    var first;
    first, op1 := FirstRun(v, y, 2);
    w, op2 := RunCycle(SenderOf(Fresh(v)), CycleOf(y, 20, 1, 20), first, y, z, 2, 21, 2, 21, 2, {1, 2}, RankById);
    assert [[op1]] + [[op2]] == [[op1], [op2]];
  }

  /** A device that took over the outcome of its run. */
  function Took(d: Device, w: World): Device {
    d.(tables := w.sender.tables, states := w.sender.sync.states, rows := w.sender.sync.rows)
  }

  lemma ListOfOne(op: Operation)
    ensures AllOf([[op]]) == [op] && LastOn([op], op.command.key) == Some(op)
  {
    assert [[op]][..0] == [] && [] + [op] == [op];
  }

  lemma ListOfTwo(op1: Operation, op2: Operation)
    ensures AllOf([[op1], [op2]]) == [op1, op2] && LastOn([op1, op2], op2.command.key) == Some(op2)
  {
    ListOfOne(op1);
    assert [[op1], [op2]][..1] == [[op1]] && [op1] + [op2] == [op1, op2];
  }

  /** `id` waits as a conflict of `local` with what the other side wrote. */
  predicate Waits(d: Device, id: OpaqueId, local: Json, remote: Json) {
    && id in d.conflicts && d.conflicts[id].resolution == Pending && d.conflicts[id].key == K
    && d.conflicts[id].localValue == Some(local) && d.conflicts[id].remote.command.value == Some(remote)
  }

  lemma FacedWaits(end: Device, own: seq<Operation>, op: Operation, local: Json, remote: Json)
    requires FacesLast(end, own, op) && op.command.key == K && op.command.value == Some(remote)
    requires LastOn(own, K).Some? && LastOn(own, K).value.command.value == Some(local)
    ensures Waits(end, op.id, local, remote)
  {}

  function OnceTo(x: Json): seq<Event> { CycleOf(x, 10, 1, 10) }

  function TwiceTo(y: Json, z: Json): seq<Event> { CycleOf(y, 20, 1, 20) + CycleOf(z, 21, 2, 21) }

  lemma BothStand(v: Json, x: Json, y: Json, z: Json, w1: World, w2: World, op: Operation, op1: Operation,
                  op2: Operation, cursors: OpaqueId -> nat)
    requires x != y && OneRan(v, x, w1, op) && TwoRan(v, y, z, w2, op1, op2)
    ensures
      var end1 := DeliverAll(Took(Fresh(v), w1), w2.sent, cursors, _ => true);
      var end2 := DeliverAll(Took(Fresh(v), w2), w1.sent, cursors, _ => true);
      && end1.Ok? && end1.value.tables == w1.sender.tables && end2.Ok? && end2.value.tables == w2.sender.tables
      && InPlace(Took(Fresh(v), w1), end1.value, [op], [op1, op2], K)
      && InPlace(Took(Fresh(v), w2), end2.value, [op1, op2], [op], K)
  {
    FreshTwins(v);
    ListOfOne(op);
    ListOfTwo(op1, op2);
    assert op in [op] && op1 in [op1] && op2 in [op2];
    BothSidesStand(Fresh(v), Fresh(v), Took(Fresh(v), w1), Took(Fresh(v), w2), OnceTo(x), TwiceTo(y, z),
      1, 2, {1, 2}, RankById, cursors, _ => true, K);
  }

  ghost predicate OneRan(v: Json, x: Json, w: World, op: Operation) {
    && Run(SenderOf(Fresh(v)), OnceTo(x), 1, RankById) == Ok(w)
    && PlausibleRun(SenderOf(Fresh(v)), OnceTo(x), 1, RankById, _ => true)
    && w.sent == [[op]] && w.sender.sync.outbox == [] && w.sender.tables == map[K := x]
    && op.id == 10 && op.command.key == K && LeftBy(op) == Holding(2, Some(x), None)
  }

  ghost predicate TwoRan(v: Json, y: Json, z: Json, w: World, op1: Operation, op2: Operation) {
    && Run(SenderOf(Fresh(v)), TwiceTo(y, z), 2, RankById) == Ok(w)
    && PlausibleRun(SenderOf(Fresh(v)), TwiceTo(y, z), 2, RankById, _ => true)
    && w.sent == [[op1], [op2]] && w.sender.sync.outbox == [] && w.sender.tables == map[K := z]
    && op1.id == 20 && op1.command.key == K && LeftBy(op1) == Holding(2, Some(y), None)
    && op2.id == 21 && op2.command.key == K && LeftBy(op2) == Holding(3, Some(z), None)
  }

  /**
   * Device 1 edits a row once, device 2 edits it twice, and each receives what the other sent: both rows
   * stay, device 1 files both edits of the other, device 2 the one.
   */
  lemma OneAgainstTwo(v: Json, x: Json, y: Json, z: Json, cursors: OpaqueId -> nat)
    returns (w1: World, w2: World)
    requires v != x && v != y && y != z && x != y
    ensures Run(SenderOf(Fresh(v)), OnceTo(x), 1, RankById) == Ok(w1)
    ensures Run(SenderOf(Fresh(v)), TwiceTo(y, z), 2, RankById) == Ok(w2)
    ensures
      var end1 := DeliverAll(Took(Fresh(v), w1), w2.sent, cursors, _ => true);
      var end2 := DeliverAll(Took(Fresh(v), w2), w1.sent, cursors, _ => true);
      && end1.Ok? && end1.value.tables == map[K := x] && Waits(end1.value, 20, x, y) && Waits(end1.value, 21, x, z)
      && end2.Ok? && end2.value.tables == map[K := z] && Waits(end2.value, 10, z, x)
  {
    var op, op1, op2;
    w1, op := FirstRun(v, x, 1);
    w2, op1, op2 := SecondRun(v, y, z);
    BothStand(v, x, y, z, w1, w2, op, op1, op2, cursors);
    ListOfOne(op);
    ListOfTwo(op1, op2);
    var end1 := DeliverAll(Took(Fresh(v), w1), w2.sent, cursors, _ => true);
    var end2 := DeliverAll(Took(Fresh(v), w2), w1.sent, cursors, _ => true);
    assert op in [op] && op1 in [op1, op2] && op2 in [op1, op2];
    FacedWaits(end1.value, [op], op1, x, y);
    FacedWaits(end1.value, [op], op2, x, z);
    FacedWaits(end2.value, [op1, op2], op, z, x);
  }

  // ---- A group that arrives while an edit waits to be prepared ----

  lemma FirstIsWritten(v: Json, x: Json, w: World, op: Operation)
    requires OneRan(v, x, w, op)
    ensures Opened(op) && op.resolves == [] && WrittenOn(op, Holding(1, Some(v), None))
    ensures Alone(op) && op.device == 1 && op.sequence == 1
  {
    FreshTwins(v);
    SentIsWritten(Fresh(v), Fresh(v), OnceTo(x), 1, {1, 2}, RankById, _ => true);
    ListOfOne(op);
    assert SentBy(Fresh(v), OnceTo(x), 1, RankById) == [[op]];
    assert WrittenOn([op][0], Met(Fresh(v), [op], 0)) && [op][..0] == [];
    assert [op] in [[op]] && CompleteRemoteGroup([op]) && op.sequence == 0 + 1 + 0;
  }

  lemma EditWaits(v: Json, y: Json) returns (w: World)
    requires v != y
    ensures Run(SenderOf(Fresh(v)), [EditTo(y, 20, 1, 20)], 2, RankById) == Ok(w)
    ensures w.sent == [] && w.sender.tables == map[K := y] && w.sender.sync.states == Fresh(v).states
    ensures w.sender.sync.rows == [] && w.sender.sync.outbox == [RecordTo(v, y, 20, 1, 20)]
  {
    var start := SenderOf(Fresh(v));
    EditToOne(start, v, y, 20, 1, 20);
    w := World(AfterEdit(start, EditTo(y, 20, 1, 20)), []);
    assert [EditTo(y, 20, 1, 20)][..0] == [];
  }

  lemma ScanOfOne(d: Device, op: Operation)
    ensures
      var p := Propose(d, map[], op);
      ProposeAll(d, [op]) == Scan(WorkingAfter(map[], p), [p])
  {
    assert [op][..0] == [] && [] + [Propose(d, map[], op)] == [Propose(d, map[], op)];
  }

  lemma {:induction false} NoneToResolve(proposals: seq<Proposal>)
    ensures MarkAllResolved(map[], proposals) == map[]
  {
    if proposals != [] { NoneToResolve(proposals[..|proposals| - 1]); }
  }

  lemma OneApplied(d: Device, op: Operation)
    requires Alone(op) && d.conflicts == map[] && ApplyRemoteGroup(d, [op], _ => true).Ok?
    requires ApplyRemoteGroup(d, [op], _ => true).value.outcome == GroupApplied
    ensures
      var after := ApplyRemoteGroup(d, [op], _ => true).value.device;
      && after.tables == ApplyValue(d.tables, op) && after.conflicts == map[]
      && after.states == d.states + map[op.command.key := StateFor(Propose(d, map[], op))]
  {
    AloneIsWhole(d, op);
    AppliedMeans(d, [op], _ => true);
    ScanOfOne(d, op);
    NoneToResolve(ProposeAll(d, [op]).proposals);
    assert Propose(d, map[], op) in ProposeAll(d, [op]).proposals;
    OneValue(d.tables, op);
  }

  lemma WaitingIsApplied(v: Json, y: Json, op: Operation, d: Device)
    requires Opened(op) && op.resolves == [] && WrittenOn(op, Holding(1, Some(v), None)) && op.command.key == K
    requires Alone(op) && op.sequence == 1 && d.states == Fresh(v).states && d.tables == map[K := y] && d.rows == []
    requires op.id in d.inbox
    ensures
      var r := ApplyRemoteGroup(d, [op], _ => true);
      r.Ok? && r.value.outcome == GroupApplied
  {
    var base := map[K := v];
    AloneIsWhole(d.(tables := base), op);
    AloneIsWhole(d, op);
    AloneArrives(d, op);
    GroupAppliedIff(d, base, [op], op.device, 0, _ => true);
  }

  lemma WaitingIsOverwritten(v: Json, x: Json, y: Json, op: Operation, d: Device)
    requires Opened(op) && op.resolves == [] && WrittenOn(op, Holding(1, Some(v), None)) && op.command.key == K
    requires Alone(op) && op.sequence == 1 && d.states == Fresh(v).states && d.tables == map[K := y] && d.rows == []
    requires op.id in d.inbox && d.conflicts == map[] && op.command.value == Some(x) && v != x
    ensures
      var r := ApplyRemoteGroup(d, [op], _ => true);
      && r.Ok? && r.value.outcome == GroupApplied && r.value.device.tables == map[K := x]
      && r.value.device.states == map[K := StateAfter(op)] && r.value.device.conflicts == map[]
  {
    WaitingIsApplied(v, y, op, d);
    OneApplied(d, op);
    NotKept(v, x, op, d);
    Replaces(y, x);
    Replaces(StateFromValue(K, v), StateAfter(op));
  }

  lemma Replaces<T>(a: T, b: T)
    ensures map[K := a][K := b] == map[K := b] && map[K := a] + map[K := b] == map[K := b]
  {}

  lemma NotKept(v: Json, x: Json, op: Operation, d: Device)
    requires Opened(op) && op.command.key == K && d.states == Fresh(v).states && op.command.value == Some(x) && v != x
    ensures StateFor(Propose(d, map[], op)) == StateAfter(op)
  {}

  lemma WaitingIsRefused(v: Json, x: Json, y: Json, s: SenderState, op: Operation)
    requires v != x && op.command.key == K && op.command.value == Some(x) && Opened(op)
    requires s.states == map[K := StateAfter(op)] && s.outbox == [RecordTo(v, y, 20, 1, 20)]
    ensures PrepareNextGroup(s, 2, RankById) == Err(ChangedOutsideOutbox)
  {
    var r := RecordTo(v, y, 20, 1, 20);
    var p := Progress(s.states, s.rows, MaximumLamport(s.states));
    OneIsChosen(r, RankById);
    assert [r][..0] == [];
    assert PrepareOne(p, r, 2, RankById) == Err(ChangedOutsideOutbox);
    assert PrepareAll(p, [r], 2, RankById) == Err(ChangedOutsideOutbox);
  }

  /**
   * An edit that was committed after the last preparation is overwritten by a group written on the value
   * before it. No conflict is filed, and the edit can then never be prepared.
   */
  lemma EditInFlightIsLost(v: Json, x: Json, y: Json, cursors: OpaqueId -> nat) returns (w1: World, w2: World)
    requires v != x && v != y && x != y
    ensures Run(SenderOf(Fresh(v)), OnceTo(x), 1, RankById) == Ok(w1)
    ensures Run(SenderOf(Fresh(v)), [EditTo(y, 20, 1, 20)], 2, RankById) == Ok(w2)
    ensures Took(Fresh(v), w2).tables == map[K := y]
    ensures
      var end := DeliverAll(Took(Fresh(v), w2), w1.sent, cursors, _ => true);
      && end.Ok? && end.value.tables == map[K := x] && end.value.conflicts == map[]
      && PrepareNextGroup(SenderState(end.value.states, end.value.rows, w2.sender.sync.outbox), 2, RankById)
         == Err(ChangedOutsideOutbox)
  {
    var op;
    w1, op := FirstRun(v, x, 1);
    w2 := EditWaits(v, y);
    var held := Took(Fresh(v), w2);
    assert op in [op];
    FirstIsWritten(v, x, w1, op);
    WaitingIsOverwritten(v, x, y, op, Staged(held, [op], cursors));
    assert [[op]][..0] == [];
    var end := Deliver(held, [op], cursors, _ => true).value;
    WaitingIsRefused(v, x, y, SenderState(end.states, end.rows, w2.sender.sync.outbox), op);
  }
}
