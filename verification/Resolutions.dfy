/**
 * Resolving a filed group (src/db/sync/conflict-repository.ts, 95-166): each conflict's entity gets the
 * kept or the remote value, and one resolving intent; what those become when they are prepared, and what
 * they do wherever they arrive.
 */
module Resolutions {
  import opened Wrappers
  import opened SyncOperation
  import opened Causal
  import opened MutationAudit
  import opened Replica
  import opened Outbox
  import opened RemoteApply
  import opened ApplyTheorems
  import opened PrepareTheorems
  import opened Acceptance

  // ---- The intents of a resolution ----

  datatype Selection = KeepLocal | TakeRemote

  function Desired(t: Tables, c: Conflict, selection: Selection): Option<Json> {
    if selection == KeepLocal then Get(t, c.key) else c.remote.command.value
  }

  /** Both sides of the conflict, the local one unless it is the snapshot's. */
  function SidesOf(c: Conflict): seq<OpaqueId> {
    match c.localOperation
    case None => [c.remote.id]
    case Some(local) => [local, c.remote.id]
  }

  /** What `audit.resolve` records. */
  function ResolvingIntent(t: Tables, c: Conflict, selection: Selection): Intent {
    var value := Desired(t, c, selection);
    Intent(c.key, if value.None? then Delete else Upsert, SortedIds(SidesOf(c)), Get(t, c.key), value)
  }

  function ResolvingIntents(t: Tables, cs: seq<Conflict>, selection: Selection): (intents: seq<Intent>)
    ensures |intents| == |cs|
  {
    if cs == [] then []
    else
      var n := |cs| - 1;
      ResolvingIntents(t, cs[..n], selection)
      + [ResolvingIntent(ResolvedTables(t, cs[..n], selection), cs[n], selection)]
  }

  function ResolvedTables(t: Tables, cs: seq<Conflict>, selection: Selection): Tables {
    if cs == [] then t
    else
      var n := |cs| - 1;
      var earlier := ResolvedTables(t, cs[..n], selection);
      Patch(earlier, ResolvingIntent(earlier, cs[n], selection))
  }

  lemma {:induction false} ResolvingReplays(t: Tables, cs: seq<Conflict>, selection: Selection)
    ensures Replay(t, ResolvingIntents(t, cs, selection)) == Some(ResolvedTables(t, cs, selection))
    decreases |cs|
  {
    if cs != [] {
      var n := |cs| - 1;
      ResolvingReplays(t, cs[..n], selection);
      ReplaySnoc(t, ResolvingIntents(t, cs[..n], selection),
        ResolvingIntent(ResolvedTables(t, cs[..n], selection), cs[n], selection));
    }
  }

  // ---- Preparing any intent ----

  /** An intent as the audit records it, edit or resolution. */
  predicate WellFormed(i: Intent) {
    (i.action == Upsert <==> i.value.Some?) && ValidResolves(i.resolves)
  }

  predicate RecordStands(r: OutboxRecord) {
    WellFormed(r.intent) && r.groupIndex < r.groupSize <= MAX_GROUP_SIZE
  }

  /** The entity has a state or a value here. */
  predicate Known(states: States, i: Intent) {
    i.key in states || i.previous.Some?
  }

  lemma PreviousStands(p: Progress, t: Tables, i: Intent)
    requires Consistent(t, p.states) && WellFormed(i) && i.previous == Get(t, i.key)
    ensures PreviousError(StateOf(p.states, i.key, i.previous), i).None?
    ensures PreconditionOf(StateOf(p.states, i.key, i.previous)).hash.Some? <==> Known(p.states, i)
    ensures ValidPrecondition(PreconditionOf(StateOf(p.states, i.key, i.previous)))
  {}

  lemma AnyIsCarried(p: Progress, t: Tables, r: OutboxRecord, device: OpaqueId, rank: Collation)
    requires Consistent(t, p.states) && RecordStands(r) && r.intent.previous == Get(t, r.intent.key)
    requires r.intent.value.Some? || Known(p.states, r.intent)
    ensures OperationFor(p, r, device, rank).Some?
    ensures
      var op := OperationFor(p, r, device, rank).value;
      && op.frontier == CausalFrontier(p.rows, rank) && op.previousHash == RowHash(p.rows, device)
      && Carries(op, p, r, device) && op.command.result.hash == ResultStateHash(op)
      && ValidCommand(op.command) && BoundTombstone(op)
  {
    PreviousStands(p, t, r.intent);
  }

  /**
   * A record that starts from the table value is prepared, naming what its intent names, unless it deletes
   * an entity that this device has never held: that has no state to delete, and preparation fails.
   */
  lemma PreparesUnlessUnknown(p: Progress, t: Tables, r: OutboxRecord, device: OpaqueId, devices: set<OpaqueId>,
                              rank: Collation)
    requires Total(rank) && Ready(p, t, device, devices, rank)
    requires RecordStands(r) && r.intent.previous == Get(t, r.intent.key)
    ensures
      var one := PrepareOne(p, r, device, rank);
      if r.intent.value.Some? || Known(p.states, r.intent) then
        && one.Ok? && Opened(one.value) && Carries(one.value, p, r, device)
        && one.value.resolves == r.intent.resolves && one.value.command.value == r.intent.value
      else one == Err(InvalidOperation)
  {
    PreviousStands(p, t, r.intent);
    if r.intent.value.Some? || Known(p.states, r.intent) {
      FrontierIsValid(p.rows, devices, rank);
      OwnEntryChains(p, device, devices, rank);
      AnyIsCarried(p, t, r, device, rank);
      assert DirectlyChained(OperationFor(p, r, device, rank).value);
    }
  }

  // ---- Preparing a whole group ----

  /** The record's own operation: what it says, and what it resolves. */
  predicate OperationOf(op: Operation, r: OutboxRecord, device: OpaqueId) {
    && Opened(op) && op.id == r.operationId && op.device == device && op.groupId == r.groupId
    && op.groupIndex == r.groupIndex && op.groupSize == r.groupSize && op.resolves == r.intent.resolves
    && op.command.key == r.intent.key && op.command.value == r.intent.value
  }

  predicate Touched(group: OutboxRows, n: nat, k: EntityKey)
    requires n <= |group|
  {
    exists j :: 0 <= j < n && group[j].intent.key == k
  }

  /** Record `i` writes a value, or deletes something this device has held, or the group has written before. */
  predicate Grounded(states: States, t: Tables, group: OutboxRows, i: nat)
    requires i < |group|
  {
    var k := group[i].intent.key;
    group[i].intent.value.Some? || k in states || k in t || Touched(group, i, k)
  }

  /** Exactly the entities touched so far have gained a state, and the other values are as they were. */
  ghost predicate Reaches(p: Progress, t: Tables, group: OutboxRows, n: nat, now: Tables, states: States)
    requires n <= |group|
  {
    && (forall k :: k in states <==> k in p.states || Touched(group, n, k))
    && (forall k :: !Touched(group, n, k) ==> Get(now, k) == Get(t, k))
  }

  predicate OperationsFor(ops: seq<Operation>, group: OutboxRows, device: OpaqueId) {
    |ops| <= |group| && forall i :: 0 <= i < |ops| ==> OperationOf(ops[i], group[i], device)
  }

  /** After the first `n` records: the tables they lead to, and their operations. */
  ghost predicate PreparedTo(p: Progress, t: Tables, group: OutboxRows, n: nat, now: Tables, batch: Batch,
                             device: OpaqueId, devices: set<OpaqueId>, rank: Collation)
    requires n <= |group|
  {
    && Replay(t, GroupIntents(group)[..n]) == Some(now)
    && PrepareAll(p, group[..n], device, rank) == Ok(batch)
    && Ready(batch.progress, now, device, devices, rank)
    && |batch.prepared| == n && AllPrepared(batch.prepared)
    && OperationsFor(OperationsOf(batch.prepared), group, device)
    && Reaches(p, t, group, n, now, batch.progress.states)
  }

  lemma ReachesNext(p: Progress, t: Tables, group: OutboxRows, n: nat, now: Tables, states: States, state: EntityState)
    requires n < |group| && Reaches(p, t, group, n, now, states)
    ensures Reaches(p, t, group, n + 1, Patch(now, group[n].intent), states[group[n].intent.key := state])
  {
    var key := group[n].intent.key;
    forall k ensures Touched(group, n + 1, k) <==> Touched(group, n, k) || k == key {
      if k == key { assert group[n].intent.key == k; }
    }
  }

  lemma NextIsKnownIff(p: Progress, t: Tables, group: OutboxRows, n: nat, now: Tables, batch: Batch,
                       device: OpaqueId, devices: set<OpaqueId>, rank: Collation)
    requires n < |group| && PreparedTo(p, t, group, n, now, batch, device, devices, rank)
    requires group[n].intent.previous == Get(now, group[n].intent.key)
    ensures group[n].intent.value.Some? || Known(batch.progress.states, group[n].intent) <==>
      Grounded(p.states, t, group, n)
  {
    var k := group[n].intent.key;
    if !Touched(group, n, k) { assert Get(now, k) == Get(t, k); }
  }

  lemma AdvancedIsReady(p: Progress, t: Tables, r: OutboxRecord, op: Operation, device: OpaqueId,
                        devices: set<OpaqueId>, rank: Collation)
    requires Ready(p, t, device, devices, rank) && OperationOf(op, r, device) && op.sequence > 0
    ensures Ready(Advanced(p, op), Patch(t, r.intent), device, devices, rank)
  {
    AdvancedRowsFit(p, op, devices, rank);
    var states, next := Advanced(p, op).states, Patch(t, r.intent);
    forall k | k in states ensures Faithful(states[k], k, Get(next, k)) {
      if k != op.command.key { assert Get(next, k) == Get(t, k); }
    }
  }

  lemma NextIsPrepared(p: Progress, t: Tables, group: OutboxRows, n: nat, now: Tables, batch: Batch,
                       device: OpaqueId, devices: set<OpaqueId>, rank: Collation)
    requires Total(rank) && n < |group| && PreparedTo(p, t, group, n, now, batch, device, devices, rank)
    requires RecordStands(group[n]) && group[n].intent.previous == Get(now, group[n].intent.key)
    ensures
      var one := PrepareOne(batch.progress, group[n], device, rank);
      if Grounded(p.states, t, group, n) then
        one.Ok? && OperationOf(one.value, group[n], device) && one.value.sequence > 0
      else one == Err(InvalidOperation)
  {
    NextIsKnownIff(p, t, group, n, now, batch, device, devices, rank);
    PreparesUnlessUnknown(batch.progress, now, group[n], device, devices, rank);
  }

  lemma OperationsForNext(ops: seq<Operation>, group: OutboxRows, op: Operation, device: OpaqueId)
    requires OperationsFor(ops, group, device) && |ops| < |group| && OperationOf(op, group[|ops|], device)
    ensures OperationsFor(ops + [op], group, device)
  {}

  lemma OneMorePrepared(p: Progress, t: Tables, group: OutboxRows, n: nat, now: Tables, batch: Batch,
                        op: Operation, device: OpaqueId, devices: set<OpaqueId>, rank: Collation)
    returns (next: Batch)
    requires n < |group| && PreparedTo(p, t, group, n, now, batch, device, devices, rank)
    requires PrepareOne(batch.progress, group[n], device, rank) == Ok(op)
    requires OperationOf(op, group[n], device) && op.sequence > 0
    requires Replay(t, GroupIntents(group)[..n + 1]) == Some(Patch(now, group[n].intent))
    ensures PreparedTo(p, t, group, n + 1, Patch(now, group[n].intent), next, device, devices, rank)
  {
    next := Batch(Advanced(batch.progress, op), batch.prepared + [Sealed(group[n], op)]);
    PrepareSnoc(p, group, n + 1, device, rank);
    OperationsSnoc(batch.prepared, Sealed(group[n], op), op);
    OperationsForNext(OperationsOf(batch.prepared), group, op, device);
    AdvancedIsReady(batch.progress, now, group[n], op, device, devices, rank);
    ReachesNext(p, t, group, n, now, batch.progress.states, StateAfter(op));
  }

  predicate AllGrounded(states: States, t: Tables, group: OutboxRows, n: nat)
    requires n <= |group|
  {
    forall i :: 0 <= i < n ==> Grounded(states, t, group, i)
  }

  lemma PreparedAtStart(p: Progress, t: Tables, group: OutboxRows, device: OpaqueId, devices: set<OpaqueId>,
                        rank: Collation)
    requires Ready(p, t, device, devices, rank)
    ensures PreparedTo(p, t, group, 0, t, Batch(p, []), device, devices, rank)
  {
    assert group[..0] == [] && GroupIntents(group)[..0] == [];
  }

  lemma NextFails(p: Progress, group: OutboxRows, n: nat, batch: Batch, device: OpaqueId, rank: Collation)
    requires n < |group| && PrepareAll(p, group[..n], device, rank) == Ok(batch)
    requires PrepareOne(batch.progress, group[n], device, rank) == Err(InvalidOperation)
    ensures PrepareAll(p, group[..n + 1], device, rank) == Err(InvalidOperation)
  {
    assert group[..n + 1][..n] == group[..n];
  }

  lemma FailsLater(p: Progress, group: OutboxRows, n: nat, device: OpaqueId, rank: Collation)
    requires n < |group| && PrepareAll(p, group[..n], device, rank) == Err(InvalidOperation)
    ensures PrepareAll(p, group[..n + 1], device, rank) == Err(InvalidOperation)
  {
    assert group[..n + 1][..n] == group[..n];
  }

  lemma StepPreparesIff(p: Progress, t: Tables, group: OutboxRows, n: nat, now: Tables, batch: Batch,
                        device: OpaqueId, devices: set<OpaqueId>, rank: Collation)
    returns (next: Batch)
    requires Total(rank) && n < |group| && PreparedTo(p, t, group, n, now, batch, device, devices, rank)
    requires RecordStands(group[n]) && Replay(t, GroupIntents(group)).Some?
    ensures
      if Grounded(p.states, t, group, n) then
        PreparedTo(p, t, group, n + 1, Patch(now, group[n].intent), next, device, devices, rank)
      else PrepareAll(p, group[..n + 1], device, rank) == Err(InvalidOperation)
  {
    ReplayPrefix(t, GroupIntents(group), n);
    NextIsPrepared(p, t, group, n, now, batch, device, devices, rank);
    next := batch;
    if Grounded(p.states, t, group, n) {
      var op := PrepareOne(batch.progress, group[n], device, rank).value;
      next := OneMorePrepared(p, t, group, n, now, batch, op, device, devices, rank);
    } else {
      NextFails(p, group, n, batch, device, rank);
    }
  }

  ghost predicate FrontOutcome(p: Progress, t: Tables, group: OutboxRows, n: nat, device: OpaqueId,
                               devices: set<OpaqueId>, rank: Collation)
    requires n <= |group|
  {
    if AllGrounded(p.states, t, group, n)
    then exists now, batch :: PreparedTo(p, t, group, n, now, batch, device, devices, rank)
    else PrepareAll(p, group[..n], device, rank) == Err(InvalidOperation)
  }

  lemma NextOutcome(p: Progress, t: Tables, group: OutboxRows, n: nat, device: OpaqueId, devices: set<OpaqueId>,
                    rank: Collation)
    requires Total(rank) && n < |group| && FrontOutcome(p, t, group, n, device, devices, rank)
    requires RecordStands(group[n]) && Replay(t, GroupIntents(group)).Some?
    ensures FrontOutcome(p, t, group, n + 1, device, devices, rank)
  {
    if AllGrounded(p.states, t, group, n) {
      var now, batch :| PreparedTo(p, t, group, n, now, batch, device, devices, rank);
      var next := StepPreparesIff(p, t, group, n, now, batch, device, devices, rank);
      assert AllGrounded(p.states, t, group, n + 1) <==> Grounded(p.states, t, group, n);
    } else {
      FailsLater(p, group, n, device, rank);
    }
  }

  lemma {:induction false} FrontPreparesIff(p: Progress, t: Tables, group: OutboxRows, n: nat, device: OpaqueId,
                                            devices: set<OpaqueId>, rank: Collation)
    requires Total(rank) && n <= |group| && Ready(p, t, device, devices, rank)
    requires (forall r :: r in group ==> RecordStands(r)) && Replay(t, GroupIntents(group)).Some?
    ensures FrontOutcome(p, t, group, n, device, devices, rank)
    decreases n
  {
    if n == 0 {
      PreparedAtStart(p, t, group, device, devices, rank);
    } else {
      FrontPreparesIff(p, t, group, n - 1, device, devices, rank);
      assert group[n - 1] in group;
      NextOutcome(p, t, group, n - 1, device, devices, rank);
    }
  }

  /**
   * A group whose intents replay on this device's tables is prepared, each record as its own operation with
   * what it resolves, exactly when none of them deletes an entity the device has never held.
   */
  lemma GroupPreparesIff(p: Progress, t: Tables, group: OutboxRows, device: OpaqueId, devices: set<OpaqueId>,
                         rank: Collation)
    requires Total(rank) && Ready(p, t, device, devices, rank)
    requires (forall r :: r in group ==> RecordStands(r)) && Replay(t, GroupIntents(group)).Some?
    ensures
      var r := PrepareAll(p, group, device, rank);
      if AllGrounded(p.states, t, group, |group|) then
        && r.Ok? && |r.value.prepared| == |group| && OperationsFor(OperationsOf(r.value.prepared), group, device)
        && Consistent(Replay(t, GroupIntents(group)).value, r.value.progress.states)
      else r == Err(InvalidOperation)
  {
    FrontPreparesIff(p, t, group, |group|, device, devices, rank);
    assert group[..|group|] == group && GroupIntents(group)[..|group|] == GroupIntents(group);
  }

  // ---- Preparing a resolution ----

  lemma {:induction false} SortedIdsAreFew(ids: seq<OpaqueId>)
    ensures |SortedIds(ids)| <= |ids|
  {
    if ids != [] {
      SortedIdsAreFew(ids[1..]);
      InsertedIdsAreFew(SortedIds(ids[1..]), ids[0]);
    }
  }

  lemma {:induction false} InsertedIdsAreFew(sorted: seq<OpaqueId>, id: OpaqueId)
    requires forall i, j :: 0 <= i < j < |sorted| ==> sorted[i] < sorted[j]
    ensures |InsertId(sorted, id)| <= |sorted| + 1
  {
    if sorted != [] && sorted[0] < id { InsertedIdsAreFew(sorted[1..], id); }
  }

  lemma ResolvingIsWellFormed(t: Tables, c: Conflict, selection: Selection)
    ensures WellFormed(ResolvingIntent(t, c, selection))
  {
    SortedIdsAreFew(SidesOf(c));
  }

  lemma {:induction false} ResolvingAt(t: Tables, cs: seq<Conflict>, selection: Selection, i: nat)
    requires i < |cs|
    ensures ResolvingIntents(t, cs, selection)[i] ==
      ResolvingIntent(ResolvedTables(t, cs[..i], selection), cs[i], selection)
    decreases |cs|
  {
    var front := cs[..|cs| - 1];
    if i < |front| {
      assert front[..i] == cs[..i];
      ResolvingAt(t, front, selection, i);
      assert ResolvingIntents(t, cs, selection)[i] == ResolvingIntents(t, front, selection)[i];
    }
  }

  lemma {:induction false} UntouchedStays(t: Tables, cs: seq<Conflict>, selection: Selection, k: EntityKey)
    requires forall c :: c in cs ==> c.key != k
    ensures Get(ResolvedTables(t, cs, selection), k) == Get(t, k)
    decreases |cs|
  {
    if cs != [] {
      assert cs[|cs| - 1] in cs;
      UntouchedStays(t, cs[..|cs| - 1], selection, k);
    }
  }

  /** The group that the resolving transaction leaves in the outbox. */
  function ResolvingGroup(t: Tables, cs: seq<Conflict>, selection: Selection, groupId: OpaqueId, at: nat,
                          draw: nat -> OpaqueId): OutboxRows
  {
    GroupOf(groupId, at, Queued(draw, 0, ResolvingIntents(t, cs, selection)))
  }

  /** The entity gets a value, or has been held here, or is settled earlier in the group. */
  predicate Settled(states: States, t: Tables, cs: seq<Conflict>, selection: Selection, i: nat)
    requires i < |cs|
  {
    || (selection == TakeRemote && cs[i].remote.command.value.Some?)
    || cs[i].key in states || cs[i].key in t || exists j :: 0 <= j < i && cs[j].key == cs[i].key
  }

  predicate Settleable(states: States, t: Tables, cs: seq<Conflict>, selection: Selection) {
    forall i :: 0 <= i < |cs| ==> Settled(states, t, cs, selection, i)
  }

  predicate CarriesIntents(g: OutboxRows, intents: seq<Intent>) {
    |g| == |intents| && forall i :: 0 <= i < |g| ==> g[i].intent == intents[i]
  }

  lemma GroundedAtIff(states: States, t: Tables, cs: seq<Conflict>, selection: Selection, g: OutboxRows, i: nat)
    requires CarriesIntents(g, ResolvingIntents(t, cs, selection)) && i < |cs|
    ensures Grounded(states, t, g, i) <==> Settled(states, t, cs, selection, i)
  {
    var k := cs[i].key;
    forall j | 0 <= j <= i ensures g[j].intent.key == cs[j].key { ResolvingAt(t, cs, selection, j); }
    ResolvingAt(t, cs, selection, i);
    if !Touched(g, i, k) {
      forall c | c in cs[..i] ensures c.key != k {
        var j :| 0 <= j < i && cs[j] == c;
      }
      UntouchedStays(t, cs[..i], selection, k);
    }
  }

  lemma GroundedIff(states: States, t: Tables, cs: seq<Conflict>, selection: Selection, g: OutboxRows)
    requires CarriesIntents(g, ResolvingIntents(t, cs, selection))
    ensures AllGrounded(states, t, g, |g|) <==> Settleable(states, t, cs, selection)
  {
    forall i | 0 <= i < |cs| ensures Grounded(states, t, g, i) <==> Settled(states, t, cs, selection, i) {
      GroundedAtIff(states, t, cs, selection, g, i);
    }
  }

  lemma ResolvingStands(t: Tables, cs: seq<Conflict>, selection: Selection, groupId: OpaqueId, at: nat,
                        draw: nat -> OpaqueId)
    requires |cs| <= MAX_GROUP_SIZE
    ensures
      var g := ResolvingGroup(t, cs, selection, groupId, at, draw);
      && |g| == |cs| && CarriesIntents(g, ResolvingIntents(t, cs, selection))
      && (forall r :: r in g ==> RecordStands(r))
      && Replay(t, GroupIntents(g)) == Some(ResolvedTables(t, cs, selection))
  {
    var g := ResolvingGroup(t, cs, selection, groupId, at, draw);
    ResolvingReplays(t, cs, selection);
    assert GroupIntents(g) == ResolvingIntents(t, cs, selection);
    forall r | r in g ensures RecordStands(r) {
      var i :| 0 <= i < |g| && g[i] == r;
      ResolvingAt(t, cs, selection, i);
      ResolvingIsWellFormed(ResolvedTables(t, cs[..i], selection), cs[i], selection);
    }
  }

  lemma GroupIsWhole(g: OutboxRows, groupId: OpaqueId, at: nat, pending: seq<PendingIntent>)
    requires pending != [] && g == GroupOf(groupId, at, pending)
    ensures g != [] && g[0].groupId == groupId && CompleteGroup(g) && ConsistentRemainder(g) && NonePrepared(g)
    ensures IndexesAscend(g) && forall r :: r in g ==>
      r.groupId == groupId && r.state == IntentOnly && r.createdAt == at && r.envelope.None?
  {}

  lemma GroupIsChosen(g: OutboxRows, groupId: OpaqueId, at: nat, rank: Collation)
    requires g != [] && g[0].groupId == groupId && IndexesAscend(g)
    requires forall r :: r in g ==> r.groupId == groupId && r.state == IntentOnly && r.createdAt == at
    ensures SortOutbox(NotUploading(g), rank) == g && SortByIndex(OfGroup(g, groupId)) == g
  {
    assert g + [] == g;
    forall i, j | 0 <= i < j < |g| ensures NotAfter(g[i], g[j], rank) { assert g[i] in g && g[j] in g; }
    ChoosesFirstGroup(g, [], rank);
  }

  lemma WholeGroupIsNext(s: SenderState, g: OutboxRows, groupId: OpaqueId, at: nat, pending: seq<PendingIntent>,
                         device: OpaqueId, rank: Collation)
    requires s.outbox == g && pending != [] && g == GroupOf(groupId, at, pending)
    ensures
      match PrepareAll(Progress(s.states, s.rows, MaximumLamport(s.states)), g, device, rank)
      case Err(e) => PrepareNextGroup(s, device, rank) == Err(e)
      case Ok(batch) =>
        && PrepareNextGroup(s, device, rank).Ok?
        && PrepareNextGroup(s, device, rank).value.group == batch.prepared
        && PrepareNextGroup(s, device, rank).value.after.states == batch.progress.states
        && PrepareNextGroup(s, device, rank).value.after.rows == batch.progress.rows
  {
    GroupIsWhole(g, groupId, at, pending);
    GroupIsChosen(g, groupId, at, rank);
    assert g[0] in g;
  }

  /** The operation says how this conflict was settled: its entity, the chosen value, and both of its sides. */
  ghost predicate SettlesAs(op: Operation, t: Tables, cs: seq<Conflict>, selection: Selection, i: nat)
    requires i < |cs|
  {
    && Opened(op) && op.command.key == cs[i].key
    && op.command.value == Desired(ResolvedTables(t, cs[..i], selection), cs[i], selection)
    && (forall id :: id in op.resolves <==> id in SidesOf(cs[i]))
  }

  ghost predicate AllSettled(ops: seq<Operation>, t: Tables, cs: seq<Conflict>, selection: Selection) {
    |ops| == |cs| && forall i :: 0 <= i < |cs| ==> SettlesAs(ops[i], t, cs, selection, i)
  }

  lemma OperationsSettle(t: Tables, cs: seq<Conflict>, selection: Selection, g: OutboxRows, ops: seq<Operation>,
                         device: OpaqueId)
    requires CarriesIntents(g, ResolvingIntents(t, cs, selection)) && |ops| == |g| && OperationsFor(ops, g, device)
    ensures AllSettled(ops, t, cs, selection)
  {
    forall i | 0 <= i < |cs| ensures SettlesAs(ops[i], t, cs, selection, i) {
      ResolvingAt(t, cs, selection, i);
      assert OperationOf(ops[i], g[i], device);
    }
  }

  /**
   * The resolution of a filed group, once it is written to an outbox that was empty: it is prepared, and its
   * operations name both sides of each conflict and carry the chosen values, exactly when no entity that this
   * device has never held is to be deleted. Otherwise it can never be prepared.
   */
  lemma ResolutionPreparesIff(s: SenderState, t: Tables, cs: seq<Conflict>, selection: Selection, groupId: OpaqueId,
                              at: nat, draw: nat -> OpaqueId, device: OpaqueId, devices: set<OpaqueId>,
                              rank: Collation)
    requires Total(rank) && Consistent(t, s.states) && RowsValid(s.rows) && Fits(s.rows, devices, rank)
    requires device in devices && cs != [] && |cs| <= MAX_GROUP_SIZE
    requires s.outbox == ResolvingGroup(t, cs, selection, groupId, at, draw)
    ensures
      var r := PrepareNextGroup(s, device, rank);
      if Settleable(s.states, t, cs, selection) then
        && r.Ok? && AllSettled(OperationsOf(r.value.group), t, cs, selection)
        && Consistent(ResolvedTables(t, cs, selection), r.value.after.states)
      else r == Err(InvalidOperation)
  {
    var g := s.outbox;
    var p := Progress(s.states, s.rows, MaximumLamport(s.states));
    ResolvingStands(t, cs, selection, groupId, at, draw);
    GroundedIff(s.states, t, cs, selection, g);
    GroupPreparesIff(p, t, g, device, devices, rank);
    WholeGroupIsNext(s, g, groupId, at, Queued(draw, 0, ResolvingIntents(t, cs, selection)), device, rank);
    if PrepareAll(p, g, device, rank).Ok? {
      OperationsSettle(t, cs, selection, g, OperationsOf(PrepareAll(p, g, device, rank).value.prepared), device);
    }
  }

  // ---- Applying a resolution ----

  /** A conflict on the same entity is pending here, and its remote side is a side of `c`. */
  predicate Concerns(mine: Conflict, c: Conflict) {
    mine.resolution == Pending && mine.key == c.key && mine.remote.id in SidesOf(c)
  }

  predicate Answered(conflicts: Conflicts, c: Conflict) {
    exists id :: id in conflicts && Concerns(conflicts[id], c)
  }

  /** Exactly the pending conflicts that one of `cs` concerns are closed; every other stays as it is. */
  predicate ClosesExactly(before: Conflicts, after: Conflicts, cs: seq<Conflict>) {
    && after.Keys == before.Keys
    && forall id :: id in before ==>
         if exists c :: c in cs && Concerns(before[id], c)
         then after[id].resolution.ResolvedCustom? && after[id].(resolution := Pending) == before[id]
         else after[id] == before[id]
  }

  lemma SettledIff(mine: Conflict, ops: seq<Operation>, t: Tables, cs: seq<Conflict>, selection: Selection)
    requires AllSettled(ops, t, cs, selection)
    ensures IsSettled(mine, ops) <==> exists c :: c in cs && Concerns(mine, c)
  {
    forall i | 0 <= i < |cs| ensures mine.resolution == Pending ==> (Settles(ops[i], mine) <==> Concerns(mine, cs[i])) {
      assert SettlesAs(ops[i], t, cs, selection, i);
    }
    if IsSettled(mine, ops) {
      var op :| op in ops && Settles(op, mine);
      var i :| 0 <= i < |ops| && ops[i] == op;
      assert cs[i] in cs;
    }
    if exists c :: c in cs && Concerns(mine, c) {
      var c :| c in cs && Concerns(mine, c);
      var i :| 0 <= i < |cs| && cs[i] == c;
      assert ops[i] in ops;
    }
  }

  lemma ClosedAsSettled(before: Conflicts, after: Conflicts, ops: seq<Operation>, t: Tables, cs: seq<Conflict>,
                        selection: Selection)
    requires ClosedExactly(before, after, ops) && AllSettled(ops, t, cs, selection)
    ensures ClosesExactly(before, after, cs)
  {
    forall id | id in before
      ensures
        if exists c :: c in cs && Concerns(before[id], c)
        then after[id].resolution.ResolvedCustom? && after[id].(resolution := Pending) == before[id]
        else after[id] == before[id]
    {
      SettledIff(before[id], ops, t, cs, selection);
    }
  }

  lemma SettledFront(ops: seq<Operation>, t: Tables, cs: seq<Conflict>, selection: Selection)
    requires AllSettled(ops, t, cs, selection) && cs != []
    ensures AllSettled(ops[..|ops| - 1], t, cs[..|cs| - 1], selection)
    ensures SettlesAs(ops[|ops| - 1], t, cs, selection, |cs| - 1)
  {
    var n := |cs| - 1;
    forall i | 0 <= i < n ensures SettlesAs(ops[..n][i], t, cs[..n], selection, i) {
      assert SettlesAs(ops[i], t, cs, selection, i) && cs[..n][..i] == cs[..i];
    }
  }

  lemma PatchedBy(t: Tables, c: Conflict, selection: Selection, k: EntityKey)
    ensures Get(Patch(t, ResolvingIntent(t, c, selection)), k) ==
      if k == c.key then Desired(t, c, selection) else Get(t, k)
  {}

  lemma {:induction false} ResolvedIsLast(t: Tables, cs: seq<Conflict>, selection: Selection, ops: seq<Operation>,
                                          k: EntityKey)
    requires AllSettled(ops, t, cs, selection)
    ensures Get(ResolvedTables(t, cs, selection), k) ==
      match LastOn(ops, k) case Some(op) => op.command.value case None => Get(t, k)
    decreases |cs|
  {
    if cs != [] {
      var n := |cs| - 1;
      SettledFront(ops, t, cs, selection);
      ResolvedIsLast(t, cs[..n], selection, ops[..n], k);
      PatchedBy(ResolvedTables(t, cs[..n], selection), cs[n], selection, k);
    }
  }

  lemma AnsweredIsWelcome(d: Device, ops: seq<Operation>, t: Tables, cs: seq<Conflict>, selection: Selection)
    requires AllSettled(ops, t, cs, selection) && forall c :: c in cs ==> Answered(d.conflicts, c)
    ensures AllOpened(ops) && AllWelcome(d, ops)
  {
    forall i | 0 <= i < |ops| ensures Opened(ops[i]) && Welcome(d, ops, i) {
      assert SettlesAs(ops[i], t, cs, selection, i) && cs[i] in cs;
      var id :| id in d.conflicts && Concerns(d.conflicts[id], cs[i]);
      assert ResolvesPending(d, ops[i]);
    }
  }

  /** The entities of the conflicts hold what they were settled at, the others what they held. */
  ghost predicate TakesOver(before: Tables, after: Tables, settled: Tables, cs: seq<Conflict>) {
    forall k :: Get(after, k) == if exists c :: c in cs && c.key == k then Get(settled, k) else Get(before, k)
  }

  lemma OverwrittenTakesOver(before: Tables, after: Tables, ops: seq<Operation>, t: Tables, cs: seq<Conflict>,
                             selection: Selection)
    requires Overwritten(before, after, ops) && AllSettled(ops, t, cs, selection)
    ensures TakesOver(before, after, ResolvedTables(t, cs, selection), cs)
  {
    forall k
      ensures Get(after, k) ==
        if exists c :: c in cs && c.key == k then Get(ResolvedTables(t, cs, selection), k) else Get(before, k)
    {
      ResolvedIsLast(t, cs, selection, ops, k);
      TouchedByOps(ops, t, cs, selection, k);
    }
  }

  lemma TouchedByOps(ops: seq<Operation>, t: Tables, cs: seq<Conflict>, selection: Selection, k: EntityKey)
    requires AllSettled(ops, t, cs, selection)
    ensures LastOn(ops, k).Some? <==> exists c :: c in cs && c.key == k
  {
    if LastOn(ops, k).Some? {
      var i :| 0 <= i < |ops| && ops[i] == LastOn(ops, k).value;
      assert SettlesAs(ops[i], t, cs, selection, i) && cs[i] in cs;
    }
    if exists c :: c in cs && c.key == k {
      var c :| c in cs && c.key == k;
      var i :| 0 <= i < |cs| && cs[i] == c;
      assert SettlesAs(ops[i], t, cs, selection, i) && ops[i] in ops;
    }
  }

  /**
   * Wherever each conflict of a resolved group has a pending counterpart, the resolution is accepted, on
   * whatever the device holds: every entity ends at the value it was settled at, and exactly the pending
   * counterparts are closed. Only invalid finance data can stop it.
   */
  lemma ResolutionIsAccepted(d: Device, ops: seq<Operation>, t: Tables, cs: seq<Conflict>, selection: Selection,
                             device: OpaqueId, from: nat, valid: FinanceRules)
    requires Consistent(d.tables, d.states) && AllSettled(ops, t, cs, selection)
    requires SortOperations(ops) == ops && Arrives(d, ops, device, from)
    requires forall c :: c in cs ==> Answered(d.conflicts, c)
    ensures
      var r := ApplyRemoteGroup(d, ops, valid);
      if r.Err? then r == Err(InvalidFinanceData)
      else
        && r.value.outcome == GroupApplied && valid(r.value.device.tables)
        && TakesOver(d.tables, r.value.device.tables, ResolvedTables(t, cs, selection), cs)
        && Consistent(r.value.device.tables, r.value.device.states)
        && ClosesExactly(d.conflicts, r.value.device.conflicts, cs)
    ensures
      valid(ApplyValues(d.tables, ops)) <==> ApplyRemoteGroup(d, ops, valid).Ok?
  {
    AnsweredIsWelcome(d, ops, t, cs, selection);
    assert d.(tables := d.tables) == d;
    GroupAppliedIff(d, d.tables, ops, device, from, valid);
    if ApplyRemoteGroup(d, ops, valid).Ok? {
      var after := ApplyRemoteGroup(d, ops, valid).value.device;
      AppliedStaysFaithful(d, ops, valid);
      AppliedCloses(d, ops, valid);
      ClosedAsSettled(d.conflicts, after.conflicts, ops, t, cs, selection);
      OverwrittenTakesOver(d.tables, after.tables, ops, t, cs, selection);
    }
  }
}
