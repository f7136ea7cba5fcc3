/**
 * Preparing queued groups in the order of the outbox, whatever the order they were written in
 * (src/db/sync/operation-repository.ts, 148-151 and 254-528). The outbox sorts by creation time and
 * then by random group id, so a group may be prepared before one it was written after. When that
 * goes wrong, and when it goes wrong without an error, is decided here entity by entity.
 */
module Reordering {
  import opened Wrappers
  import opened SyncOperation
  import opened Causal
  import opened MutationAudit
  import opened Replica
  import opened Outbox
  import opened PrepareTheorems
  import opened Convergence
  import opened ConvergenceRuns

  // ---- What preparation asks of one intent, whatever order it comes in ----

  /**
   * `recorded` holds the values the sync states stand for, and `known` the entities that have a
   * state. Only a live entity with a state must still be what the intent replaced.
   */
  predicate Passes(recorded: Tables, known: set<EntityKey>, i: Intent) {
    i.key in known && Get(recorded, i.key).Some? ==> i.previous == Get(recorded, i.key)
  }

  predicate AboutPrevious(e: PrepareError) {
    e == NoPreviousValue || e == ChangedOutsideOutbox
  }

  lemma PreviousErrorIff(p: Progress, recorded: Tables, i: Intent)
    requires Consistent(recorded, p.states) && EditIntent(i)
    ensures PreviousError(StateOf(p.states, i.key, i.previous), i).None? <==> Passes(recorded, p.states.Keys, i)
    ensures
      var e := PreviousError(StateOf(p.states, i.key, i.previous), i);
      e.Some? ==> AboutPrevious(e.value)
    ensures i.action == Delete ==> PreconditionOf(StateOf(p.states, i.key, i.previous)).hash.Some?
    ensures ValidPrecondition(PreconditionOf(StateOf(p.states, i.key, i.previous)))
  {}

  lemma PassingHasOperation(p: Progress, recorded: Tables, r: OutboxRecord, device: OpaqueId, rank: Collation)
    requires Consistent(recorded, p.states) && RecordFits(r) && Passes(recorded, p.states.Keys, r.intent)
    ensures OperationFor(p, r, device, rank).Some?
    ensures
      var op := OperationFor(p, r, device, rank).value;
      && op.frontier == CausalFrontier(p.rows, rank) && op.previousHash == RowHash(p.rows, device)
      && Carries(op, p, r, device) && op.command.result.hash == ResultStateHash(op)
      && ValidCommand(op.command) && BoundTombstone(op) && ValidResolves(op.resolves)
      && op.groupIndex < op.groupSize <= MAX_GROUP_SIZE
  {
    PreviousErrorIff(p, recorded, r.intent);
  }

  lemma PassingIsPrepared(p: Progress, recorded: Tables, r: OutboxRecord,
                          device: OpaqueId, devices: set<OpaqueId>, rank: Collation)
    requires Total(rank) && Ready(p, recorded, device, devices, rank) && RecordFits(r)
    requires Passes(recorded, p.states.Keys, r.intent)
    ensures PrepareOne(p, r, device, rank).Ok?
    ensures Carries(PrepareOne(p, r, device, rank).value, p, r, device)
    ensures StateAfter(PrepareOne(p, r, device, rank).value).hash ==
      ResultStateHash(PrepareOne(p, r, device, rank).value)
  {
    PreviousErrorIff(p, recorded, r.intent);
    PassingHasOperation(p, recorded, r, device, rank);
    FrontierIsValid(p.rows, devices, rank);
    OwnEntryChains(p, device, devices, rank);
    assert DirectlyChained(OperationFor(p, r, device, rank).value);
  }

  /** The states now stand for the intent's own value. */
  lemma PreparedIsRecorded(p: Progress, recorded: Tables, r: OutboxRecord,
                           device: OpaqueId, devices: set<OpaqueId>, rank: Collation)
    requires Total(rank) && Ready(p, recorded, device, devices, rank) && RecordFits(r)
    requires Passes(recorded, p.states.Keys, r.intent)
    ensures PrepareOne(p, r, device, rank).Ok?
    ensures
      var next := Advanced(p, PrepareOne(p, r, device, rank).value);
      && Ready(next, Patch(recorded, r.intent), device, devices, rank)
      && next.states.Keys == p.states.Keys + {r.intent.key}
  {
    PassingIsPrepared(p, recorded, r, device, devices, rank);
    var op := PrepareOne(p, r, device, rank).value;
    AdvancedRowsFit(p, op, devices, rank);
    assert Faithful(StateAfter(op), r.intent.key, r.intent.value);
  }

  lemma FailingIsRefused(p: Progress, recorded: Tables, r: OutboxRecord, device: OpaqueId, rank: Collation)
    requires Consistent(recorded, p.states) && RecordFits(r) && !Passes(recorded, p.states.Keys, r.intent)
    ensures PrepareOne(p, r, device, rank).Err? && AboutPrevious(PrepareOne(p, r, device, rank).error)
  {
    PreviousErrorIff(p, recorded, r.intent);
  }

  // ---- A whole group ----

  function KeysOf(intents: seq<Intent>): set<EntityKey> {
    set i | i in intents :: i.key
  }

  function Believed(recorded: Tables, intents: seq<Intent>): Tables {
    if intents == [] then recorded
    else Patch(Believed(recorded, intents[..|intents| - 1]), intents[|intents| - 1])
  }

  predicate PassAll(recorded: Tables, known: set<EntityKey>, intents: seq<Intent>) {
    intents == []
    || (var n := |intents| - 1;
        && PassAll(recorded, known, intents[..n])
        && Passes(Believed(recorded, intents[..n]), known + KeysOf(intents[..n]), intents[n]))
  }

  /** What a group's preparation leaves: its intents recorded, and a state for each of their entities. */
  ghost predicate Stands(p: Progress, recorded: Tables, known: set<EntityKey>, intents: seq<Intent>,
                         device: OpaqueId, devices: set<OpaqueId>, rank: Collation) {
    && Ready(p, Believed(recorded, intents), device, devices, rank)
    && p.states.Keys == known + KeysOf(intents)
  }

  lemma PassAllSnoc(recorded: Tables, known: set<EntityKey>, intents: seq<Intent>, i: Intent)
    ensures PassAll(recorded, known, intents + [i]) <==>
      PassAll(recorded, known, intents) && Passes(Believed(recorded, intents), known + KeysOf(intents), i)
    ensures Believed(recorded, intents + [i]) == Patch(Believed(recorded, intents), i)
    ensures KeysOf(intents + [i]) == KeysOf(intents) + {i.key}
  {
    assert (intents + [i])[..|intents|] == intents;
  }

  lemma PrepareAllSnoc(p: Progress, group: OutboxRows, r: OutboxRecord, device: OpaqueId, rank: Collation)
    requires PrepareAll(p, group, device, rank).Ok?
    ensures
      var batch := PrepareAll(p, group, device, rank).value;
      var one := PrepareOne(batch.progress, r, device, rank);
      if one.Ok?
      then PrepareAll(p, group + [r], device, rank) ==
             Ok(Batch(Advanced(batch.progress, one.value), batch.prepared + [Sealed(r, one.value)]))
      else PrepareAll(p, group + [r], device, rank) == Err(one.error)
  {
    assert (group + [r])[..|group|] == group;
  }

  lemma NextIsPrepared(p: Progress, recorded: Tables, known: set<EntityKey>, intents: seq<Intent>, r: OutboxRecord,
                       device: OpaqueId, devices: set<OpaqueId>, rank: Collation)
    requires Total(rank) && RecordFits(r) && Stands(p, recorded, known, intents, device, devices, rank)
    requires Passes(Believed(recorded, intents), p.states.Keys, r.intent)
    ensures PrepareOne(p, r, device, rank).Ok?
    ensures Stands(Advanced(p, PrepareOne(p, r, device, rank).value), recorded, known, intents + [r.intent],
                   device, devices, rank)
  {
    PassAllSnoc(recorded, known, intents, r.intent);
    PreparedIsRecorded(p, Believed(recorded, intents), r, device, devices, rank);
  }

  lemma NextPreparesIff(p: Progress, recorded: Tables, known: set<EntityKey>, intents: seq<Intent>, r: OutboxRecord,
                        device: OpaqueId, devices: set<OpaqueId>, rank: Collation)
    requires Total(rank) && RecordFits(r) && Stands(p, recorded, known, intents, device, devices, rank)
    requires PassAll(recorded, known, intents)
    ensures
      var one := PrepareOne(p, r, device, rank);
      && (one.Ok? <==> PassAll(recorded, known, intents + [r.intent]))
      && (one.Err? ==> AboutPrevious(one.error))
      && (one.Ok? ==> Stands(Advanced(p, one.value), recorded, known, intents + [r.intent], device, devices, rank))
  {
    PassAllSnoc(recorded, known, intents, r.intent);
    if Passes(Believed(recorded, intents), p.states.Keys, r.intent) {
      NextIsPrepared(p, recorded, known, intents, r, device, devices, rank);
    } else {
      FailingIsRefused(p, Believed(recorded, intents), r, device, rank);
    }
  }

  /** A group is prepared exactly when each intent passes in its turn. */
  lemma {:induction false} GroupPreparesIff(p: Progress, recorded: Tables, group: OutboxRows,
                                            device: OpaqueId, devices: set<OpaqueId>, rank: Collation)
    requires Total(rank) && Ready(p, recorded, device, devices, rank) && forall r :: r in group ==> RecordFits(r)
    ensures
      var all := PrepareAll(p, group, device, rank);
      && (all.Ok? <==> PassAll(recorded, p.states.Keys, GroupIntents(group)))
      && (all.Err? ==> AboutPrevious(all.error))
      && (all.Ok? ==> Stands(all.value.progress, recorded, p.states.Keys, GroupIntents(group), device, devices, rank))
    decreases |group|
  {
    if group == [] {
      assert KeysOf([]) == {};
    } else {
      var n := |group| - 1;
      var front, intents := group[..n], GroupIntents(group[..n]);
      assert group == front + [group[n]] && GroupIntents(group) == intents + [group[n].intent];
      assert group[n] in group && forall r :: r in front ==> r in group;
      GroupPreparesIff(p, recorded, front, device, devices, rank);
      PassAllSnoc(recorded, p.states.Keys, intents, group[n].intent);
      if PrepareAll(p, front, device, rank).Ok? {
        PrepareAllSnoc(p, front, group[n], device, rank);
        NextPreparesIff(PrepareAll(p, front, device, rank).value.progress, recorded, p.states.Keys, intents, group[n],
          device, devices, rank);
      }
    }
  }

  // ---- Intents that were audited from other tables than the recorded ones ----

  /** Where the recorded value is live and has a state, it is the value the group was audited from. */
  predicate AgreesOn(k: EntityKey, recorded: Tables, known: set<EntityKey>, actual: Tables) {
    k in known && Get(recorded, k).Some? ==> Get(recorded, k) == Get(actual, k)
  }

  /** Inside the group the audited values win, elsewhere the recorded ones stay. */
  predicate EndsAs(k: EntityKey, recorded: Tables, actual: Tables, intents: seq<Intent>)
    requires Replay(actual, intents).Some?
  {
    if k in KeysOf(intents) then Get(Believed(recorded, intents), k) == Get(Replay(actual, intents).value, k)
    else Get(Believed(recorded, intents), k) == Get(recorded, k)
         && Get(Replay(actual, intents).value, k) == Get(actual, k)
  }

  lemma EndsAsSnoc(recorded: Tables, actual: Tables, intents: seq<Intent>, i: Intent, k: EntityKey)
    requires Replay(actual, intents).Some? && i.previous == Get(Replay(actual, intents).value, i.key)
    requires EndsAs(k, recorded, actual, intents)
    ensures Replay(actual, intents + [i]).Some? && EndsAs(k, recorded, actual, intents + [i])
  {
    ReplaySnoc(actual, intents, i);
    PassAllSnoc(recorded, {}, intents, i);
  }

  lemma {:induction false} GroupEndsAs(recorded: Tables, actual: Tables, intents: seq<Intent>, k: EntityKey)
    requires Replay(actual, intents).Some?
    ensures EndsAs(k, recorded, actual, intents)
    decreases |intents|
  {
    if intents == [] {
      assert KeysOf(intents) == {};
    } else {
      var n := |intents| - 1;
      ReplayPrefix(actual, intents, n);
      GroupEndsAs(recorded, actual, intents[..n], k);
      EndsAsSnoc(recorded, actual, intents[..n], intents[n], k);
      assert intents == intents[..n] + [intents[n]];
    }
  }

  /** Only the first intent of each entity can fail. */
  lemma {:induction false} PassAllIff(recorded: Tables, known: set<EntityKey>, actual: Tables, intents: seq<Intent>)
    requires Replay(actual, intents).Some?
    ensures PassAll(recorded, known, intents) <==>
      forall k :: k in KeysOf(intents) ==> AgreesOn(k, recorded, known, actual)
    decreases |intents|
  {
    if intents == [] {
      assert KeysOf(intents) == {};
    } else {
      var n := |intents| - 1;
      ReplayPrefix(actual, intents, n);
      assert intents == intents[..n] + [intents[n]];
      PassAllSnoc(recorded, known, intents[..n], intents[n]);
      GroupEndsAs(recorded, actual, intents[..n], intents[n].key);
      PassAllIff(recorded, known, actual, intents[..n]);
    }
  }

  // ---- Preparing a group and uploading it ----

  function UploadAll(outbox: OutboxRows, group: OutboxRows): OutboxRows
    decreases |group|
  {
    if group == [] then outbox else UploadAll(AcceptedLocal(outbox, group[0].operationId), group[1..])
  }

  ghost function PrepareAndUpload(s: SenderState, device: OpaqueId, rank: Collation): Result<SenderState, PrepareError>
  {
    match PrepareNextGroup(s, device, rank)
    case Err(e) => Err(e)
    case Ok(p) => Ok(p.after.(outbox := UploadAll(p.after.outbox, p.group)))
  }

  predicate OtherIds(xs: OutboxRows, ys: OutboxRows) {
    forall x, y :: x in xs && y in ys ==> x.operationId != y.operationId
  }

  lemma {:induction false} WithoutMiddle(xs: OutboxRows, r: OutboxRecord, ys: OutboxRows)
    requires OtherIds(xs, [r]) && OtherIds([r], ys)
    ensures WithoutRecord(xs + ([r] + ys), r.operationId) == xs + ys
  {
    assert r in [r];
    if xs == [] {
      assert xs + ([r] + ys) == [r] + ys && ([r] + ys)[1..] == ys && xs + ys == ys;
      WithoutKeepsOthers(ys, r.operationId);
    } else {
      assert (xs + ([r] + ys))[1..] == xs[1..] + ([r] + ys) && xs + ys == [xs[0]] + (xs[1..] + ys);
      WithoutMiddle(xs[1..], r, ys);
    }
  }

  /** Uploading every record of a prepared group takes exactly that group out of the outbox. */
  lemma {:induction false} UploadsTakeGroup(xs: OutboxRows, prepared: OutboxRows, ys: OutboxRows)
    requires Ascending(prepared) && AllPrepared(prepared) && OtherIds(xs, prepared) && OtherIds(prepared, ys)
    ensures UploadAll(xs + (prepared + ys), prepared) == xs + ys
    decreases |prepared|
  {
    if prepared == [] {
      assert prepared + ys == ys;
    } else {
      var r, rest := prepared[0], prepared[1..];
      assert prepared == [r] + rest && prepared + ys == [r] + (rest + ys);
      AscendingParts(r, rest);
      assert r in prepared && r in xs + (prepared + ys);
      WithoutMiddle(xs, r, rest + ys);
      UploadsTakeGroup(xs, rest, ys);
    }
  }

  lemma {:induction false} PutSkips(xs: OutboxRows, rest: OutboxRows, r: OutboxRecord)
    requires OtherIds(xs, [r])
    ensures PutRecord(xs + rest, r) == xs + PutRecord(rest, r)
  {
    assert r in [r];
    if xs == [] {
      assert xs + rest == rest && xs + PutRecord(rest, r) == PutRecord(rest, r);
    } else {
      assert (xs + rest)[1..] == xs[1..] + rest;
      PutSkips(xs[1..], rest, r);
      assert xs == [xs[0]] + xs[1..];
    }
  }

  lemma PutsSnoc(rows: OutboxRows, front: OutboxRows, r: OutboxRecord)
    ensures PutRecords(rows, front + [r]) == PutRecord(PutRecords(rows, front), r)
  {
    assert (front + [r])[..|front|] == front;
  }

  lemma {:induction false} PutsSkip(xs: OutboxRows, rest: OutboxRows, records: OutboxRows)
    requires OtherIds(xs, records)
    ensures PutRecords(xs + rest, records) == xs + PutRecords(rest, records)
    decreases |records|
  {
    if records != [] {
      var front, r := records[..|records| - 1], records[|records| - 1];
      assert records == front + [r];
      PutsSkip(xs, rest, front);
      PutsSnoc(xs + rest, front, r);
      PutsSnoc(rest, front, r);
      PutSkips(xs, PutRecords(rest, front), r);
    }
  }

  lemma {:induction false} OfGroupMiddle(xs: OutboxRows, rest: OutboxRows, groupId: OpaqueId)
    requires forall r :: r in xs ==> r.groupId != groupId
    ensures OfGroup(xs + rest, groupId) == OfGroup(rest, groupId)
  {
    if xs == [] {
      assert xs + rest == rest;
    } else {
      assert (xs + rest)[1..] == xs[1..] + rest;
      OfGroupMiddle(xs[1..], rest, groupId);
    }
  }

  lemma SealedPlaces(prepared: OutboxRows, g: OutboxRows, device: OpaqueId, from: nat)
    requires Block(g) && AllSealed(prepared, g, device, from)
    ensures forall i :: 0 <= i < |g| ==> SamePlace(prepared[i], g[i])
  {
    forall i | 0 <= i < |g| ensures SamePlace(prepared[i], g[i]) {
      assert g[i] in g && SealedAs(prepared[i], g[i], device, from + 1 + i);
    }
  }

  lemma SealedOtherIds(xs: OutboxRows, prepared: OutboxRows, g: OutboxRows)
    requires |prepared| == |g| && (forall i :: 0 <= i < |g| ==> SamePlace(prepared[i], g[i])) && OtherIds(xs, g)
    ensures OtherIds(xs, prepared)
  {
    forall x, y | x in xs && y in prepared ensures x.operationId != y.operationId {
      var i :| 0 <= i < |prepared| && prepared[i] == y;
      assert SamePlace(prepared[i], g[i]) && g[i] in g;
    }
  }

  /** Sealing a group inside the outbox and uploading it. */
  lemma SealedAndUploaded(xs: OutboxRows, g: OutboxRows, ys: OutboxRows, prepared: OutboxRows,
                          device: OpaqueId, from: nat, rank: Collation)
    requires Block(g) && Apart(g, ys, rank) && OtherIds(xs, g) && AllSealed(prepared, g, device, from)
    ensures UploadAll(PutRecords(xs + (g + ys), prepared), prepared) == xs + ys
  {
    SealedPlaces(prepared, g, device, from);
    SealedOtherIds(xs, prepared, g);
    PutsSkip(xs, g + ys, prepared);
    PutsReplaceFront(g, ys, prepared, |g|, rank);
    assert prepared[..|g|] == prepared && g[|g|..] + ys == ys;
    SamePlaceShape(prepared, g, ys, rank);
    UploadsTakeGroup(xs, prepared, ys);
  }

  // ---- The group in front of the outbox order ----

  lemma {:induction false} InsertAfter(front: OutboxRows, r: OutboxRecord, sorted: OutboxRows, rank: Collation)
    requires forall x :: x in front ==> !NotAfter(r, x, rank)
    ensures InsertRecord(front + sorted, r, rank) == front + InsertRecord(sorted, r, rank)
  {
    if front == [] {
      assert front + sorted == sorted;
    } else {
      assert (front + sorted)[1..] == front[1..] + sorted;
      InsertAfter(front[1..], r, sorted, rank);
      assert front == [front[0]] + front[1..];
    }
  }

  lemma {:induction false} InsertedIsMember(sorted: OutboxRows, r: OutboxRecord, x: OutboxRecord, rank: Collation)
    requires x in InsertRecord(sorted, r, rank)
    ensures x == r || x in sorted
  {
    if sorted != [] && !NotAfter(r, sorted[0], rank) && x != sorted[0] { InsertedIsMember(sorted[1..], r, x, rank); }
  }

  lemma {:induction false} SortedIsMember(rows: OutboxRows, x: OutboxRecord, rank: Collation)
    requires x in SortOutbox(rows, rank)
    ensures x in rows
  {
    if rows != [] {
      InsertedIsMember(SortOutbox(rows[1..], rank), rows[0], x, rank);
      if x != rows[0] { SortedIsMember(rows[1..], x, rank); }
    }
  }

  lemma FirstStaysFirst(r: OutboxRecord, rest: OutboxRows, ys: OutboxRows, rank: Collation)
    requires Block([r] + rest) && Apart([r], ys, rank)
    ensures InsertRecord(rest + SortOutbox(ys, rank), r, rank) == [r] + (rest + SortOutbox(ys, rank))
  {
    var sorted := rest + SortOutbox(ys, rank);
    assert r in [r];
    if rest != [] {
      BlockTail(r, rest);
      assert rest[0] in [r] + rest && r in [r] + rest && sorted[0] == rest[0];
    } else if sorted != [] {
      SortedIsMember(ys, sorted[0], rank);
    }
  }

  lemma ApartParts(r: OutboxRecord, rest: OutboxRows, ys: OutboxRows, rank: Collation)
    requires Apart([r] + rest, ys, rank)
    ensures Apart([r], ys, rank) && Apart(rest, ys, rank)
  {
    forall x, y | (x in [r] || x in rest) && y in ys
      ensures Older(x, y.createdAt, y.groupId, rank) && x.operationId != y.operationId
    {
      assert x in [r] + rest;
    }
  }

  lemma {:induction false} SortKeepsFront(g: OutboxRows, ys: OutboxRows, rank: Collation)
    requires Block(g) && Apart(g, ys, rank)
    ensures SortOutbox(g + ys, rank) == g + SortOutbox(ys, rank)
  {
    if g == [] {
      assert g + ys == ys;
    } else {
      var r, rest := g[0], g[1..];
      assert g == [r] + rest && (g + ys)[1..] == rest + ys;
      BlockTail(r, rest);
      ApartParts(r, rest, ys, rank);
      SortKeepsFront(rest, ys, rank);
      FirstStaysFirst(r, rest, ys, rank);
    }
  }

  lemma BlockTail(r: OutboxRecord, rest: OutboxRows)
    requires Block([r] + rest)
    ensures Block(rest) && Leads(r, rest)
  {
    AscendingParts(r, rest);
    assert forall x :: x in rest ==> x in [r] + rest;
    if rest != [] { assert rest[0] in [r] + rest; }
  }

  /** A group older than all the others comes out first, wherever it lies in the outbox. */
  lemma {:induction false} SortPullsFront(xs: OutboxRows, g: OutboxRows, ys: OutboxRows, rank: Collation)
    requires Block(g) && Apart(g, xs, rank) && Apart(g, ys, rank)
    ensures SortOutbox(xs + (g + ys), rank) == g + SortOutbox(xs + ys, rank)
    decreases |xs|
  {
    if xs == [] {
      assert xs + (g + ys) == g + ys && xs + ys == ys;
      SortKeepsFront(g, ys, rank);
    } else {
      var x, rest := xs[0], xs[1..];
      assert x in xs && forall r :: r in rest ==> r in xs;
      assert (xs + (g + ys))[1..] == rest + (g + ys) && (xs + ys)[1..] == rest + ys;
      SortPullsFront(rest, g, ys, rank);
      InsertAfter(g, x, SortOutbox(rest + ys, rank), rank);
    }
  }

  /** That group is the one prepared. */
  lemma ChoosesFront(xs: OutboxRows, g: OutboxRows, ys: OutboxRows, rest: OutboxRows, rank: Collation)
    requires FreshGroup(g) && Block(g)
    requires forall r :: r in xs || r in ys || r in rest ==> r.groupId != g[0].groupId
    ensures (g + rest)[0] == g[0]
    ensures SortByIndex(OfGroup(g + rest, g[0].groupId)) == g
    ensures SortByIndex(OfGroup(xs + (g + ys), g[0].groupId)) == g
    ensures ConsistentRemainder(g) && !AllPrepared(g)
  {
    FreshIsWhole(g);
    OfGroupFirst(g, rest, g[0].groupId);
    OfGroupMiddle(xs, g + ys, g[0].groupId);
    OfGroupFirst(g, ys, g[0].groupId);
    SortOfAscending(g);
  }

  lemma PendingStartsWith(xs: OutboxRows, g: OutboxRows, ys: OutboxRows, rank: Collation) returns (rest: OutboxRows)
    requires FreshGroup(g) && Block(g) && Apart(g, xs, rank) && Apart(g, ys, rank)
    requires forall r :: r in xs || r in ys ==> r.state != Uploading
    ensures SortOutbox(NotUploading(xs + (g + ys)), rank) == g + rest
    ensures forall r :: r in xs || r in ys || r in rest ==> r.groupId != g[0].groupId
  {
    NothingUploading(xs + (g + ys));
    SortPullsFront(xs, g, ys, rank);
    rest := SortOutbox(xs + ys, rank);
    assert g[0] in g;
    forall r | r in xs || r in ys || r in rest ensures r.groupId != g[0].groupId {
      if r in rest { SortedIsMember(xs + ys, r, rank); }
      assert r in xs || r in ys;
    }
  }

  lemma FrontIsPreparedAndUploaded(s: SenderState, xs: OutboxRows, g: OutboxRows, ys: OutboxRows,
                                   device: OpaqueId, rank: Collation)
    requires s.outbox == xs + (g + ys) && FreshGroup(g) && Block(g) && Apart(g, xs, rank) && Apart(g, ys, rank)
    requires forall r :: r in xs || r in ys ==> r.state != Uploading
    ensures
      var all := PrepareAll(Progress(s.states, s.rows, MaximumLamport(s.states)), g, device, rank);
      PrepareAndUpload(s, device, rank) ==
        if all.Err? then Err(all.error)
        else Ok(SenderState(all.value.progress.states, all.value.progress.rows, xs + ys))
  {
    var p := Progress(s.states, s.rows, MaximumLamport(s.states));
    var rest := PendingStartsWith(xs, g, ys, rank);
    ChoosesFront(xs, g, ys, rest, rank);
    if PrepareAll(p, g, device, rank).Ok? {
      PreparedInOrder(p, g, device, rank);
      SealedAndUploaded(xs, g, ys, PrepareAll(p, g, device, rank).value.prepared, device,
        RowSequence(p.rows, device), rank);
    }
  }

  /** The sync states stand for `recorded`, and the frontier rows are fit for preparing. */
  ghost predicate Settled(s: SenderState, recorded: Tables, device: OpaqueId, devices: set<OpaqueId>, rank: Collation) {
    Consistent(recorded, s.states) && RowsValid(s.rows) && Fits(s.rows, devices, rank) && device in devices
  }

  /** The group in front of the outbox order goes out exactly when its intents pass, and leaves them recorded. */
  lemma HeadPreparesIff(s: SenderState, recorded: Tables, xs: OutboxRows, g: OutboxRows, ys: OutboxRows,
                        device: OpaqueId, devices: set<OpaqueId>, rank: Collation)
    requires Total(rank) && Settled(s, recorded, device, devices, rank)
    requires s.outbox == xs + (g + ys) && FreshGroup(g) && Block(g) && Apart(g, xs, rank) && Apart(g, ys, rank)
    requires forall r :: r in xs || r in ys ==> r.state != Uploading
    ensures
      var r := PrepareAndUpload(s, device, rank);
      && (r.Ok? <==> PassAll(recorded, s.states.Keys, GroupIntents(g)))
      && (r.Err? ==> AboutPrevious(r.error))
      && (r.Ok? ==>
            && r.value.outbox == xs + ys
            && Settled(r.value, Believed(recorded, GroupIntents(g)), device, devices, rank)
            && r.value.states.Keys == s.states.Keys + KeysOf(GroupIntents(g)))
  {
    FrontIsPreparedAndUploaded(s, xs, g, ys, device, rank);
    GroupPreparesIff(Progress(s.states, s.rows, MaximumLamport(s.states)), recorded, g, device, devices, rank);
  }
}
