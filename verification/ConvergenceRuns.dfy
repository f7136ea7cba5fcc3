/** The invariant of the sender's runs, and the convergence theorem. */
module ConvergenceRuns {
  import opened Wrappers
  import opened SyncOperation
  import opened Causal
  import opened MutationAudit
  import opened Replica
  import opened Outbox
  import opened RemoteApply
  import opened PrepareTheorems
  import opened Convergence

  // ---- The outbox as a queue of groups ----

  function Flatten(groups: seq<OutboxRows>): OutboxRows {
    if groups == [] then [] else groups[0] + Flatten(groups[1..])
  }

  predicate Ascending(rows: OutboxRows) {
    forall i, j :: 0 <= i < j < |rows| ==>
      rows[i].groupIndex < rows[j].groupIndex && rows[i].operationId != rows[j].operationId
  }

  /** Records of one group, some possibly uploaded already. */
  predicate Block(g: OutboxRows) {
    && Ascending(g)
    && forall r :: r in g ==>
         && r.groupId == g[0].groupId && r.groupSize == g[0].groupSize && r.createdAt == g[0].createdAt
         && r.groupIndex < r.groupSize && r.state != Uploading
  }

  /** Recorded under other ids, in an earlier place of the outbox order. */
  predicate Apart(earlier: OutboxRows, later: OutboxRows, rank: Collation) {
    forall a, b :: a in earlier && b in later ==>
      Older(a, b.createdAt, b.groupId, rank) && a.operationId != b.operationId
  }

  predicate Tidy(groups: seq<OutboxRows>, rank: Collation) {
    groups == [] || (Block(groups[0]) && Apart(groups[0], Flatten(groups[1..]), rank) && Tidy(groups[1..], rank))
  }

  /** The queued groups replay one after another, through valid data, up to the sender's tables. */
  predicate QueueReplays(t: Tables, queue: seq<OutboxRows>, final: Tables, valid: FinanceRules)
    decreases |queue|
  {
    if queue == [] then t == final
    else
      var next := Replay(t, GroupIntents(queue[0]));
      next.Some? && valid(next.value) && QueueReplays(next.value, queue[1..], final, valid)
  }

  lemma {:induction false} FlattenSnoc(groups: seq<OutboxRows>, g: OutboxRows)
    ensures Flatten(groups + [g]) == Flatten(groups) + g
  {
    if groups == [] {
      assert [] + [g] == [g] && [g][1..] == [];
    } else {
      assert (groups + [g])[1..] == groups[1..] + [g];
      FlattenSnoc(groups[1..], g);
    }
  }

  lemma {:induction false} TidySnoc(groups: seq<OutboxRows>, g: OutboxRows, rank: Collation)
    requires Tidy(groups, rank) && Block(g) && Apart(Flatten(groups), g, rank)
    ensures Tidy(groups + [g], rank)
  {
    if groups == [] {
      assert [] + [g] == [g] && [g][1..] == [];
    } else {
      assert (groups + [g])[1..] == groups[1..] + [g];
      assert Flatten(groups) == groups[0] + Flatten(groups[1..]);
      TidySnoc(groups[1..], g, rank);
      FlattenSnoc(groups[1..], g);
    }
  }

  lemma {:induction false} QueueReplaysSnoc(t: Tables, queue: seq<OutboxRows>, g: OutboxRows,
                                            middle: Tables, final: Tables, valid: FinanceRules)
    requires QueueReplays(t, queue, middle, valid)
    requires Replay(middle, GroupIntents(g)) == Some(final) && valid(final)
    ensures QueueReplays(t, queue + [g], final, valid)
    decreases |queue|
  {
    if queue == [] {
      assert [] + [g] == [g] && [g][1..] == [];
    } else {
      assert (queue + [g])[1..] == queue[1..] + [g];
      QueueReplaysSnoc(Replay(t, GroupIntents(queue[0])).value, queue[1..], g, middle, final, valid);
    }
  }

  lemma BlockThenOrdered(g: OutboxRows, rest: OutboxRows, rank: Collation)
    requires Block(g) && Apart(g, rest, rank) && InOrder(rest, rank)
    ensures InOrder(g + rest, rank)
  {
    var all := g + rest;
    forall i, j | 0 <= i < j < |all| ensures NotAfter(all[i], all[j], rank) {
      if j < |g| {
        assert all[i] == g[i] && all[j] == g[j] && g[i] in g && g[j] in g;
      } else if i < |g| {
        assert all[i] == g[i] && all[j] == rest[j - |g|] && g[i] in g && rest[j - |g|] in rest;
      } else {
        assert all[i] == rest[i - |g|] && all[j] == rest[j - |g|];
      }
    }
  }

  lemma {:induction false} TidyIsOrdered(groups: seq<OutboxRows>, rank: Collation)
    requires Tidy(groups, rank)
    ensures InOrder(Flatten(groups), rank)
  {
    if groups != [] {
      TidyIsOrdered(groups[1..], rank);
      BlockThenOrdered(groups[0], Flatten(groups[1..]), rank);
    }
  }

  lemma {:induction false} NoneUploading(groups: seq<OutboxRows>, r: OutboxRecord, rank: Collation)
    requires Tidy(groups, rank) && r in Flatten(groups)
    ensures r.state != Uploading
  {
    if r !in groups[0] { NoneUploading(groups[1..], r, rank); }
  }

  lemma {:induction false} QueuedHasNoEnvelope(queue: seq<OutboxRows>, r: OutboxRecord)
    requires (forall g :: g in queue ==> FreshGroup(g)) && r in Flatten(queue)
    ensures r.envelope.None?
  {
    assert queue[0] in queue;
    if r !in queue[0] { QueuedHasNoEnvelope(queue[1..], r); }
  }

  // ---- The invariant ----

  ghost predicate QueueShape(outbox: OutboxRows, prepared: OutboxRows, queue: seq<OutboxRows>, rank: Collation) {
    && outbox == prepared + Flatten(queue)
    && Block(prepared) && AllPrepared(prepared) && Apart(prepared, Flatten(queue), rank)
    && Tidy(queue, rank)
    && forall g :: g in queue ==> FreshGroup(g)
  }

  ghost predicate Shape(s: Sender, d: Device, prepared: OutboxRows, queue: seq<OutboxRows>,
                        device: OpaqueId, devices: set<OpaqueId>, rank: Collation, valid: FinanceRules) {
    && QueueShape(s.sync.outbox, prepared, queue, rank)
    && QueueReplays(d.tables, queue, s.tables, valid)
    && Follows(d, s.sync, device)
    && RowsValid(s.sync.rows) && Fits(s.sync.rows, devices, rank) && device in devices
  }

  // ---- Edits ----

  lemma RecordedOne(groupId: OpaqueId, now: nat, pending: seq<PendingIntent>, r: OutboxRecord)
    requires r in GroupOf(groupId, now, pending)
    ensures exists p :: p in pending && r.intent == p.intent && r.operationId == p.operationId
    ensures r.groupId == groupId && r.createdAt == now && r.envelope.None? && r.state == IntentOnly
    ensures r.groupIndex < r.groupSize == |pending|
  {
    var g := GroupOf(groupId, now, pending);
    var i :| 0 <= i < |g| && g[i] == r;
    assert pending[i] in pending;
  }

  lemma RecordedGroup(groupId: OpaqueId, now: nat, pending: seq<PendingIntent>, outbox: OutboxRows, rank: Collation)
    requires pending != [] && IntentsParse(pending) && FreshIds(outbox, pending)
    requires forall p :: p in pending ==> EditIntent(p.intent)
    requires forall r :: r in outbox ==> Older(r, now, groupId, rank)
    ensures
      var g := GroupOf(groupId, now, pending);
      FreshGroup(g) && Block(g) && Apart(outbox, g, rank)
  {
    var g := GroupOf(groupId, now, pending);
    forall r | r in g
      ensures RecordFits(r) && r.envelope.None? && r.state == IntentOnly
        && r.groupId == groupId && r.groupSize == |pending| && r.createdAt == now
    {
      RecordedOne(groupId, now, pending, r);
    }
    forall a, b | a in outbox && b in g ensures a.operationId != b.operationId {
      RecordedOne(groupId, now, pending, b);
    }
  }

  lemma EditKeepsShape(s: Sender, e: Event, d: Device, prepared: OutboxRows, queue: seq<OutboxRows>,
                       device: OpaqueId, devices: set<OpaqueId>, rank: Collation, valid: FinanceRules)
    returns (longer: seq<OutboxRows>)
    requires Shape(s, d, prepared, queue, device, devices, rank, valid)
    requires e.Edit? && Plausible(World(s, []), e, rank, valid)
    ensures Shape(AfterEdit(s, e), d, prepared, longer, device, devices, rank, valid)
  {
    var intents := EditIntents(s.tables, e.writes);
    var pending := EditPending(s, e);
    IntentsReplayEdit(s.tables, e.writes);
    if pending == [] {
      assert intents == [];
      longer := queue;
    } else if !IntentsParse(pending) || !FreshIds(s.sync.outbox, pending) {
      longer := queue;
    } else {
      forall p | p in pending ensures EditIntent(p.intent) { assert p.intent in intents; }
      RecordedGroup(e.groupId, e.createdAt, pending, s.sync.outbox, rank);
      var g := GroupOf(e.groupId, e.createdAt, pending);
      assert GroupIntents(g) == intents;
      longer := queue + [g];
      AppendKeepsQueueShape(s.sync.outbox, prepared, queue, g, rank);
      QueueReplaysSnoc(d.tables, queue, g, s.tables, EditTables(s.tables, e.writes), valid);
    }
  }

  lemma AppendApart(prepared: OutboxRows, queued: OutboxRows, g: OutboxRows, rank: Collation)
    requires Apart(prepared, queued, rank) && Apart(prepared + queued, g, rank)
    ensures Apart(prepared, queued + g, rank) && Apart(queued, g, rank)
  {
    assert forall r :: r in queued || r in prepared ==> r in prepared + queued;
  }

  lemma AppendKeepsQueueShape(outbox: OutboxRows, prepared: OutboxRows, queue: seq<OutboxRows>, g: OutboxRows,
                              rank: Collation)
    requires QueueShape(outbox, prepared, queue, rank) && FreshGroup(g) && Block(g) && Apart(outbox, g, rank)
    ensures QueueShape(outbox + g, prepared, queue + [g], rank)
  {
    var queued := Flatten(queue);
    AppendApart(prepared, queued, g, rank);
    TidySnoc(queue, g, rank);
    FlattenSnoc(queue, g);
    Reassociate(prepared, queued, g);
    assert forall q :: q in queue + [g] ==> q in queue || q == g;
  }

  lemma Reassociate<T>(a: seq<T>, b: seq<T>, c: seq<T>)
    ensures a + b + c == a + (b + c)
  {}

  // ---- Upload results ----

  lemma {:induction false} WithoutKeepsOthers(rows: OutboxRows, id: OpaqueId)
    requires forall r :: r in rows ==> r.operationId != id
    ensures WithoutRecord(rows, id) == rows
  {
    if rows != [] {
      WithoutKeepsOthers(rows[1..], id);
      assert rows == [rows[0]] + rows[1..];
    }
  }

  lemma {:induction false} WithoutFromFront(front: OutboxRows, rest: OutboxRows, id: OpaqueId)
    requires forall r :: r in rest ==> r.operationId != id
    ensures WithoutRecord(front + rest, id) == WithoutRecord(front, id) + rest
  {
    if front == [] {
      assert front + rest == rest;
      WithoutKeepsOthers(rest, id);
    } else {
      assert (front + rest)[1..] == front[1..] + rest;
      WithoutFromFront(front[1..], rest, id);
    }
  }

  predicate Leads(x: OutboxRecord, rows: OutboxRows) {
    forall r :: r in rows ==> x.groupIndex < r.groupIndex && x.operationId != r.operationId
  }

  lemma AscendingParts(x: OutboxRecord, rows: OutboxRows)
    requires Ascending([x] + rows)
    ensures Ascending(rows) && Leads(x, rows)
  {
    var all := [x] + rows;
    forall i, j | 0 <= i < j < |rows|
      ensures rows[i].groupIndex < rows[j].groupIndex && rows[i].operationId != rows[j].operationId
    {
      assert all[i + 1] == rows[i] && all[j + 1] == rows[j];
    }
    forall r | r in rows ensures x.groupIndex < r.groupIndex && x.operationId != r.operationId {
      var i :| 0 <= i < |rows| && rows[i] == r;
      assert all[0] == x && all[i + 1] == r;
    }
  }

  lemma AscendingJoin(x: OutboxRecord, rows: OutboxRows)
    requires Ascending(rows) && Leads(x, rows)
    ensures Ascending([x] + rows)
  {
    var all := [x] + rows;
    forall i, j | 0 <= i < j < |all|
      ensures all[i].groupIndex < all[j].groupIndex && all[i].operationId != all[j].operationId
    {
      assert all[j] == rows[j - 1] && rows[j - 1] in rows;
      if i > 0 { assert all[i] == rows[i - 1]; }
    }
  }

  lemma AscendingCons(x: OutboxRecord, rows: OutboxRows)
    ensures Ascending([x] + rows) <==> Ascending(rows) && Leads(x, rows)
  {
    if Ascending([x] + rows) { AscendingParts(x, rows); }
    if Ascending(rows) && Leads(x, rows) { AscendingJoin(x, rows); }
  }

  lemma {:induction false} WithoutSelects(rows: OutboxRows, id: OpaqueId)
    requires Ascending(rows)
    ensures forall r :: r in WithoutRecord(rows, id) ==> r in rows
    ensures Ascending(WithoutRecord(rows, id))
  {
    if rows != [] {
      assert rows == [rows[0]] + rows[1..];
      AscendingCons(rows[0], rows[1..]);
      WithoutSelects(rows[1..], id);
      AscendingCons(rows[0], WithoutRecord(rows[1..], id));
    }
  }

  lemma UploadedKeepsShape(outbox: OutboxRows, prepared: OutboxRows, queue: seq<OutboxRows>, id: OpaqueId,
                           rank: Collation)
    returns (less: OutboxRows)
    requires QueueShape(outbox, prepared, queue, rank)
    ensures QueueShape(AcceptedLocal(outbox, id), less, queue, rank)
  {
    if Uploadable(outbox, id) {
      var r :| r in outbox && r.operationId == id && r.envelope.Some?;
      if r in Flatten(queue) { QueuedHasNoEnvelope(queue, r); }
      less := WithoutRecord(prepared, id);
      WithoutFromFront(prepared, Flatten(queue), id);
      WithoutSelects(prepared, id);
    } else {
      less := prepared;
    }
  }

  /** Sealing a record or marking it failed keeps its place in the queue. */
  predicate SamePlace(a: OutboxRecord, b: OutboxRecord) {
    && a.operationId == b.operationId && a.groupId == b.groupId && a.groupSize == b.groupSize
    && a.groupIndex == b.groupIndex && a.createdAt == b.createdAt && a.state != Uploading && a.envelope.Some?
  }

  lemma SamePlaceShape(xs: OutboxRows, ys: OutboxRows, rest: OutboxRows, rank: Collation)
    requires |xs| == |ys| && forall i :: 0 <= i < |xs| ==> SamePlace(xs[i], ys[i])
    requires Block(ys) && Apart(ys, rest, rank)
    ensures Block(xs) && Apart(xs, rest, rank) && AllPrepared(xs)
  {
    forall x | x in xs ensures exists y :: y in ys && SamePlace(x, y) {
      var i :| 0 <= i < |xs| && xs[i] == x;
      assert ys[i] in ys;
    }
    if xs != [] { assert SamePlace(xs[0], ys[0]); }
  }

  lemma {:induction false} FailedMarks(rows: OutboxRows, id: OpaqueId, i: nat)
    requires i < |rows|
    ensures |UploadFailed(rows, id)| == |rows|
    ensures UploadFailed(rows, id)[i].operationId == rows[i].operationId
    ensures rows[i].envelope.Some? && rows[i].state != Uploading ==> SamePlace(UploadFailed(rows, id)[i], rows[i])
  {
    if i > 0 {
      FailedMarks(rows[1..], id, i - 1);
    } else if |rows| > 1 {
      FailedMarks(rows[1..], id, 0);
    } else {
      assert rows[1..] == [];
    }
  }

  lemma {:induction false} FailedFromFront(front: OutboxRows, rest: OutboxRows, id: OpaqueId)
    requires forall r :: r in rest ==> r.operationId != id
    ensures UploadFailed(front + rest, id) == UploadFailed(front, id) + rest
    decreases |front| + |rest|
  {
    if front != [] {
      assert (front + rest)[1..] == front[1..] + rest;
      FailedFromFront(front[1..], rest, id);
    } else if rest != [] {
      assert front + rest == rest && [] + rest[1..] == rest[1..];
      FailedFromFront([], rest[1..], id);
      assert rest == [rest[0]] + rest[1..];
    }
  }

  lemma FailedKeepsShape(outbox: OutboxRows, prepared: OutboxRows, queue: seq<OutboxRows>, id: OpaqueId,
                         rank: Collation)
    returns (marked: OutboxRows)
    requires QueueShape(outbox, prepared, queue, rank) && Uploadable(outbox, id)
    ensures QueueShape(UploadFailed(outbox, id), marked, queue, rank)
  {
    var r :| r in outbox && r.operationId == id && r.envelope.Some?;
    if r in Flatten(queue) { QueuedHasNoEnvelope(queue, r); }
    marked := UploadFailed(prepared, id);
    FailedFromFront(prepared, Flatten(queue), id);
    forall i | 0 <= i < |prepared| ensures |marked| == |prepared| && SamePlace(marked[i], prepared[i]) {
      assert prepared[i] in prepared;
      FailedMarks(prepared, id, i);
    }
    SamePlaceShape(marked, prepared, Flatten(queue), rank);
  }

  // ---- Preparation ----

  lemma NothingPending(s: SenderState, device: OpaqueId, rank: Collation)
    requires s.outbox == []
    ensures PrepareNextGroup(s, device, rank) == Ok(Prepared(s, []))
  {}

  /** A group that is prepared but not fully uploaded is offered again as it is. */
  lemma OffersRemainder(s: SenderState, prepared: OutboxRows, queue: seq<OutboxRows>, device: OpaqueId, rank: Collation)
    requires QueueShape(s.outbox, prepared, queue, rank) && prepared != []
    ensures PrepareNextGroup(s, device, rank) == Ok(Prepared(s, prepared))
  {
    var rest := Flatten(queue);
    TidyIsOrdered(queue, rank);
    BlockThenOrdered(prepared, rest, rank);
    forall r | r in prepared + rest ensures r.state != Uploading {
      if r in rest { NoneUploading(queue, r, rank); }
    }
    assert prepared[0] in prepared;
    ChoosesFirstGroup(prepared, rest, rank);
    assert forall i :: 0 <= i < |prepared| ==> prepared[i] in prepared;
  }

  lemma FreshIsWhole(g: OutboxRows)
    requires FreshGroup(g)
    ensures g != [] && ConsistentRemainder(g) && !AllPrepared(g)
  {
    assert forall i :: 0 <= i < |g| ==> g[i] in g;
  }

  lemma OldestInFront(g: OutboxRows, queue: seq<OutboxRows>, rank: Collation)
    requires Tidy([g] + queue, rank) && g != []
    ensures Flatten([g] + queue) == g + Flatten(queue) && (g + Flatten(queue))[0] == g[0]
    ensures SortOutbox(NotUploading(g + Flatten(queue)), rank) == g + Flatten(queue)
    ensures SortByIndex(OfGroup(g + Flatten(queue), g[0].groupId)) == g
  {
    var rest := Flatten(queue);
    assert ([g] + queue)[1..] == queue;
    TidyIsOrdered([g] + queue, rank);
    forall r | r in g + rest ensures r.state != Uploading { NoneUploading([g] + queue, r, rank); }
    assert g[0] in g;
    ChoosesFirstGroup(g, rest, rank);
    OfGroupFirst(g, rest, g[0].groupId);
    SortOfAscending(g);
  }

  /** With nothing left of the previous group, the oldest queued one is chosen. */
  lemma ChoosesOldest(outbox: OutboxRows, g: OutboxRows, queue: seq<OutboxRows>, rank: Collation)
    requires QueueShape(outbox, [], [g] + queue, rank)
    ensures g != [] && outbox == g + Flatten(queue) && (g + Flatten(queue))[0] == g[0]
    ensures ConsistentRemainder(g) && !AllPrepared(g) && CompleteGroup(g) && NonePrepared(g)
    ensures SortOutbox(NotUploading(outbox), rank) == g + Flatten(queue)
    ensures SortByIndex(OfGroup(g + Flatten(queue), g[0].groupId)) == g
  {
    assert g in [g] + queue;
    FreshIsWhole(g);
    OldestInFront(g, queue, rank);
  }

  /** It is prepared as a whole. */
  lemma PreparesOldest(s: SenderState, g: OutboxRows, queue: seq<OutboxRows>, device: OpaqueId, rank: Collation)
    requires QueueShape(s.outbox, [], [g] + queue, rank)
    requires PrepareAll(Progress(s.states, s.rows, MaximumLamport(s.states)), g, device, rank).Ok?
    ensures
      var batch := PrepareAll(Progress(s.states, s.rows, MaximumLamport(s.states)), g, device, rank).value;
      PrepareNextGroup(s, device, rank) ==
        Ok(Prepared(SenderState(batch.progress.states, batch.progress.rows, PutRecords(s.outbox, batch.prepared)),
                    batch.prepared))
  {
    ChoosesOldest(s.outbox, g, queue, rank);
  }

  lemma PutReplaces(a: OutboxRows, x: OutboxRecord, b: OutboxRows, y: OutboxRecord)
    requires x.operationId == y.operationId
    requires forall r :: r in a || r in b ==> r.operationId != y.operationId
    ensures PutRecord(a + [x] + b, y) == a + [y] + b
  {
    var rows := a + [x] + b;
    forall i | 0 <= i < |rows| ensures PutRecord(rows, y)[i] == (a + [y] + b)[i] {
      if i < |a| { assert rows[i] == a[i] && a[i] in a; }
      if i > |a| { assert rows[i] == b[i - |a| - 1] && b[i - |a| - 1] in b; }
    }
  }

  /** Sealing the first `n` records of a group in the outbox. */
  lemma {:induction false} PutsReplaceFront(g: OutboxRows, rest: OutboxRows, prepared: OutboxRows, n: nat,
                                            rank: Collation)
    requires Block(g) && Apart(g, rest, rank) && n <= |g| == |prepared|
    requires forall i :: 0 <= i < |g| ==> SamePlace(prepared[i], g[i])
    ensures PutRecords(g + rest, prepared[..n]) == prepared[..n] + (g[n..] + rest)
    decreases n
  {
    if n == 0 {
      assert g[0..] == g;
    } else {
      PutsReplaceFront(g, rest, prepared, n - 1, rank);
      assert prepared[..n][..n - 1] == prepared[..n - 1];
      PutNext(g, rest, prepared, n, rank);
    }
  }

  lemma PutNext(g: OutboxRows, rest: OutboxRows, prepared: OutboxRows, n: nat, rank: Collation)
    requires Block(g) && Apart(g, rest, rank) && 0 < n <= |g| == |prepared|
    requires forall i :: 0 <= i < |g| ==> SamePlace(prepared[i], g[i])
    ensures PutRecord(prepared[..n - 1] + (g[n - 1..] + rest), prepared[n - 1]) == prepared[..n] + (g[n..] + rest)
  {
    var a, b := prepared[..n - 1], g[n..] + rest;
    forall r | r in a || r in b ensures r.operationId != prepared[n - 1].operationId {
      OthersDiffer(g, rest, prepared, n, r, rank);
    }
    PutReplaces(a, g[n - 1], b, prepared[n - 1]);
    TakeFirst(a, g, n - 1, rest);
    assert prepared[..n] == a + [prepared[n - 1]];
  }

  lemma TakeFirst<T>(a: seq<T>, g: seq<T>, k: nat, rest: seq<T>)
    requires k < |g|
    ensures a + (g[k..] + rest) == a + [g[k]] + (g[k + 1..] + rest)
  {}

  lemma OthersDiffer(g: OutboxRows, rest: OutboxRows, prepared: OutboxRows, n: nat, r: OutboxRecord, rank: Collation)
    requires Block(g) && Apart(g, rest, rank) && 0 < n <= |g| == |prepared|
    requires forall i :: 0 <= i < |g| ==> SamePlace(prepared[i], g[i])
    requires r in prepared[..n - 1] || r in g[n..] + rest
    ensures r.operationId != prepared[n - 1].operationId
  {
    assert g[n - 1] in g;
    if r in prepared[..n - 1] {
      var i :| 0 <= i < n - 1 && prepared[i] == r;
      assert SamePlace(prepared[i], g[i]);
    } else if r in g[n..] {
      var i :| n <= i < |g| && g[i] == r;
    } else {
      assert r in rest;
    }
  }

  lemma SealedQueueShape(outbox: OutboxRows, g: OutboxRows, queue: seq<OutboxRows>, prepared: OutboxRows,
                         device: OpaqueId, from: nat, rank: Collation)
    requires QueueShape(outbox, [], [g] + queue, rank) && AllSealed(prepared, g, device, from)
    ensures QueueShape(PutRecords(outbox, prepared), prepared, queue, rank)
  {
    var rest := Flatten(queue);
    assert ([g] + queue)[1..] == queue && outbox == g + rest;
    assert forall q :: q in queue ==> q in [g] + queue;
    forall i | 0 <= i < |g|
      ensures SamePlace(prepared[i], g[i])
    {
      assert SealedAs(prepared[i], g[i], device, from + 1 + i);
    }
    SamePlaceShape(prepared, g, rest, rank);
    PutsReplaceFront(g, rest, prepared, |g|, rank);
    assert prepared[..|g|] == prepared && g[|g|..] + rest == rest;
  }

  lemma PrepareKeepsShape(s: Sender, d: Device, prepared: OutboxRows, queue: seq<OutboxRows>,
                          device: OpaqueId, devices: set<OpaqueId>, rank: Collation,
                          cursors: OpaqueId -> nat, valid: FinanceRules)
    returns (after: Device, remainder: OutboxRows, shorter: seq<OutboxRows>)
    requires Total(rank) && Shape(s, d, prepared, queue, device, devices, rank, valid)
    ensures PrepareNextGroup(s.sync, device, rank).Ok?
    ensures
      var p := PrepareNextGroup(s.sync, device, rank).value;
      && Shape(s.(sync := p.after), after, remainder, shorter, device, devices, rank, valid)
      && (if p.after == s.sync then after == d
          else Receive(d, OperationsOf(p.group), cursors, valid) == Some(after))
  {
    if prepared != [] {
      OffersRemainder(s.sync, prepared, queue, device, rank);
      after, remainder, shorter := d, prepared, queue;
    } else if queue == [] {
      NothingPending(s.sync, device, rank);
      after, remainder, shorter := d, prepared, queue;
    } else {
      var g, rest := queue[0], queue[1..];
      assert queue == [g] + rest && g in queue;
      after, remainder := PrepareOldestKeepsShape(s, d, g, rest, device, devices, rank, cursors, valid);
      shorter := rest;
    }
  }

  lemma PrepareOldestKeepsShape(s: Sender, d: Device, g: OutboxRows, rest: seq<OutboxRows>,
                                device: OpaqueId, devices: set<OpaqueId>, rank: Collation,
                                cursors: OpaqueId -> nat, valid: FinanceRules)
    returns (after: Device, remainder: OutboxRows)
    requires Total(rank) && Shape(s, d, [], [g] + rest, device, devices, rank, valid) && FreshGroup(g)
    ensures PrepareNextGroup(s.sync, device, rank).Ok?
    ensures
      var p := PrepareNextGroup(s.sync, device, rank).value;
      && Shape(s.(sync := p.after), after, remainder, rest, device, devices, rank, valid)
      && p.after != s.sync
      && Receive(d, OperationsOf(p.group), cursors, valid) == Some(after)
  {
    var p := Progress(s.sync.states, s.sync.rows, MaximumLamport(s.sync.states));
    assert ([g] + rest)[1..] == rest;
    PreparedGroupIsApplied(d, s.sync, g, device, devices, rank, cursors, valid);
    var batch := PrepareAll(p, g, device, rank).value;
    PreparedInOrder(p, g, device, rank);
    SealedQueueShape(s.sync.outbox, g, rest, batch.prepared, device, RowSequence(s.sync.rows, device), rank);
    PreparesOldest(s.sync, g, rest, device, rank);
    after := Receive(d, OperationsOf(batch.prepared), cursors, valid).value;
    remainder := batch.prepared;
  }

  // ---- Runs ----

  lemma StepKeepsShape(w: World, e: Event, d: Device, prepared: OutboxRows, queue: seq<OutboxRows>,
                       device: OpaqueId, devices: set<OpaqueId>, rank: Collation,
                       cursors: OpaqueId -> nat, valid: FinanceRules)
    returns (after: Device, remainder: OutboxRows, rest: seq<OutboxRows>)
    requires Total(rank) && Shape(w.sender, d, prepared, queue, device, devices, rank, valid)
    requires Plausible(w, e, rank, valid)
    ensures Step(w, e, device, rank).Ok?
    ensures
      var next := Step(w, e, device, rank).value;
      && Shape(next.sender, after, remainder, rest, device, devices, rank, valid)
      && (if next.sent == w.sent then after == d
          else |next.sent| == |w.sent| + 1 && next.sent[..|w.sent|] == w.sent
               && Receive(d, next.sent[|w.sent|], cursors, valid) == Some(after))
  {
    after, remainder, rest := d, prepared, queue;
    match e {
      case Edit(_, _, _, _) =>
        rest := EditKeepsShape(w.sender, e, d, prepared, queue, device, devices, rank, valid);
      case Prepare =>
        after, remainder, rest :=
          PrepareKeepsShape(w.sender, d, prepared, queue, device, devices, rank, cursors, valid);
      case Uploaded(id) =>
        remainder := UploadedKeepsShape(w.sender.sync.outbox, prepared, queue, id, rank);
      case Failed(id) =>
        remainder := FailedKeepsShape(w.sender.sync.outbox, prepared, queue, id, rank);
    }
  }

  /** Two replicas in the same state, with nothing queued and room in the causal frontier. */
  ghost predicate SameStart(s: Sender, d: Device, device: OpaqueId, devices: set<OpaqueId>, rank: Collation) {
    && s.sync.outbox == [] && s.tables == d.tables
    && Follows(d, s.sync, device)
    && RowsValid(s.sync.rows) && Fits(s.sync.rows, devices, rank) && device in devices
  }

  lemma {:induction false} RunKeepsShape(s: Sender, d: Device, events: seq<Event>,
                                         device: OpaqueId, devices: set<OpaqueId>, rank: Collation,
                                         cursors: OpaqueId -> nat, valid: FinanceRules)
    returns (after: Device, prepared: OutboxRows, queue: seq<OutboxRows>)
    requires Total(rank) && SameStart(s, d, device, devices, rank)
    requires PlausibleRun(s, events, device, rank, valid)
    ensures Run(s, events, device, rank).Ok?
    ensures
      var w := Run(s, events, device, rank).value;
      && ReceiveAll(d, w.sent, cursors, valid) == Some(after)
      && Shape(w.sender, after, prepared, queue, device, devices, rank, valid)
    decreases |events|
  {
    if |events| == 0 {
      after, prepared, queue := d, [], [];
    } else {
      var n := |events| - 1;
      var mid, p, q := RunKeepsShape(s, d, events[..n], device, devices, rank, cursors, valid);
      var w := Run(s, events[..n], device, rank).value;
      after, prepared, queue := StepKeepsShape(w, events[n], mid, p, q, device, devices, rank, cursors, valid);
    }
  }

  /**
   * Convergence. From equal replicas, any plausible run of the sender stays free of errors,
   * the receiver applies every prepared group, and both hold the same entity states; once
   * every queued edit is prepared, both hold the same finance tables.
   */
  lemma ReplicasConverge(s: Sender, d: Device, events: seq<Event>, device: OpaqueId, devices: set<OpaqueId>,
                         rank: Collation, cursors: OpaqueId -> nat, valid: FinanceRules)
    requires Total(rank) && SameStart(s, d, device, devices, rank)
    requires PlausibleRun(s, events, device, rank, valid)
    ensures Run(s, events, device, rank).Ok?
    ensures
      var w := Run(s, events, device, rank).value;
      var received := ReceiveAll(d, w.sent, cursors, valid);
      && received.Some?
      && received.value.states == w.sender.sync.states
      && Consistent(received.value.tables, received.value.states)
      && (AllPrepared(w.sender.sync.outbox) ==> received.value.tables == w.sender.tables)
  {
    var after, prepared, queue := RunKeepsShape(s, d, events, device, devices, rank, cursors, valid);
    var outbox := Run(s, events, device, rank).value.sender.sync.outbox;
    if queue != [] {
      assert queue[0] in queue && queue[0][0] in queue[0];
      assert queue[0][0] in outbox;
    }
  }
}
