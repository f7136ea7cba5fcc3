/**
 * The theorem on queues for runs of the sender: any list of recorded edits, whatever the clock and
 * the random ids, followed by as many preparations and all their uploads
 * (src/db/sync/mutation-audit.ts, 215-257; src/db/sync/operation-repository.ts, 254-528).
 */
module QueueRuns {
  import opened Wrappers
  import opened SyncOperation
  import opened Causal
  import opened MutationAudit
  import opened Replica
  import opened Outbox
  import opened PrepareTheorems
  import opened Convergence
  import opened ConvergenceRuns
  import opened Reordering
  import opened QueueOrder

  // ---- One recorded edit ----

  /** The edit's intents reach the outbox. */
  predicate IsRecorded(s: Sender, e: Event)
    requires e.Edit?
  {
    var pending := EditPending(s, e);
    pending != [] && IntentsParse(pending) && FreshIds(s.sync.outbox, pending)
  }

  function EditGroup(s: Sender, e: Event): OutboxRows
    requires e.Edit?
  {
    GroupOf(e.groupId, e.createdAt, EditPending(s, e))
  }

  lemma EditIsRecorded(s: Sender, e: Event, rank: Collation)
    requires e.Edit? && IsRecorded(s, e)
    ensures AfterEdit(s, e).tables == EditTables(s.tables, e.writes)
    ensures AfterEdit(s, e).sync == s.sync.(outbox := s.sync.outbox + EditGroup(s, e))
    ensures FreshGroup(EditGroup(s, e)) && Block(EditGroup(s, e)) && OtherIds(s.sync.outbox, EditGroup(s, e))
    ensures EditGroup(s, e)[0].groupId == e.groupId && EditGroup(s, e)[0].createdAt == e.createdAt
    ensures GroupIntents(EditGroup(s, e)) == EditIntents(s.tables, e.writes)
    ensures Replay(s.tables, GroupIntents(EditGroup(s, e))) == Some(AfterEdit(s, e).tables)
  {
    var pending := EditPending(s, e);
    IntentsReplayEdit(s.tables, e.writes);
    forall p | p in pending ensures EditIntent(p.intent) { assert p.intent in EditIntents(s.tables, e.writes); }
    RecordedGroup(e.groupId, e.createdAt, pending, [], rank);
    forall x, y | x in s.sync.outbox && y in EditGroup(s, e) ensures x.operationId != y.operationId {
      RecordedOne(e.groupId, e.createdAt, pending, y);
    }
  }

  // ---- Preparing and uploading are runs ----

  function Uploads(group: OutboxRows): seq<Event> {
    seq(|group|, i requires 0 <= i < |group| => Uploaded(group[i].operationId))
  }

  lemma RunOne(start: Sender, events: seq<Event>, e: Event, w: World, device: OpaqueId, rank: Collation)
    requires Run(start, events, device, rank) == Ok(w)
    ensures Run(start, events + [e], device, rank) == Step(w, e, device, rank)
  {
    assert (events + [e])[..|events|] == events;
  }

  function WithOutbox(w: World, outbox: OutboxRows): World {
    World(Sender(w.sender.tables, SenderState(w.sender.sync.states, w.sender.sync.rows, outbox)), w.sent)
  }

  lemma RunUpload(start: Sender, events: seq<Event>, w: World, id: OpaqueId, device: OpaqueId, rank: Collation)
    requires Run(start, events, device, rank) == Ok(w)
    ensures Run(start, events + [Uploaded(id)], device, rank) ==
      Ok(WithOutbox(w, AcceptedLocal(w.sender.sync.outbox, id)))
  {
    RunOne(start, events, Uploaded(id), w, device, rank);
  }

  lemma UploadsSplit(events: seq<Event>, group: OutboxRows)
    requires group != []
    ensures events + Uploads(group) == events + [Uploaded(group[0].operationId)] + Uploads(group[1..])
  {}

  lemma {:induction false} RunUploads(start: Sender, events: seq<Event>, w: World, group: OutboxRows,
                                      device: OpaqueId, rank: Collation)
    requires Run(start, events, device, rank) == Ok(w)
    ensures Run(start, events + Uploads(group), device, rank) ==
      Ok(WithOutbox(w, UploadAll(w.sender.sync.outbox, group)))
    decreases |group|
  {
    if group == [] {
      assert events + Uploads(group) == events;
    } else {
      var id := group[0].operationId;
      RunUpload(start, events, w, id, device, rank);
      RunUploads(start, events + [Uploaded(id)], WithOutbox(w, AcceptedLocal(w.sender.sync.outbox, id)), group[1..],
        device, rank);
      UploadsSplit(events, group);
    }
  }

  /** The run ends in `r`: the same error, or the same sync state beside these tables. */
  ghost predicate RunsTo(start: Sender, events: seq<Event>, tables: Tables, r: Result<SenderState, PrepareError>,
                         device: OpaqueId, rank: Collation) {
    var run := Run(start, events, device, rank);
    if r.Err? then run == Err(r.error) else run.Ok? && run.value.sender == Sender(tables, r.value)
  }

  lemma PrepareIsAStep(w: World, device: OpaqueId, rank: Collation)
    ensures
      match PrepareNextGroup(w.sender.sync, device, rank)
      case Err(e) => Step(w, Prepare, device, rank) == Err(e)
      case Ok(p) =>
        && Step(w, Prepare, device, rank).Ok?
        && Step(w, Prepare, device, rank).value.sender == Sender(w.sender.tables, p.after)
  {}

  lemma UploadsRun(start: Sender, events: seq<Event>, w: World, group: OutboxRows, device: OpaqueId, rank: Collation)
    requires Run(start, events + [Prepare], device, rank) == Ok(w)
    ensures RunsTo(start, events + ([Prepare] + Uploads(group)), w.sender.tables,
      Ok(w.sender.sync.(outbox := UploadAll(w.sender.sync.outbox, group))), device, rank)
  {
    RunUploads(start, events + [Prepare], w, group, device, rank);
    Reassociate(events, [Prepare], Uploads(group));
  }

  /** What the run has to go on with: the preparation, and the uploads of what it prepared. */
  ghost function Continuation(s: SenderState, device: OpaqueId, rank: Collation): seq<Event> {
    match PrepareNextGroup(s, device, rank)
    case Err(_) => [Prepare]
    case Ok(p) => [Prepare] + Uploads(p.group)
  }

  lemma PrepareAndUploadIsARun(start: Sender, events: seq<Event>, w: World, device: OpaqueId, rank: Collation)
    requires Run(start, events, device, rank) == Ok(w)
    ensures RunsTo(start, events + Continuation(w.sender.sync, device, rank), w.sender.tables,
      PrepareAndUpload(w.sender.sync, device, rank), device, rank)
  {
    PrepareIsAStep(w, device, rank);
    RunOne(start, events, Prepare, w, device, rank);
    match PrepareNextGroup(w.sender.sync, device, rank) {
      case Err(_) =>
      case Ok(p) => UploadsRun(start, events, Step(w, Prepare, device, rank).value, p.group, device, rank);
    }
  }

  lemma SecondIsARun(start: Sender, events: seq<Event>, tables: Tables, mid: SenderState, device: OpaqueId,
                     rank: Collation)
    requires RunsTo(start, events, tables, Ok(mid), device, rank)
    ensures RunsTo(start, events + Continuation(mid, device, rank), tables, PrepareAndUpload(mid, device, rank),
                   device, rank)
  {
    PrepareAndUploadIsARun(start, events, Run(start, events, device, rank).value, device, rank);
  }

  lemma {:induction false} PrepareTimesIsARun(start: Sender, events: seq<Event>, tables: Tables, s: SenderState, n: nat,
                                              device: OpaqueId, rank: Collation) returns (more: seq<Event>)
    requires RunsTo(start, events, tables, Ok(s), device, rank)
    ensures RunsTo(start, events + more, tables, PrepareTimes(s, n, device, rank), device, rank)
    decreases n
  {
    if n == 0 {
      more := [];
      assert events + more == events;
    } else {
      more := Continuation(s, device, rank);
      SecondIsARun(start, events, tables, s, device, rank);
      match PrepareAndUpload(s, device, rank) {
        case Err(_) =>
        case Ok(mid) =>
          var rest := PrepareTimesIsARun(start, events + more, tables, mid, n - 1, device, rank);
          Reassociate(events, more, rest);
          more := more + rest;
      }
    }
  }

  // ---- A list of edits ----

  function AfterEdits(s: Sender, edits: seq<Event>): Sender
    requires forall e :: e in edits ==> e.Edit?
  {
    if edits == [] then s else AfterEdit(AfterEdits(s, edits[..|edits| - 1]), edits[|edits| - 1])
  }

  /** Each edit's intents reach the outbox, under a group id of its own. */
  ghost predicate AllRecorded(s: Sender, edits: seq<Event>)
    requires forall e :: e in edits ==> e.Edit?
  {
    edits == []
    || (var n := |edits| - 1;
        && AllRecorded(s, edits[..n]) && IsRecorded(AfterEdits(s, edits[..n]), edits[n])
        && forall e :: e in edits[..n] ==> e.groupId != edits[n].groupId)
  }

  function AuditedEdits(s: Sender, edits: seq<Event>): seq<Audited>
    requires forall e :: e in edits ==> e.Edit?
  {
    if edits == [] then []
    else
      var n := |edits| - 1;
      var mid := AfterEdits(s, edits[..n]);
      AuditedEdits(s, edits[..n]) + [Audited(EditGroup(mid, edits[n]), mid.tables)]
  }

  lemma {:induction false} RowsSnoc(queue: seq<Audited>, a: Audited)
    ensures RowsOf(queue + [a]) == RowsOf(queue) + a.group
  {
    if queue == [] {
      assert [] + [a] == [a] && [a][1..] == [] && a.group + [] == a.group && [] + a.group == a.group;
    } else {
      assert (queue + [a])[1..] == queue[1..] + [a];
      RowsSnoc(queue[1..], a);
    }
  }

  lemma {:induction false} ChainSnoc(queue: seq<Audited>, a: Audited, start: Tables)
    requires Chain(queue, start, a.from)
    ensures Chain(queue + [a], start, Left(a))
    decreases |queue|
  {
    if queue == [] {
      assert [] + [a] == [a] && [a][1..] == [];
    } else {
      assert (queue + [a])[1..] == queue[1..] + [a];
      ChainSnoc(queue[1..], a, Left(queue[0]));
    }
  }

  lemma {:induction false} GroupsAreRows(queue: seq<Audited>, i: nat, r: OutboxRecord)
    requires i < |queue| && r in queue[i].group
    ensures r in RowsOf(queue)
    decreases i
  {
    if i > 0 { GroupsAreRows(queue[1..], i - 1, r); }
  }

  lemma GroupOtherIds(queue: seq<Audited>, g: OutboxRows, i: nat)
    requires OtherIds(RowsOf(queue), g) && i < |queue|
    ensures OtherIds(queue[i].group, g) && OtherIds(g, queue[i].group)
  {
    forall x, y | x in queue[i].group && y in g ensures x.operationId != y.operationId {
      GroupsAreRows(queue, i, x);
    }
  }

  lemma AuditableSnoc(queue: seq<Audited>, a: Audited)
    requires AllAuditable(queue) && Auditable(a)
    ensures AllAuditable(queue + [a])
  {
    var longer := queue + [a];
    forall i | 0 <= i < |longer| ensures Auditable(longer[i]) {
      if i < |queue| { assert longer[i] == queue[i]; }
    }
  }

  lemma UnmixedSnoc(queue: seq<Audited>, a: Audited)
    requires Unmixed(queue) && OtherIds(RowsOf(queue), a.group)
    requires forall i :: 0 <= i < |queue| ==> OtherGroup(queue[i], a)
    ensures Unmixed(queue + [a])
  {
    var longer := queue + [a];
    forall i, j | 0 <= i < |longer| && 0 <= j < |longer| && i != j
      ensures OtherGroup(longer[i], longer[j]) && OtherIds(longer[i].group, longer[j].group)
    {
      if i == |queue| {
        GroupOtherIds(queue, a.group, j);
      } else if j == |queue| {
        GroupOtherIds(queue, a.group, i);
      }
    }
  }

  predicate GroupIdsOf(queue: seq<Audited>, edits: seq<Event>) {
    |queue| == |edits|
    && forall i :: 0 <= i < |queue| ==>
         edits[i].Edit? && queue[i].group != [] && queue[i].group[0].groupId == edits[i].groupId
  }

  /** What the edits leave: a queue audited in turn, up to the sender's tables. */
  ghost predicate EditsQueued(s: Sender, edits: seq<Event>, after: Sender, queue: seq<Audited>) {
    && after.sync == s.sync.(outbox := RowsOf(queue))
    && AllAuditable(queue) && Unmixed(queue) && Chain(queue, s.tables, after.tables) && GroupIdsOf(queue, edits)
  }

  lemma EditIsQueued(s: Sender, edits: seq<Event>, mid: Sender, queue: seq<Audited>, e: Event, rank: Collation)
    requires EditsQueued(s, edits, mid, queue) && e.Edit? && IsRecorded(mid, e)
    requires forall x :: x in edits ==> x.Edit? && x.groupId != e.groupId
    ensures EditsQueued(s, edits + [e], AfterEdit(mid, e), queue + [Audited(EditGroup(mid, e), mid.tables)])
  {
    var a := Audited(EditGroup(mid, e), mid.tables);
    EditIsRecorded(mid, e, rank);
    forall i | 0 <= i < |queue| ensures OtherGroup(queue[i], a) { assert edits[i] in edits; }
    AuditableSnoc(queue, a);
    UnmixedSnoc(queue, a);
    RowsSnoc(queue, a);
    ChainSnoc(queue, a, s.tables);
  }

  lemma EditsUnfold(s: Sender, edits: seq<Event>)
    requires edits != [] && (forall e :: e in edits ==> e.Edit?) && AllRecorded(s, edits)
    ensures
      var front, e := edits[..|edits| - 1], edits[|edits| - 1];
      var mid := AfterEdits(s, front);
      && edits == front + [e] && e.Edit? && (forall x :: x in front ==> x.Edit? && x.groupId != e.groupId)
      && AllRecorded(s, front) && IsRecorded(mid, e)
      && AfterEdits(s, edits) == AfterEdit(mid, e)
      && AuditedEdits(s, edits) == AuditedEdits(s, front) + [Audited(EditGroup(mid, e), mid.tables)]
  {
    assert edits[|edits| - 1] in edits;
  }

  lemma {:induction false} EditsAreQueued(s: Sender, edits: seq<Event>, rank: Collation)
    requires s.sync.outbox == [] && (forall e :: e in edits ==> e.Edit?) && AllRecorded(s, edits)
    ensures EditsQueued(s, edits, AfterEdits(s, edits), AuditedEdits(s, edits))
    decreases |edits|
  {
    if edits != [] {
      var front := edits[..|edits| - 1];
      EditsUnfold(s, edits);
      EditsAreQueued(s, front, rank);
      EditIsQueued(s, front, AfterEdits(s, front), AuditedEdits(s, front), edits[|edits| - 1], rank);
    }
  }

  lemma {:induction false} EditsRun(s: Sender, edits: seq<Event>, device: OpaqueId, rank: Collation)
    requires forall e :: e in edits ==> e.Edit?
    ensures Run(s, edits, device, rank) == Ok(World(AfterEdits(s, edits), []))
    decreases |edits|
  {
    if edits != [] { EditsRun(s, edits[..|edits| - 1], device, rank); }
  }

  lemma WholeOutbox(queue: seq<Audited>, rank: Collation)
    requires AllAuditable(queue) && Unmixed(queue)
    ensures HoldsQueue(RowsOf(queue), queue, [], rank)
  {}

  /**
   * Any recorded edits, whatever their creation times and group ids: some run of preparations and
   * uploads brings all of them out exactly when every shared entity survives the order of the
   * outbox, and the states then describe the tables exactly when each of those ends at its last value.
   */
  lemma EditsPrepareIff(s: Sender, edits: seq<Event>, device: OpaqueId, devices: set<OpaqueId>, rank: Collation)
    returns (more: seq<Event>)
    requires Total(rank) && Settled(s.sync, s.tables, device, devices, rank) && s.sync.outbox == []
    requires (forall e :: e in edits ==> e.Edit?) && AllRecorded(s, edits)
    ensures
      var queue := AuditedEdits(s, edits);
      var run := Run(s, edits + more, device, rank);
      && (run.Ok? <==> SharedSurvive(queue, s.tables, s.sync.states.Keys, rank))
      && (run.Ok? ==>
            var after := run.value.sender;
            && after.tables == AfterEdits(s, edits).tables && after.sync.outbox == []
            && (Consistent(after.tables, after.sync.states) <==> SharedEndRight(queue, s.tables, after.tables, rank)))
  {
    var end, queue := AfterEdits(s, edits), AuditedEdits(s, edits);
    EditsAreQueued(s, edits, rank);
    WholeOutbox(queue, rank);
    QueuePreparesIff(end.sync, s.tables, end.tables, queue, [], device, devices, rank);
    EditsRun(s, edits, device, rank);
    more := PrepareTimesIsARun(s, edits, end.tables, end.sync, |queue|, device, rank);
  }
}
