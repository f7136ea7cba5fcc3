/**
 * Convergence through the inbox: the groups a sender prepares, pulled page by page, pass every
 * check of staging (src/db/sync/operation-repository.ts, 493-624) before they are applied.
 */
module StagedConvergence {
  import opened Wrappers
  import opened SyncOperation
  import opened Causal
  import opened MutationAudit
  import opened Replica
  import opened Outbox
  import opened RemoteApply
  import opened PrepareTheorems
  import opened Staging
  import Convergence
  import ConvergenceRuns

  // ---- Receiving through the inbox ----

  function PageOf(ops: seq<Operation>, cursors: OpaqueId -> nat): (page: seq<Pulled>)
    ensures |page| == |ops|
  {
    seq(|ops|, i requires 0 <= i < |ops| => Pulled(ops[i], cursors(ops[i].id)))
  }

  /** A page that is staged and then applied; `None` when either is refused or the group conflicts. */
  ghost function Pull(d: Device, ops: seq<Operation>, cursors: OpaqueId -> nat, valid: FinanceRules): Option<Device> {
    match StageAll(d, PageOf(ops, cursors))
    case Err(_) => None
    case Ok(staged) =>
      match ApplyRemoteGroup(staged, ops, valid)
      case Err(_) => None
      case Ok(done) => if done.outcome == GroupApplied then Some(done.device) else None
  }

  ghost function PullAll(d: Device, groups: seq<seq<Operation>>, cursors: OpaqueId -> nat,
                         valid: FinanceRules): Option<Device>
  {
    if groups == [] then Some(d)
    else
      match PullAll(d, groups[..|groups| - 1], cursors, valid)
      case None => None
      case Some(mid) => Pull(mid, groups[|groups| - 1], cursors, valid)
  }

  /** Where a page is cut does not matter for staging. */
  lemma {:induction false} PagesJoin(d: Device, front: seq<Pulled>, rest: seq<Pulled>)
    ensures StageAll(d, front + rest) ==
      match StageAll(d, front) case Err(e) => Err(e) case Ok(mid) => StageAll(mid, rest)
    decreases |rest|
  {
    var page := front + rest;
    if rest == [] {
      assert page == front;
    } else {
      var n := |rest| - 1;
      assert page[..|page| - 1] == front + rest[..n] && page[|page| - 1] == rest[n];
      PagesJoin(d, front, rest[..n]);
    }
  }

  // ---- A device that can take the sender's next operation ----

  function RowEntry(rows: Rows, x: OpaqueId): Entry
    requires RowsValid(rows) && RowSequence(rows, x) > 0
  {
    Entry(x, RowSequence(rows, x), RowHash(rows, x).value)
  }

  predicate KnowsOthers(d: Device, rows: Rows, device: OpaqueId)
    requires RowsValid(rows)
  {
    forall r :: r in rows && r.device != device && RowSequence(rows, r.device) > 0 ==>
      OnFrontier(d, RowEntry(rows, r.device))
  }

  /** The inbox holds no operation of the sender beyond its row, and at the row only the row's own. */
  predicate InboxWithin(d: Device, rows: Rows, device: OpaqueId) {
    forall id :: id in d.inbox && d.inbox[id].operation.device == device ==>
      var op := d.inbox[id].operation;
      && op.sequence <= RowSequence(rows, device)
      && (op.sequence == RowSequence(rows, device) ==> RowHash(rows, device) == Some(OperationDigest(op)))
  }

  /** The sender's last operation is on the frontier, or waits below the given cursor. */
  predicate KnowsLast(d: Device, rows: Rows, device: OpaqueId, below: nat)
    requires RowsValid(rows)
  {
    RowSequence(rows, device) > 0 ==>
      var waiting := WithIdentity(d.inbox, device, RowSequence(rows, device));
      OnFrontier(d, RowEntry(rows, device))
      || (waiting != {} && forall id :: id in waiting ==> d.inbox[id].cursor < below)
  }

  predicate Expects(d: Device, rows: Rows, device: OpaqueId, below: nat) {
    RowsValid(rows) && KnowsOthers(d, rows, device) && InboxWithin(d, rows, device) && KnowsLast(d, rows, device, below)
  }

  /** Everything the sender's frontier names has been applied. */
  predicate Tracks(d: Device, rows: Rows, device: OpaqueId) {
    Expects(d, rows, device, 0)
  }

  // ---- One operation ----

  lemma ClaimIsRow(rows: Rows, rank: Collation, c: Entry)
    requires RowsValid(rows) && c in CausalFrontier(rows, rank)
    ensures RowSequence(rows, c.device) > 0 && c == RowEntry(rows, c.device)
    ensures FindRow(rows, c.device).Some?
  {
    SortIsPermutation(Entries(rows), rank);
    SameMembers(CausalFrontier(rows, rank), Entries(rows));
    var r :| r in rows && r.device == c.device && r.sequence == c.sequence && r.hash == Some(c.hash);
    FoundRow(rows, r);
  }

  lemma FoundRow(rows: Rows, r: FrontierRow)
    requires DistinctRows(rows) && r in rows
    ensures FindRow(rows, r.device) == Some(r)
  {
    var found := FindRow(rows, r.device).value;
    var i, j :| 0 <= i < |rows| && 0 <= j < |rows| && rows[i] == r && rows[j] == found;
  }

  lemma ClaimIsProvable(d: Device, rows: Rows, device: OpaqueId, cursor: nat, rank: Collation, c: Entry)
    requires Expects(d, rows, device, cursor) && c in CausalFrontier(rows, rank)
    ensures Provable(d, c, cursor)
  {
    ClaimIsRow(rows, rank, c);
    if c.device != device { assert FindRow(rows, c.device).value in rows; }
  }

  /** What the sender puts into its next operation. */
  predicate NextOperation(op: Operation, rows: Rows, device: OpaqueId, rank: Collation) {
    && op.device == device && op.sequence == RowSequence(rows, device) + 1
    && op.frontier == CausalFrontier(rows, rank) && op.previousHash == RowHash(rows, device)
  }

  function WithStaged(d: Device, op: Operation, cursor: nat): Device {
    d.(inbox := d.inbox[op.id := InboxRecord(op, cursor, Received)])
  }

  lemma NextIsStaged(d: Device, rows: Rows, op: Operation, device: OpaqueId, cursor: nat, rank: Collation)
    requires Expects(d, rows, device, cursor) && NextOperation(op, rows, device, rank) && op.id !in d.inbox
    ensures StageOne(d, Pulled(op, cursor)) == Ok(WithStaged(d, op, cursor))
  {
    forall c | c in op.frontier ensures Provable(d, c, cursor) { ClaimIsProvable(d, rows, device, cursor, rank, c); }
    if op.sequence > 1 { assert PredecessorHash(d, op) == op.previousHash; }
  }

  lemma StagedExpectsNext(d: Device, rows: Rows, op: Operation, device: OpaqueId, cursor: nat, rank: Collation,
                          top: nat)
    requires Expects(d, rows, device, cursor) && NextOperation(op, rows, device, rank) && op.id !in d.inbox
    requires cursor < top
    ensures Expects(WithStaged(d, op, cursor), PutRow(rows, RowAfter(rows, op)), device, top)
  {
    var staged, next := WithStaged(d, op, cursor), PutRow(rows, RowAfter(rows, op));
    var waiting := WithIdentity(staged.inbox, device, op.sequence);
    assert op.id in waiting;
    forall id | id in waiting ensures staged.inbox[id].cursor < top { assert id == op.id; }
    forall r | r in next && r.device != device && RowSequence(next, r.device) > 0
      ensures OnFrontier(staged, RowEntry(next, r.device))
    {
      assert r in rows;
      assert OnFrontier(d, RowEntry(rows, r.device));
    }
  }

  // ---- One group ----

  /** The server numbers operations in the order in which it accepts them. */
  predicate Rising(ops: seq<Operation>, cursors: OpaqueId -> nat) {
    forall i, j :: 0 <= i < j < |ops| ==> cursors(ops[i].id) < cursors(ops[j].id)
  }

  predicate Unknown(d: Device, ops: seq<Operation>) {
    forall op :: op in ops ==> op.id !in d.inbox
  }

  predicate AllBelow(ops: seq<Operation>, cursors: OpaqueId -> nat, top: nat) {
    forall op :: op in ops ==> cursors(op.id) < top
  }

  lemma RisingFront(ops: seq<Operation>, cursors: OpaqueId -> nat)
    requires ops != [] && Rising(ops, cursors)
    ensures Rising(ops[..|ops| - 1], cursors)
    ensures AllBelow(ops[..|ops| - 1], cursors, cursors(ops[|ops| - 1].id))
    ensures forall op :: op in ops[..|ops| - 1] ==> op in ops
  {
    var n := |ops| - 1;
    forall op | op in ops[..n] ensures cursors(op.id) < cursors(ops[n].id) {
      var i :| 0 <= i < n && ops[i] == op;
    }
  }

  lemma {:induction false} StagedHolds(d: Device, ops: seq<Operation>, cursors: OpaqueId -> nat, id: OpaqueId)
    requires id in Staged(d, ops, cursors).inbox && id !in d.inbox
    ensures exists op :: op in ops && op.id == id
    decreases |ops|
  {
    var n := |ops| - 1;
    if ops != [] && id != ops[n].id { StagedHolds(d, ops[..n], cursors, id); }
    if ops != [] { assert ops[n] in ops && forall op :: op in ops[..n] ==> op in ops; }
  }

  lemma PageSnoc(ops: seq<Operation>, cursors: OpaqueId -> nat)
    requires ops != []
    ensures
      var n := |ops| - 1;
      PageOf(ops, cursors)[..n] == PageOf(ops[..n], cursors)
      && PageOf(ops, cursors)[n] == Pulled(ops[n], cursors(ops[n].id))
  {}

  /** Staging brought `d` to where it holds all of `ops`, and the sender to `rows`. */
  ghost predicate StagedUpTo(d: Device, ops: seq<Operation>, rows: Rows, device: OpaqueId, cursors: OpaqueId -> nat,
                             top: nat)
  {
    && StageAll(d, PageOf(ops, cursors)) == Ok(Staged(d, ops, cursors))
    && Expects(Staged(d, ops, cursors), rows, device, top)
  }

  lemma OneMoreIsStaged(d: Device, ops: seq<Operation>, rows: Rows, op: Operation, device: OpaqueId, rank: Collation,
                        cursors: OpaqueId -> nat, top: nat)
    requires StagedUpTo(d, ops, rows, device, cursors, cursors(op.id)) && NextOperation(op, rows, device, rank)
    requires AllBelow(ops, cursors, cursors(op.id)) && op.id !in d.inbox && cursors(op.id) < top
    ensures StagedUpTo(d, ops + [op], PutRow(rows, RowAfter(rows, op)), device, cursors, top)
  {
    var staged, all := Staged(d, ops, cursors), ops + [op];
    assert all[..|all| - 1] == ops;
    LastIsUnknown(d, ops, op, cursors);
    NextIsStaged(staged, rows, op, device, cursors(op.id), rank);
    StagedExpectsNext(staged, rows, op, device, cursors(op.id), rank, top);
    PageSnoc(all, cursors);
  }

  lemma PreparedIsNext(p: Progress, r: OutboxRecord, device: OpaqueId, rank: Collation)
    requires PrepareOne(p, r, device, rank).Ok?
    ensures
      var op := PrepareOne(p, r, device, rank).value;
      NextOperation(op, p.rows, device, rank) && Advanced(p, op).rows == PutRow(p.rows, RowAfter(p.rows, op))
  {}

  /** Every operation of a prepared group passes staging, one after another. */
  lemma {:induction false} GroupIsStaged(d: Device, p: Progress, group: OutboxRows, device: OpaqueId, rank: Collation,
                                         cursors: OpaqueId -> nat, top: nat)
    requires PrepareAll(p, group, device, rank).Ok? && Tracks(d, p.rows, device)
    requires
      var ops := OperationsOf(PrepareAll(p, group, device, rank).value.prepared);
      Rising(ops, cursors) && Unknown(d, ops) && AllBelow(ops, cursors, top)
    ensures
      var batch := PrepareAll(p, group, device, rank).value;
      StagedUpTo(d, OperationsOf(batch.prepared), batch.progress.rows, device, cursors, top)
    decreases |group|
  {
    if group != [] {
      var n := |group| - 1;
      PrepareUnfolds(p, group, device, rank);
      var earlier := PrepareAll(p, group[..n], device, rank).value;
      var op := PrepareOne(earlier.progress, group[n], device, rank).value;
      var ops := OperationsOf(earlier.prepared);
      OperationsSnoc(earlier.prepared, Sealed(group[n], op), op);
      SnocOf(d, ops, op, cursors, top);
      GroupIsStaged(d, p, group[..n], device, rank, cursors, cursors(op.id));
      PreparedIsNext(earlier.progress, group[n], device, rank);
      OneMoreIsStaged(d, ops, earlier.progress.rows, op, device, rank, cursors, top);
    }
  }

  lemma SnocOf(d: Device, ops: seq<Operation>, op: Operation, cursors: OpaqueId -> nat, top: nat)
    requires Rising(ops + [op], cursors) && Unknown(d, ops + [op]) && AllBelow(ops + [op], cursors, top)
    ensures Rising(ops, cursors) && Unknown(d, ops) && AllBelow(ops, cursors, cursors(op.id))
    ensures op.id !in d.inbox && cursors(op.id) < top
  {
    var all := ops + [op];
    RisingFront(all, cursors);
    assert all[..|all| - 1] == ops && op in all;
  }

  lemma LastIsUnknown(d: Device, ops: seq<Operation>, op: Operation, cursors: OpaqueId -> nat)
    requires AllBelow(ops, cursors, cursors(op.id)) && op.id !in d.inbox
    ensures op.id !in Staged(d, ops, cursors).inbox
  {
    if op.id in Staged(d, ops, cursors).inbox { StagedHolds(d, ops, cursors, op.id); }
  }

  // ---- Applying it ----

  lemma ReceivedIsAdvanced(d: Device, ops: seq<Operation>, cursors: OpaqueId -> nat, valid: FinanceRules)
    returns (applied: Device)
    requires Convergence.Receive(d, ops, cursors, valid).Some?
    ensures applied.rows == d.rows && applied.inbox == Staged(d, ops, cursors).inbox
    ensures AdvanceAll(applied, SortOperations(ops), Applied) == Ok(Convergence.Receive(d, ops, cursors, valid).value)
  {
    var staged, sorted := Staged(d, ops, cursors), SortOperations(ops);
    var scan := ProposeAll(staged, sorted);
    applied := staged.(tables := ApplyValues(staged.tables, sorted), states := staged.states + scan.working,
      conflicts := MarkAllResolved(staged.conflicts, scan.proposals));
  }

  lemma {:induction false} NoneOf(ops: seq<Operation>, device: OpaqueId, x: OpaqueId)
    requires (forall op :: op in ops ==> op.device == device) && x != device
    ensures CountOf(ops, x) == 0
    decreases |ops|
  {
    if ops != [] {
      assert ops[|ops| - 1] in ops && forall op :: op in ops[..|ops| - 1] ==> op in ops;
      NoneOf(ops[..|ops| - 1], device, x);
    }
  }

  lemma AdvancedTracks(applied: Device, ops: seq<Operation>, rows: Rows, device: OpaqueId, top: nat)
    requires Expects(applied, rows, device, top) && ops != [] && forall op :: op in ops ==> op.device == device
    requires AdvanceAll(applied, ops, Applied).Ok?
    requires
      var last := ops[|ops| - 1];
      RowSequence(rows, device) == last.sequence && RowHash(rows, device) == Some(OperationDigest(last))
    ensures Tracks(AdvanceAll(applied, ops, Applied).value, rows, device)
  {
    var after := AdvanceAll(applied, ops, Applied).value;
    AdvanceRecordsLast(applied, ops, Applied, |ops| - 1);
    forall r | r in rows && r.device != device && RowSequence(rows, r.device) > 0
      ensures OnFrontier(after, RowEntry(rows, r.device))
    {
      NoneOf(ops, device, r.device);
      AdvanceMovesFrontier(applied, ops, Applied, r.device);
      assert OnFrontier(applied, RowEntry(rows, r.device));
    }
    forall id | id in after.inbox
      ensures id in applied.inbox && after.inbox[id].operation == applied.inbox[id].operation
    {
      AdvanceKeepsOthers(applied, ops, Applied, id);
    }
    assert ops[|ops| - 1] in ops;
  }

  lemma PreparedRow(p: Progress, group: OutboxRows, device: OpaqueId, rank: Collation)
    requires PrepareAll(p, group, device, rank).Ok? && group != []
    ensures
      var batch := PrepareAll(p, group, device, rank).value;
      var ops := OperationsOf(batch.prepared);
      && ops != []
      && RowSequence(batch.progress.rows, device) == ops[|ops| - 1].sequence
      && RowHash(batch.progress.rows, device) == Some(OperationDigest(ops[|ops| - 1]))
  {
    var n := |group| - 1;
    PrepareUnfolds(p, group, device, rank);
    var earlier := PrepareAll(p, group[..n], device, rank).value;
    var op := PrepareOne(earlier.progress, group[n], device, rank).value;
    OperationsSnoc(earlier.prepared, Sealed(group[n], op), op);
    PreparedIsNext(earlier.progress, group[n], device, rank);
  }

  /** A prepared group that a device in its sender's place can apply, it can also pull. */
  lemma GroupIsPulled(d: Device, p: Progress, group: OutboxRows, device: OpaqueId, rank: Collation,
                      cursors: OpaqueId -> nat, valid: FinanceRules)
    requires PrepareAll(p, group, device, rank).Ok? && CompleteGroup(group) && Tracks(d, p.rows, device)
    requires
      var ops := OperationsOf(PrepareAll(p, group, device, rank).value.prepared);
      Rising(ops, cursors) && Unknown(d, ops) && Convergence.Receive(d, ops, cursors, valid).Some?
    ensures
      var batch := PrepareAll(p, group, device, rank).value;
      var after := Convergence.Receive(d, OperationsOf(batch.prepared), cursors, valid);
      Pull(d, OperationsOf(batch.prepared), cursors, valid) == after
      && Tracks(after.value, batch.progress.rows, device)
  {
    var batch := PrepareAll(p, group, device, rank).value;
    var ops := OperationsOf(batch.prepared);
    PreparedInOrder(p, group, device, rank);
    Convergence.PreparedGroupIsComplete(batch.prepared, group, device, RowSequence(p.rows, device));
    PreparedRow(p, group, device, rank);
    var top := cursors(ops[|ops| - 1].id) + 1;
    RisingFront(ops, cursors);
    forall op | op in ops ensures cursors(op.id) < top {
      var i :| 0 <= i < |ops| && ops[i] == op;
      if i < |ops| - 1 { assert op in ops[..|ops| - 1]; }
    }
    GroupIsStaged(d, p, group, device, rank, cursors, top);
    var applied := ReceivedIsAdvanced(d, ops, cursors, valid);
    AdvancedTracks(applied, ops, batch.progress.rows, device, top);
  }

  // ---- Runs ----

  /** The server's cursors rise in sending order, and nothing sent is in the inbox yet. */
  predicate Deliverable(d: Device, groups: seq<seq<Operation>>, cursors: OpaqueId -> nat) {
    Rising(AllOf(groups), cursors) && Unknown(d, AllOf(groups))
  }

  lemma {:induction false} ReceivedHolds(d: Device, groups: seq<seq<Operation>>, cursors: OpaqueId -> nat,
                                         valid: FinanceRules, id: OpaqueId)
    requires Convergence.ReceiveAll(d, groups, cursors, valid).Some?
    requires id in Convergence.ReceiveAll(d, groups, cursors, valid).value.inbox && id !in d.inbox
    ensures exists op :: op in AllOf(groups) && op.id == id
    decreases |groups|
  {
    if groups != [] {
      var n := |groups| - 1;
      var mid := Convergence.ReceiveAll(d, groups[..n], cursors, valid).value;
      if id in mid.inbox {
        ReceivedHolds(d, groups[..n], cursors, valid, id);
      } else {
        var applied := ReceivedIsAdvanced(mid, groups[n], cursors, valid);
        AdvanceKeepsOthers(applied, SortOperations(groups[n]), Applied, id);
        StagedHolds(mid, groups[n], cursors, id);
      }
    }
  }

  lemma RisingParts(front: seq<Operation>, ops: seq<Operation>, cursors: OpaqueId -> nat)
    requires Rising(front + ops, cursors)
    ensures Rising(front, cursors) && Rising(ops, cursors)
    ensures forall a, b :: a in front && b in ops ==> cursors(a.id) < cursors(b.id)
  {
    var all := front + ops;
    forall i, j | 0 <= i < j < |ops| ensures cursors(ops[i].id) < cursors(ops[j].id) {
      assert all[|front| + i] == ops[i] && all[|front| + j] == ops[j];
    }
    forall i, j | 0 <= i < j < |front| ensures cursors(front[i].id) < cursors(front[j].id) {
      assert all[i] == front[i] && all[j] == front[j];
    }
    forall a, b | a in front && b in ops ensures cursors(a.id) < cursors(b.id) {
      var i, j :| 0 <= i < |front| && 0 <= j < |ops| && front[i] == a && ops[j] == b;
      assert all[i] == a && all[|front| + j] == b;
    }
  }

  lemma EarlierIsDeliverable(d: Device, earlier: seq<seq<Operation>>, groups: seq<seq<Operation>>,
                             cursors: OpaqueId -> nat)
    requires groups == earlier || (|groups| == |earlier| + 1 && groups[..|earlier|] == earlier)
    requires Deliverable(d, groups, cursors)
    ensures Deliverable(d, earlier, cursors)
  {
    if groups != earlier { RisingParts(AllOf(earlier), groups[|earlier|], cursors); }
  }

  /** A deliverable history is deliverable group by group. */
  lemma NextIsDeliverable(d: Device, groups: seq<seq<Operation>>, ops: seq<Operation>, cursors: OpaqueId -> nat,
                          valid: FinanceRules)
    requires Deliverable(d, groups + [ops], cursors)
    ensures Rising(ops, cursors)
    ensures Convergence.ReceiveAll(d, groups, cursors, valid).Some? ==>
      Unknown(Convergence.ReceiveAll(d, groups, cursors, valid).value, ops)
  {
    var longer, front := groups + [ops], AllOf(groups);
    assert longer[..|longer| - 1] == groups;
    assert forall op :: op in front || op in ops ==> op in AllOf(longer);
    RisingParts(front, ops, cursors);
    if Convergence.ReceiveAll(d, groups, cursors, valid).Some? {
      var mid := Convergence.ReceiveAll(d, groups, cursors, valid).value;
      forall op | op in ops ensures op.id !in mid.inbox {
        if op.id in mid.inbox { ReceivedHolds(d, groups, cursors, valid, op.id); }
      }
    }
  }

  lemma PreparedBatch(s: SenderState, device: OpaqueId, rank: Collation) returns (group: OutboxRows)
    requires PrepareNextGroup(s, device, rank).Ok? && PrepareNextGroup(s, device, rank).value.after != s
    ensures CompleteGroup(group)
    ensures PrepareAll(Progress(s.states, s.rows, MaximumLamport(s.states)), group, device, rank).Ok?
    ensures
      var p := PrepareNextGroup(s, device, rank).value;
      var batch := PrepareAll(Progress(s.states, s.rows, MaximumLamport(s.states)), group, device, rank).value;
      p.group == batch.prepared && p.after.rows == batch.progress.rows
  {
    var pending := SortOutbox(NotUploading(s.outbox), rank);
    group := SortByIndex(OfGroup(s.outbox, pending[0].groupId));
  }

  lemma StepIsPulled(w: Convergence.World, e: Convergence.Event, d: Device, after: Device, device: OpaqueId,
                     rank: Collation, cursors: OpaqueId -> nat, valid: FinanceRules)
    requires Tracks(d, w.sender.sync.rows, device) && Convergence.Step(w, e, device, rank).Ok?
    requires
      var next := Convergence.Step(w, e, device, rank).value;
      if next.sent == w.sent then after == d
      else
        && |next.sent| == |w.sent| + 1
        && Rising(next.sent[|w.sent|], cursors) && Unknown(d, next.sent[|w.sent|])
        && Convergence.Receive(d, next.sent[|w.sent|], cursors, valid) == Some(after)
    ensures
      var next := Convergence.Step(w, e, device, rank).value;
      && Tracks(after, next.sender.sync.rows, device)
      && (next.sent != w.sent ==> Pull(d, next.sent[|w.sent|], cursors, valid) == Some(after))
  {
    var s := w.sender.sync;
    var next := Convergence.Step(w, e, device, rank).value;
    if next.sent != w.sent {
      var group := PreparedBatch(s, device, rank);
      GroupIsPulled(d, Progress(s.states, s.rows, MaximumLamport(s.states)), group, device, rank, cursors, valid);
    }
  }

  lemma PullSnoc(d: Device, groups: seq<seq<Operation>>, ops: seq<Operation>, cursors: OpaqueId -> nat,
                 valid: FinanceRules)
    ensures PullAll(d, groups + [ops], cursors, valid) ==
      match PullAll(d, groups, cursors, valid) case None => None case Some(mid) => Pull(mid, ops, cursors, valid)
    ensures Convergence.ReceiveAll(d, groups + [ops], cursors, valid) ==
      match Convergence.ReceiveAll(d, groups, cursors, valid)
      case None => None
      case Some(mid) => Convergence.Receive(mid, ops, cursors, valid)
  {
    var longer := groups + [ops];
    assert longer[..|longer| - 1] == groups && longer[|longer| - 1] == ops;
  }

  /** The receiver pulls what it has received so far, and stands at the sender's frontier. */
  ghost predicate PulledUpTo(w: Convergence.World, d: Device, after: Device, device: OpaqueId,
                             cursors: OpaqueId -> nat, valid: FinanceRules)
  {
    && Convergence.ReceiveAll(d, w.sent, cursors, valid) == Some(after)
    && PullAll(d, w.sent, cursors, valid) == Some(after)
    && Tracks(after, w.sender.sync.rows, device)
  }

  /** What a step did to the groups sent, and that the receiver took a new one. */
  ghost predicate Receives(w: Convergence.World, next: Convergence.World, mid: Device, after: Device,
                         cursors: OpaqueId -> nat, valid: FinanceRules)
  {
    if next.sent == w.sent then after == mid
    else |next.sent| == |w.sent| + 1 && next.sent[..|w.sent|] == w.sent
         && Convergence.Receive(mid, next.sent[|w.sent|], cursors, valid) == Some(after)
  }

  lemma StepKeepsPulled(w: Convergence.World, e: Convergence.Event, d: Device, mid: Device, after: Device,
                        device: OpaqueId, rank: Collation, cursors: OpaqueId -> nat, valid: FinanceRules)
    requires PulledUpTo(w, d, mid, device, cursors, valid) && Convergence.Step(w, e, device, rank).Ok?
    requires Deliverable(d, Convergence.Step(w, e, device, rank).value.sent, cursors)
    requires Receives(w, Convergence.Step(w, e, device, rank).value, mid, after, cursors, valid)
    ensures PulledUpTo(Convergence.Step(w, e, device, rank).value, d, after, device, cursors, valid)
  {
    var next := Convergence.Step(w, e, device, rank).value;
    if next.sent != w.sent {
      var ops := next.sent[|w.sent|];
      assert next.sent == w.sent + [ops];
      NextIsDeliverable(d, w.sent, ops, cursors, valid);
      PullSnoc(d, w.sent, ops, cursors, valid);
    }
    StepIsPulled(w, e, mid, after, device, rank, cursors, valid);
  }

  /** The last step of a plausible run. */
  lemma LastStep(s: Convergence.Sender, d: Device, events: seq<Convergence.Event>, device: OpaqueId,
                 devices: set<OpaqueId>, rank: Collation, cursors: OpaqueId -> nat, valid: FinanceRules)
    returns (w: Convergence.World, mid: Device, after: Device)
    requires Total(rank) && ConvergenceRuns.SameStart(s, d, device, devices, rank) && |events| > 0
    requires Convergence.PlausibleRun(s, events, device, rank, valid)
    ensures Convergence.Run(s, events[..|events| - 1], device, rank) == Ok(w)
    ensures Convergence.Step(w, events[|events| - 1], device, rank).Ok?
    ensures Convergence.Run(s, events, device, rank) == Convergence.Step(w, events[|events| - 1], device, rank)
    ensures Convergence.ReceiveAll(d, w.sent, cursors, valid) == Some(mid)
    ensures Receives(w, Convergence.Step(w, events[|events| - 1], device, rank).value, mid, after, cursors, valid)
  {
    var n := |events| - 1;
    var p, q;
    mid, p, q := ConvergenceRuns.RunKeepsShape(s, d, events[..n], device, devices, rank, cursors, valid);
    w := Convergence.Run(s, events[..n], device, rank).value;
    after, p, q := ConvergenceRuns.StepKeepsShape(w, events[n], mid, p, q, device, devices, rank, cursors, valid);
  }

  lemma {:induction false} RunIsPulled(s: Convergence.Sender, d: Device, events: seq<Convergence.Event>,
                                       device: OpaqueId, devices: set<OpaqueId>, rank: Collation,
                                       cursors: OpaqueId -> nat, valid: FinanceRules) returns (after: Device)
    requires Total(rank) && ConvergenceRuns.SameStart(s, d, device, devices, rank) && Tracks(d, s.sync.rows, device)
    requires Convergence.PlausibleRun(s, events, device, rank, valid)
    requires Convergence.Run(s, events, device, rank).Ok?
    requires Deliverable(d, Convergence.Run(s, events, device, rank).value.sent, cursors)
    ensures PulledUpTo(Convergence.Run(s, events, device, rank).value, d, after, device, cursors, valid)
    decreases |events|
  {
    if |events| == 0 {
      after := d;
    } else {
      var n := |events| - 1;
      var w, mid;
      w, mid, after := LastStep(s, d, events, device, devices, rank, cursors, valid);
      EarlierIsDeliverable(d, w.sent, Convergence.Step(w, events[n], device, rank).value.sent, cursors);
      var pulled := RunIsPulled(s, d, events[..n], device, devices, rank, cursors, valid);
      StepKeepsPulled(w, events[n], d, mid, after, device, rank, cursors, valid);
    }
  }

  /**
   * Convergence through the inbox. Where the receiver has applied everything the sender's frontier names,
   * the server's cursors rise in sending order, and no operation was pulled before, every group of a
   * plausible run passes staging and is applied, and both replicas agree.
   */
  lemma PulledReplicasConverge(s: Convergence.Sender, d: Device, events: seq<Convergence.Event>, device: OpaqueId,
                               devices: set<OpaqueId>, rank: Collation, cursors: OpaqueId -> nat,
                               valid: FinanceRules)
    requires Total(rank) && ConvergenceRuns.SameStart(s, d, device, devices, rank) && Tracks(d, s.sync.rows, device)
    requires Convergence.PlausibleRun(s, events, device, rank, valid)
    requires
      var run := Convergence.Run(s, events, device, rank);
      run.Ok? ==> Deliverable(d, run.value.sent, cursors)
    ensures Convergence.Run(s, events, device, rank).Ok?
    ensures
      var w := Convergence.Run(s, events, device, rank).value;
      var pulled := PullAll(d, w.sent, cursors, valid);
      && pulled.Some?
      && pulled.value.states == w.sender.sync.states
      && Tracks(pulled.value, w.sender.sync.rows, device)
      && Consistent(pulled.value.tables, pulled.value.states)
      && (AllPrepared(w.sender.sync.outbox) ==> pulled.value.tables == w.sender.tables)
  {
    ConvergenceRuns.ReplicasConverge(s, d, events, device, devices, rank, cursors, valid);
    var after := RunIsPulled(s, d, events, device, devices, rank, cursors, valid);
  }
}
