/**
 * Two replicas that edit at the same time: over any plausible runs of both, what each side's edits
 * find at the other (src/db/sync/operation-repository.ts, 254-900).
 */
module ConcurrentEdits {
  import opened Wrappers
  import opened SyncOperation
  import opened Causal
  import opened MutationAudit
  import opened Replica
  import opened Outbox
  import opened RemoteApply
  import opened ApplyTheorems
  import opened PrepareTheorems
  import opened Acceptance
  import opened Delivery
  import opened Convergence
  import opened ConvergenceRuns
  import StagingRuns

  // ---- What prepared operations are written on ----

  /** Each operation was written on what the one before it on its entity left, the first on what `d` holds. */
  predicate WrittenInTurn(d: Device, ops: seq<Operation>) {
    forall i :: 0 <= i < |ops| ==> Opened(ops[i]) && ops[i].resolves == [] && WrittenOn(ops[i], Met(d, ops, i))
  }

  lemma WrittenSnoc(d: Device, ops: seq<Operation>, op: Operation)
    requires WrittenInTurn(d, ops) && Opened(op) && op.resolves == []
    requires WrittenOn(op, MetAfter(d, ops, op.command.key))
    ensures WrittenInTurn(d, ops + [op])
  {
    var all := ops + [op];
    forall i | 0 <= i < |all|
      ensures Opened(all[i]) && all[i].resolves == [] && WrittenOn(all[i], Met(d, all, i))
    {
      if i < |ops| {
        assert all[..i] == ops[..i] && all[i] == ops[i];
      } else {
        assert all[..i] == ops;
      }
    }
  }

  /** The sender writes on what a device in step would meet. */
  lemma NextIsWritten(d: Device, t: Tables, p: Progress, ops: seq<Operation>, r: OutboxRecord, op: Operation,
                      device: OpaqueId)
    requires InStep(d, t, p, ops) && Consistent(d.tables, d.states)
    requires r.intent.previous == Get(t, r.intent.key) && Carries(op, p, r, device)
    ensures WrittenOn(op, MetAfter(d, ops, op.command.key))
  {
    var k := op.command.key;
    SameCurrent(d, t, ProposeAll(d, ops).working, p.states, op);
    ScanFollows(d, ops);
    assert ScanDescribes(d, ops, ProposeAll(d, ops).working, k);
  }

  lemma OneMoreIsWritten(d: Device, t: Tables, batch: Batch, r: OutboxRecord, device: OpaqueId,
                         devices: set<OpaqueId>, rank: Collation)
    requires Total(rank) && AllPrepared(batch.prepared) && RecordFits(r) && r.intent.previous == Get(t, r.intent.key)
    requires InStep(d, t, batch.progress, OperationsOf(batch.prepared)) && Consistent(d.tables, d.states)
    requires Ready(batch.progress, t, device, devices, rank) && WrittenInTurn(d, OperationsOf(batch.prepared))
    ensures PrepareOne(batch.progress, r, device, rank).Ok?
    ensures
      var op := PrepareOne(batch.progress, r, device, rank).value;
      WrittenInTurn(d, OperationsOf(batch.prepared) + [op])
  {
    PrepareStep(batch.progress, t, r, device, devices, rank);
    var op := PrepareOne(batch.progress, r, device, rank).value;
    NextIsWritten(d, t, batch.progress, OperationsOf(batch.prepared), r, op, device);
    WrittenSnoc(d, OperationsOf(batch.prepared), op);
  }

  lemma StepIsWritten(d: Device, p: Progress, group: OutboxRows, n: nat, t: Tables, batch: Batch, next: Batch,
                      device: OpaqueId, devices: set<OpaqueId>, rank: Collation)
    requires Total(rank) && n < |group| && AllPrepared(batch.prepared) && RecordFits(group[n])
    requires Replay(d.tables, GroupIntents(group)).Some? && Consistent(d.tables, d.states)
    requires Carried(d, p, group, n, t, batch, device, devices, rank)
    requires PrepareAll(p, group[..n + 1], device, rank) == Ok(next)
    requires WrittenInTurn(d, OperationsOf(batch.prepared))
    ensures AllPrepared(next.prepared) && WrittenInTurn(d, OperationsOf(next.prepared))
  {
    ReplayPrefix(d.tables, GroupIntents(group), n);
    OneMoreIsWritten(d, t, batch, group[n], device, devices, rank);
    PrepareSnoc(p, group, n + 1, device, rank);
    var op := PrepareOne(batch.progress, group[n], device, rank).value;
    OperationsSnoc(batch.prepared, Sealed(group[n], op), op);
  }

  ghost predicate PreparedInTurn(d: Device, p: Progress, group: OutboxRows, n: nat, device: OpaqueId, rank: Collation)
    requires n <= |group|
  {
    match PrepareAll(p, group[..n], device, rank)
    case Err(_) => false
    case Ok(batch) => WrittenInTurn(d, OperationsOf(batch.prepared))
  }

  lemma OneMoreInTurn(d: Device, p: Progress, group: OutboxRows, n: nat, device: OpaqueId, devices: set<OpaqueId>,
                      rank: Collation)
    requires Total(rank) && n < |group| && Ready(p, d.tables, device, devices, rank) && p.states == d.states
    requires forall r :: r in group ==> RecordFits(r)
    requires Replay(d.tables, GroupIntents(group)).Some? && PreparedInTurn(d, p, group, n, device, rank)
    ensures PreparedInTurn(d, p, group, n + 1, device, rank)
  {
    var t, batch := GroupKeepsInStep(d, p, group, n, device, devices, rank);
    var u, next := GroupKeepsInStep(d, p, group, n + 1, device, devices, rank);
    StepIsWritten(d, p, group, n, t, batch, next, device, devices, rank);
  }

  /** A prepared group is written in turn on what a device in step holds. */
  lemma {:induction false} GroupIsWritten(d: Device, p: Progress, group: OutboxRows, n: nat, device: OpaqueId,
                                          devices: set<OpaqueId>, rank: Collation)
    requires Total(rank) && n <= |group| && Ready(p, d.tables, device, devices, rank) && p.states == d.states
    requires forall r :: r in group ==> RecordFits(r)
    requires Replay(d.tables, GroupIntents(group)).Some?
    ensures PreparedInTurn(d, p, group, n, device, rank)
    decreases n
  {
    if n > 0 {
      GroupIsWritten(d, p, group, n - 1, device, devices, rank);
      OneMoreInTurn(d, p, group, n - 1, device, devices, rank);
    }
  }

  // ---- What a run sends ----

  /** A whole group in order, numbered on from `from` and written in turn on what `d` holds. */
  ghost predicate SentFrom(d: Device, ops: seq<Operation>, device: OpaqueId, from: nat) {
    && WrittenInTurn(d, ops) && Continues(ops, device, from)
    && Whole(ops)
  }

  lemma OldestIsSent(s: Sender, d: Device, g: OutboxRows, rest: seq<OutboxRows>, device: OpaqueId,
                     devices: set<OpaqueId>, rank: Collation, valid: FinanceRules)
    requires Total(rank) && Shape(s, d, [], [g] + rest, device, devices, rank, valid) && FreshGroup(g)
    ensures PrepareNextGroup(s.sync, device, rank).Ok?
    ensures
      var p := PrepareNextGroup(s.sync, device, rank).value;
      && SentFrom(d, OperationsOf(p.group), device, RowSequence(s.sync.rows, device))
      && RowSequence(p.after.rows, device) == RowSequence(s.sync.rows, device) + |p.group|
      && StatedOver(s.sync.states, p.after.states, OperationsOf(p.group))
  {
    var p := Progress(s.sync.states, s.sync.rows, MaximumLamport(s.sync.states));
    assert ([g] + rest)[1..] == rest;
    GroupIsWritten(d, p, g, |g|, device, devices, rank);
    assert g[..|g|] == g;
    var batch := PrepareAll(p, g, device, rank).value;
    PreparedInOrder(p, g, device, rank);
    PreparedAreStated(p, g, device, rank);
    PreparesOldest(s.sync, g, rest, device, rank);
    PreparedGroupIsComplete(batch.prepared, g, device, RowSequence(s.sync.rows, device));
    WrittenOpens(d, OperationsOf(batch.prepared));
  }

  lemma WrittenOpens(d: Device, ops: seq<Operation>)
    requires WrittenInTurn(d, ops)
    ensures AllOpened(ops) && forall op :: op in ops ==> op.resolves == []
  {}

  lemma PreparedIsSent(s: Sender, d: Device, prepared: OutboxRows, queue: seq<OutboxRows>, device: OpaqueId,
                       devices: set<OpaqueId>, rank: Collation, valid: FinanceRules)
    requires Total(rank) && Shape(s, d, prepared, queue, device, devices, rank, valid)
    requires PrepareNextGroup(s.sync, device, rank).Ok?
    ensures
      var p := PrepareNextGroup(s.sync, device, rank).value;
      p.after == s.sync
      || (SentFrom(d, OperationsOf(p.group), device, RowSequence(s.sync.rows, device))
          && RowSequence(p.after.rows, device) == RowSequence(s.sync.rows, device) + |p.group|
          && StatedOver(s.sync.states, p.after.states, OperationsOf(p.group)))
  {
    if prepared != [] {
      OffersRemainder(s.sync, prepared, queue, device, rank);
    } else if queue == [] {
      NothingPending(s.sync, device, rank);
    } else {
      assert queue == [queue[0]] + queue[1..] && queue[0] in queue;
      OldestIsSent(s, d, queue[0], queue[1..], device, devices, rank, valid);
    }
  }

  lemma {:induction false} LastOnJoin(front: seq<Operation>, ops: seq<Operation>, k: EntityKey)
    ensures LastOn(front + ops, k) == if LastOn(ops, k).Some? then LastOn(ops, k) else LastOn(front, k)
    decreases |ops|
  {
    if ops == [] {
      assert front + ops == front;
    } else {
      var all := front + ops;
      assert all[..|all| - 1] == front + ops[..|ops| - 1] && all[|all| - 1] == ops[|ops| - 1];
      LastOnJoin(front, ops[..|ops| - 1], k);
    }
  }

  ghost predicate HoldsAfter(after: Device, d: Device, ops: seq<Operation>) {
    forall k :: HeldAt(after, k) == MetAfter(d, ops, k)
  }

  lemma WrittenJoin(d: Device, mid: Device, front: seq<Operation>, ops: seq<Operation>)
    requires WrittenInTurn(d, front) && HoldsAfter(mid, d, front) && WrittenInTurn(mid, ops)
    ensures WrittenInTurn(d, front + ops)
    ensures forall k :: MetAfter(d, front + ops, k) == MetAfter(mid, ops, k)
  {
    var all := front + ops;
    forall k ensures MetAfter(d, all, k) == MetAfter(mid, ops, k) {
      LastOnJoin(front, ops, k);
      assert HeldAt(mid, k) == MetAfter(d, front, k);
    }
    forall i | 0 <= i < |all| ensures Opened(all[i]) && all[i].resolves == [] && WrittenOn(all[i], Met(d, all, i)) {
      if i < |front| {
        assert all[..i] == front[..i] && all[i] == front[i];
      } else {
        var k := all[i].command.key;
        assert all[..i] == front + ops[..i - |front|] && all[i] == ops[i - |front|];
        LastOnJoin(front, ops[..i - |front|], k);
        assert HeldAt(mid, k) == MetAfter(d, front, k);
        assert Met(d, all, i) == Met(mid, ops, i - |front|);
      }
    }
  }

  lemma ReceivedHolds(d: Device, ops: seq<Operation>, cursors: OpaqueId -> nat, valid: FinanceRules)
    requires Consistent(d.tables, d.states) && WrittenInTurn(d, ops) && Whole(ops)
    requires Receive(d, ops, cursors, valid).Some?
    ensures HoldsAfter(Receive(d, ops, cursors, valid).value, d, ops)
  {
    var staged := Staged(d, ops, cursors);
    forall k ensures HeldAt(Receive(d, ops, cursors, valid).value, k) == MetAfter(d, ops, k) {
      AppliedHolds(staged, ops, valid, k);
      assert HeldAt(staged, k) == HeldAt(d, k);
    }
  }

  /** The states record the last operation on each entity of a list. */
  ghost predicate Stated(states: States, ops: seq<Operation>) {
    forall k :: LastOn(ops, k).Some? ==> k in states && states[k] == StateAfter(LastOn(ops, k).value)
  }

  ghost predicate StatedOver(before: States, after: States, ops: seq<Operation>) {
    && Stated(after, ops)
    && forall k :: LastOn(ops, k).None? && k in before ==> k in after && after[k] == before[k]
  }

  lemma {:induction false} PreparedAreStated(p: Progress, group: OutboxRows, device: OpaqueId, rank: Collation)
    requires PrepareAll(p, group, device, rank).Ok?
    ensures
      var batch := PrepareAll(p, group, device, rank).value;
      StatedOver(p.states, batch.progress.states, OperationsOf(batch.prepared))
    decreases |group|
  {
    if group != [] {
      var n := |group| - 1;
      PrepareUnfolds(p, group, device, rank);
      PreparedAreStated(p, group[..n], device, rank);
      var earlier := PrepareAll(p, group[..n], device, rank).value;
      var op := PrepareOne(earlier.progress, group[n], device, rank).value;
      OperationsSnoc(earlier.prepared, Sealed(group[n], op), op);
      StatedSnoc(p.states, earlier.progress, OperationsOf(earlier.prepared), op);
    }
  }

  lemma StatedSnoc(before: States, p: Progress, ops: seq<Operation>, op: Operation)
    requires StatedOver(before, p.states, ops)
    ensures StatedOver(before, Advanced(p, op).states, ops + [op])
  {
    assert (ops + [op])[..|ops|] == ops;
  }

  lemma StatedJoin(states: States, after: States, front: seq<Operation>, ops: seq<Operation>)
    requires Stated(states, front) && StatedOver(states, after, ops)
    ensures Stated(after, front + ops)
  {
    forall k | LastOn(front + ops, k).Some?
      ensures k in after && after[k] == StateAfter(LastOn(front + ops, k).value)
    {
      LastOnJoin(front, ops, k);
    }
  }

  /** All that was sent, as one list: written in turn on the start, and `after` holds what it leaves. */
  ghost predicate Sends(w: World, start: Device, after: Device, device: OpaqueId, from: nat) {
    && WrittenInTurn(start, AllOf(w.sent)) && HoldsAfter(after, start, AllOf(w.sent))
    && Continues(AllOf(w.sent), device, from)
    && RowSequence(w.sender.sync.rows, device) == from + |AllOf(w.sent)|
    && AllWhole(w.sent) && Stated(w.sender.sync.states, AllOf(w.sent))
  }

  lemma AllOfSnoc(groups: seq<seq<Operation>>, ops: seq<Operation>)
    ensures AllOf(groups + [ops]) == AllOf(groups) + ops
  {
    assert (groups + [ops])[..|groups|] == groups;
  }

  lemma SendsOneMore(w: World, next: World, ops: seq<Operation>, start: Device, mid: Device, device: OpaqueId,
                     from: nat, cursors: OpaqueId -> nat, valid: FinanceRules)
    requires Sends(w, start, mid, device, from) && next.sent == w.sent + [ops]
    requires SentFrom(mid, ops, device, RowSequence(w.sender.sync.rows, device))
    requires RowSequence(next.sender.sync.rows, device) == RowSequence(w.sender.sync.rows, device) + |ops|
    requires StatedOver(w.sender.sync.states, next.sender.sync.states, ops)
    requires Consistent(mid.tables, mid.states) && Receive(mid, ops, cursors, valid).Some?
    ensures Sends(next, start, Receive(mid, ops, cursors, valid).value, device, from)
  {
    var after := Receive(mid, ops, cursors, valid).value;
    AllOfSnoc(w.sent, ops);
    WrittenJoin(start, mid, AllOf(w.sent), ops);
    ReceivedHolds(mid, ops, cursors, valid);
    forall k ensures HeldAt(after, k) == MetAfter(start, AllOf(next.sent), k) {
      assert HeldAt(after, k) == MetAfter(mid, ops, k);
    }
    ContinuesJoin(AllOf(w.sent), ops, device, from);
    StatedJoin(w.sender.sync.states, next.sender.sync.states, AllOf(w.sent), ops);
  }

  lemma ContinuesJoin(front: seq<Operation>, ops: seq<Operation>, device: OpaqueId, from: nat)
    requires Continues(front, device, from) && Continues(ops, device, from + |front|)
    ensures Continues(front + ops, device, from)
  {}

  lemma StepSends(w: World, e: Event, start: Device, mid: Device, after: Device, prepared: OutboxRows,
                  queue: seq<OutboxRows>, device: OpaqueId, devices: set<OpaqueId>, from: nat, rank: Collation,
                  cursors: OpaqueId -> nat, valid: FinanceRules)
    requires Total(rank) && Shape(w.sender, mid, prepared, queue, device, devices, rank, valid)
    requires Sends(w, start, mid, device, from) && Step(w, e, device, rank).Ok?
    requires
      var next := Step(w, e, device, rank).value;
      if next.sent == w.sent then after == mid
      else |next.sent| == |w.sent| + 1 && next.sent[..|w.sent|] == w.sent
           && Receive(mid, next.sent[|w.sent|], cursors, valid) == Some(after)
    ensures Sends(Step(w, e, device, rank).value, start, after, device, from)
  {
    var next := Step(w, e, device, rank).value;
    if next.sent != w.sent {
      var ops := next.sent[|w.sent|];
      assert next.sent == w.sent + [ops];
      PreparedIsSent(w.sender, mid, prepared, queue, device, devices, rank, valid);
      SendsOneMore(w, next, ops, start, mid, device, from, cursors, valid);
    }
  }

  lemma {:induction false} RunSends(s: Sender, d: Device, events: seq<Event>, device: OpaqueId,
                                    devices: set<OpaqueId>, rank: Collation, cursors: OpaqueId -> nat,
                                    valid: FinanceRules)
    returns (after: Device, prepared: OutboxRows, queue: seq<OutboxRows>)
    requires Total(rank) && SameStart(s, d, device, devices, rank)
    requires PlausibleRun(s, events, device, rank, valid)
    ensures Run(s, events, device, rank).Ok?
    ensures
      var w := Run(s, events, device, rank).value;
      && ReceiveAll(d, w.sent, cursors, valid) == Some(after)
      && Shape(w.sender, after, prepared, queue, device, devices, rank, valid)
      && Sends(w, d, after, device, RowSequence(s.sync.rows, device))
    decreases |events|
  {
    if |events| == 0 {
      after, prepared, queue := d, [], [];
    } else {
      var n := |events| - 1;
      var mid, p, q := RunSends(s, d, events[..n], device, devices, rank, cursors, valid);
      var w := Run(s, events[..n], device, rank).value;
      after, prepared, queue := StepKeepsShape(w, events[n], mid, p, q, device, devices, rank, cursors, valid);
      StepSends(w, events[n], d, mid, after, p, q, device, devices, RowSequence(s.sync.rows, device), rank, cursors,
        valid);
    }
  }

  // ---- A device after its own run ----

  function SenderOf(d: Device): Sender {
    Sender(d.tables, SenderState(d.states, d.rows, []))
  }

  /** `held` is the device after its run, with everything prepared; its inbox is whatever arrived meanwhile. */
  ghost predicate Ran(start: Device, held: Device, events: seq<Event>, device: OpaqueId, rank: Collation) {
    var run := Run(SenderOf(start), events, device, rank);
    && run.Ok? && AllPrepared(run.value.sender.sync.outbox)
    && held.tables == run.value.sender.tables && held.states == run.value.sender.sync.states
    && held.rows == run.value.sender.sync.rows
  }

  /** The operations a run sent, oldest first. */
  ghost function SentBy(start: Device, events: seq<Event>, device: OpaqueId, rank: Collation): seq<seq<Operation>> {
    match Run(SenderOf(start), events, device, rank)
    case Err(_) => []
    case Ok(w) => w.sent
  }

  /** Two replicas that hold the same, each where the other last knew it. */
  ghost predicate Twins(a: Device, b: Device, deviceA: OpaqueId, deviceB: OpaqueId, devices: set<OpaqueId>,
                        rank: Collation) {
    && a.tables == b.tables && a.states == b.states && deviceA != deviceB
    && SameStart(SenderOf(a), b, deviceA, devices, rank) && SameStart(SenderOf(b), a, deviceB, devices, rank)
  }

  lemma QueuedIsUnprepared(outbox: OutboxRows, prepared: OutboxRows, queue: seq<OutboxRows>, rank: Collation)
    requires QueueShape(outbox, prepared, queue, rank) && queue != []
    ensures !AllPrepared(outbox)
  {
    assert queue[0] in queue && queue[0][0] in queue[0];
    assert queue[0][0] in outbox;
  }

  /** Whatever a run has sent is whole, numbered on, and written in turn on the common start. */
  lemma SentIsWritten(start: Device, other: Device, events: seq<Event>, device: OpaqueId, devices: set<OpaqueId>,
                      rank: Collation, valid: FinanceRules)
    requires Total(rank) && SameStart(SenderOf(start), other, device, devices, rank)
    requires PlausibleRun(SenderOf(start), events, device, rank, valid)
    ensures
      var sent := SentBy(start, events, device, rank);
      && WrittenInTurn(other, AllOf(sent)) && AllWhole(sent)
      && Continues(AllOf(sent), device, RowSequence(start.rows, device))
  {
    var after, prepared, queue := RunSends(SenderOf(start), other, events, device, devices, rank, _ => 0, valid);
  }

  /** What each side knows of its own operations on the common start. */
  ghost predicate Knows(start: Device, held: Device, own: seq<Operation>) {
    Consistent(held.tables, held.states) && HoldsAfter(held, start, own) && Stated(held.states, own)
  }

  /** A device holds what its own operations leave on top of the common start. */
  lemma RanHolds(start: Device, other: Device, held: Device, events: seq<Event>, device: OpaqueId,
                 devices: set<OpaqueId>, rank: Collation, valid: FinanceRules)
    requires Total(rank) && SameStart(SenderOf(start), other, device, devices, rank)
    requires PlausibleRun(SenderOf(start), events, device, rank, valid) && Ran(start, held, events, device, rank)
    ensures Knows(other, held, AllOf(SentBy(start, events, device, rank)))
  {
    var after, prepared, queue := RunSends(SenderOf(start), other, events, device, devices, rank, _ => 0, valid);
    var w := Run(SenderOf(start), events, device, rank).value;
    if queue != [] { QueuedIsUnprepared(w.sender.sync.outbox, prepared, queue, rank); }
    forall k ensures HeldAt(held, k) == MetAfter(other, AllOf(w.sent), k) {
      assert HeldAt(after, k) == MetAfter(other, AllOf(w.sent), k);
    }
  }

  // ---- Versions ----

  /** An operation is written on one thing only. */
  lemma NotWrittenOn(op: Operation, s: Holding, t: Holding)
    requires WrittenOn(op, s) && s != t
    requires s.version == 0 ==> s == Holding(0, None, None)
    requires t.version == 0 ==> t == Holding(0, None, None)
    ensures !WrittenOn(op, t)
  {}

  lemma {:induction false} LastIsAt(ops: seq<Operation>, k: EntityKey) returns (i: nat)
    requires LastOn(ops, k).Some?
    ensures i < |ops| && ops[i] == LastOn(ops, k).value && forall j :: i < j < |ops| ==> ops[j].command.key != k
    decreases |ops|
  {
    var n := |ops| - 1;
    if ops[n].command.key == k { i := n; } else { i := LastIsAt(ops[..n], k); }
  }

  lemma NextVersion(op: Operation, s: Holding)
    requires Opened(op) && WrittenOn(op, s)
    ensures LeftBy(op).version == s.version + 1
  {}

  lemma {:induction false} VersionsRise(d: Device, ops: seq<Operation>, k: EntityKey)
    requires WrittenInTurn(d, ops) && LastOn(ops, k).Some?
    ensures MetAfter(d, ops, k).version > HeldAt(d, k).version
    decreases |ops|
  {
    var i := LastIsAt(ops, k);
    NextVersion(ops[i], Met(d, ops, i));
    if LastOn(ops[..i], k).Some? {
      WrittenFront(d, ops, i);
      VersionsRise(d, ops[..i], k);
    }
  }

  lemma WrittenFront(d: Device, ops: seq<Operation>, n: nat)
    requires WrittenInTurn(d, ops) && n <= |ops|
    ensures WrittenInTurn(d, ops[..n])
  {
    forall i | 0 <= i < n
      ensures Opened(ops[..n][i]) && ops[..n][i].resolves == [] && WrittenOn(ops[..n][i], Met(d, ops[..n], i))
    {
      assert ops[..n][..i] == ops[..i] && ops[..n][i] == ops[i];
    }
  }

  /** One side's operations on an entity, none of which leaves what the other side holds. */
  predicate NoneMeets(held: Holding, ops: seq<Operation>, k: EntityKey) {
    forall op :: op in ops && op.command.key == k ==> LeftBy(op) != held
  }

  /**
   * Against an entity that was edited since the common start, each operation of the other side is refused
   * exactly when none of them leaves just what is held.
   */
  lemma RefusedIff(start: Device, held: Holding, ops: seq<Operation>, k: EntityKey)
    requires Consistent(start.tables, start.states) && WrittenInTurn(start, ops)
    requires held.version > HeldAt(start, k).version
    ensures Refuses(held, ops, k) <==> NoneMeets(held, ops, k)
  {
    if NoneMeets(held, ops, k) {
      forall op | op in ops && op.command.key == k ensures !Suits(op, held) {
        var i :| 0 <= i < |ops| && ops[i] == op;
        assert forall earlier :: earlier in ops[..i] ==> earlier in ops;
        MetHasVersion(start, ops, i);
        NotWrittenOn(op, Met(start, ops, i), held);
      }
    }
  }

  lemma MetHasVersion(d: Device, ops: seq<Operation>, i: nat)
    requires Consistent(d.tables, d.states) && WrittenInTurn(d, ops) && i < |ops|
    ensures Met(d, ops, i).version == 0 ==> Met(d, ops, i) == Holding(0, None, None)
    ensures LastOn(ops[..i], ops[i].command.key).None? ==> Met(d, ops, i) == HeldAt(d, ops[i].command.key)
  {
    var last := LastOn(ops[..i], ops[i].command.key);
    if last.Some? {
      var j :| 0 <= j < i && ops[j] == last.value;
      NextVersion(ops[j], Met(d, ops, j));
      assert Met(d, ops, i) == LeftBy(ops[j]);
    }
  }

  /** Two operations leave the same only as the same version of the same live value. */
  lemma MeetIff(op: Operation, other: Operation)
    requires Opened(op) && Opened(other) && op.id != other.id
    ensures LeftBy(op) == LeftBy(other) <==>
      op.command.value.Some? && op.command.value == other.command.value
      && op.command.result.version == other.command.result.version
  {}


  // ---- The theorem ----

  /** The operation waits as a conflict against the last operation of this side on its entity. */
  predicate FacesLast(after: Device, own: seq<Operation>, op: Operation) {
    var last := LastOn(own, op.command.key);
    && last.Some? && op.id in after.conflicts
    && after.conflicts[op.id] ==
         Conflict(op.command.key, Some(last.value.id), op, last.value.command.value, Some(StateAfter(last.value)),
                  Pending)
  }

  /** This side's value of `k` is in place, and every operation of the other on it waits as a conflict. */
  ghost predicate InPlace(held: Device, after: Device, own: seq<Operation>, others: seq<Operation>, k: EntityKey) {
    && Stands(held, after, k)
    && forall op :: op in others && op.command.key == k ==> FacesLast(after, own, op)
  }

  lemma FiledFacesLast(start: Device, held: Device, after: Device, own: seq<Operation>, op: Operation)
    requires Knows(start, held, own) && LastOn(own, op.command.key).Some? && FiledAgainst(held, after, op)
    ensures FacesLast(after, own, op)
  {
    var k := op.command.key;
    assert HeldAt(held, k) == MetAfter(start, own, k);
  }

  lemma EditedRefuses(start: Device, held: Device, own: seq<Operation>, others: seq<Operation>, k: EntityKey)
    requires Consistent(start.tables, start.states) && WrittenInTurn(start, own) && WrittenInTurn(start, others)
    requires Knows(start, held, own) && LastOn(own, k).Some?
    ensures Refuses(HeldAt(held, k), others, k) <==> NoneMeets(LeftBy(LastOn(own, k).value), others, k)
  {
    assert HeldAt(held, k) == MetAfter(start, own, k);
    VersionsRise(start, own, k);
    RefusedIff(start, HeldAt(held, k), others, k);
  }

  lemma SideStands(start: Device, held: Device, own: seq<Operation>, groups: seq<seq<Operation>>,
                   cursors: OpaqueId -> nat, valid: FinanceRules, k: EntityKey, n: nat)
    requires Consistent(start.tables, start.states) && WrittenInTurn(start, own)
    requires WrittenInTurn(start, AllOf(groups)) && AllWhole(groups) && DistinctOperations(AllOf(groups))
    requires Knows(start, held, own) && LastOn(own, k).Some?
    requires NoneMeets(LeftBy(LastOn(own, k).value), AllOf(groups), k)
    requires n <= |groups| && DeliverAll(held, groups[..n], cursors, valid).Ok?
    ensures InPlace(held, DeliverAll(held, groups[..n], cursors, valid).value, own, AllOf(groups[..n]), k)
  {
    EditedRefuses(start, held, own, AllOf(groups), k);
    FrontIsPlain(groups, n);
    RefusedAreFiled(held, groups[..n], k, cursors, valid);
    var end := DeliverAll(held, groups[..n], cursors, valid).value;
    forall op | op in AllOf(groups[..n]) && op.command.key == k ensures FacesLast(end, own, op) {
      FiledFacesLast(start, held, end, own, op);
    }
  }

  /** Written on one device is written on any that holds the same. */
  lemma WrittenOnTwin(a: Device, b: Device, ops: seq<Operation>)
    requires a.tables == b.tables && a.states == b.states && WrittenInTurn(a, ops)
    ensures WrittenInTurn(b, ops)
  {
    forall i | 0 <= i < |ops| ensures Opened(ops[i]) && ops[i].resolves == [] && WrittenOn(ops[i], Met(b, ops, i)) {
      assert Met(a, ops, i) == Met(b, ops, i);
    }
  }

  /**
   * One side of two replicas that ran at the same time. Where it edited an entity, and none of the other
   * side's operations leaves just what it holds of it, it keeps its value however many of the other's groups
   * arrive, and each of the other's operations on the entity waits as a conflict.
   */
  lemma OneSideStands(start: Device, held: Device, other: Device, own: seq<Event>, foreign: seq<Event>,
                      device: OpaqueId, sender: OpaqueId, devices: set<OpaqueId>, rank: Collation,
                      cursors: OpaqueId -> nat, valid: FinanceRules, k: EntityKey, n: nat)
    requires Total(rank) && Twins(start, other, device, sender, devices, rank)
    requires PlausibleRun(SenderOf(start), own, device, rank, valid) && Ran(start, held, own, device, rank)
    requires PlausibleRun(SenderOf(other), foreign, sender, rank, valid)
    requires
      var mine := AllOf(SentBy(start, own, device, rank));
      var theirs := SentBy(other, foreign, sender, rank);
      && LastOn(mine, k).Some? && NoneMeets(LeftBy(LastOn(mine, k).value), AllOf(theirs), k)
      && DistinctOperations(AllOf(theirs)) && n <= |theirs| && DeliverAll(held, theirs[..n], cursors, valid).Ok?
    ensures
      var mine := AllOf(SentBy(start, own, device, rank));
      var theirs := SentBy(other, foreign, sender, rank);
      InPlace(held, DeliverAll(held, theirs[..n], cursors, valid).value, mine, AllOf(theirs[..n]), k)
  {
    var mine := AllOf(SentBy(start, own, device, rank));
    var theirs := SentBy(other, foreign, sender, rank);
    RanHolds(start, other, held, own, device, devices, rank, valid);
    SentIsWritten(start, other, own, device, devices, rank, valid);
    SentIsWritten(other, start, foreign, sender, devices, rank, valid);
    WrittenOnTwin(start, other, AllOf(theirs));
    SideStands(other, held, mine, theirs, cursors, valid, k, n);
  }

  // ---- Runs that are contested throughout ----

  /** Each group of the other side names an entity this side edited to something else. */
  ghost predicate Contested(own: seq<Operation>, groups: seq<seq<Operation>>) {
    forall ops :: ops in groups ==> ContestedIn(own, groups, ops)
  }

  ghost predicate ContestedIn(own: seq<Operation>, groups: seq<seq<Operation>>, ops: seq<Operation>) {
    exists k :: Names(ops, k) && LastOn(own, k).Some? && NoneMeets(LeftBy(LastOn(own, k).value), AllOf(groups), k)
  }

  lemma {:induction false} GroupInAll(groups: seq<seq<Operation>>, ops: seq<Operation>)
    requires ops in groups
    ensures forall op :: op in ops ==> op in AllOf(groups)
    decreases |groups|
  {
    if ops != groups[|groups| - 1] { GroupInAll(groups[..|groups| - 1], ops); }
  }

  lemma ContestedIsTurned(start: Device, held: Device, own: seq<Operation>, groups: seq<seq<Operation>>,
                          ops: seq<Operation>)
    requires Consistent(start.tables, start.states) && WrittenInTurn(start, own)
    requires WrittenInTurn(start, AllOf(groups)) && Knows(start, held, own)
    requires ops in groups && ContestedIn(own, groups, ops)
    ensures Turned(held, ops)
  {
    var k :| Names(ops, k) && LastOn(own, k).Some? && NoneMeets(LeftBy(LastOn(own, k).value), AllOf(groups), k);
    EditedRefuses(start, held, own, AllOf(groups), k);
    GroupInAll(groups, ops);
  }

  lemma {:induction false} RunKeepsRow(s: Sender, events: seq<Event>, device: OpaqueId, rank: Collation, x: OpaqueId)
    requires Run(s, events, device, rank).Ok? && x != device
    ensures FindRow(Run(s, events, device, rank).value.sender.sync.rows, x) == FindRow(s.sync.rows, x)
    decreases |events|
  {
    if events != [] {
      var n := |events| - 1;
      RunKeepsRow(s, events[..n], device, rank, x);
      var w := Run(s, events[..n], device, rank).value;
      if events[n].Prepare? { StagingRuns.PrepareKeepsRows(w.sender.sync, device, rank, x); }
    }
  }

  /** Contested throughout, a device keeps all its tables and states, whatever the other side sends. */
  lemma ContestedChangesNothing(start: Device, held: Device, other: Device, own: seq<Event>, foreign: seq<Event>,
                                device: OpaqueId, sender: OpaqueId, devices: set<OpaqueId>, rank: Collation,
                                cursors: OpaqueId -> nat, valid: FinanceRules)
    requires Total(rank) && Twins(start, other, device, sender, devices, rank)
    requires PlausibleRun(SenderOf(start), own, device, rank, valid) && Ran(start, held, own, device, rank)
    requires PlausibleRun(SenderOf(other), foreign, sender, rank, valid)
    requires
      var theirs := SentBy(other, foreign, sender, rank);
      DistinctOperations(AllOf(theirs)) && Contested(AllOf(SentBy(start, own, device, rank)), theirs)
    ensures
      var r := DeliverAll(held, SentBy(other, foreign, sender, rank), cursors, valid);
      r.Ok? && r.value.tables == held.tables && r.value.states == held.states
  {
    var mine := AllOf(SentBy(start, own, device, rank));
    var theirs := SentBy(other, foreign, sender, rank);
    RanHolds(start, other, held, own, device, devices, rank, valid);
    SentIsWritten(start, other, own, device, devices, rank, valid);
    SentIsWritten(other, start, foreign, sender, devices, rank, valid);
    WrittenOnTwin(start, other, AllOf(theirs));
    FrontIsPlain(theirs, |theirs|);
    assert theirs[..|theirs|] == theirs;
    RunKeepsRow(SenderOf(start), own, device, rank, sender);
    forall ops | ops in theirs ensures Turned(held, ops) { ContestedIsTurned(other, held, mine, theirs, ops); }
    AllTurnedAway(held, theirs, sender, RowSequence(other.rows, sender), cursors, valid);
  }

  // ---- Both sides edit one entity ----

  predicate AllName(groups: seq<seq<Operation>>, k: EntityKey) {
    groups != [] && forall ops :: ops in groups ==> Names(ops, k)
  }

  lemma {:induction false} NamedIsLast(groups: seq<seq<Operation>>, k: EntityKey)
    requires AllName(groups, k)
    ensures LastOn(AllOf(groups), k).Some?
  {
    var ops := groups[|groups| - 1];
    assert ops in groups;
    GroupInAll(groups, ops);
  }

  /**
   * Both replicas edit one entity, each as often as it likes, in whatever groups, and no operation of one
   * leaves what the other ends with: each keeps all it has, and files every operation of the other on it.
   */
  lemma BothSidesStand(a: Device, b: Device, heldA: Device, heldB: Device, eventsA: seq<Event>, eventsB: seq<Event>,
                       deviceA: OpaqueId, deviceB: OpaqueId, devices: set<OpaqueId>, rank: Collation,
                       cursors: OpaqueId -> nat, valid: FinanceRules, k: EntityKey)
    requires Total(rank) && Twins(a, b, deviceA, deviceB, devices, rank)
    requires PlausibleRun(SenderOf(a), eventsA, deviceA, rank, valid) && Ran(a, heldA, eventsA, deviceA, rank)
    requires PlausibleRun(SenderOf(b), eventsB, deviceB, rank, valid) && Ran(b, heldB, eventsB, deviceB, rank)
    requires AllName(SentBy(a, eventsA, deviceA, rank), k) && AllName(SentBy(b, eventsB, deviceB, rank), k)
    requires
      var sentA, sentB := AllOf(SentBy(a, eventsA, deviceA, rank)), AllOf(SentBy(b, eventsB, deviceB, rank));
      && DistinctOperations(sentA) && DistinctOperations(sentB)
      && (LastOn(sentA, k).Some? ==> NoneMeets(LeftBy(LastOn(sentA, k).value), sentB, k))
      && (LastOn(sentB, k).Some? ==> NoneMeets(LeftBy(LastOn(sentB, k).value), sentA, k))
    ensures
      var sentA, sentB := SentBy(a, eventsA, deviceA, rank), SentBy(b, eventsB, deviceB, rank);
      var endA, endB := DeliverAll(heldA, sentB, cursors, valid), DeliverAll(heldB, sentA, cursors, valid);
      && endA.Ok? && endA.value.tables == heldA.tables && InPlace(heldA, endA.value, AllOf(sentA), AllOf(sentB), k)
      && endB.Ok? && endB.value.tables == heldB.tables && InPlace(heldB, endB.value, AllOf(sentB), AllOf(sentA), k)
  {
    SideIsContested(a, heldA, b, eventsA, eventsB, deviceA, deviceB, devices, rank, cursors, valid, k);
    SideIsContested(b, heldB, a, eventsB, eventsA, deviceB, deviceA, devices, rank, cursors, valid, k);
  }

  lemma SideIsContested(start: Device, held: Device, other: Device, own: seq<Event>, foreign: seq<Event>,
                        device: OpaqueId, sender: OpaqueId, devices: set<OpaqueId>, rank: Collation,
                        cursors: OpaqueId -> nat, valid: FinanceRules, k: EntityKey)
    requires Total(rank) && Twins(start, other, device, sender, devices, rank)
    requires PlausibleRun(SenderOf(start), own, device, rank, valid) && Ran(start, held, own, device, rank)
    requires PlausibleRun(SenderOf(other), foreign, sender, rank, valid)
    requires AllName(SentBy(start, own, device, rank), k) && AllName(SentBy(other, foreign, sender, rank), k)
    requires
      var mine, theirs := AllOf(SentBy(start, own, device, rank)), AllOf(SentBy(other, foreign, sender, rank));
      DistinctOperations(theirs) && (LastOn(mine, k).Some? ==> NoneMeets(LeftBy(LastOn(mine, k).value), theirs, k))
    ensures
      var mine, theirs := AllOf(SentBy(start, own, device, rank)), SentBy(other, foreign, sender, rank);
      var end := DeliverAll(held, theirs, cursors, valid);
      end.Ok? && end.value.tables == held.tables && InPlace(held, end.value, mine, AllOf(theirs), k)
  {
    var mine, theirs := AllOf(SentBy(start, own, device, rank)), SentBy(other, foreign, sender, rank);
    NamedIsLast(SentBy(start, own, device, rank), k);
    forall ops | ops in theirs ensures ContestedIn(mine, theirs, ops) { assert Names(ops, k); }
    ContestedChangesNothing(start, held, other, own, foreign, device, sender, devices, rank, cursors, valid);
    assert theirs[..|theirs|] == theirs;
    OneSideStands(start, held, other, own, foreign, device, sender, devices, rank, cursors, valid, k, |theirs|);
  }
}
