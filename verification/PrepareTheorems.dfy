/**
 * A group that was audited from the tables it edits is prepared without a consistency
 * error, and a receiver in the same state accepts each of its operations.
 */
module PrepareTheorems {
  import opened Wrappers
  import opened SyncOperation
  import opened Causal
  import opened MutationAudit
  import opened Replica
  import opened Outbox
  import opened RemoteApply
  import opened ApplyTheorems

  /** An intent as the audit records it for an ordinary edit. */
  predicate EditIntent(i: Intent) {
    i.previous != i.value && i.resolves == [] && (i.action == Upsert <==> i.value.Some?)
  }

  predicate RecordFits(r: OutboxRecord) {
    EditIntent(r.intent) && r.groupIndex < r.groupSize <= MAX_GROUP_SIZE
  }

  /** What preparation needs of the device's own tables. */
  ghost predicate Ready(p: Progress, t: Tables, device: OpaqueId, devices: set<OpaqueId>, rank: Collation) {
    && Consistent(t, p.states)
    && RowsValid(p.rows)
    && Fits(p.rows, devices, rank)
    && device in devices
  }

  /** The operation says what the intent says, on top of the state the device holds. */
  predicate Carries(op: Operation, p: Progress, r: OutboxRecord, device: OpaqueId) {
    && op.id == r.operationId && op.groupId == r.groupId
    && op.groupIndex == r.groupIndex && op.groupSize == r.groupSize
    && op.device == device && op.sequence == RowSequence(p.rows, device) + 1
    && op.resolves == r.intent.resolves && op.createdAt == r.createdAt
    && op.command.key == r.intent.key && op.command.value == r.intent.value && op.command.action == r.intent.action
    && op.command.precondition == PreconditionOf(StateOf(p.states, r.intent.key, r.intent.previous))
    && op.lamport == p.lamport + 1
  }

  lemma FaithfulPrevious(p: Progress, t: Tables, i: Intent)
    requires Consistent(t, p.states) && EditIntent(i) && i.previous == Get(t, i.key)
    ensures PreviousError(StateOf(p.states, i.key, i.previous), i).None?
    ensures i.action == Delete ==> PreconditionOf(StateOf(p.states, i.key, i.previous)).hash.Some?
    ensures ValidPrecondition(PreconditionOf(StateOf(p.states, i.key, i.previous)))
  {}

  lemma OwnEntryChains(p: Progress, device: OpaqueId, devices: set<OpaqueId>, rank: Collation)
    requires Total(rank) && RowsValid(p.rows) && Fits(p.rows, devices, rank)
    ensures
      var own := Lookup(CausalFrontier(p.rows, rank), device);
      if RowSequence(p.rows, device) == 0 then own.None? && RowHash(p.rows, device).None?
      else own == Some(Entry(device, RowSequence(p.rows, device), RowHash(p.rows, device).value))
  {
    FrontierIsValid(p.rows, devices, rank);
    EntriesLookup(p.rows, device);
  }

  lemma OperationIsCarried(p: Progress, t: Tables, r: OutboxRecord, device: OpaqueId, rank: Collation)
    requires Consistent(t, p.states) && RecordFits(r) && r.intent.previous == Get(t, r.intent.key)
    ensures OperationFor(p, r, device, rank).Some?
    ensures
      var op := OperationFor(p, r, device, rank).value;
      && op.frontier == CausalFrontier(p.rows, rank) && op.previousHash == RowHash(p.rows, device)
      && Carries(op, p, r, device) && op.command.result.hash == ResultStateHash(op)
  {
    FaithfulPrevious(p, t, r.intent);
  }

  /** One record of a group whose intents replay is prepared, and its operation opens everywhere. */
  lemma PrepareStep(p: Progress, t: Tables, r: OutboxRecord, device: OpaqueId, devices: set<OpaqueId>, rank: Collation)
    requires Total(rank) && Ready(p, t, device, devices, rank)
    requires RecordFits(r) && r.intent.previous == Get(t, r.intent.key)
    ensures PrepareOne(p, r, device, rank).Ok?
    ensures Opened(PrepareOne(p, r, device, rank).value)
    ensures Carries(PrepareOne(p, r, device, rank).value, p, r, device)
  {
    FaithfulPrevious(p, t, r.intent);
    FrontierIsValid(p.rows, devices, rank);
    OwnEntryChains(p, device, devices, rank);
    OperationIsCarried(p, t, r, device, rank);
    assert DirectlyChained(OperationFor(p, r, device, rank).value);
  }

  lemma AdvancedRowsFit(p: Progress, op: Operation, devices: set<OpaqueId>, rank: Collation)
    requires RowsValid(p.rows) && Fits(p.rows, devices, rank) && op.device in devices && op.sequence > 0
    ensures RowsValid(Advanced(p, op).rows) && Fits(Advanced(p, op).rows, devices, rank)
    ensures RowSequence(Advanced(p, op).rows, op.device) == op.sequence
  {}

  // ---- Replaying prefixes ----

  lemma {:induction false} ReplayPrefix(t: Tables, intents: seq<Intent>, n: nat)
    requires Replay(t, intents).Some? && n < |intents|
    ensures Replay(t, intents[..n]).Some?
    ensures intents[n].previous == Get(Replay(t, intents[..n]).value, intents[n].key)
    ensures Replay(t, intents[..n + 1]) == Some(Patch(Replay(t, intents[..n]).value, intents[n]))
    decreases n
  {
    if n == 0 {
      assert intents[..1][1..] == [];
    } else {
      ReplayPrefix(Patch(t, intents[0]), intents[1..], n - 1);
      assert intents[..n][1..] == intents[1..][..n - 1];
      assert intents[..n + 1][1..] == intents[1..][..n];
    }
  }

  function GroupIntents(group: OutboxRows): seq<Intent> {
    seq(|group|, i requires 0 <= i < |group| => group[i].intent)
  }

  function OperationsOf(prepared: OutboxRows): seq<Operation>
    requires forall r :: r in prepared ==> r.envelope.Some?
  {
    seq(|prepared|, i requires 0 <= i < |prepared| => prepared[i].envelope.value)
  }

  // ---- Sender and receiver, operation by operation ----

  /** The receiver's view after accepting the operations the sender has prepared so far. */
  ghost predicate View(d: Device, t: Tables, p: Progress, scan: Scan) {
    && AllAccepted(scan.proposals)
    && d.states + scan.working == p.states
    && Agree(d, t, scan.working)
  }

  ghost predicate InStep(d: Device, t: Tables, p: Progress, ops: seq<Operation>) {
    AllOpened(ops) && View(d, t, p, ProposeAll(d, ops)) && ApplyValues(d.tables, ops) == t
  }

  /** A receiver in step computes the very state the sender prepared from. */
  lemma SameCurrent(d: Device, t: Tables, working: States, states: States, op: Operation)
    requires Agree(d, t, working) && d.states + working == states
    ensures Propose(d, working, op).current == StateOf(states, op.command.key, Get(t, op.command.key))
  {
    var k := op.command.key;
    assert k in states <==> k in working || k in d.states;
  }

  lemma NextIsAccepted(d: Device, t: Tables, working: States, p: Progress, r: OutboxRecord, op: Operation,
                       device: OpaqueId)
    requires Agree(d, t, working) && d.states + working == p.states
    requires r.intent.previous == Get(t, r.intent.key) && Carries(op, p, r, device) && Opened(op)
    ensures AcceptedProposal(Propose(d, working, op))
    ensures WorkingAfter(working, Propose(d, working, op)) == working[op.command.key := StateAfter(op)]
  {
    SameCurrent(d, t, working, p.states, op);
    if ResultMatches(Propose(d, working, op).current, op) { CurrentIsFaithful(d, t, working, op); }
  }

  lemma OperationsSnoc(prepared: OutboxRows, r: OutboxRecord, op: Operation)
    requires AllPrepared(prepared) && r.envelope == Some(op)
    ensures AllPrepared(prepared + [r])
    ensures OperationsOf(prepared + [r]) == OperationsOf(prepared) + [op]
  {}

  function ScanAfter(d: Device, scan: Scan, op: Operation): Scan {
    var p := Propose(d, scan.working, op);
    Scan(WorkingAfter(scan.working, p), scan.proposals + [p])
  }

  lemma ProposeSnoc(d: Device, ops: seq<Operation>, op: Operation)
    ensures ProposeAll(d, ops + [op]) == ScanAfter(d, ProposeAll(d, ops), op)
    ensures ApplyValues(d.tables, ops + [op]) == ApplyValue(ApplyValues(d.tables, ops), op)
  {
    assert (ops + [op])[..|ops|] == ops;
  }

  lemma ViewSnoc(d: Device, t: Tables, p: Progress, scan: Scan, r: OutboxRecord, op: Operation, device: OpaqueId)
    requires View(d, t, p, scan)
    requires r.intent.previous == Get(t, r.intent.key) && Carries(op, p, r, device) && Opened(op)
    ensures View(d, ApplyValue(t, op), Advanced(p, op), ScanAfter(d, scan, op))
  {
    NextIsAccepted(d, t, scan.working, p, r, op, device);
    AcceptedOpAgrees(d, t, scan.working, op);
    ViewExtends(d, ApplyValue(t, op), p, scan, op);
  }

  lemma ViewExtends(d: Device, next: Tables, p: Progress, scan: Scan, op: Operation)
    requires AllAccepted(scan.proposals) && d.states + scan.working == p.states
    requires AcceptedProposal(Propose(d, scan.working, op))
    requires WorkingAfter(scan.working, Propose(d, scan.working, op)) == scan.working[op.command.key := StateAfter(op)]
    requires Agree(d, next, WorkingAfter(scan.working, Propose(d, scan.working, op)))
    ensures View(d, next, Advanced(p, op), ScanAfter(d, scan, op))
  {
    assert d.states + scan.working[op.command.key := StateAfter(op)] == p.states[op.command.key := StateAfter(op)];
  }

  lemma StepKeepsInStep(d: Device, t: Tables, p: Progress, ops: seq<Operation>, r: OutboxRecord,
                        op: Operation, device: OpaqueId)
    requires InStep(d, t, p, ops)
    requires r.intent.previous == Get(t, r.intent.key) && Carries(op, p, r, device) && Opened(op)
    ensures InStep(d, Patch(t, r.intent), Advanced(p, op), ops + [op])
  {
    ViewSnoc(d, t, p, ProposeAll(d, ops), r, op, device);
    ProposeSnoc(d, ops, op);
    assert ApplyValue(t, op) == Patch(t, r.intent);
  }

  lemma StepKeepsReady(d: Device, t: Tables, p: Progress, ops: seq<Operation>, before: Progress, op: Operation,
                       device: OpaqueId, devices: set<OpaqueId>, rank: Collation)
    requires InStep(d, t, p, ops) && p == Advanced(before, op) && op.device == device && op.sequence > 0
    requires RowsValid(before.rows) && Fits(before.rows, devices, rank) && device in devices
    requires Consistent(t, p.states)
    ensures Ready(p, t, device, devices, rank)
  {
    AdvancedRowsFit(before, op, devices, rank);
  }

  /** One more record: it is prepared, and the receiver stays in step. */
  lemma RecordKeepsInStep(d: Device, t: Tables, batch: Batch, r: OutboxRecord,
                          device: OpaqueId, devices: set<OpaqueId>, rank: Collation)
    requires Total(rank) && AllPrepared(batch.prepared) && RecordFits(r) && r.intent.previous == Get(t, r.intent.key)
    requires InStep(d, t, batch.progress, OperationsOf(batch.prepared))
      && Ready(batch.progress, t, device, devices, rank)
    ensures PrepareOne(batch.progress, r, device, rank).Ok?
    ensures
      var op := PrepareOne(batch.progress, r, device, rank).value;
      var prepared := batch.prepared + [Sealed(r, op)];
      && AllPrepared(prepared)
      && InStep(d, Patch(t, r.intent), Advanced(batch.progress, op), OperationsOf(prepared))
      && Ready(Advanced(batch.progress, op), Patch(t, r.intent), device, devices, rank)
  {
    PrepareStep(batch.progress, t, r, device, devices, rank);
    var op := PrepareOne(batch.progress, r, device, rank).value;
    OperationsSnoc(batch.prepared, Sealed(r, op), op);
    StepKeepsInStep(d, t, batch.progress, OperationsOf(batch.prepared), r, op, device);
    StepKeepsReady(d, Patch(t, r.intent), Advanced(batch.progress, op), OperationsOf(batch.prepared + [Sealed(r, op)]),
      batch.progress, op, device, devices, rank);
  }

  /** After the first n records: what is edited, what is prepared, and the receiver in step with both. */
  ghost predicate Carried(d: Device, p: Progress, group: OutboxRows, n: nat, t: Tables, batch: Batch,
                          device: OpaqueId, devices: set<OpaqueId>, rank: Collation)
    requires n <= |group| && AllPrepared(batch.prepared)
  {
    && Replay(d.tables, GroupIntents(group)[..n]) == Some(t)
    && PrepareAll(p, group[..n], device, rank) == Ok(batch)
    && InStep(d, t, batch.progress, OperationsOf(batch.prepared))
    && Ready(batch.progress, t, device, devices, rank)
  }

  lemma CarriedAtStart(d: Device, p: Progress, group: OutboxRows, device: OpaqueId, devices: set<OpaqueId>,
                       rank: Collation)
    requires Ready(p, d.tables, device, devices, rank) && p.states == d.states
    ensures Carried(d, p, group, 0, d.tables, Batch(p, []), device, devices, rank)
  {
    assert d.states + map[] == d.states;
  }

  lemma CarriedOneMore(d: Device, p: Progress, group: OutboxRows, n: nat, t: Tables, batch: Batch,
                       device: OpaqueId, devices: set<OpaqueId>, rank: Collation) returns (t': Tables, batch': Batch)
    requires Total(rank) && n < |group| && AllPrepared(batch.prepared) && RecordFits(group[n])
    requires Replay(d.tables, GroupIntents(group)).Some?
    requires Carried(d, p, group, n, t, batch, device, devices, rank)
    ensures AllPrepared(batch'.prepared) && Carried(d, p, group, n + 1, t', batch', device, devices, rank)
  {
    ReplayPrefix(d.tables, GroupIntents(group), n);
    RecordKeepsInStep(d, t, batch, group[n], device, devices, rank);
    PrepareSnoc(p, group, n + 1, device, rank);
    var op := PrepareOne(batch.progress, group[n], device, rank).value;
    t', batch' := Patch(t, group[n].intent),
      Batch(Advanced(batch.progress, op), batch.prepared + [Sealed(group[n], op)]);
  }

  /** The whole group: every record is prepared and every operation accepted. */
  lemma {:induction false} GroupKeepsInStep(
    d: Device, p: Progress, group: OutboxRows, n: nat, device: OpaqueId, devices: set<OpaqueId>, rank: Collation)
    returns (t: Tables, batch: Batch)
    requires Total(rank) && n <= |group| && Ready(p, d.tables, device, devices, rank) && p.states == d.states
    requires forall r :: r in group ==> RecordFits(r)
    requires Replay(d.tables, GroupIntents(group)).Some?
    ensures AllPrepared(batch.prepared) && Carried(d, p, group, n, t, batch, device, devices, rank)
    decreases n
  {
    if n == 0 {
      CarriedAtStart(d, p, group, device, devices, rank);
      t, batch := d.tables, Batch(p, []);
    } else {
      t, batch := GroupKeepsInStep(d, p, group, n - 1, device, devices, rank);
      assert group[n - 1] in group;
      t, batch := CarriedOneMore(d, p, group, n - 1, t, batch, device, devices, rank);
    }
  }

  lemma PrepareSnoc(p: Progress, group: OutboxRows, n: nat, device: OpaqueId, rank: Collation)
    requires 0 < n <= |group| && PrepareAll(p, group[..n - 1], device, rank).Ok?
    requires PrepareOne(PrepareAll(p, group[..n - 1], device, rank).value.progress, group[n - 1], device, rank).Ok?
    ensures
      var batch := PrepareAll(p, group[..n - 1], device, rank).value;
      var op := PrepareOne(batch.progress, group[n - 1], device, rank).value;
      PrepareAll(p, group[..n], device, rank) ==
        Ok(Batch(Advanced(batch.progress, op), batch.prepared + [Sealed(group[n - 1], op)]))
  {
    assert group[..n][..n - 1] == group[..n - 1];
  }

  /** `record` is `r`, sealed with this device's operation at the given sequence. */
  predicate SealedAs(record: OutboxRecord, r: OutboxRecord, device: OpaqueId, sequence: nat) {
    record.envelope.Some?
    && var op := record.envelope.value;
       && record == Sealed(r, op)
       && op.id == r.operationId && op.groupId == r.groupId
       && op.groupIndex == r.groupIndex && op.groupSize == r.groupSize
       && op.device == device && op.sequence == sequence
  }

  lemma PrepareUnfolds(p: Progress, group: OutboxRows, device: OpaqueId, rank: Collation)
    requires PrepareAll(p, group, device, rank).Ok? && group != []
    ensures PrepareAll(p, group[..|group| - 1], device, rank).Ok?
    ensures
      var n := |group| - 1;
      var earlier := PrepareAll(p, group[..n], device, rank).value;
      && PrepareOne(earlier.progress, group[n], device, rank).Ok?
      && var op := PrepareOne(earlier.progress, group[n], device, rank).value;
         PrepareAll(p, group, device, rank).value ==
           Batch(Advanced(earlier.progress, op), earlier.prepared + [Sealed(group[n], op)])
  {}

  lemma OneIsSealed(p: Progress, r: OutboxRecord, device: OpaqueId, rank: Collation)
    requires PrepareOne(p, r, device, rank).Ok?
    ensures
      var op := PrepareOne(p, r, device, rank).value;
      && SealedAs(Sealed(r, op), r, device, RowSequence(p.rows, device) + 1)
      && RowSequence(Advanced(p, op).rows, device) == RowSequence(p.rows, device) + 1
  {}

  predicate AllSealed(prepared: OutboxRows, group: OutboxRows, device: OpaqueId, from: nat) {
    |prepared| == |group|
    && forall i :: 0 <= i < |group| ==> SealedAs(prepared[i], group[i], device, from + 1 + i)
  }

  lemma SealedSnoc(prepared: OutboxRows, group: OutboxRows, record: OutboxRecord, device: OpaqueId, from: nat)
    requires group != [] && AllSealed(prepared, group[..|group| - 1], device, from)
    requires SealedAs(record, group[|group| - 1], device, from + |group|)
    ensures AllSealed(prepared + [record], group, device, from)
  {
    forall i | 0 <= i < |group| ensures SealedAs((prepared + [record])[i], group[i], device, from + 1 + i) {
      if i < |group| - 1 { assert group[..|group| - 1][i] == group[i]; }
    }
  }

  /** The prepared records are the group's own, sealed in order, one sequence after another. */
  lemma {:induction false} PreparedInOrder(p: Progress, group: OutboxRows, device: OpaqueId, rank: Collation)
    requires PrepareAll(p, group, device, rank).Ok?
    ensures AllSealed(PrepareAll(p, group, device, rank).value.prepared, group, device, RowSequence(p.rows, device))
    ensures RowSequence(PrepareAll(p, group, device, rank).value.progress.rows, device) ==
      RowSequence(p.rows, device) + |group|
    decreases |group|
  {
    if group != [] {
      var n := |group| - 1;
      PrepareUnfolds(p, group, device, rank);
      PreparedInOrder(p, group[..n], device, rank);
      var earlier := PrepareAll(p, group[..n], device, rank).value;
      var op := PrepareOne(earlier.progress, group[n], device, rank).value;
      OneIsSealed(earlier.progress, group[n], device, rank);
      SealedSnoc(earlier.prepared, group, Sealed(group[n], op), device, RowSequence(p.rows, device));
    }
  }

  predicate LamportsFrom(ops: seq<Operation>, lamport: nat) {
    forall i :: 0 <= i < |ops| ==> ops[i].lamport == lamport + 1 + i
  }

  lemma OneMoreLamport(p: Progress, r: OutboxRecord, ops: seq<Operation>, lamport: nat, device: OpaqueId,
                       rank: Collation)
    requires LamportsFrom(ops, lamport) && p.lamport == lamport + |ops| && PrepareOne(p, r, device, rank).Ok?
    ensures
      var op := PrepareOne(p, r, device, rank).value;
      LamportsFrom(ops + [op], lamport) && Advanced(p, op).lamport == lamport + |ops| + 1
  {}

  lemma {:induction false} PreparedLamports(p: Progress, group: OutboxRows, device: OpaqueId, rank: Collation)
    requires PrepareAll(p, group, device, rank).Ok?
    ensures
      var batch := PrepareAll(p, group, device, rank).value;
      && batch.progress.lamport == p.lamport + |group| && |batch.prepared| == |group|
      && LamportsFrom(OperationsOf(batch.prepared), p.lamport)
    decreases |group|
  {
    if group != [] {
      var n := |group| - 1;
      PrepareUnfolds(p, group, device, rank);
      PreparedLamports(p, group[..n], device, rank);
      var earlier := PrepareAll(p, group[..n], device, rank).value;
      var op := PrepareOne(earlier.progress, group[n], device, rank).value;
      OneMoreLamport(earlier.progress, group[n], OperationsOf(earlier.prepared), p.lamport, device, rank);
      OperationsSnoc(earlier.prepared, Sealed(group[n], op), op);
    }
  }

  /** A group is prepared at Lamport times above every state's, one after another. */
  lemma LamportsRise(states: States, rows: Rows, group: OutboxRows, device: OpaqueId, rank: Collation)
    requires PrepareAll(Progress(states, rows, MaximumLamport(states)), group, device, rank).Ok?
    ensures
      var ops :=
        OperationsOf(PrepareAll(Progress(states, rows, MaximumLamport(states)), group, device, rank).value.prepared);
      && (forall k, i :: k in states && 0 <= i < |ops| ==> states[k].lastLamport < ops[i].lamport)
      && (forall i, j :: 0 <= i < j < |ops| ==> ops[i].lamport < ops[j].lamport)
  {
    PreparedLamports(Progress(states, rows, MaximumLamport(states)), group, device, rank);
  }
}
