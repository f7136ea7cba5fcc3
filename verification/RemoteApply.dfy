/**
 * Applying one received group (src/db/sync/operation-repository.ts, 652-900): every
 * operation is accepted and applied, or the whole group is filed as conflicts.
 */
module RemoteApply {
  import opened Wrappers
  import opened SyncOperation
  import opened MutationAudit
  import opened Replica

  datatype InboxStatus = Received | Applied | Conflicted | Refused

  datatype InboxRecord = InboxRecord(operation: Operation, cursor: nat, status: InboxStatus)

  type Inbox = map<OpaqueId, InboxRecord>

  datatype Resolution = Pending | ResolvedLocal | ResolvedRemote | ResolvedCustom(resolution: OpaqueId)

  /** `localOperation` is `None` for the snapshot baseline. */
  datatype Conflict = Conflict(
    key: EntityKey, localOperation: Option<OpaqueId>, remote: Operation,
    localValue: Option<Json>, localState: Option<EntityState>, resolution: Resolution)

  /** Conflicts by the id of the remote operation they are filed under. */
  type Conflicts = map<OpaqueId, Conflict>

  datatype Device = Device(tables: Tables, states: States, rows: Rows, inbox: Inbox, conflicts: Conflicts)

  datatype ApplyError = IncompleteRemoteGroup | InvalidFinanceData | SequenceSkipped | NotStaged

  datatype Outcome = GroupApplied | GroupConflicted

  type FinanceRules = Tables -> bool

  // ---- First phase: one proposal for each operation ----

  datatype Proposal = Proposal(
    operation: Operation, current: Option<EntityState>, localValue: Option<Json>, resolved: set<OpaqueId>)

  predicate PreconditionMatches(current: Option<EntityState>, op: Operation) {
    op.command.precondition == PreconditionOf(current)
  }

  predicate ResultMatches(current: Option<EntityState>, op: Operation) {
    current.Some? && op.command.result.hash == current.value.hash
    && op.command.result.tombstone == current.value.tombstone
  }

  /** The pending conflicts of the entity whose remote operation this one resolves. */
  function ResolvedBy(conflicts: Conflicts, op: Operation): set<OpaqueId> {
    set id | id in conflicts && conflicts[id].resolution == Pending
      && conflicts[id].key == op.command.key && conflicts[id].remote.id in op.resolves
  }

  predicate AcceptedProposal(p: Proposal) {
    PreconditionMatches(p.current, p.operation) || ResultMatches(p.current, p.operation) || p.resolved != {}
  }

  function Propose(d: Device, working: States, op: Operation): Proposal {
    var key := op.command.key;
    var local := Get(d.tables, key);
    var current := if key in working then Some(working[key]) else StateOf(d.states, key, local);
    Proposal(op, current, local, ResolvedBy(d.conflicts, op))
  }

  /** An equivalent state that is at least as new is kept. */
  function StateFor(p: Proposal): EntityState {
    if ResultMatches(p.current, p.operation) && p.operation.command.result.version <= p.current.value.version
    then p.current.value else StateAfter(p.operation)
  }

  function WorkingAfter(working: States, p: Proposal): States {
    if AcceptedProposal(p) then working[p.operation.command.key := StateFor(p)] else working
  }

  datatype Scan = Scan(working: States, proposals: seq<Proposal>)

  function ProposeAll(d: Device, ops: seq<Operation>): (scan: Scan)
    ensures |scan.proposals| == |ops|
    ensures forall i :: 0 <= i < |ops| ==> scan.proposals[i].operation == ops[i]
    ensures scan.working.Keys <= set op | op in ops :: op.command.key
  {
    if ops == [] then Scan(map[], [])
    else
      var n := |ops| - 1;
      var earlier := ProposeAll(d, ops[..n]);
      assert forall op :: op in ops[..n] ==> op in ops;
      assert ops[n] in ops;
      var p := Propose(d, earlier.working, ops[n]);
      Scan(WorkingAfter(earlier.working, p), earlier.proposals + [p])
  }

  predicate AllAccepted(proposals: seq<Proposal>) {
    forall p :: p in proposals ==> AcceptedProposal(p)
  }

  // ---- Second phase ----

  function ApplyValue(t: Tables, op: Operation): Tables {
    match op.command.value
    case None => t - {op.command.key}
    case Some(json) => t[op.command.key := json]
  }

  function ApplyValues(t: Tables, ops: seq<Operation>): Tables {
    if ops == [] then t else ApplyValue(ApplyValues(t, ops[..|ops| - 1]), ops[|ops| - 1])
  }

  function MarkResolved(conflicts: Conflicts, p: Proposal): Conflicts {
    map id | id in conflicts ::
      if id in p.resolved && conflicts[id].resolution == Pending
      then conflicts[id].(resolution := ResolvedCustom(p.operation.id)) else conflicts[id]
  }

  function MarkAllResolved(conflicts: Conflicts, proposals: seq<Proposal>): Conflicts {
    if proposals == [] then conflicts
    else MarkResolved(MarkAllResolved(conflicts, proposals[..|proposals| - 1]), proposals[|proposals| - 1])
  }

  function ConflictFor(p: Proposal): Conflict {
    Conflict(p.operation.command.key, if p.current.None? then None else p.current.value.lastOperation,
      p.operation, p.localValue, p.current, Pending)
  }

  function FileConflicts(conflicts: Conflicts, proposals: seq<Proposal>): Conflicts {
    if proposals == [] then conflicts
    else
      var p := proposals[|proposals| - 1];
      FileConflicts(conflicts, proposals[..|proposals| - 1])[p.operation.id := ConflictFor(p)]
  }

  // ---- Third phase: the sender's frontier and the inbox ----

  function RowAfter(rows: Rows, op: Operation): FrontierRow {
    FrontierRow(op.device, op.sequence, Some(OperationDigest(op)), RowAcknowledged(rows, op.device))
  }

  /** A sender without a row is taken at whatever sequence it starts. */
  function AdvanceOne(d: Device, op: Operation, status: InboxStatus): Result<Device, ApplyError> {
    if FindRow(d.rows, op.device).Some? && op.sequence != RowSequence(d.rows, op.device) + 1 then Err(SequenceSkipped)
    else if op.id !in d.inbox then Err(NotStaged)
    else Ok(d.(rows := PutRow(d.rows, RowAfter(d.rows, op)),
               inbox := d.inbox[op.id := d.inbox[op.id].(status := status)]))
  }

  function AdvanceAll(d: Device, ops: seq<Operation>, status: InboxStatus): Result<Device, ApplyError> {
    if ops == [] then Ok(d)
    else
      match AdvanceAll(d, ops[..|ops| - 1], status)
      case Err(e) => Err(e)
      case Ok(mid) => AdvanceOne(mid, ops[|ops| - 1], status)
  }

  // ---- Staging without its checks ----

  /** Received operations wait in the inbox at their server cursors. */
  function Staged(d: Device, ops: seq<Operation>, cursors: OpaqueId -> nat): (staged: Device)
    ensures staged == d.(inbox := staged.inbox)
    ensures forall op :: op in ops ==> op.id in staged.inbox
  {
    if ops == [] then d
    else
      var n := |ops| - 1;
      var earlier := Staged(d, ops[..n], cursors);
      earlier.(inbox := earlier.inbox[ops[n].id := InboxRecord(ops[n], cursors(ops[n].id), Received)])
  }

  /** Groups in the order they were sent. */
  function AllOf(groups: seq<seq<Operation>>): seq<Operation> {
    if groups == [] then [] else AllOf(groups[..|groups| - 1]) + groups[|groups| - 1]
  }

  // ---- The whole transaction ----

  predicate CompleteRemoteGroup(ops: seq<Operation>) {
    ops != [] && |ops| == ops[0].groupSize
    && forall i :: 0 <= i < |ops| ==>
         ops[i].groupId == ops[0].groupId && ops[i].groupSize == ops[0].groupSize && ops[i].groupIndex == i
  }

  function InsertOperation(sorted: seq<Operation>, op: Operation): seq<Operation> {
    if sorted == [] then [op]
    else if op.groupIndex <= sorted[0].groupIndex then [op] + sorted
    else [sorted[0]] + InsertOperation(sorted[1..], op)
  }

  function SortOperations(ops: seq<Operation>): seq<Operation> {
    if ops == [] then [] else InsertOperation(SortOperations(ops[1..]), ops[0])
  }

  datatype Done = Done(device: Device, outcome: Outcome)

  function ApplyProposals(d: Device, scan: Scan, ops: seq<Operation>, valid: FinanceRules): Result<Done, ApplyError> {
    if AllAccepted(scan.proposals) then
      var tables := ApplyValues(d.tables, ops);
      if !valid(tables) then Err(InvalidFinanceData)
      else
        var applied := d.(tables := tables, states := d.states + scan.working,
                          conflicts := MarkAllResolved(d.conflicts, scan.proposals));
        match AdvanceAll(applied, ops, Applied)
        case Err(e) => Err(e)
        case Ok(after) => Ok(Done(after, GroupApplied))
    else
      match AdvanceAll(d.(conflicts := FileConflicts(d.conflicts, scan.proposals)), ops, Conflicted)
      case Err(e) => Err(e)
      case Ok(after) => Ok(Done(after, GroupConflicted))
  }

  /** The device after the transaction; an error rolls everything back. */
  function ApplyRemoteGroup(d: Device, group: seq<Operation>, valid: FinanceRules): Result<Done, ApplyError> {
    var ops := SortOperations(group);
    if !CompleteRemoteGroup(ops) then Err(IncompleteRemoteGroup)
    else ApplyProposals(d, ProposeAll(d, ops), ops, valid)
  }

  /** What opening an envelope has already checked. */
  predicate Opened(op: Operation) {
    ValidOperation(op) && op.command.result.hash == ResultStateHash(op)
  }

  // ---- The frontier and inbox phase ----

  function CountOf(ops: seq<Operation>, device: OpaqueId): nat {
    if ops == [] then 0
    else CountOf(ops[..|ops| - 1], device) + if ops[|ops| - 1].device == device then 1 else 0
  }

  /** Each sender with a row moves on by exactly its operations, one sequence at a time. */
  lemma {:induction false} AdvanceMovesFrontier(d: Device, ops: seq<Operation>, status: InboxStatus, device: OpaqueId)
    requires AdvanceAll(d, ops, status).Ok?
    ensures
      var after := AdvanceAll(d, ops, status).value;
      && (CountOf(ops, device) == 0 ==> FindRow(after.rows, device) == FindRow(d.rows, device))
      && (FindRow(d.rows, device).Some? ==>
           && FindRow(after.rows, device).Some?
           && RowSequence(after.rows, device) == RowSequence(d.rows, device) + CountOf(ops, device))
      && RowAcknowledged(after.rows, device) == RowAcknowledged(d.rows, device)
      && after.tables == d.tables && after.states == d.states && after.conflicts == d.conflicts
  {
    if ops != [] { AdvanceMovesFrontier(d, ops[..|ops| - 1], status, device); }
  }

  /** The row of a sender carries the sequence and hash of its last operation in the group. */
  lemma {:induction false} AdvanceRecordsLast(d: Device, ops: seq<Operation>, status: InboxStatus, i: nat)
    requires AdvanceAll(d, ops, status).Ok? && i < |ops|
    requires forall j :: i < j < |ops| ==> ops[j].device != ops[i].device
    ensures
      var row := FindRow(AdvanceAll(d, ops, status).value.rows, ops[i].device);
      row.Some? && row.value.sequence == ops[i].sequence && row.value.hash == Some(OperationDigest(ops[i]))
  {
    if i < |ops| - 1 { AdvanceRecordsLast(d, ops[..|ops| - 1], status, i); }
  }

  predicate Marked(d: Device, id: OpaqueId, status: InboxStatus) {
    id in d.inbox && d.inbox[id].status == status
  }

  lemma AdvanceOneMarks(d: Device, op: Operation, status: InboxStatus, id: OpaqueId)
    requires AdvanceOne(d, op, status).Ok?
    requires id == op.id || Marked(d, id, status)
    ensures Marked(AdvanceOne(d, op, status).value, id, status)
  {}

  lemma AdvanceStep(d: Device, ops: seq<Operation>, status: InboxStatus)
    requires AdvanceAll(d, ops, status).Ok? && ops != []
    ensures AdvanceAll(d, ops[..|ops| - 1], status).Ok?
    ensures AdvanceAll(d, ops, status) ==
      AdvanceOne(AdvanceAll(d, ops[..|ops| - 1], status).value, ops[|ops| - 1], status)
  {}

  lemma {:induction false} AdvanceMarksInbox(d: Device, ops: seq<Operation>, status: InboxStatus, op: Operation)
    requires AdvanceAll(d, ops, status).Ok? && op in ops
    ensures Marked(AdvanceAll(d, ops, status).value, op.id, status)
    decreases |ops|
  {
    var n := |ops| - 1;
    AdvanceStep(d, ops, status);
    if op in ops[..n] { AdvanceMarksInbox(d, ops[..n], status, op); }
    AdvanceOneMarks(AdvanceAll(d, ops[..n], status).value, ops[n], status, op.id);
  }

  /** Apart from the status, an inbox record never changes, and none appears or disappears. */
  lemma {:induction false} AdvanceKeepsOthers(d: Device, ops: seq<Operation>, status: InboxStatus, id: OpaqueId)
    requires AdvanceAll(d, ops, status).Ok?
    ensures
      var after := AdvanceAll(d, ops, status).value;
      && (id in after.inbox <==> id in d.inbox)
      && (id in d.inbox ==> after.inbox[id] == d.inbox[id] || after.inbox[id] == d.inbox[id].(status := status))
      && (id in d.inbox && (forall op :: op in ops ==> op.id != id) ==> after.inbox[id] == d.inbox[id])
  {
    if ops != [] {
      var n := |ops| - 1;
      AdvanceKeepsOthers(d, ops[..n], status, id);
      assert ops[n] in ops;
      assert forall op :: op in ops[..n] ==> op in ops;
    }
  }

  /** One device's operations, numbered on from `from`. */
  predicate Continues(ops: seq<Operation>, device: OpaqueId, from: nat) {
    forall i :: 0 <= i < |ops| ==> ops[i].device == device && ops[i].sequence == from + 1 + i
  }

  /** Staged operations of one device that continue its row pass the frontier and inbox phase. */
  lemma {:induction false} OwnSequencesAdvance(d: Device, ops: seq<Operation>, status: InboxStatus, device: OpaqueId,
                                               from: nat)
    requires Continues(ops, device, from) && ops != []
    requires forall op :: op in ops ==> op.id in d.inbox
    requires FindRow(d.rows, device).None? || RowSequence(d.rows, device) == from
    ensures AdvanceAll(d, ops, status).Ok?
    ensures
      var after := AdvanceAll(d, ops, status).value;
      after.tables == d.tables && after.states == d.states && RowSequence(after.rows, device) == from + |ops|
    decreases |ops|
  {
    var n := |ops| - 1;
    assert ops[n] in ops && forall op :: op in ops[..n] ==> op in ops;
    if n == 0 {
      assert ops[..0] == [];
      NextAdvances(d, ops[0], status, from);
    } else {
      OwnSequencesAdvance(d, ops[..n], status, device, from);
      AdvanceKeepsOthers(d, ops[..n], status, ops[n].id);
      NextAdvances(AdvanceAll(d, ops[..n], status).value, ops[n], status, from + n);
    }
  }

  lemma NextAdvances(d: Device, op: Operation, status: InboxStatus, from: nat)
    requires op.sequence == from + 1 && op.id in d.inbox
    requires FindRow(d.rows, op.device).None? || RowSequence(d.rows, op.device) == from
    ensures AdvanceOne(d, op, status).Ok?
    ensures
      var after := AdvanceOne(d, op, status).value;
      after.tables == d.tables && after.states == d.states && RowSequence(after.rows, op.device) == from + 1
  {}

  // ---- A conflicted group changes no finance data ----

  lemma {:induction false} FiledConflict(conflicts: Conflicts, proposals: seq<Proposal>, i: nat)
    requires i < |proposals|
    requires forall j :: i < j < |proposals| ==> proposals[i].operation.id != proposals[j].operation.id
    ensures proposals[i].operation.id in FileConflicts(conflicts, proposals)
    ensures FileConflicts(conflicts, proposals)[proposals[i].operation.id] == ConflictFor(proposals[i])
  {
    if i < |proposals| - 1 { FiledConflict(conflicts, proposals[..|proposals| - 1], i); }
  }

  function FindConflict(conflicts: Conflicts, id: OpaqueId): Option<Conflict> {
    if id in conflicts then Some(conflicts[id]) else None
  }

  lemma {:induction false} FiledNothingElse(conflicts: Conflicts, proposals: seq<Proposal>, id: OpaqueId)
    requires forall i :: 0 <= i < |proposals| ==> proposals[i].operation.id != id
    ensures FindConflict(FileConflicts(conflicts, proposals), id) == FindConflict(conflicts, id)
  {
    if proposals != [] { FiledNothingElse(conflicts, proposals[..|proposals| - 1], id); }
  }

  predicate DistinctOperations(ops: seq<Operation>) {
    forall i, j :: 0 <= i < j < |ops| ==> ops[i].id != ops[j].id
  }

  /** One pending conflict filed for `op`, holding the local value it met. */
  predicate FiledFor(before: Device, after: Device, op: Operation) {
    && op.id in after.conflicts
    && after.conflicts[op.id].remote == op
    && after.conflicts[op.id].key == op.command.key
    && after.conflicts[op.id].resolution == Pending
    && after.conflicts[op.id].localValue == Get(before.tables, op.command.key)
    && Marked(after, op.id, Conflicted)
  }

  lemma ConflictIsFiled(d: Device, ops: seq<Operation>, i: nat)
    requires i < |ops| && DistinctOperations(ops)
    ensures
      var filed := FileConflicts(d.conflicts, ProposeAll(d, ops).proposals);
      && ops[i].id in filed
      && filed[ops[i].id] == ConflictFor(ProposeAll(d, ops).proposals[i])
      && filed[ops[i].id].localValue == Get(d.tables, ops[i].command.key)
  {
    FiledConflict(d.conflicts, ProposeAll(d, ops).proposals, i);
    ProposalLocal(d, ops, i);
  }

  lemma ConflictedFiles(d: Device, ops: seq<Operation>, i: nat)
    requires i < |ops| && DistinctOperations(ops)
    requires AdvanceAll(d.(conflicts := FileConflicts(d.conflicts, ProposeAll(d, ops).proposals)), ops, Conflicted).Ok?
    ensures FiledFor(d, AdvanceAll(
      d.(conflicts := FileConflicts(d.conflicts, ProposeAll(d, ops).proposals)), ops, Conflicted).value, ops[i])
  {
    var filed := d.(conflicts := FileConflicts(d.conflicts, ProposeAll(d, ops).proposals));
    ConflictIsFiled(d, ops, i);
    AdvanceMovesFrontier(filed, ops, Conflicted, 0);
    AdvanceMarksInbox(filed, ops, Conflicted, ops[i]);
  }

  /** A conflicted group leaves tables and states alone and files one pending conflict for each operation. */
  lemma ConflictedChangesNothing(d: Device, group: seq<Operation>, valid: FinanceRules)
    requires ApplyRemoteGroup(d, group, valid).Ok?
    requires ApplyRemoteGroup(d, group, valid).value.outcome == GroupConflicted
    requires DistinctOperations(SortOperations(group))
    ensures
      var after := ApplyRemoteGroup(d, group, valid).value.device;
      var ops := SortOperations(group);
      && after.tables == d.tables && after.states == d.states
      && (forall i :: 0 <= i < |ops| ==> FiledFor(d, after, ops[i]))
  {
    var ops := SortOperations(group);
    var filed := d.(conflicts := FileConflicts(d.conflicts, ProposeAll(d, ops).proposals));
    AdvanceMovesFrontier(filed, ops, Conflicted, 0);
    forall i | 0 <= i < |ops| ensures FiledFor(d, AdvanceAll(filed, ops, Conflicted).value, ops[i]) {
      ConflictedFiles(d, ops, i);
    }
  }

  /** No other conflict and no other inbox record is touched. */
  lemma ConflictedKeepsOthers(d: Device, group: seq<Operation>, valid: FinanceRules, id: OpaqueId)
    requires ApplyRemoteGroup(d, group, valid).Ok?
    requires ApplyRemoteGroup(d, group, valid).value.outcome == GroupConflicted
    requires forall op :: op in SortOperations(group) ==> op.id != id
    ensures
      var after := ApplyRemoteGroup(d, group, valid).value.device;
      && FindConflict(after.conflicts, id) == FindConflict(d.conflicts, id)
      && (id in after.inbox <==> id in d.inbox)
      && (id in d.inbox ==> after.inbox[id] == d.inbox[id])
  {
    var ops := SortOperations(group);
    var proposals := ProposeAll(d, ops).proposals;
    var filed := d.(conflicts := FileConflicts(d.conflicts, proposals));
    forall i | 0 <= i < |ops| ensures proposals[i].operation.id != id { assert ops[i] in ops; }
    FiledNothingElse(d.conflicts, proposals, id);
    AdvanceMovesFrontier(filed, ops, Conflicted, 0);
    AdvanceKeepsOthers(filed, ops, Conflicted, id);
  }

  lemma {:induction false} ProposalLocal(d: Device, ops: seq<Operation>, i: nat)
    requires i < |ops|
    ensures ProposeAll(d, ops).proposals[i].localValue == Get(d.tables, ops[i].command.key)
  {
    if i < |ops| - 1 { ProposalLocal(d, ops[..|ops| - 1], i); }
  }
}
