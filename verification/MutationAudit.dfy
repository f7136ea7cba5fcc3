/**
 * The audit of local edits (src/db/sync/mutation-audit.ts): which intents one finance
 * transaction records, the outbox group they become, and the diff of two data sets.
 */
module MutationAudit {
  import opened Wrappers
  import opened SyncOperation

  /** The finance tables, all entity types together. */
  type Tables = map<EntityKey, Json>

  datatype Intent = Intent(
    key: EntityKey, action: Action, resolves: seq<OpaqueId>, previous: Option<Json>, value: Option<Json>)

  datatype PendingIntent = PendingIntent(operationId: OpaqueId, intent: Intent)

  datatype OutboxState = IntentOnly | Encrypted | Uploading | Failed

  datatype OutboxRecord = OutboxRecord(
    operationId: OpaqueId, groupId: OpaqueId, groupIndex: nat, groupSize: nat, state: OutboxState,
    sequence: nat, intent: Intent, envelope: Option<Operation>, attempts: nat, createdAt: nat)

  datatype AuditError = IdentityChanged | ResolutionNeedsOutbox | IntentSchema | DuplicateOperationId

  datatype Row = Row(id: string, json: Json)

  function Get(t: Tables, key: EntityKey): Option<Json> {
    if key in t then Some(t[key]) else None
  }

  // ---- Recording one change ----

  function JsonOf(row: Option<Row>): Option<Json> {
    match row
    case None => None
    case Some(r) => Some(r.json)
  }

  /** `[...new Set(ids)].sort()` */
  function SortedIds(ids: seq<OpaqueId>): (sorted: seq<OpaqueId>)
    ensures forall i, j :: 0 <= i < j < |sorted| ==> sorted[i] < sorted[j]
    ensures forall id :: id in sorted <==> id in ids
  {
    if ids == [] then [] else InsertId(SortedIds(ids[1..]), ids[0])
  }

  function InsertId(sorted: seq<OpaqueId>, id: OpaqueId): (longer: seq<OpaqueId>)
    requires forall i, j :: 0 <= i < j < |sorted| ==> sorted[i] < sorted[j]
    ensures forall i, j :: 0 <= i < j < |longer| ==> longer[i] < longer[j]
    ensures forall k :: 0 <= k < |longer| ==> longer[k] == id || longer[k] in sorted
    ensures id in longer && forall x :: x in sorted ==> x in longer
  {
    if sorted == [] then [id]
    else if id < sorted[0] then [id] + sorted
    else if id == sorted[0] then sorted
    else [sorted[0]] + InsertId(sorted[1..], id)
  }

  /** `#record` drops an upsert that changes nothing, unless it is a resolution. */
  predicate Recorded(action: Action, previous: Option<Json>, value: Option<Json>, force: bool) {
    !(action == Upsert && !force && previous.Some? && previous == value)
  }

  // ---- What a list of intents does to the tables ----

  function Patch(t: Tables, i: Intent): Tables {
    match i.value
    case None => t - {i.key}
    case Some(v) => t[i.key := v]
  }

  /** Replays the intents; `None` when one does not start from the value it names. */
  function Replay(t: Tables, intents: seq<Intent>): Option<Tables>
    decreases |intents|
  {
    if intents == [] then Some(t)
    else if intents[0].previous != Get(t, intents[0].key) then None
    else Replay(Patch(t, intents[0]), intents[1..])
  }

  lemma {:induction false} ReplayAppends(t: Tables, first: seq<Intent>, second: seq<Intent>)
    requires Replay(t, first).Some?
    ensures Replay(t, first + second) == Replay(Replay(t, first).value, second)
    decreases |first|
  {
    if first == [] {
      assert first + second == second;
    } else {
      assert (first + second)[1..] == first[1..] + second;
      ReplayAppends(Patch(t, first[0]), first[1..], second);
    }
  }

  lemma ReplaySnoc(t: Tables, before: seq<Intent>, i: Intent)
    requires Replay(t, before).Some? && i.previous == Get(Replay(t, before).value, i.key)
    ensures Replay(t, before + [i]) == Some(Patch(Replay(t, before).value, i))
  {
    ReplayAppends(t, before, [i]);
    assert [i][1..] == [];
  }

  function IntentsOf(pending: seq<PendingIntent>): seq<Intent> {
    seq(|pending|, i requires 0 <= i < |pending| => pending[i].intent)
  }

  // ---- An audited edit: a list of table writes, each recorded with the value it replaces ----

  datatype Write = Put(key: EntityKey, json: Json) | Remove(key: EntityKey)

  function Written(t: Tables, w: Write): Tables {
    match w
    case Put(key, json) => t[key := json]
    case Remove(key) => t - {key}
  }

  /** The intent one write leaves behind, if any (`upsert` and `delete`). */
  function IntentFor(t: Tables, w: Write): seq<Intent> {
    match w
    case Put(key, json) =>
      if Recorded(Upsert, Get(t, key), Some(json), false)
      then [Intent(key, Upsert, [], Get(t, key), Some(json))] else []
    case Remove(key) =>
      if key in t then [Intent(key, Delete, [], Get(t, key), None)] else []
  }

  function EditTables(t: Tables, writes: seq<Write>): Tables
    decreases |writes|
  {
    if writes == [] then t else EditTables(Written(t, writes[0]), writes[1..])
  }

  function EditIntents(t: Tables, writes: seq<Write>): seq<Intent>
    decreases |writes|
  {
    if writes == [] then []
    else IntentFor(t, writes[0]) + EditIntents(Written(t, writes[0]), writes[1..])
  }

  /** The recorded intents replay the edit exactly, and each of them changes its entity. */
  lemma {:induction false} IntentsReplayEdit(t: Tables, writes: seq<Write>)
    ensures Replay(t, EditIntents(t, writes)) == Some(EditTables(t, writes))
    ensures forall i :: i in EditIntents(t, writes) ==>
      i.previous != i.value && i.resolves == [] && (i.action == Upsert <==> i.value.Some?)
    decreases |writes|
  {
    if writes != [] {
      var next := Written(t, writes[0]);
      IntentsReplayEdit(next, writes[1..]);
      var first := IntentFor(t, writes[0]);
      if first == [] {
        assert next == t;
        assert EditIntents(t, writes) == EditIntents(next, writes[1..]);
      } else {
        assert EditIntents(t, writes)[1..] == EditIntents(next, writes[1..]);
      }
    }
  }

  // ---- The diff of two data sets ----

  /** One list of rows for each entity type. */
  type FinanceData = EntityType -> seq<Row>

  const ENTITY_TYPES: seq<EntityType> := [
    Account, Transaction, Category, PlannedIncome, Commitment, VariableBudget,
    Goal, Debt, DebtPayment, PlannedEvent, QuickAddPreset, SalaryScenario]

  lemma EveryTypeListed(e: EntityType)
    ensures e in ENTITY_TYPES
  {
    var all := ENTITY_TYPES;
    match e {
      case Account => assert all[0] == e;
      case Transaction => assert all[1] == e;
      case Category => assert all[2] == e;
      case PlannedIncome => assert all[3] == e;
      case Commitment => assert all[4] == e;
      case VariableBudget => assert all[5] == e;
      case Goal => assert all[6] == e;
      case Debt => assert all[7] == e;
      case DebtPayment => assert all[8] == e;
      case PlannedEvent => assert all[9] == e;
      case QuickAddPreset => assert all[10] == e;
      case SalaryScenario => assert all[11] == e;
    }
  }

  predicate UniqueRows(rows: seq<Row>) {
    forall i, j :: 0 <= i < j < |rows| ==> rows[i].id != rows[j].id
  }

  /** `new Map(rows.map((row) => [row.id, row])).get(id)` */
  function RowById(rows: seq<Row>, id: string): (found: Option<Row>)
    ensures found.Some? ==> found.value in rows && found.value.id == id
    ensures found.None? ==> forall r :: r in rows ==> r.id != id
  {
    if rows == [] then None
    else if rows[|rows| - 1].id == id then Some(rows[|rows| - 1])
    else RowById(rows[..|rows| - 1], id)
  }

  /** The tables that hold exactly the rows of a data set. */
  ghost predicate Holds(t: Tables, data: FinanceData) {
    forall k :: Get(t, k) == JsonOf(RowById(data(k.entityType), k.entityId))
  }

  lemma HoldsDetermines(t: Tables, u: Tables, data: FinanceData)
    requires Holds(t, data) && Holds(u, data)
    ensures t == u
  {
    assert forall k :: Get(t, k) == Get(u, k);
    assert forall k :: k in t <==> k in u by {
      forall k ensures k in t <==> k in u { assert Get(t, k) == Get(u, k); }
    }
    forall k | k in t ensures t[k] == u[k] { assert Get(t, k) == Get(u, k); }
  }

  function UpsertIntents(e: EntityType, previous: seq<Row>, rows: seq<Row>): seq<Intent> {
    if rows == [] then []
    else
      var n := |rows| - 1;
      var was := JsonOf(RowById(previous, rows[n].id));
      var earlier := UpsertIntents(e, previous, rows[..n]);
      if Recorded(Upsert, was, Some(rows[n].json), false)
      then earlier + [Intent(EntityKey(e, rows[n].id), Upsert, [], was, Some(rows[n].json))] else earlier
  }

  function DeleteIntents(e: EntityType, next: seq<Row>, rows: seq<Row>): seq<Intent> {
    if rows == [] then []
    else
      var n := |rows| - 1;
      var earlier := DeleteIntents(e, next, rows[..n]);
      if RowById(next, rows[n].id).None?
      then earlier + [Intent(EntityKey(e, rows[n].id), Delete, [], Some(rows[n].json), None)] else earlier
  }

  function DiffOfType(e: EntityType, previous: FinanceData, next: FinanceData): seq<Intent> {
    UpsertIntents(e, previous(e), next(e)) + DeleteIntents(e, next(e), previous(e))
  }

  /** What `auditFinanceDataChanges` records for the first types of a list. */
  function DiffOfTypes(types: seq<EntityType>, previous: FinanceData, next: FinanceData): seq<Intent> {
    if types == [] then []
    else DiffOfTypes(types[..|types| - 1], previous, next) + DiffOfType(types[|types| - 1], previous, next)
  }

  function DiffIntents(previous: FinanceData, next: FinanceData): seq<Intent> {
    DiffOfTypes(ENTITY_TYPES, previous, next)
  }

  ghost predicate UniqueIds(data: FinanceData) {
    forall e :: UniqueRows(data(e))
  }

  lemma {:induction false} RowByIdFinds(rows: seq<Row>, i: nat)
    requires UniqueRows(rows) && i < |rows|
    ensures RowById(rows, rows[i].id) == Some(rows[i])
  {
    if i < |rows| - 1 { RowByIdFinds(rows[..|rows| - 1], i); }
  }

  /** Type `e` updated from `rows`, everything else as before. */
  ghost predicate Upserted(t: Tables, u: Tables, e: EntityType, rows: seq<Row>) {
    forall k :: Get(u, k) ==
      if k.entityType == e && RowById(rows, k.entityId).Some? then JsonOf(RowById(rows, k.entityId)) else Get(t, k)
  }

  ghost predicate HoldsType(t: Tables, e: EntityType, rows: seq<Row>) {
    forall id :: Get(t, EntityKey(e, id)) == JsonOf(RowById(rows, id))
  }

  lemma {:induction false} UpsertsReplay(t: Tables, e: EntityType, previous: seq<Row>, rows: seq<Row>)
    requires UniqueRows(rows) && HoldsType(t, e, previous)
    ensures Replay(t, UpsertIntents(e, previous, rows)).Some?
    ensures Upserted(t, Replay(t, UpsertIntents(e, previous, rows)).value, e, rows)
  {
    if rows != [] {
      var n := |rows| - 1;
      var key := EntityKey(e, rows[n].id);
      UpsertsReplay(t, e, previous, rows[..n]);
      var before := UpsertIntents(e, previous, rows[..n]);
      var u := Replay(t, before).value;
      assert Get(u, key) == Get(t, key) == JsonOf(RowById(previous, rows[n].id));
      if Recorded(Upsert, Get(u, key), Some(rows[n].json), false) {
        var i := Intent(key, Upsert, [], Get(u, key), Some(rows[n].json));
        ReplaySnoc(t, before, i);
        assert forall k :: Get(Patch(u, i), k) == if k == key then i.value else Get(u, k);
      }
    }
  }

  /** `rows` removed unless present in `next`, everything else as before. */
  ghost predicate Removed(t: Tables, u: Tables, e: EntityType, next: seq<Row>, rows: seq<Row>) {
    forall k :: Get(u, k) ==
      if k.entityType == e && RowById(rows, k.entityId).Some? && RowById(next, k.entityId).None? then None
      else Get(t, k)
  }

  lemma {:induction false} DeletesReplay(t: Tables, e: EntityType, next: seq<Row>, rows: seq<Row>)
    requires UniqueRows(rows)
    requires forall r :: r in rows && RowById(next, r.id).None? ==> Get(t, EntityKey(e, r.id)) == Some(r.json)
    ensures Replay(t, DeleteIntents(e, next, rows)).Some?
    ensures Removed(t, Replay(t, DeleteIntents(e, next, rows)).value, e, next, rows)
  {
    if rows != [] {
      var n := |rows| - 1;
      var key := EntityKey(e, rows[n].id);
      DeletesReplay(t, e, next, rows[..n]);
      var before := DeleteIntents(e, next, rows[..n]);
      var u := Replay(t, before).value;
      assert RowById(rows[..n], rows[n].id).None?;
      assert Get(u, key) == Get(t, key);
      if RowById(next, rows[n].id).None? {
        var i := Intent(key, Delete, [], Some(rows[n].json), None);
        ReplaySnoc(t, before, i);
        assert forall k :: Get(Patch(u, i), k) == if k == key then None else Get(u, k);
      }
    }
  }

  lemma DiffOfTypeReplays(t: Tables, e: EntityType, previous: FinanceData, next: FinanceData)
    requires UniqueRows(previous(e)) && UniqueRows(next(e)) && HoldsType(t, e, previous(e))
    ensures Replay(t, DiffOfType(e, previous, next)).Some?
    ensures var u := Replay(t, DiffOfType(e, previous, next)).value;
      HoldsType(u, e, next(e)) && forall k: EntityKey :: k.entityType != e ==> Get(u, k) == Get(t, k)
  {
    UpsertsReplay(t, e, previous(e), next(e));
    var mid := Replay(t, UpsertIntents(e, previous(e), next(e))).value;
    forall r | r in previous(e) && RowById(next(e), r.id).None? ensures Get(mid, EntityKey(e, r.id)) == Some(r.json) {
      var i :| 0 <= i < |previous(e)| && previous(e)[i] == r;
      RowByIdFinds(previous(e), i);
      assert Get(t, EntityKey(e, r.id)) == JsonOf(RowById(previous(e), r.id));
    }
    DeletesReplay(mid, e, next(e), previous(e));
    ReplayAppends(t, UpsertIntents(e, previous(e), next(e)), DeleteIntents(e, next(e), previous(e)));
    var u := Replay(t, DiffOfType(e, previous, next)).value;
    forall id ensures Get(u, EntityKey(e, id)) == JsonOf(RowById(next(e), id)) {
      assert Get(t, EntityKey(e, id)) == JsonOf(RowById(previous(e), id));
    }
  }

  /** The first `n` types already hold the next data set, the others still the previous one. */
  ghost predicate Between(t: Tables, n: nat, previous: FinanceData, next: FinanceData)
    requires n <= |ENTITY_TYPES|
  {
    forall k: EntityKey {:trigger Get(t, k)} :: Get(t, k) ==
      if k.entityType in ENTITY_TYPES[..n] then JsonOf(RowById(next(k.entityType), k.entityId))
      else JsonOf(RowById(previous(k.entityType), k.entityId))
  }

  lemma BetweenStep(t: Tables, u: Tables, n: nat, previous: FinanceData, next: FinanceData)
    requires n < |ENTITY_TYPES| && Between(t, n, previous, next)
    requires HoldsType(u, ENTITY_TYPES[n], next(ENTITY_TYPES[n]))
    requires forall k: EntityKey :: k.entityType != ENTITY_TYPES[n] ==> Get(u, k) == Get(t, k)
    ensures Between(u, n + 1, previous, next)
  {
    assert ENTITY_TYPES[..n + 1] == ENTITY_TYPES[..n] + [ENTITY_TYPES[n]];
    forall k: EntityKey
      ensures Get(u, k) ==
        if k.entityType in ENTITY_TYPES[..n + 1] then JsonOf(RowById(next(k.entityType), k.entityId))
        else JsonOf(RowById(previous(k.entityType), k.entityId))
    {
      if k.entityType == ENTITY_TYPES[n] { assert k == EntityKey(ENTITY_TYPES[n], k.entityId); }
    }
  }

  lemma TypesDistinct(n: nat)
    requires n < |ENTITY_TYPES|
    ensures ENTITY_TYPES[n] !in ENTITY_TYPES[..n]
  {}

  lemma {:induction false} DiffOfTypesReplays(t: Tables, n: nat, previous: FinanceData, next: FinanceData)
    requires n <= |ENTITY_TYPES| && Holds(t, previous) && UniqueIds(previous) && UniqueIds(next)
    ensures Replay(t, DiffOfTypes(ENTITY_TYPES[..n], previous, next)).Some?
    ensures Between(Replay(t, DiffOfTypes(ENTITY_TYPES[..n], previous, next)).value, n, previous, next)
    decreases n
  {
    if n > 0 {
      var e := ENTITY_TYPES[n - 1];
      DiffOfTypesReplays(t, n - 1, previous, next);
      assert ENTITY_TYPES[..n][..n - 1] == ENTITY_TYPES[..n - 1];
      var before := DiffOfTypes(ENTITY_TYPES[..n - 1], previous, next);
      var u := Replay(t, before).value;
      TypesDistinct(n - 1);
      assert HoldsType(u, e, previous(e));
      DiffOfTypeReplays(u, e, previous, next);
      ReplayAppends(t, before, DiffOfType(e, previous, next));
      BetweenStep(u, Replay(u, DiffOfType(e, previous, next)).value, n - 1, previous, next);
    }
  }

  /** Diff and patch: replaying the recorded intents turns the previous tables into the next ones. */
  lemma DiffThenReplay(before: Tables, after: Tables, previous: FinanceData, next: FinanceData)
    requires Holds(before, previous) && Holds(after, next) && UniqueIds(previous) && UniqueIds(next)
    ensures Replay(before, DiffIntents(previous, next)) == Some(after)
  {
    var n := |ENTITY_TYPES|;
    DiffOfTypesReplays(before, n, previous, next);
    assert ENTITY_TYPES[..n] == ENTITY_TYPES;
    var u := Replay(before, DiffIntents(previous, next)).value;
    forall k: EntityKey ensures Get(u, k) == JsonOf(RowById(next(k.entityType), k.entityId)) {
      EveryTypeListed(k.entityType);
    }
    HoldsDetermines(u, after, next);
  }

  lemma {:induction false} UpsertsChange(e: EntityType, previous: seq<Row>, rows: seq<Row>, i: Intent)
    requires UniqueRows(rows) && i in UpsertIntents(e, previous, rows)
    ensures i.key.entityType == e && i.previous == JsonOf(RowById(previous, i.key.entityId))
    ensures i.value.Some? && i.value == JsonOf(RowById(rows, i.key.entityId)) && i.value != i.previous
  {
    var n := |rows| - 1;
    if i in UpsertIntents(e, previous, rows[..n]) {
      UpsertsChange(e, previous, rows[..n], i);
      assert rows[n].id != i.key.entityId;
    } 
  }

  lemma {:induction false} DeletesChange(e: EntityType, next: seq<Row>, rows: seq<Row>, i: Intent)
    requires UniqueRows(rows) && i in DeleteIntents(e, next, rows)
    ensures i.key.entityType == e && i.previous == JsonOf(RowById(rows, i.key.entityId)) && i.previous.Some?
    ensures i.value.None? && RowById(next, i.key.entityId).None?
  {
    var n := |rows| - 1;
    if i in DeleteIntents(e, next, rows[..n]) {
      DeletesChange(e, next, rows[..n], i);
      var r := RowById(rows[..n], i.key.entityId).value;
      assert r in rows[..n];
    }
  }

  /** An intent always names an entity whose value differs: unchanged entities get none. */
  lemma {:induction false} DiffSkipsUnchanged(n: nat, previous: FinanceData, next: FinanceData, i: Intent)
    requires n <= |ENTITY_TYPES| && UniqueIds(previous) && UniqueIds(next)
    requires i in DiffOfTypes(ENTITY_TYPES[..n], previous, next)
    ensures i.previous == JsonOf(RowById(previous(i.key.entityType), i.key.entityId))
    ensures i.value == JsonOf(RowById(next(i.key.entityType), i.key.entityId))
    ensures i.previous != i.value
    decreases n
  {
    assert n > 0;
    var e := ENTITY_TYPES[n - 1];
    assert ENTITY_TYPES[..n][..n - 1] == ENTITY_TYPES[..n - 1];
    if i in DiffOfTypes(ENTITY_TYPES[..n - 1], previous, next) {
      DiffSkipsUnchanged(n - 1, previous, next, i);
    } else if i in UpsertIntents(e, previous(e), next(e)) {
      UpsertsChange(e, previous(e), next(e), i);
    } else {
      DeletesChange(e, next(e), previous(e), i);
    }
  }

  // ---- The outbox group of one transaction ----

  const MAX_RESOLUTIONS_PER_INTENT := 20

  /** Intent `i` gets the `from + i`-th operation id drawn. */
  function Queued(draw: nat -> OpaqueId, from: nat, intents: seq<Intent>): seq<PendingIntent> {
    seq(|intents|, i requires 0 <= i < |intents| => PendingIntent(draw(from + i), intents[i]))
  }

  lemma QueuedAppends(before: seq<PendingIntent>, draw: nat -> OpaqueId, from: nat,
                      first: seq<Intent>, second: seq<Intent>)
    ensures before + Queued(draw, from, first + second)
         == before + Queued(draw, from, first) + Queued(draw, from + |first|, second)
  {}

  function RecordOf(groupId: OpaqueId, index: nat, size: nat, now: nat, p: PendingIntent): OutboxRecord {
    OutboxRecord(p.operationId, groupId, index, size, IntentOnly, 0, p.intent, None, 0, now)
  }

  function GroupOf(groupId: OpaqueId, now: nat, pending: seq<PendingIntent>): seq<OutboxRecord> {
    seq(|pending|, i requires 0 <= i < |pending| => RecordOf(groupId, i, |pending|, now, pending[i]))
  }

  predicate IntentsParse(pending: seq<PendingIntent>) {
    |pending| <= MAX_GROUP_SIZE
    && forall p :: p in pending ==> |p.intent.resolves| <= MAX_RESOLUTIONS_PER_INTENT
  }

  predicate FreshIds(outbox: seq<OutboxRecord>, pending: seq<PendingIntent>) {
    && (forall i, j :: 0 <= i < j < |pending| ==> pending[i].operationId != pending[j].operationId)
    && (forall r, p :: r in outbox && p in pending ==> r.operationId != p.operationId)
  }

  /** The outbox after `finalize`, or the error that rolls the whole transaction back. */
  function Finalized(active: bool, outbox: seq<OutboxRecord>, groupId: OpaqueId, now: nat, pending: seq<PendingIntent>)
    : Result<seq<OutboxRecord>, AuditError>
  {
    if !active || pending == [] then Ok(outbox)
    else if !IntentsParse(pending) then Err(IntentSchema)
    else if !FreshIds(outbox, pending) then Err(DuplicateOperationId)
    else Ok(outbox + GroupOf(groupId, now, pending))
  }

  /** `assertCompleteGroup` */
  predicate CompleteGroup(group: seq<OutboxRecord>) {
    group != [] && |group| == group[0].groupSize
    && forall i :: 0 <= i < |group| ==>
         group[i].groupId == group[0].groupId && group[i].groupSize == group[0].groupSize && group[i].groupIndex == i
  }

  /** Whatever was recorded, the group `finalize` writes is one that preparation accepts as complete. */
  lemma FinalizedGroupIsComplete(outbox: seq<OutboxRecord>, groupId: OpaqueId, now: nat, pending: seq<PendingIntent>)
    requires pending != [] && Finalized(true, outbox, groupId, now, pending).Ok?
    requires forall r :: r in outbox ==> r.groupId != groupId
    ensures
      var after := Finalized(true, outbox, groupId, now, pending).value;
      && CompleteGroup(after[|outbox|..])
      && (forall i :: 0 <= i < |outbox| ==> after[i] == outbox[i] && after[i].groupId != groupId)
      && |after[|outbox|..]| <= MAX_GROUP_SIZE
      && IntentsOf(pending) == seq(|pending|, i requires 0 <= i < |pending| => after[|outbox| + i].intent)
  {
    var after := Finalized(true, outbox, groupId, now, pending).value;
    assert after[|outbox|..] == GroupOf(groupId, now, pending);
  }

  /** Without an audit context nothing is recorded. */
  function Kept(active: bool, intents: seq<Intent>): seq<Intent> {
    if active then intents else []
  }

  class SyncMutationAudit {
    const active: bool
    const groupId: OpaqueId
    /** The random identifiers, in the order they are drawn. */
    const draw: nat -> OpaqueId
    var drawn: nat
    var pending: seq<PendingIntent>

    constructor (active: bool, groupId: OpaqueId, draw: nat -> OpaqueId)
      ensures this.active == active && this.groupId == groupId && this.draw == draw
      ensures pending == [] && drawn == 0
    {
      this.active, this.groupId, this.draw := active, groupId, draw;
      drawn, pending := 0, [];
    }

    method Record(key: EntityKey, action: Action, previous: Option<Json>, value: Option<Json>,
                  force: bool, resolves: seq<OpaqueId>)
      returns (id: Option<OpaqueId>)
      modifies this`pending, this`drawn
      ensures
        var intents := if active && Recorded(action, previous, value, force)
          then [Intent(key, action, SortedIds(resolves), previous, value)] else [];
        && pending == old(pending) + Queued(draw, old(drawn), intents)
        && drawn == old(drawn) + |intents|
        && id == if intents == [] then None else Some(draw(old(drawn)))
    {
      if !active { return None; }
      if action == Action.Upsert && !force && previous.Some? && previous == value { return None; }
      var operationId := draw(drawn);
      drawn := drawn + 1;
      pending := pending + [PendingIntent(operationId, Intent(key, action, SortedIds(resolves), previous, value))];
      return Some(operationId);
    }

    method Upsert(e: EntityType, previous: Option<Row>, value: Row) returns (error: Option<AuditError>)
      modifies this`pending, this`drawn
      ensures error == if previous.Some? && previous.value.id != value.id then Some(IdentityChanged) else None
      ensures
        var intents :=
          if active && error.None? && Recorded(Action.Upsert, JsonOf(previous), Some(value.json), false)
          then [Intent(EntityKey(e, value.id), Action.Upsert, [], JsonOf(previous), Some(value.json))] else [];
        pending == old(pending) + Queued(draw, old(drawn), intents) && drawn == old(drawn) + |intents|
    {
      if previous.Some? && previous.value.id != value.id { return Some(IdentityChanged); }
      var _ := Record(EntityKey(e, value.id), Action.Upsert, JsonOf(previous), Some(value.json), false, []);
      error := None;
    }

    method Delete(e: EntityType, previous: Option<Row>)
      modifies this`pending, this`drawn
      ensures
        var intents := if active && previous.Some?
          then [Intent(EntityKey(e, previous.value.id), Action.Delete, [], Some(previous.value.json), None)] else [];
        pending == old(pending) + Queued(draw, old(drawn), intents) && drawn == old(drawn) + |intents|
    {
      if previous.None? { return; }
      var _ := Record(EntityKey(e, previous.value.id), Action.Delete, Some(previous.value.json), None, false, []);
    }

    /** A resolution is recorded even when it keeps the value. */
    method Resolve(key: EntityKey, previous: Option<Row>, value: Option<Row>, resolves: seq<OpaqueId>)
      returns (r: Result<OpaqueId, AuditError>)
      modifies this`pending, this`drawn
      ensures
        var foreign := (value.Some? && value.value.id != key.entityId)
          || (previous.Some? && previous.value.id != key.entityId);
        var intents := if active && !foreign
          then [Intent(key, if value.None? then Action.Delete else Action.Upsert,
                       SortedIds(resolves), JsonOf(previous), JsonOf(value))] else [];
        && pending == old(pending) + Queued(draw, old(drawn), intents) && drawn == old(drawn) + |intents|
        && r == if foreign then Err(IdentityChanged)
                else if !active then Err(ResolutionNeedsOutbox) else Ok(draw(old(drawn)))
    {
      if value.Some? && value.value.id != key.entityId { return Err(IdentityChanged); }
      if previous.Some? && previous.value.id != key.entityId { return Err(IdentityChanged); }
      var action := if value.None? then Action.Delete else Action.Upsert;
      var id := Record(key, action, JsonOf(previous), JsonOf(value), true, resolves);
      if id.None? { return Err(ResolutionNeedsOutbox); }
      return Ok(id.value);
    }

    method Finalize(outbox: seq<OutboxRecord>, now: nat) returns (r: Result<seq<OutboxRecord>, AuditError>)
      modifies this`pending
      ensures r == Finalized(active, outbox, groupId, now, old(pending))
      ensures pending == if active && r.Ok? then [] else old(pending)
    {
      if !active || |pending| == 0 { return Ok(outbox); }
      if !IntentsParse(pending) { return Err(IntentSchema); }
      if !FreshIds(outbox, pending) { return Err(DuplicateOperationId); }
      r := Ok(outbox + GroupOf(groupId, now, pending));
      pending := [];
    }

    method AuditUpserts(e: EntityType, previous: seq<Row>, next: seq<Row>)
      modifies this`pending, this`drawn
      ensures pending == old(pending) + Queued(draw, old(drawn), Kept(active, UpsertIntents(e, previous, next)))
      ensures drawn == old(drawn) + |Kept(active, UpsertIntents(e, previous, next))|
    {
      for j := 0 to |next|
        invariant pending == old(pending)
          + Queued(draw, old(drawn), Kept(active, UpsertIntents(e, previous, next[..j])))
        invariant drawn == old(drawn) + |Kept(active, UpsertIntents(e, previous, next[..j]))|
      {
        assert next[..j + 1][..j] == next[..j];
        ghost var earlier := UpsertIntents(e, previous, next[..j]);
        ghost var step := UpsertIntents(e, previous, next[..j + 1])[|earlier|..];
        QueuedAppends(old(pending), draw, old(drawn), Kept(active, earlier), Kept(active, step));
        var error := Upsert(e, RowById(previous, next[j].id), next[j]);
        assert error.None?;
        assert UpsertIntents(e, previous, next[..j + 1]) == earlier + step;
      }
      assert next[..|next|] == next;
    }

    method AuditDeletes(e: EntityType, next: seq<Row>, previous: seq<Row>)
      modifies this`pending, this`drawn
      ensures pending == old(pending) + Queued(draw, old(drawn), Kept(active, DeleteIntents(e, next, previous)))
      ensures drawn == old(drawn) + |Kept(active, DeleteIntents(e, next, previous))|
    {
      for j := 0 to |previous|
        invariant pending == old(pending)
          + Queued(draw, old(drawn), Kept(active, DeleteIntents(e, next, previous[..j])))
        invariant drawn == old(drawn) + |Kept(active, DeleteIntents(e, next, previous[..j]))|
      {
        assert previous[..j + 1][..j] == previous[..j];
        ghost var earlier := DeleteIntents(e, next, previous[..j]);
        ghost var step := DeleteIntents(e, next, previous[..j + 1])[|earlier|..];
        QueuedAppends(old(pending), draw, old(drawn), Kept(active, earlier), Kept(active, step));
        if RowById(next, previous[j].id).None? { Delete(e, Some(previous[j])); }
        assert DeleteIntents(e, next, previous[..j + 1]) == earlier + step;
      }
      assert previous[..|previous|] == previous;
    }

    method AuditType(e: EntityType, previous: FinanceData, next: FinanceData)
      modifies this`pending, this`drawn
      ensures pending == old(pending) + Queued(draw, old(drawn), Kept(active, DiffOfType(e, previous, next)))
      ensures drawn == old(drawn) + |Kept(active, DiffOfType(e, previous, next))|
    {
      QueuedAppends(pending, draw, drawn, Kept(active, UpsertIntents(e, previous(e), next(e))),
                    Kept(active, DeleteIntents(e, next(e), previous(e))));
      AuditUpserts(e, previous(e), next(e));
      AuditDeletes(e, next(e), previous(e));
    }

    method AuditTypes(types: seq<EntityType>, previous: FinanceData, next: FinanceData)
      modifies this`pending, this`drawn
      ensures pending == old(pending) + Queued(draw, old(drawn), Kept(active, DiffOfTypes(types, previous, next)))
    {
      for t := 0 to |types|
        invariant pending == old(pending)
          + Queued(draw, old(drawn), Kept(active, DiffOfTypes(types[..t], previous, next)))
        invariant drawn == old(drawn) + |Kept(active, DiffOfTypes(types[..t], previous, next))|
      {
        ghost var earlier := Kept(active, DiffOfTypes(types[..t], previous, next));
        ghost var step := Kept(active, DiffOfType(types[t], previous, next));
        assert Kept(active, DiffOfTypes(types[..t + 1], previous, next)) == earlier + step by {
          DiffOfTypesSnoc(types, t, previous, next);
        }
        QueuedAppends(old(pending), draw, old(drawn), earlier, step);
        AuditType(types[t], previous, next);
        assert pending == old(pending) + Queued(draw, old(drawn), earlier + step);
      }
      assert types[..|types|] == types;
    }

    /** `auditFinanceDataChanges`, table by table. */
    method AuditFinanceDataChanges(previous: FinanceData, next: FinanceData)
      modifies this`pending, this`drawn
      ensures pending == old(pending) + Queued(draw, old(drawn), Kept(active, DiffIntents(previous, next)))
    {
      AuditTypes(ENTITY_TYPES, previous, next);
    }
  }

  lemma DiffOfTypesSnoc(types: seq<EntityType>, t: nat, previous: FinanceData, next: FinanceData)
    requires t < |types|
    ensures DiffOfTypes(types[..t + 1], previous, next) ==
      DiffOfTypes(types[..t], previous, next) + DiffOfType(types[t], previous, next)
  {
    assert types[..t + 1][..t] == types[..t];
  }
}
