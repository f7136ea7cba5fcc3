/**
 * One device's sync tables (src/db/sync/records.ts) and the per-entity and per-device
 * rows that preparing and applying operations share.
 */
module Replica {
  import opened Wrappers
  import opened SyncOperation
  import opened Causal
  import opened MutationAudit

  // ---- Entity states ----

  datatype EntityState = EntityState(
    version: nat, hash: Digest, tombstone: bool, canonicalTombstone: Option<Tombstone>,
    lastOperation: Option<OpaqueId>, lastDevice: Option<OpaqueId>, lastSequence: nat, lastLamport: nat)

  type States = map<EntityKey, EntityState>

  /** `stateFromValue`: the state of an entity that only a snapshot has named. */
  function StateFromValue(key: EntityKey, json: Json): EntityState {
    EntityState(1, StateDigest(key, 1, Some(json), None), false, None, None, None, 0, 0)
  }

  /** The recorded state, or the baseline of a value without one. */
  function StateOf(states: States, key: EntityKey, value: Option<Json>): Option<EntityState> {
    if key in states then Some(states[key])
    else if value.Some? then Some(StateFromValue(key, value.value))
    else None
  }

  function StateAfter(op: Operation): EntityState {
    EntityState(op.command.result.version, op.command.result.hash, op.command.result.tombstone,
      op.command.tombstone, Some(op.id), Some(op.device), op.sequence, op.lamport)
  }

  function PreconditionOf(state: Option<EntityState>): Precondition {
    match state
    case None => Precondition(0, None, false)
    case Some(s) => Precondition(s.version, Some(s.hash), s.tombstone)
  }

  /** The state names exactly this table value: its hash is the value's hash. */
  predicate Faithful(state: EntityState, key: EntityKey, value: Option<Json>) {
    && state.version > 0
    && state.hash == StateDigest(key, state.version, value, state.canonicalTombstone)
    && (state.tombstone <==> value.None?)
    && (state.tombstone <==> state.canonicalTombstone.Some?)
  }

  predicate Consistent(tables: Tables, states: States) {
    forall k :: k in states ==> Faithful(states[k], k, Get(tables, k))
  }

  predicate AtLeast(states: States, lamport: nat) {
    forall k :: k in states ==> states[k].lastLamport <= lamport
  }

  /** `reduce(Math.max)` over the stored states. */
  ghost function MaximumLamport(states: States): (greatest: nat)
    ensures AtLeast(states, greatest)
    ensures greatest == 0 || exists k :: k in states && states[k].lastLamport == greatest
    decreases states.Keys
  {
    if states == map[] then 0
    else
      var k :| k in states;
      var rest := MaximumLamport(states - {k});
      assert forall j :: j in states && j != k ==> j in states - {k};
      if rest < states[k].lastLamport then states[k].lastLamport else rest
  }

  // ---- Frontier rows ----

  datatype FrontierRow = FrontierRow(device: OpaqueId, sequence: nat, hash: Option<Digest>, acknowledged: nat)

  type Rows = seq<FrontierRow>

  function FindRow(rows: Rows, device: OpaqueId): (found: Option<FrontierRow>)
    ensures found.Some? ==> found.value in rows && found.value.device == device
    ensures found.None? ==> forall r :: r in rows ==> r.device != device
  {
    if rows == [] then None
    else if rows[0].device == device then Some(rows[0])
    else FindRow(rows[1..], device)
  }

  function RowSequence(rows: Rows, device: OpaqueId): nat {
    match FindRow(rows, device)
    case None => 0
    case Some(r) => r.sequence
  }

  function RowHash(rows: Rows, device: OpaqueId): Option<Digest> {
    match FindRow(rows, device)
    case None => None
    case Some(r) => r.hash
  }

  function RowAcknowledged(rows: Rows, device: OpaqueId): nat {
    match FindRow(rows, device)
    case None => 0
    case Some(r) => r.acknowledged
  }

  /** A `put`: replaces the device's row or adds one. */
  function PutRow(rows: Rows, row: FrontierRow): (updated: Rows)
    ensures forall d :: FindRow(updated, d) == if d == row.device then Some(row) else FindRow(rows, d)
    ensures forall x :: x in updated ==> x == row || (x in rows && (DistinctRows(rows) ==> x.device != row.device))
    ensures row in updated && forall x :: x in rows && x.device != row.device ==> x in updated
    ensures DistinctRows(rows) ==> DistinctRows(updated)
  {
    if rows == [] then [row]
    else if rows[0].device == row.device then [row] + rows[1..]
    else [rows[0]] + PutRow(rows[1..], row)
  }

  predicate DistinctRows(rows: Rows) {
    forall i, j :: 0 <= i < j < |rows| ==> rows[i].device != rows[j].device
  }

  /** Only an operation row carries a hash; an acknowledgement-only row has sequence zero. */
  predicate RowsValid(rows: Rows) {
    DistinctRows(rows) && forall r :: r in rows ==> (r.sequence == 0 <==> r.hash.None?)
  }

  /** `causalFrontierFromRows`, before the sort. */
  function Entries(rows: Rows): (entries: seq<Entry>)
    ensures forall e :: e in entries ==>
      exists r :: r in rows && r.device == e.device && r.sequence == e.sequence && r.hash == Some(e.hash)
    ensures forall e :: e in entries ==> e.sequence > 0
  {
    if rows == [] then []
    else if rows[0].sequence > 0 && rows[0].hash.Some?
    then [Entry(rows[0].device, rows[0].sequence, rows[0].hash.value)] + Entries(rows[1..])
    else Entries(rows[1..])
  }

  function CausalFrontier(rows: Rows, rank: Collation): seq<Entry> {
    SortByCollation(Entries(rows), rank)
  }

  lemma DistinctTail(rows: Rows)
    requires rows != [] && DistinctRows(rows)
    ensures DistinctRows(rows[1..]) && FindRow(rows[1..], rows[0].device).None?
    ensures forall r :: r in rows[1..] ==> r in rows && r.device != rows[0].device
  {
    var rest := rows[1..];
    forall i, j | 0 <= i < j < |rest| ensures rest[i].device != rest[j].device {
      assert rest[i] == rows[i + 1] && rest[j] == rows[j + 1];
    }
  }

  lemma {:induction false} EntriesDistinct(rows: Rows)
    requires DistinctRows(rows)
    ensures Distinct(Entries(rows))
  {
    if rows != [] {
      DistinctTail(rows);
      EntriesDistinct(rows[1..]);
      forall e | e in Entries(rows[1..]) ensures e.device != rows[0].device {
        assert e.device != rows[0].device;
      }
    }
  }

  /** Looking a device up in the frontier is looking its row up. */
  lemma {:induction false} EntriesLookup(rows: Rows, d: OpaqueId)
    requires RowsValid(rows)
    ensures Lookup(Entries(rows), d) ==
      if RowSequence(rows, d) > 0 then Some(Entry(d, RowSequence(rows, d), RowHash(rows, d).value)) else None
  {
    if rows != [] {
      DistinctTail(rows);
      EntriesLookup(rows[1..], d);
    }
  }

  ghost predicate OrdersAgree(devices: set<OpaqueId>, rank: Collation) {
    forall a, b :: a in devices && b in devices && a < b ==> rank(a) < rank(b)
  }

  /** At most ten devices, on which the locale order and the code-unit order agree. */
  ghost predicate Fits(rows: Rows, devices: set<OpaqueId>, rank: Collation) {
    && |devices| <= MAX_FRONTIER_DEVICES
    && OrdersAgree(devices, rank)
    && forall r :: r in rows && r.sequence > 0 ==> r.device in devices
  }

  lemma {:induction false} DistinctFits(entries: seq<Entry>, devices: set<OpaqueId>)
    requires Distinct(entries) && forall e :: e in entries ==> e.device in devices
    ensures |entries| <= |devices|
  {
    if entries != [] {
      var rest := entries[1..];
      assert forall i, j :: 0 <= i < j < |entries| - 1 ==> rest[i] == entries[i + 1] && rest[j] == entries[j + 1];
      forall e | e in rest ensures e.device in devices - {entries[0].device} {
        var i :| 0 <= i < |rest| && rest[i] == e;
        assert entries[i + 1] == e;
      }
      assert entries[0] in entries;
      DistinctFits(rest, devices - {entries[0].device});
    }
  }

  lemma FrontierIsValid(rows: Rows, devices: set<OpaqueId>, rank: Collation)
    requires Total(rank) && RowsValid(rows) && Fits(rows, devices, rank)
    ensures ValidFrontier(CausalFrontier(rows, rank))
    ensures forall d :: Lookup(CausalFrontier(rows, rank), d) == Lookup(Entries(rows), d)
  {
    var entries := Entries(rows);
    EntriesDistinct(rows);
    DistinctFits(entries, devices);
    SortKeepsLookups(entries, rank);
    SortedFrontierOkIff(entries, rank);
  }
}
