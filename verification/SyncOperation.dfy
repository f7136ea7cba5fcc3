/**
 * The signed sync operation and the schema rules every parsed operation obeys.
 *
 * Hashing is symbolic: a digest is the term that was hashed, so equal digests
 * mean equal contents, and no operation can contain its own hash.
 */
module SyncOperation {
  import opened Wrappers

  /** Opaque identifiers; `<` is the code-unit order the schemas compare them with. */
  type OpaqueId = nat

  datatype EntityType =
    | Account | Transaction | Category | PlannedIncome | Commitment | VariableBudget
    | Goal | Debt | DebtPayment | PlannedEvent | QuickAddPreset | SalaryScenario

  datatype EntityKey = EntityKey(entityType: EntityType, entityId: string)

  /** A canonical JSON value, compared by equality. */
  type Json = string

  datatype Digest =
    | OperationDigest(operation: Operation)
    | StateDigest(key: EntityKey, version: nat, value: Option<Json>, tombstone: Option<Tombstone>)
    | UnknownDigest(name: nat)

  datatype Entry = Entry(device: OpaqueId, sequence: nat, hash: Digest)

  datatype Action = Upsert | Delete

  datatype Precondition = Precondition(version: nat, hash: Option<Digest>, tombstone: bool)

  datatype CommandResult = CommandResult(version: nat, hash: Digest, tombstone: bool)

  datatype Tombstone = Tombstone(
    key: EntityKey, version: nat, previousHash: Digest, operationId: OpaqueId,
    device: OpaqueId, sequence: nat, lamport: nat, frontier: seq<Entry>, deletedAt: nat)

  datatype Command = Command(
    action: Action, key: EntityKey, precondition: Precondition, result: CommandResult,
    value: Option<Json>, tombstone: Option<Tombstone>)

  datatype Operation = Operation(
    id: OpaqueId, groupId: OpaqueId, groupIndex: nat, groupSize: nat,
    device: OpaqueId, sequence: nat, lamport: nat, frontier: seq<Entry>,
    resolves: seq<OpaqueId>, command: Command, previousHash: Option<Digest>, createdAt: nat)

  const MAX_FRONTIER_DEVICES := 10
  const MAX_GROUP_SIZE := 1000
  const MAX_RESOLVED := 20

  // ---- Causal frontiers ----

  predicate SortedByCode(frontier: seq<Entry>) {
    forall i, j :: 0 <= i < j < |frontier| ==> frontier[i].device < frontier[j].device
  }

  predicate ValidFrontier(frontier: seq<Entry>) {
    && |frontier| <= MAX_FRONTIER_DEVICES
    && (forall e :: e in frontier ==> e.sequence > 0)
    && SortedByCode(frontier)
  }

  /** The first entry of a device, as `find` and a map lookup return it. */
  function Lookup(frontier: seq<Entry>, device: OpaqueId): (found: Option<Entry>)
    ensures found.Some? ==> found.value in frontier && found.value.device == device
    ensures found.None? ==> forall e :: e in frontier ==> e.device != device
  {
    if frontier == [] then None
    else if frontier[0].device == device then Some(frontier[0])
    else Lookup(frontier[1..], device)
  }

  function SequenceOf(frontier: seq<Entry>, device: OpaqueId): nat {
    match Lookup(frontier, device)
    case None => 0
    case Some(e) => e.sequence
  }

  predicate Distinct(frontier: seq<Entry>) {
    forall i, j :: 0 <= i < j < |frontier| ==> frontier[i].device != frontier[j].device
  }

  lemma {:induction false} LookupMember(frontier: seq<Entry>, e: Entry)
    requires Distinct(frontier) && e in frontier
    ensures Lookup(frontier, e.device) == Some(e)
  {
    if frontier[0].device == e.device {
      var i :| 0 <= i < |frontier| && frontier[i] == e;
      assert i == 0;
    } else {
      var i :| 0 <= i < |frontier| && frontier[i] == e;
      assert e == frontier[1..][i - 1];
      assert forall j, k :: 0 <= j < k < |frontier| - 1 ==>
          frontier[1..][j] == frontier[j + 1] && frontier[1..][k] == frontier[k + 1];
      LookupMember(frontier[1..], e);
    }
  }

  /** Two strictly sorted frontiers that answer every lookup alike are the same sequence. */
  lemma {:induction false} SortedFrontierExtensional(left: seq<Entry>, right: seq<Entry>)
    requires SortedByCode(left) && SortedByCode(right)
    requires forall d :: Lookup(left, d) == Lookup(right, d)
    ensures left == right
  {
    if left != [] { assert Lookup(right, left[0].device) == Some(left[0]); }
    if right != [] { assert Lookup(left, right[0].device) == Some(right[0]); }
    if left != [] {
      assert left[0] == right[0];
      forall d ensures Lookup(left[1..], d) == Lookup(right[1..], d) {
        assert Lookup(left, d) == Lookup(right, d);
      }
      SortedFrontierExtensional(left[1..], right[1..]);
      assert left == [left[0]] + left[1..] && right == [right[0]] + right[1..];
    }
  }

  // ---- Schema rules of a parsed operation ----

  predicate ValidPrecondition(p: Precondition) {
    if p.version == 0 then p.hash.None? && !p.tombstone else p.hash.Some?
  }

  predicate ValidCommand(c: Command) {
    && ValidPrecondition(c.precondition)
    && c.result.version == c.precondition.version + 1
    && match c.action
       case Upsert => c.value.Some? && c.tombstone.None? && !c.result.tombstone
       case Delete =>
         c.value.None? && c.tombstone.Some? && c.result.tombstone && c.precondition.version != 0
  }

  predicate BoundTombstone(op: Operation) {
    match op.command.tombstone
    case None => true
    case Some(t) =>
      && t.key == op.command.key
      && t.version == op.command.result.version
      && op.command.precondition.hash == Some(t.previousHash)
      && t.operationId == op.id
      && t.device == op.device
      && t.sequence == op.sequence
      && t.lamport == op.lamport
      && t.frontier == op.frontier
      && t.deletedAt == op.createdAt
  }

  predicate DirectlyChained(op: Operation) {
    var own := Lookup(op.frontier, op.device);
    if op.sequence == 1 then op.previousHash.None? && own.None?
    else op.previousHash.Some? && own.Some? && own.value.sequence == op.sequence - 1
         && own.value.hash == op.previousHash.value
  }

  predicate ValidResolves(ids: seq<OpaqueId>) {
    |ids| <= MAX_RESOLVED && forall i, j :: 0 <= i < j < |ids| ==> ids[i] < ids[j]
  }

  /** What `parseSyncOperation` accepts; it throws on everything else. */
  predicate ValidOperation(op: Operation) {
    && op.groupIndex < op.groupSize <= MAX_GROUP_SIZE
    && op.sequence > 0
    && op.lamport > 0
    && ValidFrontier(op.frontier)
    && ValidResolves(op.resolves)
    && ValidCommand(op.command)
    && DirectlyChained(op)
    && BoundTombstone(op)
  }

  /** The digest an operation's result must carry (`operationResultStateHash`). */
  function ResultStateHash(op: Operation): Digest {
    StateDigest(op.command.key, op.command.result.version, op.command.value, op.command.tombstone)
  }

  // ---- Insertion into a frontier and the collated sort ----

  /** `map.set`: replaces a device's entry in place, or appends it. */
  function SetEntry(frontier: seq<Entry>, e: Entry): (updated: seq<Entry>)
    ensures forall d :: Lookup(updated, d) == if d == e.device then Some(e) else Lookup(frontier, d)
    ensures Distinct(frontier) ==>
      Distinct(updated) && forall x :: x in updated ==> x == e || (x in frontier && x.device != e.device)
  {
    if frontier == [] then [e]
    else if frontier[0].device == e.device then [e] + frontier[1..]
    else [frontier[0]] + SetEntry(frontier[1..], e)
  }
}
