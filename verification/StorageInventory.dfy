/**
 * The object-storage inventory (services/sync-worker/src/budget.ts, 1208-1436): rows of
 * stored objects, and the byte and object totals that guard them.
 */
module StorageInventory {
  import opened Wrappers
  import opened Sums

  datatype ObjectState = Temporary | Committed | Deletable

  datatype StoredObject = StoredObject(vault: nat, state: ObjectState, bytes: nat)

  datatype Stock = Stock(bytes: int, count: int)

  datatype Inventory = Inventory(
    objects: map<string, StoredObject>, vaults: map<nat, Stock>, service: Stock, writable: bool)

  datatype Limits = Limits(service: Stock, vault: Stock)

  datatype ReserveOutcome = Inserted | AlreadyThere | KeyReused | ConstraintFailed | ServiceExhausted | VaultExhausted

  datatype ReserveResult = ReserveResult(inventory: Inventory, outcome: ReserveOutcome)

  function StockOf(i: Inventory, vault: nat): Stock {
    if vault in i.vaults then i.vaults[vault] else Stock(0, 0)
  }

  function Added(s: Stock, bytes: int): Stock { Stock(s.bytes + bytes, s.count + 1) }

  /** `MAX(0, s - (bytes, count))` */
  function Taken(s: Stock, bytes: int, count: int): Stock {
    Stock(Positive(s.bytes - bytes), Positive(s.count - count))
  }

  predicate FitsWithin(s: Stock, limit: Stock) { s.bytes <= limit.bytes && s.count <= limit.count }

  function WithVault(i: Inventory, vault: nat): Inventory {
    i.(vaults := i.vaults[vault := StockOf(i, vault)])
  }

  predicate Room(i: Inventory, limits: Limits, vault: nat, bytes: nat) {
    i.writable && FitsWithin(Added(i.service, bytes), limits.service)
    && FitsWithin(Added(StockOf(i, vault), bytes), limits.vault)
  }

  /** The batch of `reserveR2Object`; a repeated object key rolls it back. */
  function ReserveBatch(i: Inventory, limits: Limits, key: string, vault: nat, bytes: nat): Option<Inventory> {
    var ready := WithVault(i, vault);
    if !Room(ready, limits, vault, bytes) then Some(ready)
    else if key in i.objects then None
    else Some(ready.(
      objects := i.objects[key := StoredObject(vault, Temporary, bytes)],
      service := Added(i.service, bytes),
      vaults := ready.vaults[vault := Added(ready.vaults[vault], bytes)]))
  }

  predicate SameObject(i: Inventory, key: string, vault: nat, bytes: nat) {
    key in i.objects && i.objects[key].vault == vault && i.objects[key].bytes == bytes
  }

  function ReserveObject(i: Inventory, limits: Limits, key: string, vault: nat, bytes: nat): ReserveResult {
    if key in i.objects then ReserveResult(i, if SameObject(i, key, vault, bytes) then AlreadyThere else KeyReused)
    else
      match ReserveBatch(i, limits, key, vault, bytes)
      case None => ReserveResult(i, ConstraintFailed)
      case Some(after) =>
        if key in after.objects then ReserveResult(after, Inserted)
        else if !FitsWithin(Added(after.service, bytes), limits.service) then ReserveResult(after, ServiceExhausted)
        else ReserveResult(after, VaultExhausted)
  }

  function CommitObject(i: Inventory, key: string): Inventory {
    if key in i.objects && i.objects[key].state == Temporary
    then i.(objects := i.objects[key := i.objects[key].(state := Committed)]) else i
  }

  /** What `releaseR2Object` read before its batch. */
  datatype Observed = Observed(vault: nat, bytes: nat)

  /** The batch marks the row, subtracts what was observed if it was marked, and deletes it. */
  function ReleaseBatch(i: Inventory, key: string, seen: Observed): Inventory {
    if key !in i.objects || i.objects[key].state == Deletable then i
    else i.(
      objects := i.objects - {key},
      service := Taken(i.service, seen.bytes, 1),
      vaults := if seen.vault in i.vaults
                then i.vaults[seen.vault := Taken(i.vaults[seen.vault], seen.bytes, 1)] else i.vaults)
  }

  /** The whole-vault release subtracts the totals it had read. */
  function ReleaseVaultBatch(i: Inventory, vault: nat, seen: Stock): Inventory {
    if vault !in i.vaults then i
    else i.(
      objects := map k | k in i.objects && i.objects[k].vault != vault :: i.objects[k],
      service := Taken(i.service, seen.bytes, seen.count),
      vaults := i.vaults - {vault})
  }

  // ---- Balance ----

  function AllBytes(): (string, StoredObject) -> int { (k: string, o: StoredObject) => o.bytes }
  function AllCount(): (string, StoredObject) -> int { (k: string, o: StoredObject) => 1 }
  function VaultBytes(v: nat): (string, StoredObject) -> int {
    (k: string, o: StoredObject) => if o.vault == v then o.bytes else 0
  }
  function VaultCount(v: nat): (string, StoredObject) -> int {
    (k: string, o: StoredObject) => if o.vault == v then 1 else 0
  }

  ghost function ServiceSum(i: Inventory): Stock { Stock(Total(i.objects, AllBytes()), Total(i.objects, AllCount())) }

  ghost function VaultSum(i: Inventory, v: nat): Stock {
    Stock(Total(i.objects, VaultBytes(v)), Total(i.objects, VaultCount(v)))
  }

  predicate RowsValid(i: Inventory) {
    forall k :: k in i.objects ==>
      i.objects[k].state != Deletable && i.objects[k].bytes > 0 && i.objects[k].vault in i.vaults
  }

  /** Totals are the sums over the rows, for the service and for every vault. */
  ghost predicate Balanced(i: Inventory) {
    RowsValid(i) && i.service == ServiceSum(i) && forall v :: StockOf(i, v) == VaultSum(i, v)
  }

  predicate WithinLimits(i: Inventory, limits: Limits) {
    FitsWithin(i.service, limits.service) && forall v :: v in i.vaults ==> FitsWithin(i.vaults[v], limits.vault)
  }

  lemma SumsAfterPut(i: Inventory, key: string, o: StoredObject, v: nat)
    requires key !in i.objects
    ensures
      var after := i.(objects := i.objects[key := o]);
      && ServiceSum(after) == Added(ServiceSum(i), o.bytes)
      && VaultSum(after, v) == if o.vault == v then Added(VaultSum(i, v), o.bytes) else VaultSum(i, v)
  {
    TotalAfterPut(i.objects, AllBytes(), key, o);
    TotalAfterPut(i.objects, AllCount(), key, o);
    TotalAfterPut(i.objects, VaultBytes(v), key, o);
    TotalAfterPut(i.objects, VaultCount(v), key, o);
  }

  lemma SumsAfterRemove(i: Inventory, key: string, v: nat)
    requires key in i.objects
    ensures
      var after, o := i.(objects := i.objects - {key}), i.objects[key];
      && ServiceSum(i) == Added(ServiceSum(after), o.bytes)
      && VaultSum(i, v) == if o.vault == v then Added(VaultSum(after, v), o.bytes) else VaultSum(after, v)
  {
    TotalAfterRemove(i.objects, AllBytes(), key);
    TotalAfterRemove(i.objects, AllCount(), key);
    TotalAfterRemove(i.objects, VaultBytes(v), key);
    TotalAfterRemove(i.objects, VaultCount(v), key);
  }

  lemma SumsNonNegative(i: Inventory, v: nat)
    ensures ServiceSum(i).bytes >= 0 && ServiceSum(i).count >= 0
    ensures VaultSum(i, v).bytes >= 0 && VaultSum(i, v).count >= 0
  {
    TotalNonNegative(i.objects, AllBytes());
    TotalNonNegative(i.objects, AllCount());
    TotalNonNegative(i.objects, VaultBytes(v));
    TotalNonNegative(i.objects, VaultCount(v));
  }

  // ---- Reserve and commit ----

  lemma ReserveKeepsBalance(i: Inventory, limits: Limits, key: string, vault: nat, bytes: nat)
    requires Balanced(i) && WithinLimits(i, limits) && FitsWithin(Stock(0, 0), limits.vault) && bytes > 0
    ensures
      var after := ReserveObject(i, limits, key, vault, bytes).inventory;
      Balanced(after) && WithinLimits(after, limits)
  {
    var after := ReserveObject(i, limits, key, vault, bytes).inventory;
    var ready := WithVault(i, vault);
    forall v ensures StockOf(after, v) == VaultSum(after, v) {
      assert StockOf(i, v) == VaultSum(i, v);
      if key !in i.objects { SumsAfterPut(ready, key, StoredObject(vault, Temporary, bytes), v); }
    }
    if key !in i.objects { SumsAfterPut(ready, key, StoredObject(vault, Temporary, bytes), vault); }
  }

  lemma SameSharesSameSums(i: Inventory, j: Inventory, v: nat)
    requires i.objects.Keys == j.objects.Keys
    requires forall k :: k in i.objects ==>
      i.objects[k].bytes == j.objects[k].bytes && i.objects[k].vault == j.objects[k].vault
    ensures ServiceSum(i) == ServiceSum(j) && VaultSum(i, v) == VaultSum(j, v)
    decreases i.objects.Keys
  {
    if i.objects.Keys == {} {
      assert i.objects == j.objects;
    } else {
      var k :| k in i.objects.Keys;
      SumsAfterRemove(i, k, v);
      SumsAfterRemove(j, k, v);
      SameSharesSameSums(i.(objects := i.objects - {k}), j.(objects := j.objects - {k}), v);
    }
  }

  lemma CommitKeepsBalance(i: Inventory, key: string)
    requires Balanced(i)
    ensures Balanced(CommitObject(i, key))
  {
    var after := CommitObject(i, key);
    forall v ensures StockOf(after, v) == VaultSum(after, v) {
      assert StockOf(i, v) == VaultSum(i, v);
      SameSharesSameSums(i, after, v);
    }
    SameSharesSameSums(i, after, 0);
  }

  // ---- Release ----

  /** A vault's rows are part of the service's. */
  lemma VaultWithinService(i: Inventory, v: nat)
    ensures VaultSum(i, v).bytes <= ServiceSum(i).bytes && VaultSum(i, v).count <= ServiceSum(i).count
    decreases i.objects.Keys
  {
    if i.objects.Keys != {} {
      var k :| k in i.objects.Keys;
      SumsAfterRemove(i, k, v);
      VaultWithinService(i.(objects := i.objects - {k}), v);
    }
  }

  /** Releasing what is there takes exactly its row out of both totals, without a clamp. */
  lemma ReleaseKeepsBalance(i: Inventory, key: string)
    requires Balanced(i) && key in i.objects
    ensures
      var o := i.objects[key];
      var after := ReleaseBatch(i, key, Observed(o.vault, o.bytes));
      && Balanced(after) && key !in after.objects
      && i.service == Added(after.service, o.bytes)
      && StockOf(i, o.vault) == Added(StockOf(after, o.vault), o.bytes)
  {
    var o := i.objects[key];
    var after := ReleaseBatch(i, key, Observed(o.vault, o.bytes));
    var bare := i.(objects := i.objects - {key});
    forall v ensures StockOf(after, v) == VaultSum(after, v) {
      assert StockOf(i, v) == VaultSum(i, v);
      SumsAfterRemove(i, key, v);
      SumsNonNegative(bare, v);
      assert VaultSum(after, v) == VaultSum(bare, v);
    }
    SumsAfterRemove(i, key, o.vault);
    SumsNonNegative(bare, o.vault);
    assert StockOf(i, o.vault) == VaultSum(i, o.vault);
  }

  /** A second release of the same key changes nothing. */
  lemma ReleaseTwiceIsOnce(i: Inventory, key: string, first: Observed, second: Observed)
    requires RowsValid(i)
    ensures ReleaseBatch(ReleaseBatch(i, key, first), key, second) == ReleaseBatch(i, key, first)
  {}

  /**
   * A release keeps the balance exactly when the row read before the batch has not been
   * replaced since: same vault and size, unless the object is all that is stored, where
   * the clamp hides an over-read size.
   */
  lemma ReleaseConservesIff(i: Inventory, key: string, seen: Observed)
    requires Balanced(i) && key in i.objects
    ensures Balanced(ReleaseBatch(i, key, seen)) <==>
      seen.vault == i.objects[key].vault
      && (seen.bytes == i.objects[key].bytes || i.service.bytes == i.objects[key].bytes <= seen.bytes)
  {
    var o := i.objects[key];
    var after := ReleaseBatch(i, key, seen);
    var bare := i.(objects := i.objects - {key});
    assert forall v :: VaultSum(after, v) == VaultSum(bare, v);
    SumsAfterRemove(i, key, o.vault);
    SumsNonNegative(bare, o.vault);
    VaultWithinService(bare, o.vault);
    assert StockOf(i, o.vault) == VaultSum(i, o.vault);
    if seen.vault == o.vault {
      forall v | v != o.vault ensures StockOf(after, v) == VaultSum(after, v) {
        assert StockOf(i, v) == VaultSum(i, v);
        SumsAfterRemove(i, key, v);
      }
    } else {
      assert StockOf(after, o.vault) != VaultSum(after, o.vault);
    }
    assert Balanced(after) ==> StockOf(after, o.vault) == VaultSum(after, o.vault);
  }

  // ---- Whole-vault release ----

  function WithoutVault(objects: map<string, StoredObject>, vault: nat): map<string, StoredObject> {
    map k | k in objects && objects[k].vault != vault :: objects[k]
  }

  lemma SumsWithoutVault(i: Inventory, vault: nat, v: nat)
    ensures
      var after := i.(objects := WithoutVault(i.objects, vault));
      && ServiceSum(i).bytes == ServiceSum(after).bytes + VaultSum(i, vault).bytes
      && ServiceSum(i).count == ServiceSum(after).count + VaultSum(i, vault).count
      && VaultSum(after, v) == if v == vault then Stock(0, 0) else VaultSum(i, v)
    decreases i.objects.Keys
  {
    var after := i.(objects := WithoutVault(i.objects, vault));
    if i.objects.Keys == {} {
      assert after.objects == i.objects;
    } else {
      var k :| k in i.objects.Keys;
      var less := i.(objects := i.objects - {k});
      SumsAfterRemove(i, k, vault);
      SumsAfterRemove(i, k, v);
      SumsWithoutVault(less, vault, v);
      if i.objects[k].vault != vault {
        SumsAfterRemove(after, k, v);
        assert WithoutVault(less.objects, vault) == after.objects - {k};
      } else {
        assert WithoutVault(less.objects, vault) == after.objects;
      }
    }
  }

  /** Emptying a vault is right exactly when its totals did not move since they were read (or the clamp hides it). */
  lemma ReleaseVaultConservesIff(i: Inventory, vault: nat, seen: Stock)
    requires Balanced(i) && vault in i.vaults
    ensures Balanced(ReleaseVaultBatch(i, vault, seen)) <==>
      && (seen.bytes == i.vaults[vault].bytes || i.service.bytes == i.vaults[vault].bytes <= seen.bytes)
      && (seen.count == i.vaults[vault].count || i.service.count == i.vaults[vault].count <= seen.count)
  {
    var after := ReleaseVaultBatch(i, vault, seen);
    var bare := i.(objects := WithoutVault(i.objects, vault));
    assert after.objects == bare.objects;
    SumsWithoutVault(i, vault, vault);
    SumsNonNegative(bare, vault);
    assert StockOf(i, vault) == VaultSum(i, vault);
    forall v ensures StockOf(after, v) == VaultSum(after, v) {
      assert StockOf(i, v) == VaultSum(i, v);
      SumsWithoutVault(i, vault, v);
    }
  }

  // ---- Runs ----

  datatype InventoryEvent =
    | Reserve(key: string)
    | Commit(key: string)
    | Release(key: string)
    | ReleaseVault(vault: nat)
    | SetWritable(writable: bool)

  const EmptyInventory := Inventory(map[], map[], Stock(0, 0), true)

  /** An object key fixes the vault and the size of its ciphertext. */
  type ObjectIdentity = string -> Observed

  function Step(i: Inventory, e: InventoryEvent, limits: Limits, identity: ObjectIdentity): Inventory {
    match e
    case Reserve(key) => ReserveObject(i, limits, key, identity(key).vault, identity(key).bytes).inventory
    case Commit(key) => CommitObject(i, key)
    case Release(key) => ReleaseBatch(i, key, identity(key))
    case ReleaseVault(vault) => ReleaseVaultBatch(i, vault, StockOf(i, vault))
    case SetWritable(writable) => i.(writable := writable)
  }

  function Run(events: seq<InventoryEvent>, limits: Limits, identity: ObjectIdentity): Inventory {
    if events == [] then EmptyInventory
    else Step(Run(events[..|events| - 1], limits, identity), events[|events| - 1], limits, identity)
  }

  predicate Identified(i: Inventory, identity: ObjectIdentity) {
    forall k :: k in i.objects ==> identity(k) == Observed(i.objects[k].vault, i.objects[k].bytes)
  }

  ghost predicate Sound(i: Inventory, limits: Limits, identity: ObjectIdentity) {
    Balanced(i) && WithinLimits(i, limits) && Identified(i, identity)
  }

  lemma StepKeepsSound(i: Inventory, e: InventoryEvent, limits: Limits, identity: ObjectIdentity)
    requires Sound(i, limits, identity) && FitsWithin(Stock(0, 0), limits.vault)
    requires forall k :: identity(k).bytes > 0
    ensures Sound(Step(i, e, limits, identity), limits, identity)
  {
    match e {
      case Reserve(key) => ReserveKeepsBalance(i, limits, key, identity(key).vault, identity(key).bytes);
      case Commit(key) => CommitKeepsBalance(i, key);
      case Release(key) =>
        if key in i.objects {
          ReleaseKeepsBalance(i, key);
          SumsNonNegative(Step(i, e, limits, identity), identity(key).vault);
        }
      case ReleaseVault(vault) =>
        if vault in i.vaults {
          ReleaseVaultConservesIff(i, vault, i.vaults[vault]);
          assert StockOf(i, vault) == VaultSum(i, vault);
          SumsNonNegative(i, vault);
          VaultWithinService(i, vault);
        }
      case SetWritable(writable) =>
        var after := Step(i, e, limits, identity);
        forall v ensures StockOf(after, v) == VaultSum(after, v) { assert StockOf(i, v) == VaultSum(i, v); }
    }
  }

  /**
   * Under any interleaving: bytes and counts equal the sums over the rows, for the service
   * and each vault, and no limit is passed.
   */
  lemma {:induction false} InventoryStaysSound(events: seq<InventoryEvent>, limits: Limits, identity: ObjectIdentity)
    requires FitsWithin(Stock(0, 0), limits.service) && FitsWithin(Stock(0, 0), limits.vault)
    requires forall k :: identity(k).bytes > 0
    ensures Sound(Run(events, limits, identity), limits, identity)
    decreases |events|
  {
    if events == [] {
      forall v ensures StockOf(EmptyInventory, v) == VaultSum(EmptyInventory, v) {}
    } else {
      InventoryStaysSound(events[..|events| - 1], limits, identity);
      StepKeepsSound(Run(events[..|events| - 1], limits, identity), events[|events| - 1], limits, identity);
    }
  }

  // ---- Batches on what was read too early ----

  predicate RoomForTwo(limits: Limits, first: nat, second: nat) {
    0 < first && 0 < second && FitsWithin(Stock(first + second, 2), limits.service)
    && FitsWithin(Stock(first + second, 2), limits.vault)
  }

  lemma EmptyIsSound(limits: Limits, first: nat, second: nat)
    requires RoomForTwo(limits, first, second)
    ensures Balanced(EmptyInventory) && WithinLimits(EmptyInventory, limits)
  {
    forall v ensures StockOf(EmptyInventory, v) == VaultSum(EmptyInventory, v) {}
  }

  lemma ReserveInserts(i: Inventory, limits: Limits, key: string, bytes: nat)
    requires key !in i.objects && Room(i, limits, 0, bytes)
    ensures
      var after := ReserveObject(i, limits, key, 0, bytes).inventory;
      && after.objects == i.objects[key := StoredObject(0, Temporary, bytes)]
      && after.service == Added(i.service, bytes) && 0 in after.vaults && after.vaults[0] == Added(StockOf(i, 0), bytes)
      && after.writable == i.writable
  {}

  /**
   * An object key released and used again for a larger object, between the read and the batch of
   * another release: the batch takes the old size off the totals.
   */
  lemma ReusedKeyUnbalances(limits: Limits, first: nat, second: nat)
    requires RoomForTwo(limits, first, second) && first < second
    ensures
      var read := ReserveObject(EmptyInventory, limits, "a", 0, first).inventory;
      var seen := Observed(0, first);
      var reused := ReserveObject(ReleaseBatch(read, "a", seen), limits, "a", 0, second).inventory;
      && "a" in read.objects && seen == Observed(read.objects["a"].vault, read.objects["a"].bytes)
      && Balanced(reused) && !Balanced(ReleaseBatch(reused, "a", seen))
  {
    var read := ReserveObject(EmptyInventory, limits, "a", 0, first).inventory;
    var released := ReleaseBatch(read, "a", Observed(0, first));
    EmptyIsSound(limits, first, second);
    ReserveInserts(EmptyInventory, limits, "a", first);
    ReserveKeepsBalance(EmptyInventory, limits, "a", 0, first);
    ReleaseKeepsBalance(read, "a");
    ReserveInserts(released, limits, "a", second);
    ReserveKeepsBalance(released, limits, "a", 0, second);
    ReleaseConservesIff(ReserveObject(released, limits, "a", 0, second).inventory, "a", Observed(0, first));
  }

  /** An object reserved between the read of a vault's totals and its release: its bytes stay on the service. */
  lemma LateObjectUnbalances(limits: Limits, first: nat, second: nat)
    requires RoomForTwo(limits, first, second)
    ensures
      var read := ReserveObject(EmptyInventory, limits, "a", 0, first).inventory;
      var grown := ReserveObject(read, limits, "b", 0, second).inventory;
      && 0 in read.vaults && 0 in grown.vaults
      && Balanced(grown) && !Balanced(ReleaseVaultBatch(grown, 0, read.vaults[0]))
  {
    var read := ReserveObject(EmptyInventory, limits, "a", 0, first).inventory;
    EmptyIsSound(limits, first, second);
    ReserveInserts(EmptyInventory, limits, "a", first);
    ReserveKeepsBalance(EmptyInventory, limits, "a", 0, first);
    ReserveInserts(read, limits, "b", second);
    ReserveKeepsBalance(read, limits, "b", 0, second);
    ReleaseVaultConservesIff(ReserveObject(read, limits, "b", 0, second).inventory, 0, read.vaults[0]);
  }

  // ---- The batches, statement by statement ----

  class ResourceInventory {
    const limits: Limits
    var objects: map<string, StoredObject>
    var vaults: map<nat, Stock>
    var service: Stock
    var writable: bool

    constructor (limits: Limits)
      ensures this.limits == limits && View() == Inventory(map[], map[], Stock(0, 0), true)
    {
      this.limits := limits;
      objects, vaults, service, writable := map[], map[], Stock(0, 0), true;
    }

    function View(): Inventory
      reads this
    {
      Inventory(objects, vaults, service, writable)
    }

    /** `reserveR2Object`: true when the object is new. */
    method ReserveR2Object(key: string, vault: nat, bytes: nat) returns (outcome: ReserveOutcome)
      modifies this`objects, this`vaults, this`service
      ensures ReserveResult(View(), outcome) == ReserveObject(old(View()), limits, key, vault, bytes)
    {
      if key in objects {
        return if objects[key].vault == vault && objects[key].bytes == bytes then AlreadyThere else KeyReused;
      }
      if vault !in vaults { vaults := vaults[vault := Stock(0, 0)]; }
      assert View() == WithVault(old(View()), vault);
      if writable && FitsWithin(Added(service, bytes), limits.service)
        && FitsWithin(Added(vaults[vault], bytes), limits.vault) {
        objects := objects[key := StoredObject(vault, Temporary, bytes)];
        service := Added(service, bytes);
        vaults := vaults[vault := Added(vaults[vault], bytes)];
        return Inserted;
      }
      outcome := if !FitsWithin(Added(service, bytes), limits.service) then ServiceExhausted else VaultExhausted;
    }

    /** `commitR2Object`; false when the object is neither temporary nor already committed. */
    method CommitR2Object(key: string) returns (committed: bool)
      modifies this`objects
      ensures View() == CommitObject(old(View()), key)
      ensures committed <==> key in objects && objects[key].state == Committed
    {
      if key in objects && objects[key].state == Temporary {
        objects := objects[key := objects[key].(state := Committed)];
      }
      committed := key in objects && objects[key].state == Committed;
    }

    /** The batch of `releaseR2Object`, on the row read before it. */
    method ReleaseMarked(key: string, seen: Observed)
      modifies this`objects, this`vaults, this`service
      ensures View() == ReleaseBatch(old(View()), key, seen)
    {
      if key !in objects || objects[key].state == Deletable { return; }
      service := Taken(service, seen.bytes, 1);
      if seen.vault in vaults { vaults := vaults[seen.vault := Taken(vaults[seen.vault], seen.bytes, 1)]; }
      objects := objects - {key};
    }

    method ReleaseR2Object(key: string)
      modifies this`objects, this`vaults, this`service
      ensures View() == if key in old(objects)
        then ReleaseBatch(old(View()), key, Observed(old(objects)[key].vault, old(objects)[key].bytes)) else old(View())
    {
      if key !in objects { return; }
      ReleaseMarked(key, Observed(objects[key].vault, objects[key].bytes));
    }

    method ReleaseVaultR2Inventory(vault: nat)
      modifies this`objects, this`vaults, this`service
      ensures View() == ReleaseVaultBatch(old(View()), vault, StockOf(old(View()), vault))
    {
      if vault !in vaults { return; }
      var seen := vaults[vault];
      service := Taken(service, seen.bytes, seen.count);
      objects := map k | k in objects && objects[k].vault != vault :: objects[k];
      vaults := vaults - {vault};
    }
  }
}
