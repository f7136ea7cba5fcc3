/**
 * A vault's operation log on the server (services/sync-worker/src/operations.ts and the
 * pruning in services/sync-worker/src/cleanup.ts): append, page, acknowledge, compact, prune.
 */
module OperationLog {
  import opened Wrappers
  import opened Extrema

  type DeviceId = nat

  datatype Stamp = Stamp(compactedAt: nat, cleanupAfter: nat)

  datatype Change = Change(
    cursor: nat, operationId: nat, device: DeviceId, sequence: nat, envelope: string, stamp: Option<Stamp>)

  /** The vault's current snapshot. */
  datatype Pointer = Pointer(snapshot: Option<nat>, revision: nat)

  datatype Ack = Ack(cursor: nat, pointer: Pointer)

  /** `grantUntil` is the latest expiry among the device's unrevoked grants. */
  datatype Member = Member(active: bool, grantUntil: nat)

  /** An acknowledgement request between two of its statements, with the clock it started at. */
  datatype Handler =
    | Checked(device: DeviceId, cursor: nat, pointer: Pointer, now: nat)
    | Written(pointer: Pointer, now: nat)
    | Ready(cursor: nat, now: nat)

  datatype Log = Log(
    changes: seq<Change>, nextCursor: nat, acks: map<DeviceId, Ack>, pointer: Pointer,
    members: map<DeviceId, Member>, handlers: seq<Handler>)

  const RETENTION_AFTER_COMPACTION := 7 * 24 * 60 * 60 * 1000
  const EXPIRED_DEVICE_GRACE := 7 * 24 * 60 * 60 * 1000
  const MAX_RETAINED := 5000

  // ---- Appending ----

  predicate Taken(changes: seq<Change>, operationId: nat, device: DeviceId, sequence: nat) {
    exists c :: c in changes && (c.operationId == operationId || (c.device == device && c.sequence == sequence))
  }

  /** The insert: a repeated operation id or device sequence fails its unique constraint. */
  function Insert(l: Log, device: DeviceId, operationId: nat, sequence: nat, envelope: string): Log {
    if Taken(l.changes, operationId, device, sequence) then l
    else l.(changes := l.changes + [Change(l.nextCursor, operationId, device, sequence, envelope, None)],
            nextCursor := l.nextCursor + 1)
  }

  function LastSequence(changes: seq<Change>, device: DeviceId): nat {
    if changes == [] then 0
    else
      var rest := LastSequence(changes[..|changes| - 1], device);
      var last := changes[|changes| - 1];
      if last.device == device && rest < last.sequence then last.sequence else rest
  }

  datatype UploadOutcome = Accepted(cursor: nat) | IdentityReused | SequenceConflict | QuotaExceeded

  predicate ExactRetry(c: Change, device: DeviceId, operationId: nat, sequence: nat, envelope: string) {
    c.operationId == operationId && c.device == device && c.sequence == sequence && c.envelope == envelope
  }

  // ---- Paging ----

  function After(changes: seq<Change>, cursor: nat): seq<Change> {
    if changes == [] then []
    else if changes[0].cursor > cursor then [changes[0]] + After(changes[1..], cursor)
    else After(changes[1..], cursor)
  }

  datatype Page = Page(changes: seq<Change>, nextCursor: nat, hasMore: bool)

  /** One row more than the limit is read, to know whether anything follows. */
  function PageAfter(changes: seq<Change>, cursor: nat, limit: nat): Page {
    var rows := After(changes, cursor);
    var read := if |rows| <= limit + 1 then rows else rows[..limit + 1];
    var page := if |read| <= limit then read else read[..limit];
    Page(page, if page == [] then cursor else page[|page| - 1].cursor, |read| > |page|)
  }

  // ---- Acknowledging and compacting ----

  function MaximumCursor(changes: seq<Change>): nat {
    if changes == [] then 0
    else
      var rest := MaximumCursor(changes[..|changes| - 1]);
      if rest < changes[|changes| - 1].cursor then changes[|changes| - 1].cursor else rest
  }

  predicate AckAllowed(l: Log, cursor: nat, pointer: Pointer) {
    cursor <= MaximumCursor(l.changes) && pointer == l.pointer
  }

  /** The upsert; a smaller cursor matches no row. */
  function WriteAck(acks: map<DeviceId, Ack>, device: DeviceId, ack: Ack): Option<map<DeviceId, Ack>> {
    if device in acks && ack.cursor < acks[device].cursor then None else Some(acks[device := ack])
  }

  /** The devices whose acknowledgement a compaction has to wait for. */
  function Live(members: map<DeviceId, Member>, now: nat): set<DeviceId> {
    set d | d in members && members[d].active && members[d].grantUntil > now - EXPIRED_DEVICE_GRACE
  }

  predicate Acknowledged(l: Log, d: DeviceId, pointer: Pointer) {
    d in l.acks && l.acks[d].pointer == pointer
  }

  function AckCursors(l: Log, live: set<DeviceId>): set<nat> {
    set d | d in live && d in l.acks :: l.acks[d].cursor
  }

  /** The cursor to compact up to, when every live device has acknowledged the same snapshot. */
  ghost function CompactCursor(l: Log, pointer: Pointer, now: nat): Option<nat> {
    var live := Live(l.members, now);
    if pointer.snapshot.None? || AckCursors(l, live) == {}
       || exists d :: d in live && !Acknowledged(l, d, pointer) then None
    else Some(Least(AckCursors(l, live)))
  }

  function Compact(changes: seq<Change>, cursor: nat, now: nat): (after: seq<Change>)
    ensures |after| == |changes|
    ensures forall i :: 0 <= i < |changes| ==>
      after[i] == if changes[i].cursor <= cursor && changes[i].stamp.None?
                  then changes[i].(stamp := Some(Stamp(now, now + RETENTION_AFTER_COMPACTION))) else changes[i]
  {
    if changes == [] then []
    else
      var c := changes[0];
      [if c.cursor <= cursor && c.stamp.None?
       then c.(stamp := Some(Stamp(now, now + RETENTION_AFTER_COMPACTION))) else c]
      + Compact(changes[1..], cursor, now)
  }

  // ---- Pruning ----

  predicate Expired(c: Change, now: nat) {
    c.stamp.Some? && c.stamp.value.cleanupAfter <= now
  }

  /** `ORDER BY cleanup_after, server_cursor` */
  predicate Sooner(a: Change, b: Change)
    requires a.stamp.Some? && b.stamp.Some?
  {
    a.stamp.value.cleanupAfter < b.stamp.value.cleanupAfter
    || (a.stamp.value.cleanupAfter == b.stamp.value.cleanupAfter && a.cursor < b.cursor)
  }

  /** The rows of this vault that one cleanup statement deletes: expired ones, soonest first. */
  predicate PruneBatch(changes: seq<Change>, victims: set<nat>, now: nat) {
    && (forall v :: v in victims ==> exists c :: c in changes && c.cursor == v && Expired(c, now))
    && forall a, b ::
         a in changes && b in changes && Expired(a, now) && Expired(b, now) && b.cursor in victims && Sooner(a, b) ==>
         a.cursor in victims
  }

  function Without(changes: seq<Change>, victims: set<nat>): seq<Change> {
    if changes == [] then []
    else if changes[0].cursor in victims then Without(changes[1..], victims)
    else [changes[0]] + Without(changes[1..], victims)
  }

  // ---- Order of the log ----

  predicate Ascending(changes: seq<Change>) {
    forall i, j :: 0 <= i < j < |changes| ==> changes[i].cursor < changes[j].cursor
  }

  predicate CompactedPrefix(changes: seq<Change>) {
    forall i, j :: 0 <= i < j < |changes| && changes[j].stamp.Some? ==> changes[i].stamp.Some?
  }

  predicate StampsRise(changes: seq<Change>) {
    forall i, j :: 0 <= i < j < |changes| && changes[i].stamp.Some? && changes[j].stamp.Some? ==>
      changes[i].stamp.value.cleanupAfter <= changes[j].stamp.value.cleanupAfter
  }

  predicate Below(changes: seq<Change>, bound: nat) {
    forall c :: c in changes ==> c.cursor < bound
  }

  lemma {:induction false} AfterSelects(changes: seq<Change>, cursor: nat)
    ensures forall c :: c in After(changes, cursor) <==> c in changes && c.cursor > cursor
    ensures Ascending(changes) ==> Ascending(After(changes, cursor))
  {
    if changes != [] {
      var rest := changes[1..];
      assert changes == [changes[0]] + rest;
      if Ascending(changes) { AscendingParts(changes[0], rest); }
      AfterSelects(rest, cursor);
      if Ascending(changes) { AscendingJoin(changes[0], After(rest, cursor)); }
    }
  }

  lemma AscendingParts(first: Change, rest: seq<Change>)
    requires Ascending([first] + rest)
    ensures Ascending(rest) && forall c :: c in rest ==> first.cursor < c.cursor
  {
    var all := [first] + rest;
    forall i, j | 0 <= i < j < |rest| ensures rest[i].cursor < rest[j].cursor {
      assert all[i + 1] == rest[i] && all[j + 1] == rest[j];
    }
    forall c | c in rest ensures first.cursor < c.cursor {
      var i :| 0 <= i < |rest| && rest[i] == c;
      assert all[0] == first && all[i + 1] == c;
    }
  }

  lemma AscendingJoin(first: Change, rest: seq<Change>)
    requires Ascending(rest) && forall c :: c in rest ==> first.cursor < c.cursor
    ensures Ascending([first] + rest)
  {
    var all := [first] + rest;
    forall i, j | 0 <= i < j < |all| ensures all[i].cursor < all[j].cursor {
      assert all[j] == rest[j - 1] && rest[j - 1] in rest;
      if i > 0 { assert all[i] == rest[i - 1]; }
    }
  }

  lemma {:induction false} AfterSnoc(changes: seq<Change>, c: Change, cursor: nat)
    ensures After(changes + [c], cursor) == After(changes, cursor) + if c.cursor > cursor then [c] else []
  {
    if changes == [] {
      assert [] + [c] == [c] && [c][1..] == [];
    } else {
      assert (changes + [c])[1..] == changes[1..] + [c];
      AfterSnoc(changes[1..], c, cursor);
    }
  }

  /** Advancing through a sorted log in two steps is advancing once. */
  lemma {:induction false} AfterSplits(changes: seq<Change>, cursor: nat, n: nat)
    requires Ascending(changes) && 0 < n <= |After(changes, cursor)|
    ensures After(changes, After(changes, cursor)[n - 1].cursor) == After(changes, cursor)[n..]
    decreases |changes|
  {
    var rest := changes[1..];
    assert changes == [changes[0]] + rest;
    AscendingParts(changes[0], rest);
    var rows, tail := After(changes, cursor), After(rest, cursor);
    if changes[0].cursor <= cursor {
      AfterSplits(rest, cursor, n);
      LastRowIsAfter(rest, cursor, n - 1);
      assert After(changes, tail[n - 1].cursor) == After(rest, tail[n - 1].cursor);
    } else if n == 1 {
      AllAfter(rest, changes[0].cursor);
      AllAfter(rest, cursor);
      assert rows == [changes[0]] + rest;
    } else {
      AfterSplits(rest, cursor, n - 1);
      LastRowIsAfter(rest, cursor, n - 2);
      assert rows == [changes[0]] + tail;
      assert After(changes, tail[n - 2].cursor) == After(rest, tail[n - 2].cursor);
      assert rows[n..] == tail[n - 1..];
    }
  }

  lemma LastRowIsAfter(changes: seq<Change>, cursor: nat, k: nat)
    requires k < |After(changes, cursor)|
    ensures After(changes, cursor)[k] in changes && After(changes, cursor)[k].cursor > cursor
  {
    AfterSelects(changes, cursor);
    assert After(changes, cursor)[k] in After(changes, cursor);
  }

  lemma {:induction false} AllAfter(changes: seq<Change>, cursor: nat)
    requires forall c :: c in changes ==> c.cursor > cursor
    ensures After(changes, cursor) == changes
  {
    if changes != [] {
      AllAfter(changes[1..], cursor);
      assert changes == [changes[0]] + changes[1..];
    }
  }

  // ---- Paging delivers everything once, in order ----

  /** A page is the first `limit` rows after the cursor, and says whether any are left. */
  lemma PageReads(changes: seq<Change>, cursor: nat, limit: nat)
    ensures
      var rows, page := After(changes, cursor), PageAfter(changes, cursor, limit);
      && page.changes == rows[..if |rows| < limit then |rows| else limit]
      && (page.hasMore <==> |rows| > limit)
  {}

  /** Pages requested one after another from a log that does not change. */
  function Pages(changes: seq<Change>, cursor: nat, limit: nat): seq<Change>
    requires Ascending(changes) && limit > 0
    decreases |After(changes, cursor)|
  {
    var page := PageAfter(changes, cursor, limit);
    if !page.hasMore then page.changes
    else
      PageReads(changes, cursor, limit);
      AfterSplits(changes, cursor, limit);
      page.changes + Pages(changes, page.nextCursor, limit)
  }

  lemma {:induction false} PagesAreTheTail(changes: seq<Change>, cursor: nat, limit: nat)
    requires Ascending(changes) && limit > 0
    ensures Pages(changes, cursor, limit) == After(changes, cursor)
    decreases |After(changes, cursor)|
  {
    var rows, page := After(changes, cursor), PageAfter(changes, cursor, limit);
    PageReads(changes, cursor, limit);
    if page.hasMore {
      AfterSplits(changes, cursor, limit);
      PagesAreTheTail(changes, page.nextCursor, limit);
      assert rows == rows[..limit] + rows[limit..];
    }
  }

  // ---- Compaction marks a prefix ----

  lemma InsertKeepsPrefix(l: Log, device: DeviceId, operationId: nat, sequence: nat, envelope: string)
    requires Ascending(l.changes) && Below(l.changes, l.nextCursor) && CompactedPrefix(l.changes)
    ensures
      var after := Insert(l, device, operationId, sequence, envelope);
      Ascending(after.changes) && Below(after.changes, after.nextCursor) && CompactedPrefix(after.changes)
  {}

  lemma CompactKeepsPrefix(changes: seq<Change>, cursor: nat, now: nat)
    requires Ascending(changes) && CompactedPrefix(changes)
    ensures Ascending(Compact(changes, cursor, now)) && CompactedPrefix(Compact(changes, cursor, now))
  {
    var after := Compact(changes, cursor, now);
    forall i, j | 0 <= i < j < |after| ensures after[i].cursor < after[j].cursor {
      assert after[i].cursor == changes[i].cursor && after[j].cursor == changes[j].cursor;
    }
    forall i, j | 0 <= i < j < |after| && after[j].stamp.Some? ensures after[i].stamp.Some? {
      assert changes[i].cursor < changes[j].cursor;
    }
  }

  predicate HasUncompacted(changes: seq<Change>, cursor: nat) {
    exists i :: 0 <= i < |changes| && changes[i].cursor <= cursor && changes[i].stamp.None?
  }

  predicate NoLaterStamp(changes: seq<Change>, bound: nat) {
    forall i :: 0 <= i < |changes| && changes[i].stamp.Some? ==> changes[i].stamp.value.cleanupAfter <= bound
  }

  lemma StampsInOrder(changes: seq<Change>, cursor: nat, now: nat, i: nat, j: nat)
    requires CompactedPrefix(changes) && StampsRise(changes) && i < j < |changes|
    requires !HasUncompacted(changes, cursor) || NoLaterStamp(changes, now + RETENTION_AFTER_COMPACTION)
    requires Compact(changes, cursor, now)[i].stamp.Some? && Compact(changes, cursor, now)[j].stamp.Some?
    ensures Compact(changes, cursor, now)[i].stamp.value.cleanupAfter <=
      Compact(changes, cursor, now)[j].stamp.value.cleanupAfter
  {
    var after := Compact(changes, cursor, now);
    if changes[j].stamp.Some? {
      assert changes[i].stamp.Some? && after[i] == changes[i] && after[j] == changes[j];
    } else {
      assert changes[j].cursor <= cursor && after[j].stamp.value.cleanupAfter == now + RETENTION_AFTER_COMPACTION;
      assert HasUncompacted(changes, cursor);
      if changes[i].stamp.Some? { assert after[i] == changes[i]; }
    }
  }

  lemma CompactAfterStamps(changes: seq<Change>, cursor: nat, now: nat)
    requires Ascending(changes) && CompactedPrefix(changes) && StampsRise(changes)
    requires !HasUncompacted(changes, cursor) || NoLaterStamp(changes, now + RETENTION_AFTER_COMPACTION)
    ensures StampsRise(Compact(changes, cursor, now))
  {
    var after := Compact(changes, cursor, now);
    forall i, j | 0 <= i < j < |after| && after[i].stamp.Some? && after[j].stamp.Some?
      ensures after[i].stamp.value.cleanupAfter <= after[j].stamp.value.cleanupAfter
    {
      StampsInOrder(changes, cursor, now, i, j);
    }
  }

  /**
   * A compaction keeps the clean-up times in log order exactly when it marks nothing, or
   * its own clock is not behind one that has already stamped a row.
   */
  lemma StampsRiseIff(changes: seq<Change>, cursor: nat, now: nat)
    requires Ascending(changes) && CompactedPrefix(changes) && StampsRise(changes)
    ensures StampsRise(Compact(changes, cursor, now)) <==>
      !HasUncompacted(changes, cursor) || NoLaterStamp(changes, now + RETENTION_AFTER_COMPACTION)
  {
    var after := Compact(changes, cursor, now);
    if HasUncompacted(changes, cursor) && StampsRise(after) {
      var j :| 0 <= j < |changes| && changes[j].cursor <= cursor && changes[j].stamp.None?;
      forall i | 0 <= i < |changes| && changes[i].stamp.Some?
        ensures changes[i].stamp.value.cleanupAfter <= now + RETENTION_AFTER_COMPACTION
      {
        assert i < j;
        assert after[i] == changes[i] && after[j].stamp == Some(Stamp(now, now + RETENTION_AFTER_COMPACTION));
      }
    } else if !StampsRise(after) {
      if !HasUncompacted(changes, cursor) || NoLaterStamp(changes, now + RETENTION_AFTER_COMPACTION) {
        CompactAfterStamps(changes, cursor, now);
      }
    }
  }

  lemma {:induction false} WithoutSelects(changes: seq<Change>, victims: set<nat>)
    ensures forall c :: c in Without(changes, victims) <==> c in changes && c.cursor !in victims
    ensures Ascending(changes) ==> Ascending(Without(changes, victims))
  {
    if changes != [] {
      var rest := changes[1..];
      assert changes == [changes[0]] + rest;
      if Ascending(changes) { AscendingParts(changes[0], rest); }
      WithoutSelects(rest, victims);
      if Ascending(changes) { AscendingJoin(changes[0], Without(rest, victims)); }
    }
  }

  lemma WithoutKeepsPrefix(changes: seq<Change>, victims: set<nat>)
    requires Ascending(changes) && CompactedPrefix(changes)
    ensures Ascending(Without(changes, victims)) && CompactedPrefix(Without(changes, victims))
  {
    var after := Without(changes, victims);
    WithoutSelects(changes, victims);
    forall i, j | 0 <= i < j < |after| && after[j].stamp.Some? ensures after[i].stamp.Some? {
      assert after[i] in after && after[j] in after;
      var p :| 0 <= p < |changes| && changes[p] == after[i];
      var q :| 0 <= q < |changes| && changes[q] == after[j];
      assert p < q;
    }
  }

  /** What goes, goes from the front. */
  predicate RemovesPrefix(changes: seq<Change>, victims: set<nat>) {
    forall i, j :: 0 <= i < j < |changes| && changes[j].cursor in victims ==> changes[i].cursor in victims
  }

  lemma RisingStampsPrunePrefix(changes: seq<Change>, victims: set<nat>, now: nat)
    requires Ascending(changes) && CompactedPrefix(changes) && StampsRise(changes) && PruneBatch(changes, victims, now)
    ensures RemovesPrefix(changes, victims)
  {
    forall i, j | 0 <= i < j < |changes| && changes[j].cursor in victims ensures changes[i].cursor in victims {
      var c :| c in changes && c.cursor == changes[j].cursor && Expired(c, now);
      var k :| 0 <= k < |changes| && changes[k] == c;
      assert k == j;
      assert Sooner(changes[i], changes[j]);
      assert changes[i] in changes && changes[j] in changes;
    }
  }

  /** The row and every expired row that comes before it in the order of the cleanup. */
  function UpTo(changes: seq<Change>, last: Change): set<nat>
    requires last.stamp.Some?
  {
    set c | c in changes && Expired(c, last.stamp.value.cleanupAfter) && (c == last || Sooner(c, last)) :: c.cursor
  }

  lemma UpToIsABatch(changes: seq<Change>, last: Change)
    requires Ascending(changes) && last in changes && last.stamp.Some?
    ensures PruneBatch(changes, UpTo(changes, last), last.stamp.value.cleanupAfter)
      && last.cursor in UpTo(changes, last)
  {
    var now, victims := last.stamp.value.cleanupAfter, UpTo(changes, last);
    forall a, b | a in changes && b in changes && Expired(a, now) && Expired(b, now) && b.cursor in victims
      && Sooner(a, b)
      ensures a.cursor in victims
    {
      var c :| c in changes && Expired(c, now) && (c == last || Sooner(c, last)) && c.cursor == b.cursor;
      SameCursor(changes, b, c);
    }
  }

  lemma SameCursor(changes: seq<Change>, a: Change, b: Change)
    requires Ascending(changes) && a in changes && b in changes && a.cursor == b.cursor
    ensures a == b
  {
    var i :| 0 <= i < |changes| && changes[i] == a;
    var j :| 0 <= j < |changes| && changes[j] == b;
  }

  /** Every batch the cleanup may take, at whatever time, removes a prefix. */
  ghost predicate AlwaysPrunesPrefix(changes: seq<Change>) {
    forall now: nat, victims: set<nat> {:trigger PruneBatch(changes, victims, now)} ::
      PruneBatch(changes, victims, now) ==> RemovesPrefix(changes, victims)
  }

  /** Pruning is sure to remove a prefix exactly when the clean-up times are in log order. */
  lemma PruneRemovesPrefixIff(changes: seq<Change>)
    requires Ascending(changes) && CompactedPrefix(changes)
    ensures AlwaysPrunesPrefix(changes) <==> StampsRise(changes)
  {
    if StampsRise(changes) {
      forall now: nat, victims: set<nat> | PruneBatch(changes, victims, now) ensures RemovesPrefix(changes, victims) {
        RisingStampsPrunePrefix(changes, victims, now);
      }
    } else {
      var i, j :| 0 <= i < j < |changes| && changes[i].stamp.Some? && changes[j].stamp.Some?
        && changes[i].stamp.value.cleanupAfter > changes[j].stamp.value.cleanupAfter;
      UpToIsABatch(changes, changes[j]);
      LaterStampStays(changes, i, j);
    }
  }

  lemma LaterStampStays(changes: seq<Change>, i: nat, j: nat)
    requires Ascending(changes) && i < |changes| && j < |changes| && changes[i].stamp.Some? && changes[j].stamp.Some?
    requires changes[i].stamp.value.cleanupAfter > changes[j].stamp.value.cleanupAfter
    ensures changes[i].cursor !in UpTo(changes, changes[j])
  {
    forall c | c in changes && c.cursor == changes[i].cursor
      ensures c == changes[i]
    {
      SameCursor(changes, c, changes[i]);
    }
  }
}
