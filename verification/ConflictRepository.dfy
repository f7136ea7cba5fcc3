/**
 * `SyncConflictRepository.resolveOperationGroup` (src/db/sync/conflict-repository.ts, 95-166): all conflicts
 * of one filed group are settled in one audited transaction, or nothing changes.
 */
module ConflictRepository {
  import opened Wrappers
  import opened SyncOperation
  import opened MutationAudit
  import opened RemoteApply
  import opened Resolutions

  datatype ResolveError = IncompleteOrResolved | InvalidData | NotAudited(error: AuditError)

  // ---- The conflicts of a group ----

  function IdsOf(conflicts: Conflicts, groupId: OpaqueId): set<OpaqueId> {
    set id | id in conflicts && conflicts[id].remote.groupId == groupId
  }

  predicate IsMember(c: Conflict, i: nat, size: nat) {
    c.resolution == Pending && c.remote.groupIndex == i && c.remote.groupSize == size
  }

  function Members(order: seq<OpaqueId>): set<OpaqueId> {
    set id | id in order
  }

  /** The pending conflicts of a whole group, in its order. */
  predicate IsOrder(conflicts: Conflicts, groupId: OpaqueId, order: seq<OpaqueId>) {
    && order != [] && Members(order) == IdsOf(conflicts, groupId)
    && forall i :: 0 <= i < |order| ==> order[i] in conflicts && IsMember(conflicts[order[i]], i, |order|)
  }

  function ConflictsAt(conflicts: Conflicts, order: seq<OpaqueId>): seq<Conflict>
    requires forall id :: id in order ==> id in conflicts
  {
    seq(|order|, i requires 0 <= i < |order| => conflicts[order[i]])
  }

  function Mark(selection: Selection): Resolution {
    if selection == KeepLocal then ResolvedLocal else ResolvedRemote
  }

  function MarkedAll(conflicts: Conflicts, ids: seq<OpaqueId>, selection: Selection): Conflicts {
    map id | id in conflicts ::
      if id in ids then conflicts[id].(resolution := Mark(selection)) else conflicts[id]
  }

  lemma {:induction false} DistinctCount(order: seq<OpaqueId>)
    requires forall i, j :: 0 <= i < j < |order| ==> order[i] != order[j]
    ensures |Members(order)| == |order|
    decreases |order|
  {
    if order == [] {
      assert Members(order) == {};
    } else {
      var n := |order| - 1;
      DistinctCount(order[..n]);
      assert order == order[..n] + [order[n]];
      assert order[n] !in order[..n];
      assert Members(order) == Members(order[..n]) + {order[n]};
    }
  }

  /** An order lists as many conflicts as there are. */
  lemma OrderCounts(conflicts: Conflicts, groupId: OpaqueId, order: seq<OpaqueId>)
    requires IsOrder(conflicts, groupId, order)
    ensures |IdsOf(conflicts, groupId)| == |order|
  {
    DistinctCount(order);
  }

  lemma OrderHasMember(conflicts: Conflicts, groupId: OpaqueId, order: seq<OpaqueId>, i: nat)
    requires i < |IdsOf(conflicts, groupId)| && IsOrder(conflicts, groupId, order)
    ensures exists id :: id in IdsOf(conflicts, groupId) && IsMember(conflicts[id], i, |IdsOf(conflicts, groupId)|)
  {
    OrderCounts(conflicts, groupId, order);
    assert order[i] in Members(order);
  }

  lemma FullOrder(conflicts: Conflicts, groupId: OpaqueId, order: seq<OpaqueId>)
    requires order != [] && |order| == |IdsOf(conflicts, groupId)|
    requires forall i :: 0 <= i < |order| ==>
      order[i] in IdsOf(conflicts, groupId) && IsMember(conflicts[order[i]], i, |order|)
    ensures IsOrder(conflicts, groupId, order)
  {
    var found := Members(order);
    DistinctCount(order);
    assert |found| == |order|;
    assert found <= IdsOf(conflicts, groupId);
    SubsetOfSameSize(found, IdsOf(conflicts, groupId));
  }

  lemma SubsetOfSameSize(a: set<OpaqueId>, b: set<OpaqueId>)
    requires a <= b && |a| == |b|
    ensures a == b
  {
    if a != b {
      var x :| x in b && x !in a;
      assert a <= b - {x};
      SizeOfSubset(a, b - {x});
    }
  }

  lemma {:induction false} SizeOfSubset(a: set<OpaqueId>, b: set<OpaqueId>)
    requires a <= b
    ensures |a| <= |b|
  {
    if a != {} {
      var x :| x in a;
      SizeOfSubset(a - {x}, b - {x});
    }
  }

  function RowOf(key: EntityKey, value: Option<Json>): Option<Row> {
    match value
    case None => None
    case Some(json) => Some(Row(key.entityId, json))
  }

  lemma MarkedAllNext(conflicts: Conflicts, order: seq<OpaqueId>, i: nat, selection: Selection)
    requires i < |order| && order[i] in conflicts
    ensures order[..i + 1] == order[..i] + [order[i]]
    ensures MarkedAll(conflicts, order[..i + 1], selection) ==
      MarkedAll(conflicts, order[..i], selection)[order[i] := conflicts[order[i]].(resolution := Mark(selection))]
  {
    assert forall id :: id in order[..i + 1] <==> id in order[..i] || id == order[i];
  }

  lemma ResolvingNext(t: Tables, cs: seq<Conflict>, selection: Selection, i: nat, draw: nat -> OpaqueId)
    requires i < |cs|
    ensures
      var now := ResolvedTables(t, cs[..i], selection);
      var intent := ResolvingIntent(now, cs[i], selection);
      && ResolvedTables(t, cs[..i + 1], selection) == Patch(now, intent)
      && PendingOf(t, cs[..i + 1], selection, draw)
         == PendingOf(t, cs[..i], selection, draw) + Queued(draw, i, [intent])
  {
    assert cs[..i + 1][..i] == cs[..i];
    QueuedJoin(draw, ResolvingIntents(t, cs[..i], selection),
      [ResolvingIntent(ResolvedTables(t, cs[..i], selection), cs[i], selection)]);
  }

  function PendingOf(t: Tables, cs: seq<Conflict>, selection: Selection, draw: nat -> OpaqueId): seq<PendingIntent> {
    Queued(draw, 0, ResolvingIntents(t, cs, selection))
  }

  lemma QueuedJoin(draw: nat -> OpaqueId, first: seq<Intent>, second: seq<Intent>)
    ensures Queued(draw, 0, first + second) == Queued(draw, 0, first) + Queued(draw, |first|, second)
  {}

  /** A conflict is still as it was until its turn. */
  lemma StillPending(conflicts: Conflicts, groupId: OpaqueId, order: seq<OpaqueId>, i: nat, selection: Selection)
    requires IsOrder(conflicts, groupId, order) && i < |order|
    ensures MarkedAll(conflicts, order[..i], selection)[order[i]] == ConflictsAt(conflicts, order)[i]
  {
    forall j | 0 <= j < i ensures order[j] != order[i] {
      assert conflicts[order[j]].remote.groupIndex == j && conflicts[order[i]].remote.groupIndex == i;
    }
  }

  /** What is there after the first `n` conflicts of the group. */
  ghost predicate SettledUpTo(t: Tables, conflicts: Conflicts, order: seq<OpaqueId>, selection: Selection,
                              draw: nat -> OpaqueId, n: nat, now: Tables, marked: Conflicts,
                              pending: seq<PendingIntent>)
    requires n <= |order| && forall id :: id in order ==> id in conflicts
  {
    var cs := ConflictsAt(conflicts, order);
    && now == ResolvedTables(t, cs[..n], selection)
    && marked == MarkedAll(conflicts, order[..n], selection)
    && pending == PendingOf(t, cs[..n], selection, draw)
  }

  lemma OneMoreIsSettled(t: Tables, conflicts: Conflicts, groupId: OpaqueId, order: seq<OpaqueId>,
                         selection: Selection, draw: nat -> OpaqueId, i: nat, now: Tables, marked: Conflicts,
                         pending: seq<PendingIntent>)
    requires IsOrder(conflicts, groupId, order) && i < |order|
    requires SettledUpTo(t, conflicts, order, selection, draw, i, now, marked, pending)
    ensures order[i] in marked
    ensures
      var c := marked[order[i]];
      SettledUpTo(t, conflicts, order, selection, draw, i + 1, Patch(now, ResolvingIntent(now, c, selection)),
        marked[order[i] := c.(resolution := Mark(selection))],
        pending + Queued(draw, i, [ResolvingIntent(now, c, selection)]))
  {
    StillPending(conflicts, groupId, order, i, selection);
    MarkedAllNext(conflicts, order, i, selection);
    ResolvingNext(t, ConflictsAt(conflicts, order), selection, i, draw);
  }

  class SyncConflictRepository {
    const valid: FinanceRules
    var tables: Tables
    var conflicts: Conflicts
    var outbox: seq<OutboxRecord>

    constructor (valid: FinanceRules, tables: Tables, conflicts: Conflicts, outbox: seq<OutboxRecord>)
      ensures this.valid == valid && this.tables == tables && this.conflicts == conflicts && this.outbox == outbox
    {
      this.valid, this.tables, this.conflicts, this.outbox := valid, tables, conflicts, outbox;
    }

    /** The group's conflicts in order, if all of them are there and pending. */
    method GroupInOrder(groupId: OpaqueId) returns (order: Option<seq<OpaqueId>>)
      ensures order.Some? ==> IsOrder(conflicts, groupId, order.value)
      ensures order.None? ==> forall any :: !IsOrder(conflicts, groupId, any)
    {
      var ids := IdsOf(conflicts, groupId);
      if ids == {} {
        forall any | IsOrder(conflicts, groupId, any) ensures false { OrderCounts(conflicts, groupId, any); }
        return None;
      }
      var found: seq<OpaqueId> := [];
      for i := 0 to |ids|
        invariant |found| == i
        invariant forall j :: 0 <= j < i ==> found[j] in ids && IsMember(conflicts[found[j]], j, |ids|)
      {
        if forall id :: id in ids ==> !IsMember(conflicts[id], i, |ids|) {
          forall any | IsOrder(conflicts, groupId, any) ensures false { OrderHasMember(conflicts, groupId, any, i); }
          return None;
        }
        var id :| id in ids && IsMember(conflicts[id], i, |ids|);
        found := found + [id];
      }
      FullOrder(conflicts, groupId, found);
      order := Some(found);
    }

    /** One conflict: the entity's value is written, and `audit.resolve` names both sides. */
    method SettleOne(audit: SyncMutationAudit, c: Conflict, selection: Selection)
      requires audit.active
      modifies this`tables, audit`pending, audit`drawn
      ensures tables == Patch(old(tables), ResolvingIntent(old(tables), c, selection))
      ensures audit.drawn == old(audit.drawn) + 1
      ensures audit.pending == old(audit.pending)
        + Queued(audit.draw, old(audit.drawn), [ResolvingIntent(old(tables), c, selection)])
    {
      var current := Get(tables, c.key);
      var desired := if selection == KeepLocal then current else c.remote.command.value;
      if desired.Some? { tables := tables[c.key := desired.value]; } else { tables := tables - {c.key}; }
      var recorded := audit.Resolve(c.key, RowOf(c.key, current), RowOf(c.key, desired), SidesOf(c));
    }

    /** The conflicts of the group one after another. */
    method SettleAll(audit: SyncMutationAudit, groupId: OpaqueId, order: seq<OpaqueId>, selection: Selection)
      requires audit.active && audit.pending == [] && audit.drawn == 0 && IsOrder(conflicts, groupId, order)
      modifies this`tables, this`conflicts, audit`pending, audit`drawn
      ensures
        var cs := ConflictsAt(old(conflicts), order);
        && tables == ResolvedTables(old(tables), cs, selection)
        && conflicts == MarkedAll(old(conflicts), order, selection)
        && audit.pending == PendingOf(old(tables), cs, selection, audit.draw)
    {
      ghost var cs := ConflictsAt(conflicts, order);
      for i := 0 to |order|
        invariant audit.drawn == i
        invariant SettledUpTo(old(tables), old(conflicts), order, selection, audit.draw, i, tables, conflicts,
          audit.pending)
      {
        OneMoreIsSettled(old(tables), old(conflicts), groupId, order, selection, audit.draw, i, tables, conflicts,
          audit.pending);
        var c := conflicts[order[i]];
        SettleOne(audit, c, selection);
        conflicts := conflicts[order[i] := c.(resolution := Mark(selection))];
      }
      assert cs[..|cs|] == cs && order[..|order|] == order;
    }

    /**
     * Settles every conflict of the group the same way and leaves the resolving intents in the outbox, or
     * fails and changes nothing.
     */
    method ResolveOperationGroup(groupId: OpaqueId, selection: Selection, auditGroup: OpaqueId,
                                 draw: nat -> OpaqueId, at: nat)
      returns (error: Option<ResolveError>, ghost order: seq<OpaqueId>)
      modifies this`tables, this`conflicts, this`outbox
      ensures error.Some? ==> tables == old(tables) && conflicts == old(conflicts) && outbox == old(outbox)
      ensures error == Some(IncompleteOrResolved) <==> forall any :: !IsOrder(old(conflicts), groupId, any)
      ensures error != Some(IncompleteOrResolved) ==> IsOrder(old(conflicts), groupId, order)
      ensures error.None? ==>
        var cs := ConflictsAt(old(conflicts), order);
        && tables == ResolvedTables(old(tables), cs, selection) && valid(tables)
        && conflicts == MarkedAll(old(conflicts), order, selection) && |cs| <= MAX_GROUP_SIZE
        && outbox == old(outbox) + ResolvingGroup(old(tables), cs, selection, auditGroup, at, draw)
    {
      var found := GroupInOrder(groupId);
      if found.None? { return Some(IncompleteOrResolved), []; }
      order := found.value;
      var before := (tables, conflicts);
      var audit := new SyncMutationAudit(true, auditGroup, draw);
      SettleAll(audit, groupId, found.value, selection);
      if !valid(tables) {
        tables, conflicts := before.0, before.1;
        return Some(InvalidData), order;
      }
      var written := audit.Finalize(outbox, at);
      if written.Err? {
        tables, conflicts := before.0, before.1;
        return Some(NotAudited(written.error)), order;
      }
      outbox := written.value;
      error := None;
    }
  }
}
