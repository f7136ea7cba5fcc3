/**
 * A vault's snapshot chain (services/sync-worker/src/snapshots.ts, 187-212, 303-372 and
 * 513-604; services/sync-worker/src/cleanup.ts, 269-320): uploads race to swap the vault's
 * pointer, and cleanup claims rows before it deletes them.
 */
module Snapshots {
  import opened Wrappers

  type SnapshotId = nat
  type Hash = nat

  datatype RowState = Temporary | Committed | Orphaned | Superseded | Deleting

  datatype Envelope = Envelope(
    id: SnapshotId, revision: nat, base: nat, epoch: nat, previousHash: Option<Hash>, hash: Hash)

  datatype Row = Row(envelope: Envelope, state: RowState, cleanupAfter: Option<nat>)

  datatype Vault = Vault(active: bool, epoch: nat, pointer: Option<SnapshotId>, revision: nat)

  datatype Store = Store(vault: Vault, rows: map<SnapshotId, Row>)

  const SNAPSHOT_RETENTION := 24 * 60 * 60 * 1000

  // ---- The context check ----

  datatype ContextError = StateUnavailable | RevisionConflict

  /** The hash of the snapshot the vault points at. */
  function CurrentHash(s: Store): Option<Hash> {
    if s.vault.pointer.Some? && s.vault.pointer.value in s.rows
    then Some(s.rows[s.vault.pointer.value].envelope.hash) else None
  }

  /** `assertCurrentSnapshotContext`, without the device and manifest fields. */
  function CheckContext(s: Store, e: Envelope): Option<ContextError> {
    if s.vault.revision != 0 && CurrentHash(s).None? then Some(StateUnavailable)
    else if e.epoch != s.vault.epoch || e.base != s.vault.revision || e.revision != s.vault.revision + 1
            || e.previousHash != (if s.vault.revision == 0 then None else CurrentHash(s)) then Some(RevisionConflict)
    else None
  }

  // ---- Rows ----

  /** The row's identity and its (epoch, revision) are unique. */
  predicate CanInsert(s: Store, e: Envelope) {
    e.id !in s.rows
    && forall id :: id in s.rows ==>
         s.rows[id].envelope.epoch != e.epoch || s.rows[id].envelope.revision != e.revision
  }

  function InsertTemporary(s: Store, e: Envelope, now: nat, lifetime: nat): Store {
    if CanInsert(s, e) then s.(rows := s.rows[e.id := Row(e, Temporary, Some(now + lifetime))]) else s
  }

  function MarkOrphan(s: Store, id: SnapshotId, now: nat): Store {
    if id in s.rows && s.rows[id].state == Temporary
    then s.(rows := s.rows[id := s.rows[id].(state := Orphaned, cleanupAfter := Some(now))]) else s
  }

  predicate Due(row: Row, now: nat) {
    row.state != Committed && row.cleanupAfter.Some? && row.cleanupAfter.value <= now
  }

  function Claim(s: Store, id: SnapshotId, now: nat): Store {
    if id in s.rows && Due(s.rows[id], now) then s.(rows := s.rows[id := s.rows[id].(state := Deleting)]) else s
  }

  function DeleteClaimed(s: Store, id: SnapshotId, now: nat): Store {
    if id in s.rows && s.rows[id].state == Deleting && Due(s.rows[id], now) then s.(rows := s.rows - {id}) else s
  }

  // ---- The commit batch ----

  /** Statement 1 matches the vault. */
  predicate Swaps(s: Store, e: Envelope) {
    s.vault.active && s.vault.epoch == e.epoch && s.vault.revision == e.base
  }

  function AfterSwap(s: Store, e: Envelope): Store {
    if Swaps(s, e) then s.(vault := s.vault.(pointer := Some(e.id), revision := e.revision)) else s
  }

  /** Statement 2 matches the row. */
  predicate Promotes(s: Store, e: Envelope) {
    e.id in s.rows && s.rows[e.id].state == Temporary
    && s.vault.pointer == Some(e.id) && s.vault.revision == s.rows[e.id].envelope.revision
  }

  function AfterPromotion(s: Store, e: Envelope): Store {
    if Promotes(s, e) then s.(rows := s.rows[e.id := s.rows[e.id].(state := Committed, cleanupAfter := None)]) else s
  }

  /** Statement 3 asks only for the base revision, not whether the swap took place. */
  predicate Supersedes(row: Row, e: Envelope) {
    e.base > 0 && row.envelope.id != e.id && row.envelope.revision == e.base && row.state == Committed
  }

  function SupersededRow(row: Row, e: Envelope, now: nat): Row {
    if Supersedes(row, e) then row.(state := Superseded, cleanupAfter := Some(now + SNAPSHOT_RETENTION)) else row
  }

  /** Statement 4 shortens the retention of old superseded rows. */
  function RetainedRow(row: Row, e: Envelope, now: nat, retained: nat): Row {
    if row.state == Superseded && row.envelope.revision <= e.revision - retained
       && row.cleanupAfter.Some? && row.cleanupAfter.value > now then row.(cleanupAfter := Some(now)) else row
  }

  /** The trigger refuses to commit a row of another epoch than the vault's, and so rolls back the batch. */
  predicate TriggerAborts(s: Store, e: Envelope) {
    Promotes(AfterSwap(s, e), e) && s.rows[e.id].envelope.epoch != s.vault.epoch
  }

  function CommitBatch(s: Store, e: Envelope, now: nat, retained: nat): Store {
    if TriggerAborts(s, e) then s
    else
      var promoted := AfterPromotion(AfterSwap(s, e), e);
      promoted.(rows := map id | id in promoted.rows ::
        RetainedRow(SupersededRow(promoted.rows[id], e, now), e, now, retained))
  }

  // ---- The chain ----

  datatype Link = Link(id: SnapshotId, revision: nat, previousHash: Option<Hash>, hash: Hash)

  function LinkOf(e: Envelope): Link { Link(e.id, e.revision, e.previousHash, e.hash) }

  /** Revisions 1, 2, …, each carrying the hash of the one before. */
  predicate Chained(history: seq<Link>) {
    forall i :: 0 <= i < |history| ==> history[i].revision == i + 1 && history[i].previousHash == HashBefore(history, i)
  }

  function HashBefore(history: seq<Link>, i: nat): Option<Hash>
    requires i <= |history|
  {
    if i == 0 then None else Some(history[i - 1].hash)
  }

  predicate RowsKeyed(s: Store) {
    forall id :: id in s.rows ==> s.rows[id].envelope.id == id
  }

  /** At most one row is committed, and it is the one the vault points at. */
  predicate OneCommitted(s: Store) {
    && (forall id :: id in s.rows && s.rows[id].state == Committed ==>
         s.vault.pointer == Some(id) && s.rows[id].envelope.revision == s.vault.revision)
    && (s.vault.revision > 0 ==>
         && s.vault.pointer.Some? && s.vault.pointer.value in s.rows
         && s.rows[s.vault.pointer.value].state == Committed)
    && (s.vault.revision == 0 ==> s.vault.pointer.None?)
  }

  /** The vault points at the last commit. */
  predicate PointsAtLast(s: Store, history: seq<Link>) {
    s.vault.revision == |history|
    && (history != [] ==>
          s.vault.pointer == Some(history[|history| - 1].id) && s.vault.pointer.value in s.rows
          && LinkOf(s.rows[s.vault.pointer.value].envelope) == history[|history| - 1])
  }

  predicate Sound(s: Store, history: seq<Link>) {
    RowsKeyed(s) && OneCommitted(s) && Chained(history) && PointsAtLast(s, history)
  }

  /** The upload passed the context check at some earlier moment of this chain. */
  predicate CheckedUpload(e: Envelope, history: seq<Link>) {
    e.revision == e.base + 1 && e.base <= |history|
    && e.previousHash == HashBefore(history, e.base)
  }

  function HistoryAfter(s: Store, e: Envelope, history: seq<Link>): seq<Link> {
    if Swaps(s, e) && !TriggerAborts(s, e) then history + [LinkOf(e)] else history
  }

  lemma ContextMeansChecked(s: Store, e: Envelope, history: seq<Link>)
    requires Sound(s, history) && CheckContext(s, e).None?
    ensures CheckedUpload(e, history)
  {}

  /** The commit row still belongs to this upload. */
  predicate OwnRow(s: Store, e: Envelope) {
    e.id in s.rows ==> s.rows[e.id].envelope == e
  }

  /**
   * What has to hold when the batch runs: a swap finds its row still temporary, and a batch
   * whose swap fails does not name the current revision as its base.
   */
  predicate Timely(s: Store, e: Envelope) {
    if Swaps(s, e) then e.id in s.rows && s.rows[e.id].state == Temporary
    else e.base == 0 || s.vault.revision != e.base
  }

  lemma CommittedIsPointed(s: Store, id: SnapshotId)
    requires OneCommitted(s) && RowsKeyed(s) && id in s.rows && s.rows[id].state == Committed
    ensures s.vault.pointer == Some(id) && s.rows[id].envelope.revision == s.vault.revision && s.vault.revision > 0
  {}

  lemma ChainExtends(history: seq<Link>, e: Envelope)
    requires Chained(history) && CheckedUpload(e, history) && e.base == |history|
    ensures Chained(history + [LinkOf(e)])
  {
    var longer := history + [LinkOf(e)];
    forall i | 0 <= i < |longer|
      ensures longer[i].revision == i + 1 && longer[i].previousHash == HashBefore(longer, i)
    {
      assert HashBefore(longer, i) == HashBefore(history, i);
      if i < |history| { assert longer[i] == history[i]; } else { assert longer[i] == LinkOf(e); }
    }
  }

  lemma SwapCommits(s: Store, e: Envelope, now: nat, retained: nat, history: seq<Link>)
    requires Sound(s, history) && OwnRow(s, e) && CheckedUpload(e, history) && Swaps(s, e) && Timely(s, e)
    ensures Sound(CommitBatch(s, e, now, retained), history + [LinkOf(e)])
    ensures HistoryAfter(s, e, history) == history + [LinkOf(e)]
  {
    var after, longer := CommitBatch(s, e, now, retained), history + [LinkOf(e)];
    assert Promotes(AfterSwap(s, e), e) && !TriggerAborts(s, e);
    forall id | id in s.rows && id != e.id ensures after.rows[id].state != Committed {
      if s.rows[id].state == Committed { CommittedIsPointed(s, id); }
    }
    ChainExtends(history, e);
  }

  lemma FailedSwapChangesNoCommit(s: Store, e: Envelope, now: nat, retained: nat, history: seq<Link>)
    requires Sound(s, history) && OwnRow(s, e) && !Swaps(s, e) && Timely(s, e)
    ensures Sound(CommitBatch(s, e, now, retained), history)
  {
    var after := CommitBatch(s, e, now, retained);
    if !TriggerAborts(s, e) {
      assert !Promotes(s, e);
      forall id | id in s.rows ensures after.rows[id].envelope == s.rows[id].envelope
        && (after.rows[id].state == Committed <==> s.rows[id].state == Committed)
      {
        if s.rows[id].state == Committed { CommittedIsPointed(s, id); }
      }
    }
  }

  /** A timely commit extends the chain by one, or leaves it alone. */
  lemma TimelyCommitKeepsChain(s: Store, e: Envelope, now: nat, retained: nat, history: seq<Link>)
    requires Sound(s, history) && OwnRow(s, e) && CheckedUpload(e, history) && Timely(s, e)
    ensures Sound(CommitBatch(s, e, now, retained), HistoryAfter(s, e, history))
  {
    if Swaps(s, e) { SwapCommits(s, e, now, retained, history); }
    else { FailedSwapChangesNoCommit(s, e, now, retained, history); }
  }

  /**
   * The exact condition: a commit batch leaves one committed, pointed-at snapshot if and
   * only if it is timely. A swap whose row was claimed or orphaned meanwhile leaves the
   * vault pointing at nothing, and a batch refused for status or epoch supersedes the
   * current snapshot all the same.
   */
  lemma CommitKeepsOneCommittedIff(s: Store, e: Envelope, now: nat, retained: nat, history: seq<Link>)
    requires Sound(s, history) && OwnRow(s, e) && CheckedUpload(e, history)
    ensures OneCommitted(CommitBatch(s, e, now, retained)) <==> Timely(s, e)
  {
    var after := CommitBatch(s, e, now, retained);
    if Timely(s, e) {
      TimelyCommitKeepsChain(s, e, now, retained, history);
    } else if Swaps(s, e) {
      assert !Promotes(AfterSwap(s, e), e);
      if e.id in s.rows && s.rows[e.id].state == Committed { CommittedIsPointed(s, e.id); }
      assert after.vault.pointer == Some(e.id) && after.vault.revision > 0;
      assert e.id in after.rows ==> after.rows[e.id].state != Committed;
    } else {
      var current := s.vault.pointer.value;
      assert s.rows[current].state == Committed && s.rows[current].envelope.revision == e.base;
      assert e.revision != e.base && (e.id in s.rows ==> s.rows[e.id].envelope.revision == e.revision);
      assert current != e.id && Supersedes(s.rows[current], e);
    }
  }

  // ---- Runs ----

  datatype Event =
    | Check(envelope: Envelope)
    | Insert(upload: nat, now: nat, lifetime: nat)
    | Commit(upload: nat, now: nat, retained: nat)
    | Orphan(upload: nat, now: nat)
    | ClaimRow(id: SnapshotId, now: nat)
    | DeleteRow(id: SnapshotId, now: nat)
    | SetActive(active: bool)

  /** The store, the uploads that passed their check, and the commits so far. */
  datatype World = World(store: Store, uploads: seq<Envelope>, history: seq<Link>)

  function Step(w: World, e: Event): World {
    match e
    case Check(envelope) =>
      if CheckContext(w.store, envelope).None? then w.(uploads := w.uploads + [envelope]) else w
    case Insert(i, now, lifetime) =>
      if i < |w.uploads| then w.(store := InsertTemporary(w.store, w.uploads[i], now, lifetime)) else w
    case Commit(i, now, retained) =>
      if i < |w.uploads| && OwnRow(w.store, w.uploads[i])
      then w.(store := CommitBatch(w.store, w.uploads[i], now, retained),
              history := HistoryAfter(w.store, w.uploads[i], w.history))
      else w
    case Orphan(i, now) =>
      if i < |w.uploads| then w.(store := MarkOrphan(w.store, w.uploads[i].id, now)) else w
    case ClaimRow(id, now) => w.(store := Claim(w.store, id, now))
    case DeleteRow(id, now) => w.(store := DeleteClaimed(w.store, id, now))
    case SetActive(active) => w.(store := w.store.(vault := w.store.vault.(active := active)))
  }

  function Run(epoch: nat, events: seq<Event>): World {
    if events == [] then World(Store(Vault(true, epoch, None, 0), map[]), [], [])
    else Step(Run(epoch, events[..|events| - 1]), events[|events| - 1])
  }

  /** Every commit batch is timely. */
  predicate TimelyRun(epoch: nat, events: seq<Event>) {
    events == []
    || (TimelyRun(epoch, events[..|events| - 1])
        && var before := Run(epoch, events[..|events| - 1]);
           match events[|events| - 1]
           case Commit(i, _, _) => i < |before.uploads| ==> Timely(before.store, before.uploads[i])
           case _ => true)
  }

  predicate Coherent(w: World) {
    Sound(w.store, w.history) && forall e :: e in w.uploads ==> CheckedUpload(e, w.history)
  }

  lemma ChecksOutlive(uploads: seq<Envelope>, history: seq<Link>, link: Link)
    requires forall e :: e in uploads ==> CheckedUpload(e, history)
    ensures forall e :: e in uploads ==> CheckedUpload(e, history + [link])
  {
    forall e | e in uploads ensures CheckedUpload(e, history + [link]) {
      assert HashBefore(history + [link], e.base) == HashBefore(history, e.base);
    }
  }

  lemma CommitKeepsCoherent(w: World, i: nat, now: nat, retained: nat)
    requires Coherent(w) && i < |w.uploads| && Timely(w.store, w.uploads[i]) && OwnRow(w.store, w.uploads[i])
    ensures Coherent(Step(w, Commit(i, now, retained)))
  {
    assert w.uploads[i] in w.uploads;
    TimelyCommitKeepsChain(w.store, w.uploads[i], now, retained, w.history);
    ChecksOutlive(w.uploads, w.history, LinkOf(w.uploads[i]));
  }

  lemma CheckKeepsCoherent(w: World, envelope: Envelope)
    requires Coherent(w) && CheckContext(w.store, envelope).None?
    ensures Coherent(Step(w, Check(envelope)))
  {
    ContextMeansChecked(w.store, envelope, w.history);
  }

  /** Inserting, orphaning, claiming and deleting touch no committed row and not the pointer. */
  lemma OtherStepKeepsSound(w: World, e: Event)
    requires Coherent(w) && !e.Check? && !e.Commit?
    ensures Sound(Step(w, e).store, w.history)
  {}

  lemma StepKeepsCoherent(w: World, e: Event)
    requires Coherent(w)
    requires e.Commit? && e.upload < |w.uploads| ==> Timely(w.store, w.uploads[e.upload])
    ensures Coherent(Step(w, e))
  {
    match e {
      case Check(envelope) =>
        if CheckContext(w.store, envelope).None? { CheckKeepsCoherent(w, envelope); }
      case Commit(i, now, retained) =>
        if i < |w.uploads| && OwnRow(w.store, w.uploads[i]) { CommitKeepsCoherent(w, i, now, retained); }
      case _ => OtherStepKeepsSound(w, e);
    }
  }

  /**
   * Racing uploads: whatever interleaves, as long as every commit is timely, at most one
   * snapshot is committed, the vault points at it, and the commits form one chain of
   * consecutive revisions, each carrying its predecessor's hash.
   */
  lemma {:induction false} CommitsFormOneChain(epoch: nat, events: seq<Event>)
    requires TimelyRun(epoch, events)
    ensures
      var w := Run(epoch, events);
      OneCommitted(w.store) && Chained(w.history) && PointsAtLast(w.store, w.history) && Coherent(w)
    decreases |events|
  {
    if events != [] {
      var n := |events| - 1;
      CommitsFormOneChain(epoch, events[..n]);
      StepKeepsCoherent(Run(epoch, events[..n]), events[n]);
    }
  }

  // ---- The statements, one after another ----

  datatype CommitOutcome = CommitDone | CommitRetried | CommitConflict | CommitUnavailable

  class SnapshotStore {
    const retained: nat
    const lifetime: nat
    var vault: Vault
    var rows: map<SnapshotId, Row>

    constructor (epoch: nat, retained: nat, lifetime: nat)
      ensures View() == Store(Vault(true, epoch, None, 0), map[])
      ensures this.retained == retained && this.lifetime == lifetime
    {
      this.retained, this.lifetime := retained, lifetime;
      vault, rows := Vault(true, epoch, None, 0), map[];
    }

    function View(): Store
      reads this
    {
      Store(vault, rows)
    }

    method InsertTemporarySnapshot(e: Envelope, now: nat) returns (inserted: bool)
      modifies this`rows
      ensures inserted == CanInsert(old(View()), e)
      ensures View() == InsertTemporary(old(View()), e, now, lifetime)
    {
      if e.id in rows { return false; }
      if exists id :: id in rows && rows[id].envelope.epoch == e.epoch && rows[id].envelope.revision == e.revision {
        return false;
      }
      rows := rows[e.id := Row(e, Temporary, Some(now + lifetime))];
      inserted := true;
    }

    /** The last two statements of the batch. */
    method RetireStatements(e: Envelope, now: nat)
      modifies this`rows
      ensures rows == map id | id in old(rows) :: RetainedRow(SupersededRow(old(rows)[id], e, now), e, now, retained)
    {
      if e.base > 0 {
        rows := map id | id in rows :: SupersededRow(rows[id], e, now);
      }
      rows := map id | id in rows :: RetainedRow(rows[id], e, now, retained);
    }

    /** The batch; `swapped` and `promoted` say which of the first two statements matched a row. */
    method CommitStatements(e: Envelope, now: nat) returns (aborted: bool, swapped: bool, promoted: bool)
      modifies this`vault, this`rows
      ensures View() == CommitBatch(old(View()), e, now, retained)
      ensures aborted == TriggerAborts(old(View()), e) && swapped == Swaps(old(View()), e)
      ensures promoted == Promotes(AfterSwap(old(View()), e), e)
    {
      var before := vault;
      aborted, swapped, promoted := false, false, false;
      if vault.active && vault.epoch == e.epoch && vault.revision == e.base {
        vault := vault.(pointer := Some(e.id), revision := e.revision);
        swapped := true;
      }
      if e.id in rows && rows[e.id].state == Temporary && vault.pointer == Some(e.id)
         && vault.revision == rows[e.id].envelope.revision {
        promoted := true;
        if vault.epoch != rows[e.id].envelope.epoch {
          vault := before;
          aborted := true;
          return;
        }
        rows := rows[e.id := rows[e.id].(state := Committed, cleanupAfter := None)];
      }
      assert View() == AfterPromotion(AfterSwap(old(View()), e), e);
      RetireStatements(e, now);
    }

    /** A batch that matched too little is a conflict, unless another request committed this very snapshot. */
    method CommitSnapshot(e: Envelope, now: nat) returns (outcome: CommitOutcome)
      modifies this`vault, this`rows
      ensures outcome == CommitDone <==>
        Swaps(old(View()), e) && Promotes(AfterSwap(old(View()), e), e) && !TriggerAborts(old(View()), e)
      ensures outcome != CommitConflict ==> View() == CommitBatch(old(View()), e, now, retained)
      ensures outcome == CommitConflict ==>
        View() == MarkOrphan(CommitBatch(old(View()), e, now, retained), e.id, now)
    {
      var aborted, swapped, promoted := CommitStatements(e, now);
      if !aborted && swapped && promoted { return CommitDone; }
      if e.id in rows && rows[e.id].state == Committed { return CommitRetried; }
      if aborted { return CommitUnavailable; }
      if e.id in rows && rows[e.id].state == Temporary {
        rows := rows[e.id := rows[e.id].(state := Orphaned, cleanupAfter := Some(now))];
      }
      outcome := CommitConflict;
    }

    /** Claims the candidates that are still due, and deletes what it claimed; a committed row is never touched. */
    method CleanupSnapshots(candidates: seq<SnapshotId>, now: nat)
      modifies this`rows
      ensures forall id :: id in rows <==> id in old(rows) && !(id in candidates && Due(old(rows)[id], now))
      ensures forall id :: id in rows ==> rows[id] == old(rows)[id]
    {
      var claimed: seq<SnapshotId> := [];
      for i := 0 to |candidates|
        invariant rows.Keys == old(rows).Keys
        invariant forall id :: id in claimed <==> id in candidates[..i] && id in old(rows) && Due(old(rows)[id], now)
        invariant forall id :: id in rows ==>
          rows[id] == if id in claimed then old(rows)[id].(state := Deleting) else old(rows)[id]
      {
        var id := candidates[i];
        if id in rows && Due(rows[id], now) {
          rows := rows[id := rows[id].(state := Deleting)];
          claimed := claimed + [id];
        }
      }
      for i := 0 to |claimed|
        invariant forall id :: id in rows <==> id in old(rows) && id !in claimed[..i]
        invariant forall id :: id in rows ==>
          rows[id] == if id in claimed then old(rows)[id].(state := Deleting) else old(rows)[id]
      {
        var id := claimed[i];
        assert id in claimed;
        if id in rows && rows[id].state == Deleting && Due(rows[id], now) { rows := rows - {id}; }
      }
      assert candidates[..|candidates|] == candidates && claimed[..|claimed|] == claimed;
    }
  }
}
