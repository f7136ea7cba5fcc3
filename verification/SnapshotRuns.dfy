/**
 * When racing uploads commit in time: on an active vault, an upload that commits after its
 * own insert, before its row is due for cleanup and without having been given up, is timely
 * (services/sync-worker/src/snapshots.ts, 303-372 and 513-604; services/sync-worker/src/cleanup.ts, 269-320).
 */
module SnapshotRuns {
  import opened Wrappers
  import opened Snapshots

  // ---- What requests and cleanup do by themselves ----

  function TimeOf(e: Event): Option<nat> {
    match e
    case Check(_) => None
    case Insert(_, now, _) => Some(now)
    case Commit(_, now, _) => Some(now)
    case Orphan(_, now) => Some(now)
    case ClaimRow(_, now) => Some(now)
    case DeleteRow(_, now) => Some(now)
    case SetActive(_) => None
  }

  predicate ClockRises(events: seq<Event>) {
    forall i, j :: 0 <= i < j < |events| && TimeOf(events[i]).Some? && TimeOf(events[j]).Some? ==>
      TimeOf(events[i]).value <= TimeOf(events[j]).value
  }

  predicate StaysActive(events: seq<Event>) {
    forall i :: 0 <= i < |events| && events[i].SetActive? ==> events[i].active
  }

  /** The event puts the upload's own row into the table. */
  predicate Stores(epoch: nat, events: seq<Event>, k: nat, e: Envelope)
    requires k < |events|
  {
    var before := Run(epoch, events[..k]);
    events[k].Insert? && events[k].upload < |before.uploads| && before.uploads[events[k].upload] == e
    && CanInsert(before.store, e)
  }

  predicate GivesUp(epoch: nat, events: seq<Event>, j: nat, id: SnapshotId)
    requires j < |events|
  {
    var before := Run(epoch, events[..j]);
    events[j].Orphan? && events[j].upload < |before.uploads| && before.uploads[events[j].upload].id == id
  }

  /** Stored at `k`, still within its lifetime at `now`, and not given up before event `n`. */
  predicate AliveSince(epoch: nat, events: seq<Event>, k: nat, n: nat, e: Envelope, now: nat)
    requires k < n <= |events|
  {
    Stores(epoch, events, k, e) && now < events[k].now + events[k].lifetime
    && forall j :: k < j < n ==> !GivesUp(epoch, events, j, e.id)
  }

  /** Every commit comes after the insert of its own upload, and within that row's lifetime. */
  predicate CommitsAreAlive(epoch: nat, events: seq<Event>) {
    forall n :: 0 <= n < |events| && events[n].Commit? && events[n].upload < |Run(epoch, events[..n]).uploads| ==>
      exists k :: 0 <= k < n
        && AliveSince(epoch, events, k, n, Run(epoch, events[..n]).uploads[events[n].upload], events[n].now)
  }

  predicate Orderly(epoch: nat, events: seq<Event>) {
    StaysActive(events) && ClockRises(events) && CommitsAreAlive(epoch, events)
  }

  // ---- What stays true over a run ----

  predicate Settled(w: World, epoch: nat) {
    w.store.vault.active && w.store.vault.epoch == epoch
    && forall e :: e in w.uploads ==> e.epoch == epoch && e.revision == e.base + 1
  }

  lemma {:induction false} VaultStaysSettled(epoch: nat, events: seq<Event>)
    requires StaysActive(events)
    ensures Settled(Run(epoch, events), epoch)
    decreases |events|
  {
    if events != [] { VaultStaysSettled(epoch, events[..|events| - 1]); }
  }

  /** The upload's row waits to be committed, or its revision has been reached already. */
  predicate RowWaits(s: Store, e: Envelope, due: nat) {
    s.vault.revision >= e.revision
    || (e.id in s.rows && s.rows[e.id] == Row(e, Temporary, Some(due)))
  }

  lemma CommitKeepsRow(s: Store, c: Envelope, now: nat, retained: nat, e: Envelope, due: nat)
    requires RowWaits(s, e, due) && OwnRow(s, c) && c.revision == c.base + 1
    ensures RowWaits(CommitBatch(s, c, now, retained), e, due)
  {}

  lemma StepKeepsRow(w: World, ev: Event, epoch: nat, e: Envelope, due: nat)
    requires Settled(w, epoch) && RowWaits(w.store, e, due)
    requires TimeOf(ev).Some? ==> TimeOf(ev).value < due
    requires ev.Orphan? && ev.upload < |w.uploads| ==> w.uploads[ev.upload].id != e.id
    ensures RowWaits(Step(w, ev).store, e, due)
  {
    if ev.Commit? && ev.upload < |w.uploads| && OwnRow(w.store, w.uploads[ev.upload]) {
      assert w.uploads[ev.upload] in w.uploads;
      CommitKeepsRow(w.store, w.uploads[ev.upload], ev.now, ev.retained, e, due);
    }
  }

  /** From its insert on, an upload's row waits. */
  lemma {:induction false} StoredRowWaits(epoch: nat, events: seq<Event>, k: nat, m: nat, n: nat, e: Envelope, now: nat)
    requires StaysActive(events) && ClockRises(events) && k < m <= n < |events|
    requires AliveSince(epoch, events, k, n, e, now) && TimeOf(events[n]) == Some(now)
    ensures RowWaits(Run(epoch, events[..m]).store, e, events[k].now + events[k].lifetime)
    decreases m
  {
    var due := events[k].now + events[k].lifetime;
    assert events[..m][..m - 1] == events[..m - 1];
    if m - 1 > k {
      StoredRowWaits(epoch, events, k, m - 1, n, e, now);
      VaultStaysSettled(epoch, events[..m - 1]);
      assert !GivesUp(epoch, events, m - 1, e.id);
      StepKeepsRow(Run(epoch, events[..m - 1]), events[m - 1], epoch, e, due);
    }
  }

  lemma AliveIsTimely(epoch: nat, events: seq<Event>, n: nat)
    requires Orderly(epoch, events) && n < |events| && events[n].Commit?
    requires events[n].upload < |Run(epoch, events[..n]).uploads|
    ensures Timely(Run(epoch, events[..n]).store, Run(epoch, events[..n]).uploads[events[n].upload])
  {
    var before := Run(epoch, events[..n]);
    var e := before.uploads[events[n].upload];
    var k :| 0 <= k < n && AliveSince(epoch, events, k, n, e, events[n].now);
    StoredRowWaits(epoch, events, k, n, n, e, events[n].now);
    VaultStaysSettled(epoch, events[..n]);
    assert e in before.uploads;
  }

  lemma {:induction false} OrderlyIsTimely(epoch: nat, events: seq<Event>, n: nat)
    requires Orderly(epoch, events) && n <= |events|
    ensures TimelyRun(epoch, events[..n])
    decreases n
  {
    if n > 0 {
      OrderlyIsTimely(epoch, events, n - 1);
      assert events[..n][..n - 1] == events[..n - 1];
      if events[n - 1].Commit? && events[n - 1].upload < |Run(epoch, events[..n - 1]).uploads| {
        AliveIsTimely(epoch, events, n - 1);
      }
    }
  }

  /**
   * Racing uploads on an active vault: as long as every commit follows the insert of its own
   * upload, within the lifetime of its row and before it is given up, at most one snapshot
   * is committed, the vault points at it, and the commits form one chain.
   */
  lemma OrderlyCommitsFormOneChain(epoch: nat, events: seq<Event>)
    requires Orderly(epoch, events)
    ensures
      var w := Run(epoch, events);
      OneCommitted(w.store) && Chained(w.history) && PointsAtLast(w.store, w.history)
  {
    OrderlyIsTimely(epoch, events, |events|);
    assert events[..|events|] == events;
    CommitsFormOneChain(epoch, events);
  }

  // ---- A commit that comes too late ----

  const LateUpload := Envelope(1, 1, 0, 0, None, 7)

  const LateRun := [Check(LateUpload), Insert(0, 0, 5), ClaimRow(1, 5), Commit(0, 6, 1)]

  lemma RunSnoc(epoch: nat, events: seq<Event>, e: Event)
    ensures Run(epoch, events + [e]) == Step(Run(epoch, events), e)
  {
    assert (events + [e])[..|events|] == events;
  }

  /** Cleanup claims the row before the commit: the vault then points at a snapshot that is not committed. */
  lemma LateCommitDangles()
    ensures
      var w := Run(0, LateRun);
      && w.store.vault.pointer == Some(1) && w.store.rows == map[1 := Row(LateUpload, Deleting, Some(5))]
      && !OneCommitted(w.store)
  {
    RunSnoc(0, [], LateRun[0]);
    RunSnoc(0, LateRun[..1], LateRun[1]);
    RunSnoc(0, LateRun[..2], LateRun[2]);
    RunSnoc(0, LateRun[..3], LateRun[3]);
    assert [] + [LateRun[0]] == LateRun[..1] && LateRun[..1] + [LateRun[1]] == LateRun[..2];
    assert LateRun[..2] + [LateRun[2]] == LateRun[..3] && LateRun[..3] + [LateRun[3]] == LateRun;
    assert Run(0, LateRun[..2]).store.rows == map[1 := Row(LateUpload, Temporary, Some(5))];
    assert Run(0, LateRun[..3]).store.rows == map[1 := Row(LateUpload, Deleting, Some(5))];
    assert Run(0, LateRun).store.rows == map[1 := Row(LateUpload, Deleting, Some(5))];
  }

  const FirstUpload := Envelope(1, 1, 0, 0, None, 7)
  const SecondUpload := Envelope(2, 2, 1, 0, Some(7), 8)

  const RefusedRun :=
    [Check(FirstUpload), Insert(0, 0, 5), Commit(0, 1, 1), Check(SecondUpload), Insert(1, 2, 5), SetActive(false),
      Commit(1, 3, 1)]

  const FirstLink := Link(1, 1, None, 7)

  const Committed1 := Store(Vault(true, 0, Some(1), 1), map[1 := Row(FirstUpload, Committed, None)])

  lemma FirstCommits()
    ensures Run(0, RefusedRun[..3]) == World(Committed1, [FirstUpload], [FirstLink])
  {
    var r := RefusedRun;
    RunSnoc(0, [], r[0]);
    RunSnoc(0, r[..1], r[1]);
    RunSnoc(0, r[..2], r[2]);
    assert [] + [r[0]] == r[..1] && r[..1] + [r[1]] == r[..2] && r[..2] + [r[2]] == r[..3];
    assert Run(0, r[..2]) ==
      World(Store(Vault(true, 0, None, 0), map[1 := Row(FirstUpload, Temporary, Some(5))]), [FirstUpload], []);
    assert Run(0, r[..3]).store.rows == Committed1.rows;
  }

  /** A commit refused because the vault is no longer active supersedes the current snapshot all the same. */
  lemma RefusedCommitSupersedes()
    ensures
      var w := Run(0, RefusedRun);
      && w.store.vault.pointer == Some(1) && 1 in w.store.rows && w.store.rows[1].state == Superseded
      && !OneCommitted(w.store)
  {
    var r := RefusedRun;
    FirstCommits();
    RunSnoc(0, r[..3], r[3]);
    RunSnoc(0, r[..4], r[4]);
    RunSnoc(0, r[..5], r[5]);
    RunSnoc(0, r[..6], r[6]);
    assert r[..3] + [r[3]] == r[..4] && r[..4] + [r[4]] == r[..5] && r[..5] + [r[5]] == r[..6] && r[..6] + [r[6]] == r;
    assert Run(0, r[..4]) == World(Committed1, [FirstUpload, SecondUpload], [FirstLink]);
  }
}
