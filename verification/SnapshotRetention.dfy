/**
 * How long a superseded snapshot stays available (services/sync-worker/src/snapshots.ts, 541-571;
 * services/sync-worker/src/cleanup.ts, 269-320): for its retention time while it is among the newest
 * revisions, and no longer than cleanup takes once it is not.
 */
module SnapshotRetention {
  import opened Wrappers
  import opened Snapshots
  import opened SnapshotRuns

  /** Every commit batch works with the same limit of retained snapshots. */
  predicate Retains(events: seq<Event>, retained: nat) {
    forall j :: 0 <= j < |events| && events[j].Commit? ==> events[j].retained == retained
  }

  predicate IsCleanup(e: Event) { e.ClaimRow? || e.DeleteRow? }

  /** No cleanup request runs at or after `due`. */
  predicate NotCleanedFrom(e: Event, due: nat) {
    IsCleanup(e) ==> e.now < due
  }

  /** The event at `n` commits the revision after the one at index `i` of the history. */
  predicate ReplacedAt(epoch: nat, events: seq<Event>, n: nat, i: nat)
    requires n < |events|
  {
    && events[n].Commit?
    && |Run(epoch, events[..n]).history| == i + 1
    && |Step(Run(epoch, events[..n]), events[n]).history| == i + 2
  }

  // ---- One step ----

  /** The replaced snapshot's row, due a retention time after the moment it was replaced. */
  predicate KeptFrom(s: Store, link: Link, replaced: nat) {
    && link.id in s.rows && LinkOf(s.rows[link.id].envelope) == link
    && s.rows[link.id].state == Superseded
    && s.rows[link.id].cleanupAfter == Some(replaced + SNAPSHOT_RETENTION)
  }

  lemma BatchReplaces(s: Store, e: Envelope, now: nat, retained: nat, link: Link)
    requires Swaps(s, e) && !TriggerAborts(s, e) && e.revision == e.base + 1 && e.base == link.revision > 0
    requires link.id in s.rows && link.id != e.id && s.rows[link.id].state == Committed && retained >= 2
    requires LinkOf(s.rows[link.id].envelope) == link
    ensures KeptFrom(CommitBatch(s, e, now, retained), link, now)
  {
    assert Supersedes(s.rows[link.id], e);
  }

  lemma SwapReplaces(w: World, e: Event)
    requires Coherent(w) && w.history != [] && e.Commit? && e.upload < |w.uploads| && e.retained >= 2
    requires Timely(w.store, w.uploads[e.upload]) && |Step(w, e).history| == |w.history| + 1
    ensures KeptFrom(Step(w, e).store, w.history[|w.history| - 1], e.now)
  {
    var upload := w.uploads[e.upload];
    assert upload in w.uploads && CheckedUpload(upload, w.history);
    assert Swaps(w.store, upload) && !TriggerAborts(w.store, upload);
    BatchReplaces(w.store, upload, e.now, e.retained, w.history[|w.history| - 1]);
  }

  lemma CommitKeepsReplaced(w: World, e: Event, link: Link, replaced: nat)
    requires Coherent(w) && KeptFrom(w.store, link, replaced) && link.revision > 0
    requires e.Commit? && (e.upload < |w.uploads| ==> Timely(w.store, w.uploads[e.upload]))
    requires e.retained > 0 && |Step(w, e).history| < link.revision + e.retained
    ensures KeptFrom(Step(w, e).store, link, replaced)
  {
    if e.upload < |w.uploads| && OwnRow(w.store, w.uploads[e.upload]) {
      var upload := w.uploads[e.upload];
      assert upload in w.uploads && CheckedUpload(upload, w.history);
      assert Swaps(w.store, upload) ==> upload.id != link.id;
      assert upload.revision - e.retained < link.revision;
    }
  }

  lemma StepKeepsReplaced(w: World, e: Event, link: Link, replaced: nat)
    requires Coherent(w) && KeptFrom(w.store, link, replaced) && link.revision > 0
    requires e.Commit? ==>
      && (e.upload < |w.uploads| ==> Timely(w.store, w.uploads[e.upload]))
      && e.retained > 0 && |Step(w, e).history| < link.revision + e.retained
    requires NotCleanedFrom(e, replaced + SNAPSHOT_RETENTION)
    ensures KeptFrom(Step(w, e).store, link, replaced)
  {
    if e.Commit? { CommitKeepsReplaced(w, e, link, replaced); }
  }

  // ---- Runs ----

  lemma {:induction false} HistoryGrows(epoch: nat, events: seq<Event>, k: nat)
    requires k <= |events|
    ensures Run(epoch, events[..k]).history <= Run(epoch, events).history
    decreases |events|
  {
    if k == |events| {
      assert events[..k] == events;
    } else {
      var m := |events| - 1;
      HistoryGrows(epoch, events[..m], k);
      assert events[..m][..k] == events[..k];
    }
  }

  lemma RunOneMore(epoch: nat, events: seq<Event>, n: nat)
    requires n < |events|
    ensures Run(epoch, events[..n + 1]) == Step(Run(epoch, events[..n]), events[n])
  {
    assert events[..n + 1][..n] == events[..n];
  }

  lemma ChainOfPrefix(epoch: nat, events: seq<Event>)
    requires events != [] && TimelyRun(epoch, events)
    ensures Chained(Run(epoch, events[..|events| - 1]).history)
  {
    CommitsFormOneChain(epoch, events[..|events| - 1]);
  }

  /** What the last event of a timely run meets. */
  lemma LastIsTimely(epoch: nat, events: seq<Event>)
    requires events != [] && TimelyRun(epoch, events)
    ensures Coherent(Run(epoch, events[..|events| - 1]))
    ensures
      var w, e := Run(epoch, events[..|events| - 1]), events[|events| - 1];
      e.Commit? && e.upload < |w.uploads| ==> Timely(w.store, w.uploads[e.upload])
  {
    CommitsFormOneChain(epoch, events[..|events| - 1]);
  }

  lemma StepReplaces(w: World, e: Event, i: nat)
    requires Coherent(w) && e.Commit? && e.retained >= 2
    requires e.upload < |w.uploads| ==> Timely(w.store, w.uploads[e.upload])
    requires |w.history| == i + 1 && |Step(w, e).history| == i + 2
    ensures KeptFrom(Step(w, e).store, w.history[i], e.now)
  {
    SwapReplaces(w, e);
  }

  lemma LastEventReplaces(epoch: nat, events: seq<Event>, retained: nat, i: nat)
    requires events != [] && TimelyRun(epoch, events) && Retains(events, retained) && retained >= 2
    requires ReplacedAt(epoch, events, |events| - 1, i)
    ensures KeptFrom(Run(epoch, events).store, Run(epoch, events[..|events| - 1]).history[i], events[|events| - 1].now)
  {
    LastIsTimely(epoch, events);
    StepReplaces(Run(epoch, events[..|events| - 1]), events[|events| - 1], i);
  }

  lemma LastEventKeeps(epoch: nat, events: seq<Event>, retained: nat, link: Link, replaced: nat)
    requires events != [] && TimelyRun(epoch, events) && Retains(events, retained) && retained > 0
    requires KeptFrom(Run(epoch, events[..|events| - 1]).store, link, replaced) && link.revision > 0
    requires |Run(epoch, events).history| < link.revision + retained
    requires NotCleanedFrom(events[|events| - 1], replaced + SNAPSHOT_RETENTION)
    ensures KeptFrom(Run(epoch, events).store, link, replaced)
  {
    LastIsTimely(epoch, events);
    StepKeepsReplaced(Run(epoch, events[..|events| - 1]), events[|events| - 1], link, replaced);
  }

  /**
   * A replaced snapshot that is still among the newest `retained` revisions can be fetched for a whole
   * retention time: whatever uploads, refusals and cleanup requests interleave, its row stays as it is
   * until a cleanup request that runs that long after the commit that replaced it.
   */
  lemma {:induction false} ReplacedSnapshotIsKept(epoch: nat, events: seq<Event>, retained: nat, n: nat, i: nat)
    requires TimelyRun(epoch, events) && Retains(events, retained) && n < |events| && ReplacedAt(epoch, events, n, i)
    requires |Run(epoch, events).history| <= i + retained
    requires forall j :: n < j < |events| ==> NotCleanedFrom(events[j], events[n].now + SNAPSHOT_RETENTION)
    ensures i < |Run(epoch, events).history|
    ensures KeptFrom(Run(epoch, events).store, Run(epoch, events).history[i], events[n].now)
    decreases |events|
  {
    var m := |events| - 1;
    HistoryGrows(epoch, events, m);
    HistoryGrows(epoch, events, n + 1);
    RunOneMore(epoch, events, n);
    if n == m {
      LastEventReplaces(epoch, events, retained, i);
    } else {
      assert events[..m][..n] == events[..n] && events[..m][n] == events[n];
      ReplacedSnapshotIsKept(epoch, events[..m], retained, n, i);
      ChainOfPrefix(epoch, events);
      LastEventKeeps(epoch, events, retained, Run(epoch, events[..m]).history[i], events[n].now);
    }
  }

  /** The newest snapshot is never up for cleanup. */
  lemma NewestSnapshotIsKept(epoch: nat, events: seq<Event>, now: nat)
    requires TimelyRun(epoch, events) && Run(epoch, events).history != []
    ensures
      var w := Run(epoch, events);
      var newest := w.history[|w.history| - 1];
      newest.id in w.store.rows && LinkOf(w.store.rows[newest.id].envelope) == newest
      && !Due(w.store.rows[newest.id], now)
  {
    CommitsFormOneChain(epoch, events);
  }

  // ---- What is no longer retained ----

  predicate AllBy(events: seq<Event>, now: nat) {
    forall j :: 0 <= j < |events| && TimeOf(events[j]).Some? ==> TimeOf(events[j]).value <= now
  }

  predicate OldOnesAreDue(s: Store, retained: nat, now: nat) {
    forall id :: id in s.rows && s.rows[id].state == Superseded ==>
      && s.rows[id].cleanupAfter.Some?
      && (s.rows[id].envelope.revision + retained <= s.vault.revision ==> Due(s.rows[id], now))
  }

  lemma CommitMakesOldOnesDue(w: World, e: Event, now: nat)
    requires Coherent(w) && e.Commit? && e.now <= now && OldOnesAreDue(w.store, e.retained, now)
    requires e.upload < |w.uploads| ==> Timely(w.store, w.uploads[e.upload])
    ensures OldOnesAreDue(Step(w, e).store, e.retained, now)
  {
    if e.upload < |w.uploads| && OwnRow(w.store, w.uploads[e.upload]) {
      var upload := w.uploads[e.upload];
      assert upload in w.uploads && CheckedUpload(upload, w.history);
      var after := Step(w, e).store;
      forall id | id in after.rows && after.rows[id].state == Superseded
        ensures after.rows[id].cleanupAfter.Some?
        ensures after.rows[id].envelope.revision + e.retained <= after.vault.revision ==> Due(after.rows[id], now)
      {
        assert id in w.store.rows;
      }
    }
  }

  lemma StepKeepsOldOnesDue(w: World, e: Event, retained: nat, now: nat)
    requires Coherent(w) && OldOnesAreDue(w.store, retained, now)
    requires e.Commit? ==>
      && e.retained == retained && e.now <= now
      && (e.upload < |w.uploads| ==> Timely(w.store, w.uploads[e.upload]))
    ensures OldOnesAreDue(Step(w, e).store, retained, now)
  {
    if e.Commit? { CommitMakesOldOnesDue(w, e, now); }
  }

  /** A superseded snapshot that is no longer among the newest `retained` revisions is due at once. */
  lemma {:induction false} OldSnapshotsAreDue(epoch: nat, events: seq<Event>, retained: nat, now: nat)
    requires TimelyRun(epoch, events) && Retains(events, retained) && AllBy(events, now)
    ensures OldOnesAreDue(Run(epoch, events).store, retained, now)
    decreases |events|
  {
    if events != [] {
      var m := |events| - 1;
      var before := Run(epoch, events[..m]);
      CommitsFormOneChain(epoch, events[..m]);
      OldSnapshotsAreDue(epoch, events[..m], retained, now);
      assert TimeOf(events[m]).Some? ==> TimeOf(events[m]).value <= now;
      StepKeepsOldOnesDue(before, events[m], retained, now);
    }
  }

  // ---- Uploads ----

  /** An upload is due for clean-up from the end of its lifetime on, and at once when it is given up. */
  lemma UploadIsDueIff(s: Store, e: Envelope, now: nat, lifetime: nat, at: nat)
    requires CanInsert(s, e)
    ensures
      var stored := InsertTemporary(s, e, now, lifetime);
      && e.id in stored.rows && stored.rows[e.id].envelope == e
      && (Due(stored.rows[e.id], at) <==> now + lifetime <= at)
      && var given := MarkOrphan(stored, e.id, now);
         e.id in given.rows && (Due(given.rows[e.id], at) <==> now <= at)
  {}
}
