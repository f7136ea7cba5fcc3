/**
 * Two transactions queued in the same millisecond (src/db/sync/operation-repository.ts, 148-151
 * and 254-476): the general condition on a queue, spelled out for the two groups and the entities
 * they share.
 */
module SameInstant {
  import opened Wrappers
  import opened SyncOperation
  import opened Causal
  import opened MutationAudit
  import opened Replica
  import opened Outbox
  import opened PrepareTheorems
  import opened Convergence
  import opened ConvergenceRuns
  import opened Reordering
  import opened QueueOrder

  // ---- Two groups, one audited after the other ----

  function Shared(first: seq<Intent>, second: seq<Intent>): set<EntityKey> {
    KeysOf(first) * KeysOf(second)
  }

  /**
   * Whether the second group can be prepared before the first as far as `k` goes, from its
   * value before both, between them, and after both: what has a state and is live must not have
   * changed in between, and what is live at the end must be what it was at the start.
   */
  predicate Survives(k: EntityKey, known: set<EntityKey>, before: Tables, between: Tables, after: Tables) {
    && (k in known && Get(before, k).Some? ==> Get(between, k) == Get(before, k))
    && (Get(after, k).Some? ==> Get(after, k) == Get(before, k))
  }

  /** Two fresh groups of one instant at the head of the outbox, `a` audited from `t0` and `b` after it. */
  ghost predicate Tied(s: SenderState, t0: Tables, a: OutboxRows, b: OutboxRows, later: OutboxRows, rank: Collation) {
    && s.outbox == a + (b + later)
    && FreshGroup(a) && Block(a) && FreshGroup(b) && Block(b) && OtherIds(a, b)
    && a[0].createdAt == b[0].createdAt && a[0].groupId != b[0].groupId
    && Apart(a, later, rank) && Apart(b, later, rank)
    && (forall r :: r in later ==> r.state != Uploading)
    && Replay(t0, GroupIntents(a)).Some?
    && Replay(Replay(t0, GroupIntents(a)).value, GroupIntents(b)).Some?
  }

  predicate InTheirOrder(a: OutboxRows, b: OutboxRows, rank: Collation)
    requires a != [] && b != []
  {
    rank(a[0].groupId) < rank(b[0].groupId)
  }

  ghost function PrepareBoth(s: SenderState, device: OpaqueId, rank: Collation): Result<SenderState, PrepareError> {
    match PrepareAndUpload(s, device, rank)
    case Err(e) => Err(e)
    case Ok(mid) => PrepareAndUpload(mid, device, rank)
  }

  // ---- The pair as a queue ----

  function Pair(t0: Tables, a: OutboxRows, b: OutboxRows): seq<Audited> {
    [Audited(a, t0), Audited(b, Left(Audited(a, t0)))]
  }

  lemma {:induction false} PairRows(t0: Tables, a: OutboxRows, b: OutboxRows)
    ensures RowsOf(Pair(t0, a, b)) == a + b
  {
    var queue := Pair(t0, a, b);
    assert queue[1..] == [queue[1]] && queue[1..][1..] == [];
    assert RowsOf(queue[1..]) == b + RowsOf([]) == b;
  }

  lemma {:induction false} PairChain(t0: Tables, a: OutboxRows, b: OutboxRows)
    ensures Chain(Pair(t0, a, b), t0, Left(Pair(t0, a, b)[1]))
  {
    var queue := Pair(t0, a, b);
    assert queue[1..] == [queue[1]] && queue[1..][1..] == [];
    assert Chain([], Left(queue[1]), Left(queue[1]));
  }

  lemma PairIsQueued(s: SenderState, t0: Tables, a: OutboxRows, b: OutboxRows, later: OutboxRows, rank: Collation)
    requires Tied(s, t0, a, b, later, rank)
    ensures
      var queue := Pair(t0, a, b);
      HoldsQueue(s.outbox, queue, later, rank) && Chain(queue, t0, Left(queue[1]))
  {
    PairRows(t0, a, b);
    PairChain(t0, a, b);
    Reassociate(a, b, later);
    assert OtherIds(b, a);
  }

  lemma {:induction false} AloneIsFirst(x: Audited, rank: Collation)
    ensures PreparedOrder([x], rank) == [x]
  {
    assert Without([x], 0) == [] && PreparedOrder([], rank) == [];
  }

  lemma PairFirst(x: Audited, y: Audited, rank: Collation)
    ensures FirstAt([x, y], rank) == if Precedes(x, y, rank) then 0 else 1
    ensures Without([x, y], 0) == [y] && Without([x, y], 1) == [x]
  {
    assert [x, y][1..] == [y] && FirstAt([y], rank) == 0;
  }

  lemma PairOrder(t0: Tables, a: OutboxRows, b: OutboxRows, rank: Collation)
    requires a != [] && b != [] && a[0].createdAt == b[0].createdAt && a[0].groupId != b[0].groupId
    ensures
      var queue := Pair(t0, a, b);
      PreparedOrder(queue, rank) == if InTheirOrder(a, b, rank) then queue else [queue[1], queue[0]]
  {
    var queue := Pair(t0, a, b);
    PairFirst(queue[0], queue[1], rank);
    AloneIsFirst(queue[0], rank);
    AloneIsFirst(queue[1], rank);
  }

  lemma PairIsBoth(s: SenderState, device: OpaqueId, rank: Collation)
    ensures PrepareTimes(s, 2, device, rank) == PrepareBoth(s, device, rank)
  {
    match PrepareAndUpload(s, device, rank) {
      case Err(_) =>
      case Ok(mid) => OnceIsOnce(mid, device, rank);
    }
  }

  lemma OnceIsOnce(s: SenderState, device: OpaqueId, rank: Collation)
    ensures PrepareTimes(s, 1, device, rank) == PrepareAndUpload(s, device, rank)
  {
    match PrepareAndUpload(s, device, rank) {
      case Err(_) =>
      case Ok(mid) => assert PrepareTimes(mid, 0, device, rank) == Ok(mid);
    }
  }

  lemma PairOnEntity(t0: Tables, a: OutboxRows, b: OutboxRows, k: EntityKey)
    requires AllAuditable(Pair(t0, a, b))
    ensures
      var queue := Pair(t0, a, b);
      && (!Touches(queue[0], k) ==> Get(queue[1].from, k) == Get(t0, k))
      && (!Touches(queue[1], k) ==> Get(Left(queue[1]), k) == Get(queue[1].from, k))
  {
    var queue := Pair(t0, a, b);
    assert Auditable(queue[0]) && Auditable(queue[1]);
    GroupOnEntity(t0, queue[0], k);
    GroupOnEntity(t0, queue[1], k);
  }

  lemma PairInItsOrder(t0: Tables, a: OutboxRows, b: OutboxRows, known: bool, k: EntityKey)
    requires AllAuditable(Pair(t0, a, b))
    ensures
      var queue := Pair(t0, a, b);
      SurvivesOrder(k, Get(t0, k), known, queue) && EndsIn(k, Get(t0, k), queue) == Get(Left(queue[1]), k)
  {
    var queue := Pair(t0, a, b);
    assert queue[1..] == [queue[1]] && queue[1..][1..] == [];
    WrittenOrderSurvives(queue, t0, Left(queue[1]), known, k);
  }

  /** The other way round, an entity survives if the first value and the last one do not get in the way. */
  lemma PairSwapped(t0: Tables, a: OutboxRows, b: OutboxRows, known: set<EntityKey>, k: EntityKey)
    requires AllAuditable(Pair(t0, a, b))
    ensures
      var queue := Pair(t0, a, b);
      var swapped := [queue[1], queue[0]];
      var shared := Shared(GroupIntents(a), GroupIntents(b));
      && (SurvivesOrder(k, Get(t0, k), k in known, swapped) <==>
            (k in shared ==> Survives(k, known, t0, queue[1].from, Left(queue[1]))))
      && EndsIn(k, Get(t0, k), swapped) == if k in shared then Get(queue[1].from, k) else Get(Left(queue[1]), k)
  {
    var queue := Pair(t0, a, b);
    var swapped := [queue[1], queue[0]];
    PairOnEntity(t0, a, b, k);
    assert swapped[1..] == [queue[0]] && swapped[1..][1..] == [];
    OneSurvives(k, Get(t0, k), k in known, queue[0]);
    OneSurvives(k, Get(Left(queue[1]), k), true, queue[0]);
  }

  lemma OneSurvives(k: EntityKey, recorded: Option<Json>, known: bool, a: Audited)
    ensures SurvivesOrder(k, recorded, known, [a]) <==>
      (Touches(a, k) && known && recorded.Some? ==> recorded == Get(a.from, k))
    ensures EndsIn(k, recorded, [a]) == if Touches(a, k) then Get(Left(a), k) else recorded
  {
    assert [a][1..] == [];
  }

  lemma PairTouches(t0: Tables, a: OutboxRows, b: OutboxRows, k: EntityKey)
    ensures k in Shared(GroupIntents(a), GroupIntents(b)) ==> Touched(Pair(t0, a, b), k)
  {
    var queue := Pair(t0, a, b);
    assert queue[0] in queue;
  }

  lemma InOrderPrepares(known: set<EntityKey>, t0: Tables, a: OutboxRows, b: OutboxRows, rank: Collation)
    requires AllAuditable(Pair(t0, a, b)) && PreparedOrder(Pair(t0, a, b), rank) == Pair(t0, a, b)
    ensures AllSurvive(t0, known, PreparedOrder(Pair(t0, a, b), rank))
    ensures EndsRight(Pair(t0, a, b), t0, Left(Pair(t0, a, b)[1]), rank)
  {
    var queue := Pair(t0, a, b);
    forall k
      ensures SurvivesOrder(k, Get(t0, k), k in known, queue)
      ensures EndsIn(k, Get(t0, k), queue) == Get(Left(queue[1]), k)
    {
      PairInItsOrder(t0, a, b, k in known, k);
    }
  }

  lemma SwappedPrepares(known: set<EntityKey>, t0: Tables, a: OutboxRows, b: OutboxRows, rank: Collation)
    requires AllAuditable(Pair(t0, a, b))
    requires PreparedOrder(Pair(t0, a, b), rank) == [Pair(t0, a, b)[1], Pair(t0, a, b)[0]]
    ensures
      var queue := Pair(t0, a, b);
      var t1, t2 := queue[1].from, Left(queue[1]);
      var shared := Shared(GroupIntents(a), GroupIntents(b));
      && (AllSurvive(t0, known, PreparedOrder(queue, rank)) <==>
            forall k :: k in shared ==> Survives(k, known, t0, t1, t2))
      && (EndsRight(queue, t0, t2, rank) <==> forall k :: k in shared ==> Get(t1, k) == Get(t2, k))
      && forall k :: k in shared ==>
           Touched(queue, k) && EndsIn(k, Get(t0, k), PreparedOrder(queue, rank)) == Get(t1, k)
  {
    var queue := Pair(t0, a, b);
    var t1, t2 := queue[1].from, Left(queue[1]);
    var shared := Shared(GroupIntents(a), GroupIntents(b));
    forall k
      ensures SurvivesOrder(k, Get(t0, k), k in known, PreparedOrder(queue, rank)) <==>
        (k in shared ==> Survives(k, known, t0, t1, t2))
      ensures EndsIn(k, Get(t0, k), PreparedOrder(queue, rank)) == if k in shared then Get(t1, k) else Get(t2, k)
      ensures k in shared ==> Touched(queue, k)
    {
      PairSwapped(t0, a, b, known, k);
      PairTouches(t0, a, b, k);
    }
  }

  // ---- The theorem for two ----

  lemma PairPreparesIff(s: SenderState, t0: Tables, a: OutboxRows, b: OutboxRows, later: OutboxRows,
                        device: OpaqueId, devices: set<OpaqueId>, rank: Collation)
    requires Total(rank) && Tied(s, t0, a, b, later, rank) && Settled(s, t0, device, devices, rank)
    ensures AllAuditable(Pair(t0, a, b))
    ensures
      var queue, r := Pair(t0, a, b), PrepareBoth(s, device, rank);
      var order := PreparedOrder(queue, rank);
      && (r.Ok? <==> AllSurvive(t0, s.states.Keys, order))
      && (r.Err? ==> AboutPrevious(r.error))
      && (r.Ok? ==>
            && r.value.outbox == later
            && (Consistent(Left(queue[1]), r.value.states) <==> EndsRight(queue, t0, Left(queue[1]), rank))
            && forall k :: Touched(queue, k) ==>
                 k in r.value.states && Faithful(r.value.states[k], k, EndsIn(k, Get(t0, k), order)))
  {
    var queue := Pair(t0, a, b);
    PairIsQueued(s, t0, a, b, later, rank);
    PairIsBoth(s, device, rank);
    QueueOutcome(s, t0, Left(queue[1]), queue, later, device, devices, rank);
  }

  /**
   * Two groups of one millisecond. Both are prepared exactly when their ids sort as they were
   * written or every entity they share survives the swap; the states then still describe the
   * tables exactly when, in the swapped order, no shared entity was changed by the second
   * group. Otherwise each shared entity is recorded with the value it had between the two.
   */
  lemma SameInstantPreparesIff(s: SenderState, t0: Tables, a: OutboxRows, b: OutboxRows, later: OutboxRows,
                               device: OpaqueId, devices: set<OpaqueId>, rank: Collation)
    requires Total(rank) && Tied(s, t0, a, b, later, rank) && Settled(s, t0, device, devices, rank)
    ensures
      var shared := Shared(GroupIntents(a), GroupIntents(b));
      var t1 := Replay(t0, GroupIntents(a)).value;
      var t2 := Replay(t1, GroupIntents(b)).value;
      var r := PrepareBoth(s, device, rank);
      && (r.Ok? <==> InTheirOrder(a, b, rank) || forall k :: k in shared ==> Survives(k, s.states.Keys, t0, t1, t2))
      && (r.Err? ==> AboutPrevious(r.error))
      && (r.Ok? ==>
            && r.value.outbox == later
            && (Consistent(t2, r.value.states) <==>
                  InTheirOrder(a, b, rank) || forall k :: k in shared ==> Get(t1, k) == Get(t2, k))
            && (!InTheirOrder(a, b, rank) ==>
                  forall k :: k in shared ==> k in r.value.states && Faithful(r.value.states[k], k, Get(t1, k))))
  {
    PairPreparesIff(s, t0, a, b, later, device, devices, rank);
    PairOrder(t0, a, b, rank);
    if InTheirOrder(a, b, rank) {
      InOrderPrepares(s.states.Keys, t0, a, b, rank);
    } else {
      SwappedPrepares(s.states.Keys, t0, a, b, rank);
    }
  }

  // ---- Groups that write each entity once ----

  predicate OncePerEntity(intents: seq<Intent>) {
    forall i, j :: 0 <= i < j < |intents| ==> intents[i].key != intents[j].key
  }

  lemma ChangesSnoc(t: Tables, front: seq<Intent>, i: Intent, k: EntityKey)
    requires Replay(t, front).Some? && i.previous == Get(Replay(t, front).value, i.key) && i.previous != i.value
    requires if k == i.key then k !in KeysOf(front) else Get(Replay(t, front).value, k) != Get(t, k)
    ensures Replay(t, front + [i]).Some? && Get(Replay(t, front + [i]).value, k) != Get(t, k)
  {
    ReplaySnoc(t, front, i);
    GroupEndsAs(t, t, front, k);
  }

  lemma OnceSplits(front: seq<Intent>, i: Intent)
    requires OncePerEntity(front + [i])
    ensures OncePerEntity(front) && i.key !in KeysOf(front) && KeysOf(front + [i]) == KeysOf(front) + {i.key}
  {
    var all := front + [i];
    assert forall j :: 0 <= j < |front| ==> all[j] == front[j];
    assert all[|front|] == i;
    PassAllSnoc(map[], {}, front, i);
  }

  lemma {:induction false} EachChanges(t: Tables, intents: seq<Intent>, k: EntityKey)
    requires Replay(t, intents).Some? && OncePerEntity(intents) && k in KeysOf(intents)
    requires forall i :: i in intents ==> i.previous != i.value
    ensures Get(Replay(t, intents).value, k) != Get(t, k)
    decreases |intents|
  {
    var front, i := intents[..|intents| - 1], intents[|intents| - 1];
    ReplayPrefix(t, intents, |front|);
    assert intents == front + [i];
    OnceSplits(front, i);
    if k != i.key { EachChanges(t, front, k); }
    ChangesSnoc(t, front, i, k);
  }

  lemma TiedChanges(s: SenderState, t0: Tables, a: OutboxRows, b: OutboxRows, later: OutboxRows, rank: Collation,
                    k: EntityKey)
    requires Tied(s, t0, a, b, later, rank) && k in Shared(GroupIntents(a), GroupIntents(b))
    requires OncePerEntity(GroupIntents(a)) && OncePerEntity(GroupIntents(b))
    ensures
      var t1 := Replay(t0, GroupIntents(a)).value;
      Get(t0, k) != Get(t1, k) && Get(t1, k) != Get(Replay(t1, GroupIntents(b)).value, k)
  {
    forall i | i in GroupIntents(a) || i in GroupIntents(b) ensures i.previous != i.value {
      if i in GroupIntents(a) {
        var j :| 0 <= j < |a| && GroupIntents(a)[j] == i;
        assert a[j] in a;
      } else {
        var j :| 0 <= j < |b| && GroupIntents(b)[j] == i;
        assert b[j] in b;
      }
    }
    EachChanges(t0, GroupIntents(a), k);
    EachChanges(Replay(t0, GroupIntents(a)).value, GroupIntents(b), k);
  }

  /** Neither live with a state at the start, nor live and different at the end. */
  predicate Unguarded(k: EntityKey, known: set<EntityKey>, before: Tables, after: Tables) {
    && (k in known ==> Get(before, k).None?)
    && (Get(after, k).Some? ==> Get(after, k) == Get(before, k))
  }

  /**
   * For groups that write each entity once: all is well exactly when the ids sort as written or
   * nothing is shared, and the swap goes unnoticed exactly when every shared entity is unguarded.
   */
  lemma SameInstantIsSafeIff(s: SenderState, t0: Tables, a: OutboxRows, b: OutboxRows, later: OutboxRows,
                             device: OpaqueId, devices: set<OpaqueId>, rank: Collation)
    requires Total(rank) && Tied(s, t0, a, b, later, rank) && Settled(s, t0, device, devices, rank)
    requires OncePerEntity(GroupIntents(a)) && OncePerEntity(GroupIntents(b))
    ensures
      var shared := Shared(GroupIntents(a), GroupIntents(b));
      var t2 := Replay(Replay(t0, GroupIntents(a)).value, GroupIntents(b)).value;
      var r := PrepareBoth(s, device, rank);
      && (r.Ok? && Consistent(t2, r.value.states) <==> InTheirOrder(a, b, rank) || shared == {})
      && (r.Ok? && !Consistent(t2, r.value.states) <==>
            !InTheirOrder(a, b, rank) && shared != {} && forall k :: k in shared ==>
              Unguarded(k, s.states.Keys, t0, t2))
  {
    var shared := Shared(GroupIntents(a), GroupIntents(b));
    var t1 := Replay(t0, GroupIntents(a)).value;
    var t2 := Replay(t1, GroupIntents(b)).value;
    SameInstantPreparesIff(s, t0, a, b, later, device, devices, rank);
    forall k | k in shared
      ensures Get(t1, k) != Get(t2, k)
      ensures Survives(k, s.states.Keys, t0, t1, t2) <==> Unguarded(k, s.states.Keys, t0, t2)
    {
      TiedChanges(s, t0, a, b, later, rank, k);
    }
    if shared != {} {
      var k :| k in shared;
      assert Get(t1, k) != Get(t2, k);
    }
  }
}
