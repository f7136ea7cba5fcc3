/**
 * A queue of groups, written in one order and prepared in the order of the outbox
 * (src/db/sync/operation-repository.ts, 148-151 and 254-528): the exact condition, entity by entity,
 * under which all of them are prepared, and under which the states describe the tables afterwards.
 */
module QueueOrder {
  import opened Wrappers
  import opened SyncOperation
  import opened Causal
  import opened MutationAudit
  import opened Replica
  import opened Outbox
  import opened PrepareTheorems
  import opened Convergence
  import opened ConvergenceRuns
  import opened Reordering

  // ---- A queue of groups ----

  /** A group and the tables it was audited from. */
  datatype Audited = Audited(group: OutboxRows, from: Tables)

  /** The tables it leaves. */
  function Left(a: Audited): Tables {
    match Replay(a.from, GroupIntents(a.group))
    case Some(t) => t
    case None => a.from
  }

  predicate Auditable(a: Audited) {
    FreshGroup(a.group) && Block(a.group) && Replay(a.from, GroupIntents(a.group)).Some?
  }

  predicate AllAuditable(queue: seq<Audited>) {
    forall i :: 0 <= i < |queue| ==> Auditable(queue[i])
  }

  /** Each group was audited from the tables the one before it left. */
  predicate Chain(queue: seq<Audited>, start: Tables, end: Tables) {
    if queue == [] then start == end else queue[0].from == start && Chain(queue[1..], Left(queue[0]), end)
  }

  function RowsOf(queue: seq<Audited>): OutboxRows {
    if queue == [] then [] else queue[0].group + RowsOf(queue[1..])
  }

  /** Groups and operations have ids of their own. */
  predicate Unmixed(queue: seq<Audited>) {
    forall i, j :: 0 <= i < |queue| && 0 <= j < |queue| && i != j ==>
      OtherGroup(queue[i], queue[j]) && OtherIds(queue[i].group, queue[j].group)
  }

  predicate OtherGroup(a: Audited, b: Audited) {
    a.group != [] && b.group != [] && a.group[0].groupId != b.group[0].groupId
  }

  /** `a` comes first in the outbox order. */
  predicate Precedes(a: Audited, b: Audited, rank: Collation) {
    a.group != [] && b.group != [] && Older(a.group[0], b.group[0].createdAt, b.group[0].groupId, rank)
  }

  lemma PrecedesIsApart(a: Audited, b: Audited, rank: Collation)
    requires Auditable(a) && Auditable(b) && Precedes(a, b, rank) && OtherIds(a.group, b.group)
    ensures Apart(a.group, b.group, rank)
  {}

  function FirstAt(queue: seq<Audited>, rank: Collation): (i: nat)
    requires queue != []
    ensures i < |queue|
  {
    if |queue| == 1 then 0
    else
      var i := 1 + FirstAt(queue[1..], rank);
      if Precedes(queue[0], queue[i], rank) then 0 else i
  }

  lemma OneOfTwoPrecedes(a: Audited, b: Audited, rank: Collation)
    requires Total(rank) && OtherGroup(a, b)
    ensures Precedes(a, b, rank) <==> !Precedes(b, a, rank)
  {}

  lemma PrecedesAll(a: Audited, b: Audited, c: Audited, rank: Collation)
    requires OtherGroup(a, c) && Precedes(a, b, rank) && Precedes(b, c, rank)
    ensures Precedes(a, c, rank)
  {}

  lemma UnmixedTail(queue: seq<Audited>)
    requires queue != [] && Unmixed(queue)
    ensures Unmixed(queue[1..])
  {
    var rest := queue[1..];
    assert forall m :: 0 <= m < |rest| ==> rest[m] == queue[m + 1];
  }

  lemma HeadOrFirst(head: Audited, first: Audited, other: Audited, rank: Collation)
    requires Total(rank) && OtherGroup(head, first) && OtherGroup(head, other)
    requires other == first || Precedes(first, other, rank)
    ensures if Precedes(head, first, rank) then Precedes(head, other, rank) else Precedes(first, head, rank)
  {
    OneOfTwoPrecedes(head, first, rank);
    if Precedes(head, first, rank) && other != first { PrecedesAll(head, first, other, rank); }
  }

  lemma OwnId(queue: seq<Audited>, i: nat, j: nat)
    requires Unmixed(queue) && i < |queue| && j < |queue| && i != j
    ensures OtherGroup(queue[i], queue[j])
  {}

  lemma {:induction false} FirstPrecedes(queue: seq<Audited>, j: nat, rank: Collation)
    requires Total(rank) && j < |queue| && Unmixed(queue) && j != FirstAt(queue, rank)
    ensures Precedes(queue[FirstAt(queue, rank)], queue[j], rank)
  {
    var i := 1 + FirstAt(queue[1..], rank);
    UnmixedTail(queue);
    OwnId(queue, 0, i);
    if j == 0 {
      HeadOrFirst(queue[0], queue[i], queue[i], rank);
    } else {
      OwnId(queue, 0, j);
      if j != i { FirstPrecedes(queue[1..], j - 1, rank); }
      HeadOrFirst(queue[0], queue[i], queue[j], rank);
    }
  }

  function Without(queue: seq<Audited>, i: nat): seq<Audited>
    requires i < |queue|
  {
    queue[..i] + queue[i + 1..]
  }

  lemma WithoutIndex(queue: seq<Audited>, i: nat, m: nat)
    requires i < |queue| && m < |queue| - 1
    ensures Without(queue, i)[m] == queue[if m < i then m else m + 1]
  {}

  lemma WithoutAuditable(queue: seq<Audited>, i: nat)
    requires i < |queue| && AllAuditable(queue)
    ensures AllAuditable(Without(queue, i))
  {
    forall m | 0 <= m < |queue| - 1 ensures Auditable(Without(queue, i)[m]) { WithoutIndex(queue, i, m); }
  }

  lemma WithoutUnmixed(queue: seq<Audited>, i: nat)
    requires i < |queue| && Unmixed(queue)
    ensures Unmixed(Without(queue, i))
  {
    var rest := Without(queue, i);
    forall m, n | 0 <= m < |rest| && 0 <= n < |rest| && m != n
      ensures OtherGroup(rest[m], rest[n]) && OtherIds(rest[m].group, rest[n].group)
    {
      WithoutIndex(queue, i, m);
      WithoutIndex(queue, i, n);
    }
  }

  lemma WithoutMembers(queue: seq<Audited>, i: nat, a: Audited)
    requires i < |queue|
    ensures a in queue <==> a == queue[i] || a in Without(queue, i)
  {
    assert queue == queue[..i] + [queue[i]] + queue[i + 1..];
  }

  /** The groups in the order in which they are prepared. */
  function PreparedOrder(queue: seq<Audited>, rank: Collation): seq<Audited>
    decreases |queue|
  {
    if queue == [] then []
    else
      var i := FirstAt(queue, rank);
      [queue[i]] + PreparedOrder(Without(queue, i), rank)
  }

  lemma {:induction false} PreparedOrderHolds(queue: seq<Audited>, rank: Collation, a: Audited)
    ensures a in PreparedOrder(queue, rank) <==> a in queue
    decreases |queue|
  {
    if queue != [] {
      var i := FirstAt(queue, rank);
      WithoutMembers(queue, i, a);
      PreparedOrderHolds(Without(queue, i), rank, a);
    }
  }

  lemma OrderIsAuditable(queue: seq<Audited>, rank: Collation)
    requires AllAuditable(queue)
    ensures AllAuditable(PreparedOrder(queue, rank))
  {
    var order := PreparedOrder(queue, rank);
    forall m | 0 <= m < |order| ensures Auditable(order[m]) {
      assert order[m] in order;
      PreparedOrderHolds(queue, rank, order[m]);
    }
  }

  ghost function PrepareTimes(s: SenderState, n: nat, device: OpaqueId, rank: Collation)
    : Result<SenderState, PrepareError>
    decreases n
  {
    if n == 0 then Ok(s)
    else
      match PrepareAndUpload(s, device, rank)
      case Err(e) => Err(e)
      case Ok(mid) => PrepareTimes(mid, n - 1, device, rank)
  }

  // ---- What the groups meet in that order ----

  predicate PassInOrder(recorded: Tables, known: set<EntityKey>, order: seq<Audited>)
    decreases |order|
  {
    order == []
    || (var intents := GroupIntents(order[0].group);
        PassAll(recorded, known, intents)
        && PassInOrder(Believed(recorded, intents), known + KeysOf(intents), order[1..]))
  }

  function BelievedAfter(recorded: Tables, order: seq<Audited>): Tables
    decreases |order|
  {
    if order == [] then recorded else BelievedAfter(Believed(recorded, GroupIntents(order[0].group)), order[1..])
  }

  predicate Touches(a: Audited, k: EntityKey) { k in KeysOf(GroupIntents(a.group)) }

  predicate Touched(queue: seq<Audited>, k: EntityKey) { exists a :: a in queue && Touches(a, k) }

  /**
   * The exact condition for one entity. Each group that touches it, in the order of preparation, was
   * audited from the value the previous one left, or from the first recorded value, as far as that
   * value is live and has a state.
   */
  predicate SurvivesOrder(k: EntityKey, recorded: Option<Json>, known: bool, order: seq<Audited>)
    decreases |order|
  {
    if order == [] then true
    else if !Touches(order[0], k) then SurvivesOrder(k, recorded, known, order[1..])
    else
      (known && recorded.Some? ==> recorded == Get(order[0].from, k))
      && SurvivesOrder(k, Get(Left(order[0]), k), true, order[1..])
  }

  /** The value the last group that touches the entity leaves. */
  function EndsIn(k: EntityKey, recorded: Option<Json>, order: seq<Audited>): Option<Json>
    decreases |order|
  {
    if order == [] then recorded
    else EndsIn(k, if Touches(order[0], k) then Get(Left(order[0]), k) else recorded, order[1..])
  }

  lemma GroupOnEntity(recorded: Tables, a: Audited, k: EntityKey)
    requires Auditable(a)
    ensures Get(Believed(recorded, GroupIntents(a.group)), k) ==
      if Touches(a, k) then Get(Left(a), k) else Get(recorded, k)
    ensures !Touches(a, k) ==> Get(Left(a), k) == Get(a.from, k)
  {
    GroupEndsAs(recorded, a.from, GroupIntents(a.group), k);
  }

  lemma AuditableTail(order: seq<Audited>)
    requires order != [] && AllAuditable(order)
    ensures Auditable(order[0]) && AllAuditable(order[1..])
  {
    assert forall i :: 0 <= i < |order[1..]| ==> order[1..][i] == order[i + 1];
  }

  lemma {:induction false} EndsInOrder(recorded: Tables, order: seq<Audited>, k: EntityKey)
    requires AllAuditable(order)
    ensures Get(BelievedAfter(recorded, order), k) == EndsIn(k, Get(recorded, k), order)
    decreases |order|
  {
    if order != [] {
      AuditableTail(order);
      GroupOnEntity(recorded, order[0], k);
      EndsInOrder(Believed(recorded, GroupIntents(order[0].group)), order[1..], k);
    }
  }

  ghost predicate AllSurvive(recorded: Tables, known: set<EntityKey>, order: seq<Audited>) {
    forall k :: SurvivesOrder(k, Get(recorded, k), k in known, order)
  }

  lemma SurvivesHead(recorded: Tables, known: set<EntityKey>, order: seq<Audited>, k: EntityKey)
    requires order != [] && AllAuditable(order)
    ensures
      var intents := GroupIntents(order[0].group);
      SurvivesOrder(k, Get(recorded, k), k in known, order) <==>
        (k in KeysOf(intents) ==> AgreesOn(k, recorded, known, order[0].from))
        && SurvivesOrder(k, Get(Believed(recorded, intents), k), k in known + KeysOf(intents), order[1..])
  {
    GroupOnEntity(recorded, order[0], k);
  }

  lemma AllSurviveHead(recorded: Tables, known: set<EntityKey>, order: seq<Audited>)
    requires order != [] && AllAuditable(order)
    ensures
      var intents := GroupIntents(order[0].group);
      AllSurvive(recorded, known, order) <==>
        PassAll(recorded, known, intents)
        && AllSurvive(Believed(recorded, intents), known + KeysOf(intents), order[1..])
  {
    var intents := GroupIntents(order[0].group);
    var believed, all := Believed(recorded, intents), known + KeysOf(intents);
    AuditableTail(order);
    PassAllIff(recorded, known, order[0].from, intents);
    forall k
      ensures SurvivesOrder(k, Get(recorded, k), k in known, order) <==>
        (k in KeysOf(intents) ==> AgreesOn(k, recorded, known, order[0].from))
        && SurvivesOrder(k, Get(believed, k), k in all, order[1..])
    {
      SurvivesHead(recorded, known, order, k);
    }
  }

  /** The groups pass one after another exactly when every entity survives the order. */
  lemma {:induction false} PassInOrderIff(recorded: Tables, known: set<EntityKey>, order: seq<Audited>)
    requires AllAuditable(order)
    ensures PassInOrder(recorded, known, order) <==> AllSurvive(recorded, known, order)
    decreases |order|
  {
    if order != [] {
      var intents := GroupIntents(order[0].group);
      AuditableTail(order);
      AllSurviveHead(recorded, known, order);
      PassInOrderIff(Believed(recorded, intents), known + KeysOf(intents), order[1..]);
    }
  }

  // ---- The theorem ----

  /** The outbox holds the queue's groups, and behind them rows that sort after each of them. */
  ghost predicate HoldsQueue(outbox: OutboxRows, queue: seq<Audited>, later: OutboxRows, rank: Collation) {
    && outbox == RowsOf(queue) + later
    && AllAuditable(queue) && Unmixed(queue)
    && (forall i :: 0 <= i < |queue| ==> Apart(queue[i].group, later, rank))
    && (forall r :: r in later ==> r.state != Uploading)
  }

  lemma {:induction false} RowsSplit(queue: seq<Audited>, i: nat)
    requires i < |queue|
    ensures RowsOf(queue) == RowsOf(queue[..i]) + (queue[i].group + RowsOf(queue[i + 1..]))
    ensures RowsOf(Without(queue, i)) == RowsOf(queue[..i]) + RowsOf(queue[i + 1..])
    decreases i
  {
    if i == 0 {
      assert RowsOf(queue[..0]) == [] && Without(queue, 0) == queue[1..];
    } else {
      RowsSplit(queue[1..], i - 1);
      assert queue[1..][..i - 1] == queue[..i][1..] && queue[1..][i..] == queue[i + 1..];
      assert Without(queue, i)[1..] == Without(queue[1..], i - 1) && Without(queue, i)[0] == queue[0];
    }
  }

  lemma {:induction false} RowIsInAGroup(queue: seq<Audited>, r: OutboxRecord) returns (i: nat)
    requires r in RowsOf(queue)
    ensures i < |queue| && r in queue[i].group
  {
    if r in queue[0].group {
      i := 0;
    } else {
      i := RowIsInAGroup(queue[1..], r);
      i := i + 1;
    }
  }

  /** What lies around the group that comes first. */
  lemma AroundFirst(outbox: OutboxRows, queue: seq<Audited>, later: OutboxRows, rank: Collation)
    returns (xs: OutboxRows, ys: OutboxRows)
    requires Total(rank) && queue != [] && HoldsQueue(outbox, queue, later, rank)
    ensures
      var i := FirstAt(queue, rank);
      && outbox == xs + (queue[i].group + ys)
      && xs + ys == RowsOf(Without(queue, i)) + later
    ensures Apart(queue[FirstAt(queue, rank)].group, xs, rank) && Apart(queue[FirstAt(queue, rank)].group, ys, rank)
    ensures forall r :: r in xs || r in ys ==> r.state != Uploading
  {
    var i := FirstAt(queue, rank);
    xs, ys := RowsOf(queue[..i]), RowsOf(queue[i + 1..]) + later;
    RowsSplit(queue, i);
    ConcatMoves(xs, queue[i].group, RowsOf(queue[i + 1..]), later);
    FirstIsApart(queue, queue[..i], rank);
    FirstIsApart(queue, queue[i + 1..], rank);
    assert forall r :: r in ys ==> r in RowsOf(queue[i + 1..]) || r in later;
  }

  lemma ConcatMoves<T>(xs: seq<T>, g: seq<T>, ys: seq<T>, later: seq<T>)
    ensures xs + (g + ys) + later == xs + (g + (ys + later)) && xs + ys + later == xs + (ys + later)
  {}

  lemma OthersAreApart(queue: seq<Audited>, j: nat, r: OutboxRecord, rank: Collation)
    requires Total(rank) && j < |queue| && AllAuditable(queue) && Unmixed(queue) && j != FirstAt(queue, rank)
    requires r in queue[j].group
    ensures Apart(queue[FirstAt(queue, rank)].group, [r], rank) && r.state != Uploading
  {
    FirstPrecedes(queue, j, rank);
    PrecedesIsApart(queue[FirstAt(queue, rank)], queue[j], rank);
  }

  predicate Among(others: seq<Audited>, queue: seq<Audited>, i: nat) {
    i < |queue| && (others == queue[..i] || others == queue[i + 1..])
  }

  lemma FirstIsApart(queue: seq<Audited>, others: seq<Audited>, rank: Collation)
    requires Total(rank) && queue != [] && AllAuditable(queue) && Unmixed(queue)
    requires Among(others, queue, FirstAt(queue, rank))
    ensures Apart(queue[FirstAt(queue, rank)].group, RowsOf(others), rank)
    ensures forall r :: r in RowsOf(others) ==> r.state != Uploading
  {
    var g := queue[FirstAt(queue, rank)].group;
    forall r | r in RowsOf(others) ensures Apart(g, [r], rank) && r.state != Uploading {
      var m := RowIsInAGroup(others, r);
      var j := OtherIndex(queue, others, FirstAt(queue, rank), m);
      OthersAreApart(queue, j, r, rank);
    }
    EachApart(g, RowsOf(others), rank);
  }

  lemma OtherIndex(queue: seq<Audited>, others: seq<Audited>, i: nat, m: nat) returns (j: nat)
    requires Among(others, queue, i) && m < |others|
    ensures j < |queue| && j != i && queue[j] == others[m]
  {
    j := if others == queue[..i] then m else i + 1 + m;
  }

  lemma EachApart(g: OutboxRows, rows: OutboxRows, rank: Collation)
    requires forall r :: r in rows ==> Apart(g, [r], rank)
    ensures Apart(g, rows, rank)
  {
    forall x, r | x in g && r in rows ensures Older(x, r.createdAt, r.groupId, rank) && x.operationId != r.operationId {
      assert r in [r];
    }
  }

  lemma QueueStep(s: SenderState, recorded: Tables, queue: seq<Audited>, later: OutboxRows,
                  device: OpaqueId, devices: set<OpaqueId>, rank: Collation)
    requires Total(rank) && Settled(s, recorded, device, devices, rank)
    requires queue != [] && HoldsQueue(s.outbox, queue, later, rank)
    ensures
      var i, r := FirstAt(queue, rank), PrepareAndUpload(s, device, rank);
      var intents := GroupIntents(queue[i].group);
      && (r.Ok? <==> PassAll(recorded, s.states.Keys, intents))
      && (r.Err? ==> AboutPrevious(r.error))
      && (r.Ok? ==>
            && HoldsQueue(r.value.outbox, Without(queue, i), later, rank)
            && Settled(r.value, Believed(recorded, intents), device, devices, rank)
            && r.value.states.Keys == s.states.Keys + KeysOf(intents))
  {
    var i := FirstAt(queue, rank);
    var xs, ys := AroundFirst(s.outbox, queue, later, rank);
    HeadPreparesIff(s, recorded, xs, queue[i].group, ys, device, devices, rank);
    WithoutAuditable(queue, i);
    WithoutUnmixed(queue, i);
    forall m | 0 <= m < |queue| - 1 ensures Apart(Without(queue, i)[m].group, later, rank) {
      WithoutIndex(queue, i, m);
    }
  }

  function KeysIn(order: seq<Audited>): set<EntityKey> {
    if order == [] then {} else KeysOf(GroupIntents(order[0].group)) + KeysIn(order[1..])
  }

  lemma {:induction false} KeysInAre(order: seq<Audited>, k: EntityKey)
    ensures k in KeysIn(order) <==> Touched(order, k)
  {
    if order != [] {
      KeysInAre(order[1..], k);
      if Touched(order, k) {
        var a :| a in order && Touches(a, k);
        if a != order[0] { assert a in order[1..]; }
      }
      if Touches(order[0], k) { assert order[0] in order; }
    }
  }

  lemma OrderCons(recorded: Tables, known: set<EntityKey>, a: Audited, rest: seq<Audited>)
    ensures
      var intents := GroupIntents(a.group);
      && (PassInOrder(recorded, known, [a] + rest) <==>
            PassAll(recorded, known, intents)
            && PassInOrder(Believed(recorded, intents), known + KeysOf(intents), rest))
      && BelievedAfter(recorded, [a] + rest) == BelievedAfter(Believed(recorded, intents), rest)
      && KeysIn([a] + rest) == KeysOf(intents) + KeysIn(rest)
  {
    assert ([a] + rest)[1..] == rest;
  }

  /** The groups are out exactly when each passes in its turn, and then their intents are recorded. */
  ghost predicate Drained(r: Result<SenderState, PrepareError>, recorded: Tables, known: set<EntityKey>,
                          order: seq<Audited>, later: OutboxRows,
                          device: OpaqueId, devices: set<OpaqueId>, rank: Collation)
  {
    && (r.Ok? <==> PassInOrder(recorded, known, order))
    && (r.Err? ==> AboutPrevious(r.error))
    && (r.Ok? ==>
          && r.value.outbox == later
          && Settled(r.value, BelievedAfter(recorded, order), device, devices, rank)
          && r.value.states.Keys == known + KeysIn(order))
  }

  lemma FirstPasses(s: SenderState, mid: SenderState, n: nat, recorded: Tables, known: set<EntityKey>, a: Audited,
                    rest: seq<Audited>, later: OutboxRows, device: OpaqueId, devices: set<OpaqueId>, rank: Collation)
    requires PrepareAndUpload(s, device, rank) == Ok(mid) && PassAll(recorded, known, GroupIntents(a.group))
    requires Drained(PrepareTimes(mid, n, device, rank), Believed(recorded, GroupIntents(a.group)),
                     known + KeysOf(GroupIntents(a.group)), rest, later, device, devices, rank)
    ensures Drained(PrepareTimes(s, n + 1, device, rank), recorded, known, [a] + rest, later, device, devices, rank)
  {
    OrderCons(recorded, known, a, rest);
    assert PrepareTimes(s, n + 1, device, rank) == PrepareTimes(mid, n, device, rank);
  }

  lemma FirstFails(s: SenderState, n: nat, recorded: Tables, known: set<EntityKey>, a: Audited,
                   rest: seq<Audited>, later: OutboxRows, device: OpaqueId, devices: set<OpaqueId>, rank: Collation)
    requires !PassAll(recorded, known, GroupIntents(a.group))
    requires PrepareAndUpload(s, device, rank).Err? && AboutPrevious(PrepareAndUpload(s, device, rank).error)
    ensures Drained(PrepareTimes(s, n + 1, device, rank), recorded, known, [a] + rest, later, device, devices, rank)
  {
    OrderCons(recorded, known, a, rest);
    assert PrepareTimes(s, n + 1, device, rank).Err?;
  }

  ghost predicate QueueDrains(s: SenderState, recorded: Tables, queue: seq<Audited>, later: OutboxRows,
                              device: OpaqueId, devices: set<OpaqueId>, rank: Collation)
  {
    Drained(PrepareTimes(s, |queue|, device, rank), recorded, s.states.Keys, PreparedOrder(queue, rank), later,
            device, devices, rank)
  }

  lemma DrainsGoOn(s: SenderState, mid: SenderState, recorded: Tables, queue: seq<Audited>, shorter: seq<Audited>,
                   later: OutboxRows, device: OpaqueId, devices: set<OpaqueId>, rank: Collation)
    requires queue != [] && shorter == Without(queue, FirstAt(queue, rank))
    requires
      var intents := GroupIntents(queue[FirstAt(queue, rank)].group);
      && PrepareAndUpload(s, device, rank) == Ok(mid) && PassAll(recorded, s.states.Keys, intents)
      && mid.states.Keys == s.states.Keys + KeysOf(intents)
      && QueueDrains(mid, Believed(recorded, intents), shorter, later, device, devices, rank)
    ensures QueueDrains(s, recorded, queue, later, device, devices, rank)
  {
    FirstPasses(s, mid, |shorter|, recorded, s.states.Keys, queue[FirstAt(queue, rank)], PreparedOrder(shorter, rank),
      later, device, devices, rank);
  }

  lemma DrainsStop(s: SenderState, recorded: Tables, queue: seq<Audited>, later: OutboxRows,
                   device: OpaqueId, devices: set<OpaqueId>, rank: Collation)
    requires queue != []
    requires !PassAll(recorded, s.states.Keys, GroupIntents(queue[FirstAt(queue, rank)].group))
    requires PrepareAndUpload(s, device, rank).Err? && AboutPrevious(PrepareAndUpload(s, device, rank).error)
    ensures QueueDrains(s, recorded, queue, later, device, devices, rank)
  {
    var shorter := Without(queue, FirstAt(queue, rank));
    FirstFails(s, |shorter|, recorded, s.states.Keys, queue[FirstAt(queue, rank)], PreparedOrder(shorter, rank),
      later, device, devices, rank);
  }

  lemma {:induction false} QueuePasses(s: SenderState, recorded: Tables, queue: seq<Audited>, later: OutboxRows,
                                       device: OpaqueId, devices: set<OpaqueId>, rank: Collation)
    requires Total(rank) && Settled(s, recorded, device, devices, rank) && HoldsQueue(s.outbox, queue, later, rank)
    ensures QueueDrains(s, recorded, queue, later, device, devices, rank)
    decreases |queue|
  {
    if queue == [] {
      assert RowsOf(queue) + later == later;
    } else {
      QueueStep(s, recorded, queue, later, device, devices, rank);
      match PrepareAndUpload(s, device, rank) {
        case Err(_) => DrainsStop(s, recorded, queue, later, device, devices, rank);
        case Ok(mid) =>
          var i := FirstAt(queue, rank);
          var shorter, next := Without(queue, i), Believed(recorded, GroupIntents(queue[i].group));
          QueuePasses(mid, next, shorter, later, device, devices, rank);
          DrainsGoOn(s, mid, recorded, queue, shorter, later, device, devices, rank);
      }
    }
  }

  lemma {:induction false} UntouchedKeeps(queue: seq<Audited>, start: Tables, end: Tables, k: EntityKey)
    requires AllAuditable(queue) && Chain(queue, start, end) && !Touched(queue, k)
    ensures Get(end, k) == Get(start, k)
    decreases |queue|
  {
    if queue != [] {
      AuditableTail(queue);
      assert queue[0] in queue && forall a :: a in queue[1..] ==> a in queue;
      GroupOnEntity(start, queue[0], k);
      UntouchedKeeps(queue[1..], Left(queue[0]), end, k);
    }
  }

  lemma {:induction false} UntouchedEnds(order: seq<Audited>, recorded: Option<Json>, k: EntityKey)
    requires !Touched(order, k)
    ensures EndsIn(k, recorded, order) == recorded
    decreases |order|
  {
    if order != [] {
      assert order[0] in order && forall a :: a in order[1..] ==> a in order;
      UntouchedEnds(order[1..], recorded, k);
    }
  }

  lemma SameTouched(queue: seq<Audited>, rank: Collation, k: EntityKey)
    ensures Touched(PreparedOrder(queue, rank), k) <==> Touched(queue, k)
  {
    forall a ensures a in PreparedOrder(queue, rank) <==> a in queue { PreparedOrderHolds(queue, rank, a); }
  }

  /** What the prepared order leaves in the states, against the tables the queue was written up to. */
  ghost predicate EndsRight(queue: seq<Audited>, start: Tables, end: Tables, rank: Collation) {
    forall k :: Touched(queue, k) ==> EndsIn(k, Get(start, k), PreparedOrder(queue, rank)) == Get(end, k)
  }

  /** A state stands for one value only. */
  lemma RecordedValue(states: States, t: Tables, u: Tables, k: EntityKey)
    requires k in states && Faithful(states[k], k, Get(t, k))
    ensures Faithful(states[k], k, Get(u, k)) <==> Get(u, k) == Get(t, k)
  {}

  lemma EndsRightIff(states: States, queue: seq<Audited>, start: Tables, end: Tables, rank: Collation)
    requires AllAuditable(queue) && Chain(queue, start, end)
    requires Consistent(BelievedAfter(start, PreparedOrder(queue, rank)), states)
    requires KeysIn(PreparedOrder(queue, rank)) <= states.Keys
    ensures Consistent(end, states) <==> EndsRight(queue, start, end, rank)
    ensures forall k :: Touched(queue, k) ==>
      k in states && Faithful(states[k], k, EndsIn(k, Get(start, k), PreparedOrder(queue, rank)))
  {
    var order := PreparedOrder(queue, rank);
    OrderIsAuditable(queue, rank);
    forall k
      ensures Touched(queue, k) ==> k in states && Faithful(states[k], k, EndsIn(k, Get(start, k), order))
      ensures k in states ==>
        (Faithful(states[k], k, Get(end, k)) <==>
          (Touched(queue, k) ==> EndsIn(k, Get(start, k), order) == Get(end, k)))
    {
      EntityEnds(states, queue, start, end, rank, k);
    }
  }

  lemma EntityEnds(states: States, queue: seq<Audited>, start: Tables, end: Tables, rank: Collation, k: EntityKey)
    requires AllAuditable(queue) && Chain(queue, start, end) && AllAuditable(PreparedOrder(queue, rank))
    requires Consistent(BelievedAfter(start, PreparedOrder(queue, rank)), states)
    requires KeysIn(PreparedOrder(queue, rank)) <= states.Keys
    ensures
      var last := EndsIn(k, Get(start, k), PreparedOrder(queue, rank));
      && (Touched(queue, k) ==> k in states && Faithful(states[k], k, last))
      && (k in states ==>
            (Faithful(states[k], k, Get(end, k)) <==> (Touched(queue, k) ==> last == Get(end, k))))
  {
    var order := PreparedOrder(queue, rank);
    SameTouched(queue, rank, k);
    KeysInAre(order, k);
    EndsInOrder(start, order, k);
    if !Touched(queue, k) {
      UntouchedKeeps(queue, start, end, k);
      UntouchedEnds(order, Get(start, k), k);
    }
    if k in states { RecordedValue(states, BelievedAfter(start, order), end, k); }
  }

  /** Over all entities, shared or not. */
  lemma QueueOutcome(s: SenderState, start: Tables, end: Tables, queue: seq<Audited>, later: OutboxRows,
                     device: OpaqueId, devices: set<OpaqueId>, rank: Collation)
    requires Total(rank) && Settled(s, start, device, devices, rank)
    requires HoldsQueue(s.outbox, queue, later, rank) && Chain(queue, start, end)
    ensures
      var r, order := PrepareTimes(s, |queue|, device, rank), PreparedOrder(queue, rank);
      && (r.Ok? <==> AllSurvive(start, s.states.Keys, order))
      && (r.Err? ==> AboutPrevious(r.error))
      && (r.Ok? ==>
            && r.value.outbox == later
            && (Consistent(end, r.value.states) <==> EndsRight(queue, start, end, rank))
            && forall k :: Touched(queue, k) ==>
                 k in r.value.states && Faithful(r.value.states[k], k, EndsIn(k, Get(start, k), order)))
  {
    QueuePasses(s, start, queue, later, device, devices, rank);
    OrderIsAuditable(queue, rank);
    PassInOrderIff(start, s.states.Keys, PreparedOrder(queue, rank));
    if PrepareTimes(s, |queue|, device, rank).Ok? {
      EndsRightIff(PrepareTimes(s, |queue|, device, rank).value.states, queue, start, end, rank);
    }
  }

  // ---- Only shared entities matter ----

  function TouchCount(queue: seq<Audited>, k: EntityKey): nat {
    if queue == [] then 0 else (if Touches(queue[0], k) then 1 else 0) + TouchCount(queue[1..], k)
  }

  /** At least two groups of the queue touch the entity. */
  predicate Shares(queue: seq<Audited>, k: EntityKey) { TouchCount(queue, k) > 1 }

  lemma {:induction false} TouchCountSplits(queue: seq<Audited>, i: nat, k: EntityKey)
    requires i < |queue|
    ensures TouchCount(queue, k) == (if Touches(queue[i], k) then 1 else 0) + TouchCount(Without(queue, i), k)
    decreases i
  {
    if i == 0 {
      assert Without(queue, 0) == queue[1..];
    } else {
      assert Without(queue, i)[0] == queue[0] && Without(queue, i)[1..] == Without(queue[1..], i - 1);
      TouchCountSplits(queue[1..], i - 1, k);
    }
  }

  lemma {:induction false} SameTouchCount(queue: seq<Audited>, rank: Collation, k: EntityKey)
    ensures TouchCount(PreparedOrder(queue, rank), k) == TouchCount(queue, k)
    decreases |queue|
  {
    if queue != [] {
      var i := FirstAt(queue, rank);
      var rest := PreparedOrder(Without(queue, i), rank);
      TouchCountSplits(queue, i, k);
      SameTouchCount(Without(queue, i), rank, k);
      assert ([queue[i]] + rest)[1..] == rest;
    }
  }

  lemma {:induction false} CountedIsTouched(queue: seq<Audited>, k: EntityKey)
    ensures TouchCount(queue, k) == 0 <==> !Touched(queue, k)
  {
    if queue != [] {
      CountedIsTouched(queue[1..], k);
      assert forall a :: a in queue <==> a == queue[0] || a in queue[1..];
    }
  }

  lemma {:induction false} UntouchedSurvives(order: seq<Audited>, recorded: Option<Json>, known: bool, k: EntityKey)
    requires TouchCount(order, k) == 0
    ensures SurvivesOrder(k, recorded, known, order) && EndsIn(k, recorded, order) == recorded
    decreases |order|
  {
    if order != [] { UntouchedSurvives(order[1..], recorded, known, k); }
  }

  /** The only group that may touch the entity takes it from one value to another. */
  predicate Takes(order: seq<Audited>, k: EntityKey, from: Option<Json>, to: Option<Json>) {
    forall a :: a in order && Touches(a, k) ==> Get(a.from, k) == from && Get(Left(a), k) == to
  }

  lemma {:induction false} OneToucherSurvives(order: seq<Audited>, k: EntityKey, from: Option<Json>, to: Option<Json>,
                                              known: bool)
    requires TouchCount(order, k) == 1 && Takes(order, k, from, to)
    ensures SurvivesOrder(k, from, known, order) && EndsIn(k, from, order) == to
    decreases |order|
  {
    assert order[0] in order && forall a :: a in order[1..] ==> a in order;
    if Touches(order[0], k) {
      UntouchedSurvives(order[1..], to, true, k);
    } else {
      OneToucherSurvives(order[1..], k, from, to, known);
    }
  }

  lemma {:induction false} OneToucherTakes(queue: seq<Audited>, start: Tables, end: Tables, k: EntityKey)
    requires AllAuditable(queue) && Chain(queue, start, end) && TouchCount(queue, k) == 1
    ensures Takes(queue, k, Get(start, k), Get(end, k))
    decreases |queue|
  {
    AuditableTail(queue);
    GroupOnEntity(start, queue[0], k);
    assert forall a :: a in queue <==> a == queue[0] || a in queue[1..];
    if Touches(queue[0], k) {
      CountedIsTouched(queue[1..], k);
      UntouchedKeeps(queue[1..], Left(queue[0]), end, k);
    } else {
      OneToucherTakes(queue[1..], Left(queue[0]), end, k);
    }
  }

  lemma UnsharedSurvives(queue: seq<Audited>, start: Tables, end: Tables, rank: Collation, known: bool, k: EntityKey)
    requires AllAuditable(queue) && Chain(queue, start, end) && !Shares(queue, k)
    ensures
      var order := PreparedOrder(queue, rank);
      SurvivesOrder(k, Get(start, k), known, order) && EndsIn(k, Get(start, k), order) == Get(end, k)
  {
    var order := PreparedOrder(queue, rank);
    SameTouchCount(queue, rank, k);
    if TouchCount(queue, k) == 0 {
      CountedIsTouched(queue, k);
      UntouchedKeeps(queue, start, end, k);
      UntouchedSurvives(order, Get(start, k), known, k);
    } else {
      OneToucherTakes(queue, start, end, k);
      forall a ensures a in order <==> a in queue { PreparedOrderHolds(queue, rank, a); }
      OneToucherSurvives(order, k, Get(start, k), Get(end, k), known);
    }
  }

  ghost predicate SharedSurvive(queue: seq<Audited>, start: Tables, known: set<EntityKey>, rank: Collation) {
    forall k :: Shares(queue, k) ==> SurvivesOrder(k, Get(start, k), k in known, PreparedOrder(queue, rank))
  }

  ghost predicate SharedEndRight(queue: seq<Audited>, start: Tables, end: Tables, rank: Collation) {
    forall k :: Shares(queue, k) ==> EndsIn(k, Get(start, k), PreparedOrder(queue, rank)) == Get(end, k)
  }

  lemma OnlySharedMatter(queue: seq<Audited>, start: Tables, end: Tables, known: set<EntityKey>, rank: Collation)
    requires AllAuditable(queue) && Chain(queue, start, end)
    ensures AllSurvive(start, known, PreparedOrder(queue, rank)) <==> SharedSurvive(queue, start, known, rank)
    ensures EndsRight(queue, start, end, rank) <==> SharedEndRight(queue, start, end, rank)
    ensures forall k :: Shares(queue, k) ==> Touched(queue, k)
  {
    forall k
      ensures Shares(queue, k) || SurvivesOrder(k, Get(start, k), k in known, PreparedOrder(queue, rank))
      ensures Shares(queue, k) || EndsIn(k, Get(start, k), PreparedOrder(queue, rank)) == Get(end, k)
      ensures Shares(queue, k) ==> Touched(queue, k)
    {
      CountedIsTouched(queue, k);
      if !Shares(queue, k) { UnsharedSurvives(queue, start, end, rank, k in known, k); }
    }
  }

  /**
   * Any queue of groups, written in one order and prepared in another. All of them are prepared and
   * uploaded exactly when every entity they share survives the order; the states then describe the
   * tables exactly when every shared entity ends at its last written value, and in any case they
   * stand for the value of the group prepared last.
   */
  lemma QueuePreparesIff(s: SenderState, start: Tables, end: Tables, queue: seq<Audited>, later: OutboxRows,
                         device: OpaqueId, devices: set<OpaqueId>, rank: Collation)
    requires Total(rank) && Settled(s, start, device, devices, rank)
    requires HoldsQueue(s.outbox, queue, later, rank) && Chain(queue, start, end)
    ensures
      var r := PrepareTimes(s, |queue|, device, rank);
      && (r.Ok? <==> SharedSurvive(queue, start, s.states.Keys, rank))
      && (r.Err? ==> AboutPrevious(r.error))
      && (r.Ok? ==>
            && r.value.outbox == later
            && (Consistent(end, r.value.states) <==> SharedEndRight(queue, start, end, rank))
            && forall k :: Shares(queue, k) ==>
                 && k in r.value.states
                 && Faithful(r.value.states[k], k, EndsIn(k, Get(start, k), PreparedOrder(queue, rank))))
  {
    QueueOutcome(s, start, end, queue, later, device, devices, rank);
    OnlySharedMatter(queue, start, end, s.states.Keys, rank);
  }

  // ---- A queue prepared as it was written ----

  predicate InTurn(queue: seq<Audited>, rank: Collation) {
    forall i, j :: 0 <= i < j < |queue| ==> Precedes(queue[i], queue[j], rank)
  }

  lemma InTurnTail(queue: seq<Audited>, rank: Collation)
    requires queue != [] && InTurn(queue, rank)
    ensures InTurn(queue[1..], rank)
  {
    assert forall m :: 0 <= m < |queue[1..]| ==> queue[1..][m] == queue[m + 1];
  }

  lemma InTurnStartsFirst(queue: seq<Audited>, rank: Collation)
    requires queue != [] && InTurn(queue, rank)
    ensures FirstAt(queue, rank) == 0
  {
    if |queue| > 1 { assert Precedes(queue[0], queue[1 + FirstAt(queue[1..], rank)], rank); }
  }

  lemma {:induction false} InTurnIsPreparedOrder(queue: seq<Audited>, rank: Collation)
    requires InTurn(queue, rank)
    ensures PreparedOrder(queue, rank) == queue
    decreases |queue|
  {
    if queue != [] {
      InTurnTail(queue, rank);
      InTurnStartsFirst(queue, rank);
      InTurnIsPreparedOrder(queue[1..], rank);
        HeadAndTail(queue);
    }
  }

  lemma HeadAndTail(queue: seq<Audited>)
    requires queue != []
    ensures Without(queue, 0) == queue[1..] && [queue[0]] + queue[1..] == queue
  {}

  lemma {:induction false} WrittenOrderSurvives(queue: seq<Audited>, start: Tables, end: Tables, known: bool,
                                                k: EntityKey)
    requires AllAuditable(queue) && Chain(queue, start, end)
    ensures SurvivesOrder(k, Get(start, k), known, queue) && EndsIn(k, Get(start, k), queue) == Get(end, k)
    decreases |queue|
  {
    if queue != [] {
      AuditableTail(queue);
      GroupOnEntity(start, queue[0], k);
      WrittenOrderSurvives(queue[1..], Left(queue[0]), end, known || Touches(queue[0], k), k);
    }
  }

  /** Prepared in the order it was written, a queue never fails and leaves the states right. */
  lemma WrittenOrderIsSafe(s: SenderState, start: Tables, end: Tables, queue: seq<Audited>, later: OutboxRows,
                           device: OpaqueId, devices: set<OpaqueId>, rank: Collation)
    requires Total(rank) && Settled(s, start, device, devices, rank)
    requires HoldsQueue(s.outbox, queue, later, rank) && Chain(queue, start, end) && InTurn(queue, rank)
    ensures
      var r := PrepareTimes(s, |queue|, device, rank);
      r.Ok? && r.value.outbox == later && Consistent(end, r.value.states)
  {
    QueueOutcome(s, start, end, queue, later, device, devices, rank);
    InTurnIsPreparedOrder(queue, rank);
    forall k
      ensures SurvivesOrder(k, Get(start, k), k in s.states.Keys, queue)
      ensures EndsIn(k, Get(start, k), queue) == Get(end, k)
    {
      WrittenOrderSurvives(queue, start, end, k in s.states.Keys, k);
    }
  }
}
