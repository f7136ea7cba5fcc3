/**
 * Merge classification and conflict resolution (src/domain/sync/causal.ts), and a
 * concrete log on which clock comparison misses a claimed predecessor.
 */
module Merging {
  import opened Wrappers
  import opened SyncOperation
  import opened Causal
  import opened CausalLog
  import opened CausalTheorems
  import opened HappensBefore

  datatype ConflictType = EditEdit | EditDelete | DeleteDelete

  datatype MergeDecision =
    | DuplicateIgnored
    | IncomingBeforeExisting
    | IncomingAfterExisting
    | ConcurrentDisjointEntities
    | TombstoneResurrection
    | ConcurrentSameEntity(conflict: ConflictType)

  function DecisionFor(order: CausalOrder, existing: Command, incoming: Command): MergeDecision {
    var sameEntity := existing.key == incoming.key;
    match order
    case Before =>
      if sameEntity && existing.tombstone.Some? && incoming.tombstone.None? then TombstoneResurrection
      else IncomingAfterExisting
    case After => IncomingBeforeExisting
    case _ =>
      if !sameEntity then ConcurrentDisjointEntities
      else ConcurrentSameEntity(
        if existing.tombstone.Some? && incoming.tombstone.Some? then DeleteDelete
        else if existing.tombstone.Some? || incoming.tombstone.Some? then EditDelete
        else EditEdit)
  }

  function Classify(existing: Operation, incoming: Operation, rank: Collation): Result<MergeDecision, CausalError> {
    if !ValidOperation(existing) || !ValidOperation(incoming) then Err(SchemaViolation)
    else if existing.id == incoming.id then
      if existing != incoming then Err(OperationIdReuse) else Ok(DuplicateIgnored)
    else if existing.device == incoming.device && existing.sequence == incoming.sequence
    then Err(DeviceSequenceReuse)
    else
      match CompareClocks(existing, incoming, rank)
      case Err(e) => Err(e)
      case Ok(order) => Ok(DecisionFor(order, existing.command, incoming.command))
  }

  /** Replaying an accepted log in cursor order never ignores an operation and never throws. */
  lemma ReplayNeverIgnores(deliveries: seq<Delivery>, rank: Collation, i: nat, j: nat)
    requires Total(rank) && i < j < |Run(deliveries, rank).seen|
    ensures
      var seen := Run(deliveries, rank).seen;
      && RowGood(seen, i) && RowGood(seen, j)
      && var merge := Classify(OpOf(seen[i]), OpOf(seen[j]), rank);
      && merge.Ok? && merge.value != DuplicateIgnored && merge.value != IncomingBeforeExisting
  {
    AcceptedLogsAreGood(deliveries, rank);
    LaterIsNeverIgnored(Run(deliveries, rank), rank, i, j);
  }

  lemma ForwardIsKept(existing: Operation, incoming: Operation, rank: Collation)
    requires ValidOperation(existing) && ValidOperation(incoming) && existing.id != incoming.id
    requires existing.device == incoming.device ==> existing.sequence != incoming.sequence
    requires
      var order := CompareClocks(existing, incoming, rank);
      order.Ok? && (order.value == Before || order.value == Concurrent)
    ensures
      var merge := Classify(existing, incoming, rank);
      merge.Ok? && merge.value != DuplicateIgnored && merge.value != IncomingBeforeExisting
  {}

  lemma LaterIsNeverIgnored(s: CausalState, rank: Collation, i: nat, j: nat)
    requires Total(rank) && Good(s, rank) && i < j < |s.seen|
    ensures RowGood(s.seen, i) && RowGood(s.seen, j)
    ensures
      var merge := Classify(OpOf(s.seen[i]), OpOf(s.seen[j]), rank);
      merge.Ok? && merge.value != DuplicateIgnored && merge.value != IncomingBeforeExisting
  {
    PairOrder(s, i, j, rank);
    assert s.seen[i].id != s.seen[j].id;
    if s.seen[i].device == s.seen[j].device { SequencesIncrease(s.seen, i, j); }
    ForwardIsKept(OpOf(s.seen[i]), OpOf(s.seen[j]), rank);
  }

  lemma CompareClocksSwaps(a: Operation, b: Operation, rank: Collation)
    ensures CompareClocks(a, b, rank).Ok? ==> CompareClocks(b, a, rank) == SwapResult(CompareClocks(a, b, rank))
  {
    if Clock(a, rank).Ok? && Clock(b, rank).Ok? {
      CompareAntisymmetric(Clock(a, rank).value, Clock(b, rank).value);
    }
  }

  /** Both replicas of a concurrent pair see the same conflict, whichever arrived first. */
  lemma ConflictsAreSymmetric(a: Operation, b: Operation, rank: Collation)
    requires Classify(a, b, rank).Ok?
    requires Classify(a, b, rank).value.ConcurrentSameEntity? || Classify(a, b, rank).value.ConcurrentDisjointEntities?
    ensures Classify(b, a, rank) == Classify(a, b, rank)
  {
    CompareClocksSwaps(a, b, rank);
  }

  datatype ResolutionError =
    | NotAConflict
    | NotANewCommand
    | VersionNotCovered
    | NotCausallyAfter
    | Comparison(error: CausalError)

  function CoversConflict(conflict: Operation, resolution: Operation, rank: Collation): Option<ResolutionError> {
    match CompareClocks(conflict, resolution, rank)
    case Err(e) => Some(Comparison(e))
    case Ok(order) => if order != Before then Some(NotCausallyAfter) else None
  }

  predicate NewCommandFor(resolution: Operation, conflict: Operation) {
    resolution.id != conflict.id && resolution.command.key == conflict.command.key
  }

  /** `None` when the resolution is admitted. */
  function AssertResolution(resolution: Operation, a: Operation, b: Operation, rank: Collation): Option<ResolutionError>
  {
    if !ValidOperation(resolution) then Some(Comparison(SchemaViolation))
    else
      match Classify(a, b, rank)
      case Err(e) => Some(Comparison(e))
      case Ok(merge) =>
        if !merge.ConcurrentSameEntity? then Some(NotAConflict)
        else if !NewCommandFor(resolution, a) || !NewCommandFor(resolution, b) then Some(NotANewCommand)
        else if resolution.command.precondition.version
                < Max(a.command.result.version, b.command.result.version) then Some(VersionNotCovered)
        else
          match CoversConflict(a, resolution, rank)
          case Some(e) => Some(e)
          case None => CoversConflict(b, resolution, rank)
  }

  lemma BeforeHasOtherIdentity(a: Operation, b: Operation, rank: Collation)
    requires Total(rank) && ValidOperation(a) && ValidOperation(b) && a != b
    requires CompareClocks(a, b, rank) == Ok(Before)
    ensures a.device != b.device || a.sequence != b.sequence
  {
    DistinctWhenSorted(a.frontier);
    DistinctWhenSorted(b.frontier);
    SortKeepsLookups(SetEntry(a.frontier, EntryOf(a)), rank);
    SortKeepsLookups(SetEntry(b.frontier, EntryOf(b)), rank);
    var left, right := Clock(a, rank).value, Clock(b, rank).value;
    assert Lookup(left, a.device) == Some(EntryOf(a)) && Lookup(right, b.device) == Some(EntryOf(b));
    BeforeIff(left, right);
  }

  lemma ResolutionFollows(resolution: Operation, conflict: Operation, rank: Collation)
    requires Total(rank) && ValidOperation(resolution) && ValidOperation(conflict)
    requires NewCommandFor(resolution, conflict) && CompareClocks(conflict, resolution, rank) == Ok(Before)
    ensures Classify(resolution, conflict, rank) == Ok(IncomingBeforeExisting)
    ensures Classify(conflict, resolution, rank) ==
      if conflict.command.tombstone.Some? && resolution.command.tombstone.None?
      then Ok(TombstoneResurrection) else Ok(IncomingAfterExisting)
  {
    BeforeHasOtherIdentity(conflict, resolution, rank);
    CompareClocksSwaps(conflict, resolution, rank);
  }

  /**
   * An admitted resolution is never concurrent with either conflict: a late conflict is
   * ignored, and the resolution applies over it, except that a resolution which keeps
   * the entity is sent back for review against a conflicting delete.
   */
  lemma ResolutionSettlesBoth(resolution: Operation, a: Operation, b: Operation, rank: Collation)
    requires Total(rank) && AssertResolution(resolution, a, b, rank).None?
    ensures forall c :: c == a || c == b ==>
      && Classify(resolution, c, rank) == Ok(IncomingBeforeExisting)
      && (Classify(c, resolution, rank) == Ok(IncomingAfterExisting) <==>
           c.command.tombstone.None? || resolution.command.tombstone.Some?)
      && c.command.result.version < resolution.command.result.version
  {
    ResolutionFollows(resolution, a, rank);
    ResolutionFollows(resolution, b, rank);
  }

  // ---- A log whose clocks miss a claimed predecessor ----

  function WitnessOperation(id: OpaqueId, device: OpaqueId, sequence: nat, lamport: nat,
                            frontier: seq<Entry>, previous: Option<Digest>): Operation {
    var key := EntityKey(Account, "a");
    Operation(id, id, 0, 1, device, sequence, lamport, frontier, [],
      Command(Upsert, key, Precondition(0, None, false),
        CommandResult(1, StateDigest(key, 1, Some("v"), None), false), Some("v"), None),
      previous, 0)
  }

  const WitnessA1 := WitnessOperation(1, 1, 1, 1, [], None)
  const WitnessB1 := WitnessOperation(2, 2, 1, 2, [EntryOf(WitnessA1)], None)
  const WitnessB2 := WitnessOperation(3, 2, 2, 3, [EntryOf(WitnessB1)], Some(OperationDigest(WitnessB1)))
  const Alphabetical: Collation := (d: OpaqueId) => d as int

  lemma EntryRow(s: CausalState, k: nat, op: Operation, claim: Entry)
    requires Good(s, Alphabetical) && k < |s.seen| && Matches(s.seen[k], claim)
    requires claim.sequence > 0 && s.seen[k].lamport < op.lamport
    ensures ClaimError(s, claim).None? && ClaimLamport(s, claim) < op.lamport
  {
    ClaimPassesIff(s, Alphabetical, claim);
  }

  lemma WitnessAccepted(s: CausalState, op: Operation, frontier: seq<Entry>)
    requires Good(s, Alphabetical) && Acceptable(s, op, s.lastCursor + 1)
    requires SetEntry(s.frontier, EntryOf(op)) == frontier && ValidFrontier(frontier)
    requires SortByCollation(frontier, Alphabetical) == frontier
    ensures Accept(s, op, s.lastCursor + 1, Alphabetical) == Accepted(OperationDigest(op), NextState(s, op, frontier))
    ensures Good(NextState(s, op, frontier), Alphabetical)
  {
    assert SortedFrontier(SetEntry(s.frontier, EntryOf(op)), Alphabetical) == Ok(frontier);
    AcceptableIsAccepted(s, op, Alphabetical);
    AcceptableKeepsGood(s, op, s.lastCursor + 1, Alphabetical);
  }

  lemma SortShort(a: Entry, b: Entry, rank: Collation)
    requires rank(a.device) < rank(b.device)
    ensures SortByCollation([b], rank) == [b]
    ensures SortByCollation([a, b], rank) == [a, b]
  {
    assert [b][1..] == [] && [a, b][1..] == [b];
  }

  const A1 := EntryOf(WitnessA1)
  const B1 := EntryOf(WitnessB1)
  const B2 := EntryOf(WitnessB2)
  const LogA := NextState(EmptyState, WitnessA1, [A1])
  const LogAB := NextState(LogA, WitnessB1, [A1, B1])
  const LogABB := NextState(LogAB, WitnessB2, [A1, B2])

  lemma LogAAccepted()
    ensures Accept(EmptyState, WitnessA1, 1, Alphabetical) == Accepted(OperationDigest(WitnessA1), LogA)
    ensures Good(LogA, Alphabetical)
  {
    WitnessAccepted(EmptyState, WitnessA1, [A1]);
  }

  lemma LogABAccepted()
    requires Good(LogA, Alphabetical)
    ensures Accept(LogA, WitnessB1, 2, Alphabetical) == Accepted(OperationDigest(WitnessB1), LogAB)
    ensures Good(LogAB, Alphabetical)
  {
    EntryRow(LogA, 0, WitnessB1, A1);
    SortShort(A1, B1, Alphabetical);
    WitnessAccepted(LogA, WitnessB1, [A1, B1]);
  }

  lemma LogABBAccepted()
    requires Good(LogAB, Alphabetical)
    ensures Accept(LogAB, WitnessB2, 3, Alphabetical) == Accepted(OperationDigest(WitnessB2), LogABB)
    ensures Good(LogABB, Alphabetical)
  {
    EntryRow(LogAB, 1, WitnessB2, B1);
    SortShort(A1, B2, Alphabetical);
    assert LastOf(LogAB.seen, 2) == Some(LogAB.seen[1]);
    assert Acceptable(LogAB, WitnessB2, 3);
    WitnessAccepted(LogAB, WitnessB2, [A1, B2]);
  }

  const WitnessDeliveries := [Delivery(WitnessA1, 1), Delivery(WitnessB1, 2), Delivery(WitnessB2, 3)]

  lemma RunSnoc(deliveries: seq<Delivery>, d: Delivery, s: CausalState, next: CausalState)
    requires Run(deliveries, Alphabetical) == s
    requires Accept(s, d.operation, d.cursor, Alphabetical) == Accepted(OperationDigest(d.operation), next)
    ensures Run(deliveries + [d], Alphabetical) == next
  {
    assert (deliveries + [d])[..|deliveries|] == deliveries;
  }

  lemma RunA()
    ensures Run([Delivery(WitnessA1, 1)], Alphabetical) == LogA
  {
    LogAAccepted();
    RunSnoc([], Delivery(WitnessA1, 1), EmptyState, LogA);
    assert [] + [Delivery(WitnessA1, 1)] == [Delivery(WitnessA1, 1)];
  }

  lemma RunAB()
    ensures Run([Delivery(WitnessA1, 1), Delivery(WitnessB1, 2)], Alphabetical) == LogAB
    ensures Good(LogAB, Alphabetical)
  {
    RunA();
    LogAAccepted();
    LogABAccepted();
    RunSnoc([Delivery(WitnessA1, 1)], Delivery(WitnessB1, 2), LogA, LogAB);
    assert [Delivery(WitnessA1, 1)] + [Delivery(WitnessB1, 2)] == [Delivery(WitnessA1, 1), Delivery(WitnessB1, 2)];
  }

  lemma WitnessRun()
    ensures Run(WitnessDeliveries, Alphabetical) == LogABB
  {
    var earlier := [Delivery(WitnessA1, 1), Delivery(WitnessB1, 2)];
    RunAB();
    LogABBAccepted();
    RunSnoc(earlier, Delivery(WitnessB2, 3), LogAB, LogABB);
    assert WitnessDeliveries == earlier + [Delivery(WitnessB2, 3)];
  }

  lemma WitnessClocks()
    ensures Clock(WitnessB1, Alphabetical) == Ok([A1, B1])
    ensures Clock(WitnessB2, Alphabetical) == Ok([B2])
  {
    SortShort(A1, B1, Alphabetical);
    SortShort(A1, B2, Alphabetical);
    assert [A1][1..] == [];
    assert SetEntry([A1], B1) == [A1, B1];
  }

  lemma WitnessConcurrent()
    ensures CompareClocks(WitnessB1, WitnessB2, Alphabetical) == Ok(Concurrent)
  {
    WitnessClocks();
    assert A1 in [A1, B1] && B2 in [B2];
  }

  /**
   * Two operations chained by hash on one device can compare 'concurrent': the second
   * drops what the first had claimed, and it is accepted all the same.
   */
  lemma ChainedOperationsCanCompareConcurrent()
    ensures
      var seen := Run(WitnessDeliveries, Alphabetical).seen;
      && |seen| == 3 && seen[1] == RowOf(WitnessB1, 2) && seen[2] == RowOf(WitnessB2, 3)
      && WitnessB2.previousHash == Some(seen[1].hash)
      && Reaches(seen, 1, 2)
      && CompareClocks(WitnessB1, WitnessB2, Alphabetical) == Ok(Concurrent)
      && !ClaimsClosed(seen)
  {
    WitnessRun();
    WitnessConcurrent();
    assert Edge(LogABB.seen, 1, 2);
    assert !EdgeClosed(LogABB.seen, 1, 2) by { assert A1 in WitnessB1.frontier; }
  }

  // ---- A collation that disagrees with the code-unit order ----

  const Backwards: Collation := (d: OpaqueId) => -(d as int)

  lemma WitnessA1IsAcceptable()
    ensures Acceptable(EmptyState, WitnessA1, 1) && Good(EmptyState, Backwards)
    ensures SortedFrontier(SetEntry(EmptyState.frontier, A1), Backwards) == Ok([A1])
  {
    assert SortByCollation([A1], Backwards) == [A1];
  }

  lemma BackwardsLogA()
    ensures Run([Delivery(WitnessA1, 1)], Backwards) == LogA && Good(LogA, Backwards)
  {
    WitnessA1IsAcceptable();
    AcceptableIsAccepted(EmptyState, WitnessA1, Backwards);
    AcceptableKeepsGood(EmptyState, WitnessA1, 1, Backwards);
    assert [Delivery(WitnessA1, 1)][..0] == [];
  }

  lemma WitnessB1IsValid()
    ensures ValidOperation(WitnessB1)
  {
    assert A1.sequence == 1 && WitnessB1.frontier == [A1];
  }

  lemma WitnessB1IsNew()
    ensures LogA.seen == [RowOf(WitnessA1, 1)] && LogA.lastCursor == 1
    ensures FindById(LogA.seen, WitnessB1.id).None? && LastOf(LogA.seen, WitnessB1.device).None?
  {
    assert [RowOf(WitnessA1, 1)][1..] == [] && [RowOf(WitnessA1, 1)][..0] == [];
  }

  lemma WitnessB1IsAcceptable()
    requires Good(LogA, Alphabetical)
    ensures Acceptable(LogA, WitnessB1, 2)
  {
    WitnessB1IsValid();
    WitnessB1IsNew();
    EntryRow(LogA, 0, WitnessB1, A1);
  }

  lemma BackwardsSortFails()
    ensures SetEntry(LogA.frontier, B1) == [A1, B1]
    ensures SortedFrontier([A1, B1], Backwards) == Err(SchemaViolation)
  {
    assert [A1][1..] == [] && LogA.frontier == [A1];
    assert A1 in [A1, B1] && B1 in [A1, B1];
    SortedFrontierOkIff([A1, B1], Backwards);
  }

  lemma RefusedWhenSortFails(s: CausalState, op: Operation, cursor: nat, rank: Collation)
    requires Total(rank) && Good(s, rank) && Acceptable(s, op, cursor)
    requires SortedFrontier(SetEntry(s.frontier, EntryOf(op)), rank).Err?
    ensures Accept(s, op, cursor, rank).Rejected?
  {
    DistinctWhenSorted(s.frontier);
    SortedFrontierOkIff(SetEntry(s.frontier, EntryOf(op)), rank);
    AcceptedIff(s, op, cursor, rank);
  }

  /** After one operation, the first of a second device is refused: the sort puts it ahead, the schema behind. */
  lemma DisagreeingOrdersRefuse()
    ensures Run([Delivery(WitnessA1, 1)], Backwards) == LogA
    ensures Acceptable(LogA, WitnessB1, 2)
    ensures SortedFrontier(SetEntry(LogA.frontier, B1), Backwards) == Err(SchemaViolation)
    ensures Accept(LogA, WitnessB1, 2, Alphabetical).Accepted? && Accept(LogA, WitnessB1, 2, Backwards).Rejected?
  {
    BackwardsLogA();
    LogAAccepted();
    WitnessB1IsAcceptable();
    LogABAccepted();
    BackwardsSortFails();
    RefusedWhenSortFails(LogA, WitnessB1, 2, Backwards);
  }
}
