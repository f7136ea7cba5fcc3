/**
 * Clocks of accepted operations: redelivery, comparisons that never throw, and the server order
 * as a linear extension of the causal order (src/domain/sync/causal.ts, 129-340).
 */
module CausalTheorems {
  import opened Wrappers
  import opened SyncOperation
  import opened Causal
  import opened CausalLog

  /** `operationClock`: the claimed frontier with the operation's own entry set. */
  function Clock(op: Operation, rank: Collation): Result<seq<Entry>, CausalError> {
    if !ValidOperation(op) then Err(SchemaViolation)
    else SortedFrontier(SetEntry(op.frontier, EntryOf(op)), rank)
  }

  function CompareClocks(a: Operation, b: Operation, rank: Collation): Result<CausalOrder, CausalError> {
    match Clock(a, rank)
    case Err(e) => Err(e)
    case Ok(left) =>
      match Clock(b, rank)
      case Err(e) => Err(e)
      case Ok(right) => Compare(left, right)
  }

  // ---- Redelivery ----

  lemma RedeliveryIsExactDuplicate(s: CausalState, i: nat, rank: Collation)
    requires Good(s, rank) && i < |s.seen|
    ensures s.seen[i].hash.OperationDigest?
    ensures Accept(s, OpOf(s.seen[i]), i + 1, rank) == ExactDuplicate(s.seen[i].hash, s)
  {
    assert RowGood(s.seen, i);
    GoodIsValid(s, rank);
    var found := FindById(s.seen, s.seen[i].id);
    var f := RowIndex(s.seen, found.value);
    assert f == i;
  }

  lemma DuplicateRow(s: CausalState, op: Operation, cursor: nat, rank: Collation)
    requires GoodLog(s.seen) && Accept(s, op, cursor, rank).ExactDuplicate?
    ensures exists i :: 0 <= i < |s.seen| && s.seen[i].hash == OperationDigest(op) && cursor == i + 1
  {
    assert FindById(s.seen, op.id).Some?;
    var prior := FindById(s.seen, op.id).value;
    assert prior.hash == OperationDigest(op) && prior.cursor == cursor;
    var f := RowIndex(s.seen, prior);
    assert RowGood(s.seen, f);
  }

  /** Only a repeat of an accepted operation at its own cursor is an exact duplicate. */
  lemma ExactDuplicateIff(s: CausalState, op: Operation, cursor: nat, rank: Collation)
    requires Good(s, rank)
    ensures Accept(s, op, cursor, rank).ExactDuplicate? <==>
      exists i :: 0 <= i < |s.seen| && s.seen[i].hash == OperationDigest(op) && cursor == i + 1
  {
    if i :| 0 <= i < |s.seen| && s.seen[i].hash == OperationDigest(op) && cursor == i + 1 {
      RedeliveryIsExactDuplicate(s, i, rank);
    }
    if Accept(s, op, cursor, rank).ExactDuplicate? {
      DuplicateRow(s, op, cursor, rank);
    }
  }

  // ---- Clocks of accepted operations always parse ----

  lemma {:induction false} DistinctCardinality(frontier: seq<Entry>)
    requires Distinct(frontier)
    ensures |Devices(frontier)| == |frontier|
  {
    if frontier != [] {
      var n := |frontier| - 1;
      DistinctCardinality(frontier[..n]);
      assert frontier == frontier[..n] + [frontier[n]];
      assert Devices(frontier) == Devices(frontier[..n]) + {frontier[n].device};
    }
  }

  lemma SubsetCardinality(small: set<OpaqueId>, large: set<OpaqueId>)
    requires small <= large
    ensures |small| <= |large|
  {
    assert large == small + (large - small);
  }

  lemma KnownDevice(s: CausalState, rank: Collation, k: nat)
    requires Good(s, rank) && k < |s.seen|
    ensures Lookup(s.frontier, s.seen[k].device).Some?
    ensures SequenceOf(s.frontier, s.seen[k].device) >= s.seen[k].sequence
  {
    assert s.seen[..|s.seen|] == s.seen;
    LastIsGreatest(s.seen, |s.seen|, k);
    assert Lookup(s.frontier, s.seen[k].device) == RowEntry(LastOf(s.seen, s.seen[k].device));
  }

  /** The accepted row a claim of row j names; it is always an earlier one. */
  lemma ClaimedRow(seen: seq<Seen>, j: nat, c: Entry) returns (k: nat)
    requires GoodLog(seen) && j < |seen| && RowGood(seen, j) && c in OpOf(seen[j]).frontier
    ensures k < j && Matches(seen[k], c) && seen[k].lamport < seen[j].lamport
  {
    var earlier := seen[..j];
    k :| 0 <= k < |earlier| && Matches(earlier[k], c) && earlier[k].lamport < seen[j].lamport;
  }

  ghost predicate ClockReads(clock: seq<Entry>, op: Operation) {
    ValidFrontier(clock)
    && forall d :: Lookup(clock, d) == if d == op.device then Some(EntryOf(op)) else Lookup(op.frontier, d)
  }

  lemma ClockOfAccepted(s: CausalState, j: nat, rank: Collation)
    requires Total(rank) && Good(s, rank) && j < |s.seen|
    ensures RowGood(s.seen, j)
    ensures Clock(OpOf(s.seen[j]), rank).Ok?
    ensures ClockReads(Clock(OpOf(s.seen[j]), rank).value, OpOf(s.seen[j]))
  {
    assert RowGood(s.seen, j);
    var op := OpOf(s.seen[j]);
    var clock := SetEntry(op.frontier, EntryOf(op));
    DistinctWhenSorted(op.frontier);
    forall e | e in clock
      ensures e.device in Devices(s.frontier) && Lookup(s.frontier, e.device).Some? && e.sequence > 0
    {
      ClockDevicesKnown(s, j, rank, e);
    }
    forall a, b | a in clock && b in clock && a.device < b.device ensures rank(a.device) < rank(b.device) {
      assert Lookup(s.frontier, a.device).value in s.frontier && Lookup(s.frontier, b.device).value in s.frontier;
    }
    ClockFits(s.frontier, clock);
    SortedFrontierOkIff(clock, rank);
    SortKeepsLookups(clock, rank);
  }

  lemma ClockDevicesKnown(s: CausalState, j: nat, rank: Collation, e: Entry)
    requires Good(s, rank) && j < |s.seen| && RowGood(s.seen, j)
    requires e in SetEntry(OpOf(s.seen[j]).frontier, EntryOf(OpOf(s.seen[j])))
    ensures e.device in Devices(s.frontier) && Lookup(s.frontier, e.device).Some? && e.sequence > 0
  {
    var op := OpOf(s.seen[j]);
    DistinctWhenSorted(op.frontier);
    if e == EntryOf(op) {
      KnownDevice(s, rank, j);
    } else {
      var k := ClaimedRow(s.seen, j, e);
      KnownDevice(s, rank, k);
    }
    assert Lookup(s.frontier, e.device).value in s.frontier;
  }

  lemma ClockFits(frontier: seq<Entry>, clock: seq<Entry>)
    requires ValidFrontier(frontier) && Distinct(clock)
    requires forall e :: e in clock ==> e.device in Devices(frontier)
    ensures |clock| <= MAX_FRONTIER_DEVICES
  {
    DistinctWhenSorted(frontier);
    DistinctCardinality(frontier);
    DistinctCardinality(clock);
    SubsetCardinality(Devices(clock), Devices(frontier));
  }

  // ---- Reading a clock against the log ----

  /** Any entry of row j's clock names an accepted row no later than j. */
  lemma ClockEntryRow(s: CausalState, j: nat, rank: Collation, e: Entry) returns (k: nat)
    requires Total(rank) && Good(s, rank) && j < |s.seen| && RowGood(s.seen, j)
    requires Clock(OpOf(s.seen[j]), rank).Ok? && e in Clock(OpOf(s.seen[j]), rank).value
    ensures k <= j && Matches(s.seen[k], e)
    ensures e.device != s.seen[j].device ==> k < j
    ensures e.device == s.seen[j].device ==> k == j
  {
    ClockOfAccepted(s, j, rank);
    var op := OpOf(s.seen[j]);
    var clock := Clock(op, rank).value;
    MemberSequence(clock, e);
    if e.device == op.device {
      k := j;
    } else {
      assert Lookup(op.frontier, e.device) == Some(e);
      k := ClaimedRow(s.seen, j, e);
    }
  }

  lemma AcceptedClocksNeverClash(s: CausalState, i: nat, j: nat, rank: Collation)
    requires Total(rank) && Good(s, rank) && i < |s.seen| && j < |s.seen|
    requires RowGood(s.seen, i) && RowGood(s.seen, j)
    ensures CompareClocks(OpOf(s.seen[i]), OpOf(s.seen[j]), rank).Ok?
  {
    ClockOfAccepted(s, i, rank);
    ClockOfAccepted(s, j, rank);
    var left, right := Clock(OpOf(s.seen[i]), rank).value, Clock(OpOf(s.seen[j]), rank).value;
    if Clash(left, right) {
      var e :| e in left && Lookup(right, e.device).Some?
        && Lookup(right, e.device).value.sequence == e.sequence
        && Lookup(right, e.device).value.hash != e.hash;
      var k := ClockEntryRow(s, i, rank, e);
      var l := ClockEntryRow(s, j, rank, Lookup(right, e.device).value);
      IdentityIsUnique(s.seen, k, l);
      assert false;
    }
  }

  /** A clock that reaches row i's own entry belongs to a row accepted no earlier. */
  lemma CoveringIsLater(s: CausalState, i: nat, j: nat, rank: Collation)
    requires Total(rank) && Good(s, rank) && i < |s.seen| && j < |s.seen|
    requires RowGood(s.seen, i) && RowGood(s.seen, j)
    requires Clock(OpOf(s.seen[j]), rank).Ok?
    requires SequenceOf(Clock(OpOf(s.seen[j]), rank).value, s.seen[i].device) >= s.seen[i].sequence
    ensures i <= j
  {
    var e := Lookup(Clock(OpOf(s.seen[j]), rank).value, s.seen[i].device).value;
    var k := ClockEntryRow(s, j, rank, e);
    if k < i { SequencesIncrease(s.seen, k, i); }
  }

  lemma NotAheadCovers(left: seq<Entry>, right: seq<Entry>, e: Entry)
    requires e in left && !Ahead(left, right)
    ensures SequenceOf(right, e.device) >= e.sequence
  {}

  lemma OwnEntryInClock(s: CausalState, i: nat, rank: Collation)
    requires Total(rank) && Good(s, rank) && i < |s.seen|
    ensures RowGood(s.seen, i)
    ensures Clock(OpOf(s.seen[i]), rank).Ok? && EntryOf(OpOf(s.seen[i])) in Clock(OpOf(s.seen[i]), rank).value
  {
    ClockOfAccepted(s, i, rank);
    var clock := Clock(OpOf(s.seen[i]), rank).value;
    assert Lookup(clock, s.seen[i].device) == Some(EntryOf(OpOf(s.seen[i])));
  }

  /**
   * The server's cursor order is a linear extension of the causal order: comparing the
   * clocks of two accepted operations never throws, never calls them equal, and an
   * operation that compares 'before' another has the smaller cursor.
   */
  lemma CursorOrderExtendsCausalOrder(deliveries: seq<Delivery>, rank: Collation, i: nat, j: nat)
    requires Total(rank) && i < |Run(deliveries, rank).seen| && j < |Run(deliveries, rank).seen| && i != j
    ensures
      var seen := Run(deliveries, rank).seen;
      && RowGood(seen, i) && RowGood(seen, j)
      && var order := CompareClocks(OpOf(seen[i]), OpOf(seen[j]), rank);
      && order.Ok? && order.value != Equal
      && (order.value == Before ==> seen[i].cursor < seen[j].cursor)
      && (order.value == After ==> seen[j].cursor < seen[i].cursor)
  {
    AcceptedLogsAreGood(deliveries, rank);
    PairOrder(Run(deliveries, rank), i, j, rank);
  }

  lemma PairOrder(s: CausalState, i: nat, j: nat, rank: Collation)
    requires Total(rank) && Good(s, rank) && i < |s.seen| && j < |s.seen| && i != j
    ensures RowGood(s.seen, i) && RowGood(s.seen, j)
    ensures
      var order := CompareClocks(OpOf(s.seen[i]), OpOf(s.seen[j]), rank);
      && order.Ok? && order.value != Equal
      && (order.value == Before ==> i < j)
      && (order.value == After ==> j < i)
  {
    OwnEntryInClock(s, i, rank);
    OwnEntryInClock(s, j, rank);
    AcceptedClocksNeverClash(s, i, j, rank);
    var left, right := Clock(OpOf(s.seen[i]), rank).value, Clock(OpOf(s.seen[j]), rank).value;
    if !Ahead(left, right) {
      NotAheadCovers(left, right, EntryOf(OpOf(s.seen[i])));
      CoveringIsLater(s, i, j, rank);
    }
    if !Ahead(right, left) {
      NotAheadCovers(right, left, EntryOf(OpOf(s.seen[j])));
      CoveringIsLater(s, j, i, rank);
    }
  }
}
