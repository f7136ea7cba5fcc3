/**
 * Clock comparison against the happened-before relation of a causal log: an operation
 * happened before another when a chain of claims leads from the later to the earlier.
 */
module HappensBefore {
  import opened Wrappers
  import opened SyncOperation
  import opened Causal
  import opened CausalLog
  import opened CausalTheorems

  /** Row j claims row i. */
  predicate Edge(seen: seq<Seen>, i: nat, j: nat)
    requires i < |seen| && j < |seen|
  {
    seen[i].hash.OperationDigest? && seen[j].hash.OperationDigest?
    && EntryOf(OpOf(seen[i])) in OpOf(seen[j]).frontier
  }

  predicate Reaches(seen: seq<Seen>, i: nat, j: nat)
    requires i < |seen| && j < |seen|
    decreases j
  {
    Edge(seen, i, j) || exists k :: i < k < j && Edge(seen, k, j) && Reaches(seen, i, k)
  }

  predicate EdgeClosed(seen: seq<Seen>, i: nat, j: nat)
    requires i < |seen| && j < |seen|
  {
    Edge(seen, i, j) ==>
      forall c :: c in OpOf(seen[i]).frontier ==>
        SequenceOf(OpOf(seen[j]).frontier, c.device) >= c.sequence
  }

  /** Every operation also claims whatever the operations it claims had claimed. */
  predicate ClaimsClosed(seen: seq<Seen>) {
    forall i, j {:trigger EdgeClosed(seen, i, j)} ::
      0 <= i < |seen| && 0 <= j < |seen| ==> EdgeClosed(seen, i, j)
  }

  function ClockSequence(op: Operation, d: OpaqueId): nat {
    if d == op.device then op.sequence else SequenceOf(op.frontier, d)
  }

  ghost predicate Dominates(low: Operation, high: Operation) {
    forall d :: ClockSequence(low, d) <= ClockSequence(high, d)
  }

  lemma BelowIffDominates(a: Operation, b: Operation, left: seq<Entry>, right: seq<Entry>)
    requires ClockReads(left, a) && ClockReads(right, b)
    ensures Below(left, right) <==> Dominates(a, b)
  {
    assert forall d :: SequenceOf(left, d) == ClockSequence(a, d) && SequenceOf(right, d) == ClockSequence(b, d);
  }

  lemma BeforeIffDominates(s: CausalState, i: nat, j: nat, rank: Collation)
    requires Total(rank) && Good(s, rank) && i < |s.seen| && j < |s.seen| && i != j
    ensures RowGood(s.seen, i) && RowGood(s.seen, j)
    ensures CompareClocks(OpOf(s.seen[i]), OpOf(s.seen[j]), rank) == Ok(Before) <==>
      Dominates(OpOf(s.seen[i]), OpOf(s.seen[j]))
  {
    PairOrder(s, i, j, rank);
    ClockOfAccepted(s, i, rank);
    ClockOfAccepted(s, j, rank);
    var left, right := Clock(OpOf(s.seen[i]), rank).value, Clock(OpOf(s.seen[j]), rank).value;
    NotAheadIffBelow(left, right);
    NotAheadIffBelow(right, left);
    BelowIffDominates(OpOf(s.seen[i]), OpOf(s.seen[j]), left, right);
  }

  lemma EdgeIsEarlier(seen: seq<Seen>, i: nat, j: nat)
    requires GoodLog(seen) && i < |seen| && j < |seen| && Edge(seen, i, j)
    ensures i < j
  {
    assert RowGood(seen, i) && RowGood(seen, j);
    var k := ClaimedRow(seen, j, EntryOf(OpOf(seen[i])));
    IdentityIsUnique(seen, i, k);
  }

  /** The own-device entry of a claimed frontier is the direct predecessor. */
  lemma OwnClaim(seen: seq<Seen>, j: nat)
    requires j < |seen| && RowGood(seen, j)
    ensures SequenceOf(OpOf(seen[j]).frontier, seen[j].device) == seen[j].sequence - 1
  {}

  lemma {:induction false} SameDeviceReaches(seen: seq<Seen>, i: nat, j: nat)
    requires GoodLog(seen) && i < j < |seen| && seen[i].device == seen[j].device
    ensures Reaches(seen, i, j)
    decreases j
  {
    assert RowGood(seen, i) && RowGood(seen, j);
    SequencesIncrease(seen, i, j);
    var own := Lookup(OpOf(seen[j]).frontier, seen[j].device).value;
    var k := ClaimedRow(seen, j, own);
    assert RowGood(seen, k);
    assert Edge(seen, k, j);
    if k < i { SequencesIncrease(seen, k, i); }
    if k > i { SameDeviceReaches(seen, i, k); }
  }

  /** A clock that covers an operation was reached from it by claims. */
  lemma DominatesReaches(s: CausalState, i: nat, j: nat, rank: Collation)
    requires Good(s, rank) && i < j < |s.seen| && RowGood(s.seen, i) && RowGood(s.seen, j)
    requires ClockSequence(OpOf(s.seen[j]), s.seen[i].device) >= s.seen[i].sequence
    ensures Reaches(s.seen, i, j)
  {
    var seen := s.seen;
    if seen[i].device == seen[j].device {
      SameDeviceReaches(seen, i, j);
    } else {
      var e := Lookup(OpOf(seen[j]).frontier, seen[i].device).value;
      var k := ClaimedRow(seen, j, e);
      assert RowGood(seen, k);
      assert Edge(seen, k, j);
      if k < i { SequencesIncrease(seen, k, i); }
      if k > i { SameDeviceReaches(seen, i, k); }
    }
  }

  lemma EdgeDominates(seen: seq<Seen>, i: nat, j: nat)
    requires GoodLog(seen) && ClaimsClosed(seen) && i < |seen| && j < |seen| && Edge(seen, i, j)
    ensures Dominates(OpOf(seen[i]), OpOf(seen[j]))
  {
    assert RowGood(seen, i) && RowGood(seen, j) && EdgeClosed(seen, i, j);
    EdgeIsEarlier(seen, i, j);
    var a, b := OpOf(seen[i]), OpOf(seen[j]);
    MemberSequence(b.frontier, EntryOf(a));
    OwnClaim(seen, j);
    forall d ensures ClockSequence(a, d) <= ClockSequence(b, d) {
      if d != a.device && Lookup(a.frontier, d).Some? {
        assert Lookup(a.frontier, d).value in a.frontier;
      }
    }
  }

  lemma {:induction false} ReachesDominates(seen: seq<Seen>, i: nat, j: nat)
    requires GoodLog(seen) && ClaimsClosed(seen) && i < |seen| && j < |seen| && Reaches(seen, i, j)
    ensures RowGood(seen, i) && RowGood(seen, j)
    ensures i < j && Dominates(OpOf(seen[i]), OpOf(seen[j]))
    decreases j
  {
    assert RowGood(seen, i) && RowGood(seen, j);
    if Edge(seen, i, j) {
      EdgeDominates(seen, i, j);
      EdgeIsEarlier(seen, i, j);
    } else {
      var k :| i < k < j && Edge(seen, k, j) && Reaches(seen, i, k);
      ReachesDominates(seen, i, k);
      EdgeDominates(seen, k, j);
      forall d ensures ClockSequence(OpOf(seen[i]), d) <= ClockSequence(OpOf(seen[j]), d) {
        assert ClockSequence(OpOf(seen[i]), d) <= ClockSequence(OpOf(seen[k]), d) <= ClockSequence(OpOf(seen[j]), d);
      }
    }
  }

  /** 'before' never lies: it always follows a chain of claims, whatever was claimed. */
  lemma BeforeImpliesReaches(s: CausalState, i: nat, j: nat, rank: Collation)
    requires Total(rank) && Good(s, rank) && i < |s.seen| && j < |s.seen| && i != j
    requires s.seen[i].hash.OperationDigest? && s.seen[j].hash.OperationDigest?
    requires CompareClocks(OpOf(s.seen[i]), OpOf(s.seen[j]), rank) == Ok(Before)
    ensures Reaches(s.seen, i, j)
  {
    PairOrder(s, i, j, rank);
    BeforeIffDominates(s, i, j, rank);
    assert ClockSequence(OpOf(s.seen[i]), s.seen[i].device) <= ClockSequence(OpOf(s.seen[j]), s.seen[i].device);
    DominatesReaches(s, i, j, rank);
  }

  lemma BeforeEdgeIsClosed(s: CausalState, i: nat, j: nat, rank: Collation)
    requires Total(rank) && Good(s, rank) && i < |s.seen| && j < |s.seen| && Edge(s.seen, i, j)
    requires CompareClocks(OpOf(s.seen[i]), OpOf(s.seen[j]), rank) == Ok(Before)
    ensures EdgeClosed(s.seen, i, j)
  {
    EdgeIsEarlier(s.seen, i, j);
    BeforeIffDominates(s, i, j, rank);
    var a, b := OpOf(s.seen[i]), OpOf(s.seen[j]);
    MemberSequence(b.frontier, EntryOf(a));
    OwnClaim(s.seen, i);
    OwnClaim(s.seen, j);
    forall c | c in a.frontier ensures SequenceOf(b.frontier, c.device) >= c.sequence {
      MemberSequence(a.frontier, c);
      assert ClockSequence(a, c.device) <= ClockSequence(b, c.device);
      var k := ClaimedRow(s.seen, i, c);
      if c.device == b.device { SequencesIncrease(s.seen, k, j); }
    }
  }

  /** Happened-before and the clock order coincide on every pair of accepted operations. */
  ghost predicate ClocksCharacterizeReaching(s: CausalState, rank: Collation) {
    forall i, j {:trigger Reaches(s.seen, i, j)} ::
      0 <= i < |s.seen| && 0 <= j < |s.seen| && i != j
      && s.seen[i].hash.OperationDigest? && s.seen[j].hash.OperationDigest? ==>
        (CompareClocks(OpOf(s.seen[i]), OpOf(s.seen[j]), rank) == Ok(Before) <==> Reaches(s.seen, i, j))
  }

  /**
   * Comparing clocks decides happened-before exactly in the logs whose operations
   * repeat the claims of the operations they claim.
   */
  lemma ClockOrderIsHappenedBeforeIff(deliveries: seq<Delivery>, rank: Collation)
    requires Total(rank)
    ensures ClocksCharacterizeReaching(Run(deliveries, rank), rank) <==> ClaimsClosed(Run(deliveries, rank).seen)
  {
    var s := Run(deliveries, rank);
    AcceptedLogsAreGood(deliveries, rank);
    if ClaimsClosed(s.seen) {
      forall i, j | 0 <= i < |s.seen| && 0 <= j < |s.seen| && i != j
        && s.seen[i].hash.OperationDigest? && s.seen[j].hash.OperationDigest?
        ensures CompareClocks(OpOf(s.seen[i]), OpOf(s.seen[j]), rank) == Ok(Before) <==> Reaches(s.seen, i, j)
      {
        if Reaches(s.seen, i, j) {
          ReachesDominates(s.seen, i, j);
          BeforeIffDominates(s, i, j, rank);
        } else if CompareClocks(OpOf(s.seen[i]), OpOf(s.seen[j]), rank) == Ok(Before) {
          BeforeImpliesReaches(s, i, j, rank);
        }
      }
    }
    if ClocksCharacterizeReaching(s, rank) {
      forall i, j | 0 <= i < |s.seen| && 0 <= j < |s.seen| ensures EdgeClosed(s.seen, i, j) {
        if Edge(s.seen, i, j) {
          EdgeIsEarlier(s.seen, i, j);
          assert Reaches(s.seen, i, j);
          BeforeEdgeIsClosed(s, i, j, rank);
        }
      }
    }
  }
}
