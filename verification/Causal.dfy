/**
 * Frontier comparison, clocks and acceptance of incoming operations
 * (src/domain/sync/causal.ts).
 */
module Causal {
  import opened Wrappers
  import opened SyncOperation

  datatype CausalError =
    | SchemaViolation
    | OperationIdReuse
    | OperationCursorMismatch
    | DeviceSequenceReuse
    | DeviceSequenceGap
    | BrokenPreviousOperationHash
    | ServerCursorReorder
    | ServerCursorGap
    | CausalGap
    | CausalHashMismatch
    | CausalHistoryUnavailable
    | LamportRegression

  datatype Seen = Seen(
    id: OpaqueId, hash: Digest, device: OpaqueId, sequence: nat, lamport: nat, cursor: nat)

  datatype CausalState = CausalState(frontier: seq<Entry>, lastCursor: nat, seen: seq<Seen>)

  const EmptyState := CausalState([], 0, [])

  datatype CausalOrder = Equal | Before | After | Concurrent

  // ---- The collated sort and the code-unit schema ----

  /** `localeCompare`: one identifier sorts before another when its rank is smaller. */
  type Collation = OpaqueId -> int

  ghost predicate Total(rank: Collation) {
    forall a, b :: rank(a) == rank(b) ==> a == b
  }

  predicate CollationAgrees(frontier: seq<Entry>, rank: Collation) {
    forall a, b :: a in frontier && b in frontier && a.device < b.device ==> rank(a.device) < rank(b.device)
  }

  ghost predicate SortedByRank(frontier: seq<Entry>, rank: Collation) {
    forall i, j :: 0 <= i < j < |frontier| ==> rank(frontier[i].device) <= rank(frontier[j].device)
  }

  function InsertByCollation(frontier: seq<Entry>, e: Entry, rank: Collation): seq<Entry> {
    if frontier == [] then [e]
    else if rank(e.device) < rank(frontier[0].device) then [e] + frontier
    else [frontier[0]] + InsertByCollation(frontier[1..], e, rank)
  }

  function SortByCollation(frontier: seq<Entry>, rank: Collation): seq<Entry> {
    if frontier == [] then []
    else InsertByCollation(SortByCollation(frontier[1..], rank), frontier[0], rank)
  }

  lemma {:induction false} InsertIsPermutation(frontier: seq<Entry>, e: Entry, rank: Collation)
    ensures multiset(InsertByCollation(frontier, e, rank)) == multiset(frontier) + multiset{e}
  {
    if frontier != [] {
      assert frontier == [frontier[0]] + frontier[1..];
      InsertIsPermutation(frontier[1..], e, rank);
    }
  }

  lemma {:induction false} SortIsPermutation(frontier: seq<Entry>, rank: Collation)
    ensures multiset(SortByCollation(frontier, rank)) == multiset(frontier)
  {
    if frontier != [] {
      assert frontier == [frontier[0]] + frontier[1..];
      SortIsPermutation(frontier[1..], rank);
      InsertIsPermutation(SortByCollation(frontier[1..], rank), frontier[0], rank);
    }
  }

  lemma {:induction false} InsertKeepsSorted(frontier: seq<Entry>, e: Entry, rank: Collation)
    requires SortedByRank(frontier, rank)
    ensures SortedByRank(InsertByCollation(frontier, e, rank), rank)
  {
    if frontier != [] && rank(e.device) >= rank(frontier[0].device) {
      var rest := InsertByCollation(frontier[1..], e, rank);
      InsertKeepsSorted(frontier[1..], e, rank);
      InsertIsPermutation(frontier[1..], e, rank);
      forall x | x in rest ensures rank(frontier[0].device) <= rank(x.device) {
        assert x in multiset(rest);
        assert x == e || x in multiset(frontier[1..]);
      }
    }
  }

  lemma {:induction false} SortIsSorted(frontier: seq<Entry>, rank: Collation)
    ensures SortedByRank(SortByCollation(frontier, rank), rank)
  {
    if frontier != [] {
      SortIsSorted(frontier[1..], rank);
      InsertKeepsSorted(SortByCollation(frontier[1..], rank), frontier[0], rank);
    }
  }

  lemma SameMembers(left: seq<Entry>, right: seq<Entry>)
    requires multiset(left) == multiset(right)
    ensures |left| == |right|
    ensures forall x :: x in left <==> x in right
  {
    assert |left| == |multiset(left)| == |multiset(right)| == |right|;
    forall x ensures x in left <==> x in right {
      assert x in multiset(left) <==> x in multiset(right);
    }
  }

  /** A duplicate device would appear twice, so distinctness passes through a permutation. */
  lemma {:induction false} SortIsDistinct(frontier: seq<Entry>, rank: Collation)
    requires Distinct(frontier)
    ensures Distinct(SortByCollation(frontier, rank))
  {
    if frontier != [] {
      var rest := SortByCollation(frontier[1..], rank);
      assert forall i, j :: 0 <= i < j < |frontier| - 1 ==>
          frontier[1..][i] == frontier[i + 1] && frontier[1..][j] == frontier[j + 1];
      SortIsDistinct(frontier[1..], rank);
      SortIsPermutation(frontier[1..], rank);
      SameMembers(rest, frontier[1..]);
      InsertIsDistinct(rest, frontier[0], rank);
    }
  }

  lemma {:induction false} InsertIsDistinct(frontier: seq<Entry>, e: Entry, rank: Collation)
    requires Distinct(frontier) && forall x :: x in frontier ==> x.device != e.device
    ensures Distinct(InsertByCollation(frontier, e, rank))
  {
    if frontier != [] && rank(e.device) >= rank(frontier[0].device) {
      var rest := InsertByCollation(frontier[1..], e, rank);
      InsertIsDistinct(frontier[1..], e, rank);
      InsertIsPermutation(frontier[1..], e, rank);
      forall x | x in rest ensures x.device != frontier[0].device {
        assert x in multiset(rest);
        assert x == e || x in multiset(frontier[1..]);
        if x != e { var i :| 0 <= i < |frontier[1..]| && frontier[1..][i] == x; assert frontier[i + 1] == x; }
      }
    }
  }

  lemma SortKeepsLookups(frontier: seq<Entry>, rank: Collation)
    requires Distinct(frontier)
    ensures Distinct(SortByCollation(frontier, rank))
    ensures forall d :: Lookup(SortByCollation(frontier, rank), d) == Lookup(frontier, d)
  {
    var sorted := SortByCollation(frontier, rank);
    SortIsDistinct(frontier, rank);
    SortIsPermutation(frontier, rank);
    SameMembers(sorted, frontier);
    forall d ensures Lookup(sorted, d) == Lookup(frontier, d) {
      if Lookup(frontier, d).Some? { LookupMember(sorted, Lookup(frontier, d).value); }
    }
  }

  /** `sortedFrontier`: sort by locale, then parse with the code-unit ordered schema. */
  function SortedFrontier(frontier: seq<Entry>, rank: Collation): Result<seq<Entry>, CausalError> {
    var sorted := SortByCollation(frontier, rank);
    if ValidFrontier(sorted) then Ok(sorted) else Err(SchemaViolation)
  }

  /**
   * The sort and the schema use two different orders. The parse goes through exactly
   * when at most ten devices are present and the two orders agree on all of them.
   */
  lemma SortedFrontierOkIff(frontier: seq<Entry>, rank: Collation)
    requires Total(rank) && Distinct(frontier)
    requires forall e :: e in frontier ==> e.sequence > 0
    ensures SortedFrontier(frontier, rank).Ok? <==>
      |frontier| <= MAX_FRONTIER_DEVICES && CollationAgrees(frontier, rank)
  {
    var sorted := SortByCollation(frontier, rank);
    SortIsPermutation(frontier, rank);
    SameMembers(sorted, frontier);
    SortIsSorted(frontier, rank);
    SortIsDistinct(frontier, rank);
    if SortedByCode(sorted) {
      forall a, b | a in frontier && b in frontier && a.device < b.device
        ensures rank(a.device) < rank(b.device)
      {
        SortedPair(sorted, a, b, rank);
      }
    }
    if CollationAgrees(frontier, rank) {
      forall i, j | 0 <= i < j < |sorted| ensures sorted[i].device < sorted[j].device {
        assert sorted[i] in frontier && sorted[j] in frontier;
      }
    }
  }

  lemma SortedPair(sorted: seq<Entry>, a: Entry, b: Entry, rank: Collation)
    requires Total(rank) && SortedByCode(sorted) && SortedByRank(sorted, rank)
    requires a in sorted && b in sorted && a.device < b.device
    ensures rank(a.device) < rank(b.device)
  {
    var i :| 0 <= i < |sorted| && sorted[i] == a;
    var j :| 0 <= j < |sorted| && sorted[j] == b;
    assert i < j;
  }

  // ---- Comparing frontiers ----

  /** Both frontiers hold the same positive sequence of a device under different hashes. */
  predicate Clash(left: seq<Entry>, right: seq<Entry>) {
    exists e :: e in left && Lookup(right, e.device).Some?
      && Lookup(right, e.device).value.sequence == e.sequence
      && Lookup(right, e.device).value.hash != e.hash
  }

  predicate Ahead(left: seq<Entry>, right: seq<Entry>) {
    exists e :: e in left && e.sequence > SequenceOf(right, e.device)
  }

  function OrderOf(leftAhead: bool, rightAhead: bool): CausalOrder {
    if !leftAhead && !rightAhead then Equal
    else if leftAhead && rightAhead then Concurrent
    else if leftAhead then After else Before
  }

  function Compare(left: seq<Entry>, right: seq<Entry>): Result<CausalOrder, CausalError> {
    if !ValidFrontier(left) || !ValidFrontier(right) then Err(SchemaViolation)
    else if Clash(left, right) then Err(CausalHashMismatch)
    else Ok(OrderOf(Ahead(left, right), Ahead(right, left)))
  }

  lemma DistinctWhenSorted(frontier: seq<Entry>)
    requires SortedByCode(frontier)
    ensures Distinct(frontier)
  {}

  lemma MemberSequence(frontier: seq<Entry>, e: Entry)
    requires SortedByCode(frontier) && e in frontier
    ensures Lookup(frontier, e.device) == Some(e) && SequenceOf(frontier, e.device) == e.sequence
  {
    DistinctWhenSorted(frontier);
    LookupMember(frontier, e);
  }

  function Devices(frontier: seq<Entry>): set<OpaqueId> {
    set e | e in frontier :: e.device
  }

  /** The loop over the union of both device sets with its two flags. */
  method CompareCausalFrontiers(left: seq<Entry>, right: seq<Entry>)
    returns (r: Result<CausalOrder, CausalError>)
    ensures r == Compare(left, right)
  {
    if !ValidFrontier(left) || !ValidFrontier(right) { return Err(SchemaViolation); }
    var leftAhead, rightAhead := false, false;
    var todo := Devices(left) + Devices(right);
    ghost var done: set<OpaqueId> := {};
    while todo != {}
      invariant todo + done == Devices(left) + Devices(right)
      invariant leftAhead <==> exists d :: d in done && SequenceOf(left, d) > SequenceOf(right, d)
      invariant rightAhead <==> exists d :: d in done && SequenceOf(right, d) > SequenceOf(left, d)
      invariant forall e :: e in left && e.device in done && Lookup(right, e.device).Some? ==>
        Lookup(right, e.device).value.sequence == e.sequence ==> Lookup(right, e.device).value.hash == e.hash
      decreases todo
    {
      var device :| device in todo;
      var leftEntry, rightEntry := Lookup(left, device), Lookup(right, device);
      var leftSequence, rightSequence := SequenceOf(left, device), SequenceOf(right, device);
      if leftSequence == rightSequence && leftSequence > 0 && leftEntry.value.hash != rightEntry.value.hash {
        assert Clash(left, right) by { assert leftEntry.value in left; }
        return Err(CausalHashMismatch);
      }
      if leftSequence > rightSequence { leftAhead := true; }
      if rightSequence > leftSequence { rightAhead := true; }
      forall e | e in left && e.device == device && rightEntry.Some? && rightEntry.value.sequence == e.sequence
        ensures rightEntry.value.hash == e.hash
      {
        MemberSequence(left, e);
      }
      todo, done := todo - {device}, done + {device};
    }
    AheadByDevice(left, right);
    AheadByDevice(right, left);
    assert forall e :: e in left ==> e.device in done;
    r := Ok(OrderOf(leftAhead, rightAhead));
  }

  lemma AheadByDevice(left: seq<Entry>, right: seq<Entry>)
    requires ValidFrontier(left) && ValidFrontier(right)
    ensures Ahead(left, right) <==>
      exists d :: d in Devices(left) + Devices(right) && SequenceOf(left, d) > SequenceOf(right, d)
  {
    if Ahead(left, right) {
      var e :| e in left && e.sequence > SequenceOf(right, e.device);
      MemberSequence(left, e);
      assert e.device in Devices(left) + Devices(right);
    }
    if d :| d in Devices(left) + Devices(right) && SequenceOf(left, d) > SequenceOf(right, d) {
      assert Lookup(left, d).value in left;
    }
  }

  // ---- Comparison is a partial order ----

  lemma CompareEqualIff(left: seq<Entry>, right: seq<Entry>)
    requires ValidFrontier(left) && ValidFrontier(right)
    ensures Compare(left, right) == Ok(Equal) <==> left == right
  {
    if left == right {
      forall e | e in left ensures Lookup(right, e.device) == Some(e) { MemberSequence(right, e); }
    }
    if Compare(left, right) == Ok(Equal) {
      NoClashIffAgreeing(left, right);
      NotAheadIffBelow(left, right);
      NotAheadIffBelow(right, left);
      assert forall d :: SequenceOf(left, d) <= SequenceOf(right, d) && SequenceOf(right, d) <= SequenceOf(left, d);
      SortedFrontierExtensional(left, right);
    }
  }

  function Swap(order: CausalOrder): CausalOrder {
    match order
    case Before => After
    case After => Before
    case _ => order
  }

  function SwapResult(r: Result<CausalOrder, CausalError>): Result<CausalOrder, CausalError> {
    match r
    case Ok(order) => Ok(Swap(order))
    case Err(_) => r
  }

  lemma ClashSymmetric(left: seq<Entry>, right: seq<Entry>)
    requires ValidFrontier(left) && ValidFrontier(right) && Clash(left, right)
    ensures Clash(right, left)
  {
    var e :| e in left && Lookup(right, e.device).Some?
      && Lookup(right, e.device).value.sequence == e.sequence
      && Lookup(right, e.device).value.hash != e.hash;
    MemberSequence(left, e);
    assert Lookup(right, e.device).value in right;
  }

  lemma CompareAntisymmetric(left: seq<Entry>, right: seq<Entry>)
    ensures Compare(right, left) == SwapResult(Compare(left, right))
  {
    if ValidFrontier(left) && ValidFrontier(right) {
      if Clash(left, right) { ClashSymmetric(left, right); }
      if Clash(right, left) { ClashSymmetric(right, left); }
    }
  }

  ghost predicate Below(left: seq<Entry>, right: seq<Entry>) {
    forall d :: SequenceOf(left, d) <= SequenceOf(right, d)
  }

  lemma NotAheadIffBelow(left: seq<Entry>, right: seq<Entry>)
    requires ValidFrontier(left)
    ensures !Ahead(left, right) <==> Below(left, right)
  {
    if !Ahead(left, right) {
      forall d ensures SequenceOf(left, d) <= SequenceOf(right, d) {
        if Lookup(left, d).Some? { assert Lookup(left, d).value in left; }
      }
    }
    if Below(left, right) {
      forall e | e in left ensures e.sequence <= SequenceOf(right, e.device) { MemberSequence(left, e); }
    }
  }

  /** Same device, same sequence: the same event. */
  ghost predicate Agreeing(left: seq<Entry>, right: seq<Entry>) {
    forall d :: SequenceOf(left, d) == SequenceOf(right, d) ==> Lookup(left, d) == Lookup(right, d)
  }

  lemma NoClashIffAgreeing(left: seq<Entry>, right: seq<Entry>)
    requires ValidFrontier(left) && ValidFrontier(right)
    ensures !Clash(left, right) <==> Agreeing(left, right)
  {
    if !Clash(left, right) {
      forall d | SequenceOf(left, d) == SequenceOf(right, d) ensures Lookup(left, d) == Lookup(right, d) {
        if Lookup(left, d).Some? { assert Lookup(left, d).value in left; }
        if Lookup(right, d).Some? { assert Lookup(right, d).value in right; }
      }
    }
    if Agreeing(left, right) {
      forall e | e in left && Lookup(right, e.device).Some? && Lookup(right, e.device).value.sequence == e.sequence
        ensures Lookup(right, e.device).value.hash == e.hash
      {
        MemberSequence(left, e);
      }
    }
  }

  /** What 'before' means: below on every device, not the reverse, and no forked event. */
  lemma BeforeIff(left: seq<Entry>, right: seq<Entry>)
    requires ValidFrontier(left) && ValidFrontier(right)
    ensures Compare(left, right) == Ok(Before) <==>
      Agreeing(left, right) && Below(left, right) && !Below(right, left)
  {
    NoClashIffAgreeing(left, right);
    NotAheadIffBelow(left, right);
    NotAheadIffBelow(right, left);
  }

  /** `before` composes, and the composed comparison never throws. */
  lemma CompareTransitive(first: seq<Entry>, second: seq<Entry>, third: seq<Entry>)
    requires Compare(first, second) == Ok(Before) && Compare(second, third) == Ok(Before)
    ensures Compare(first, third) == Ok(Before)
  {
    BeforeIff(first, second);
    BeforeIff(second, third);
    BeforeIff(first, third);
    assert Below(first, third) by {
      forall d ensures SequenceOf(first, d) <= SequenceOf(third, d) {
        assert SequenceOf(first, d) <= SequenceOf(second, d) <= SequenceOf(third, d);
      }
    }
    assert Agreeing(first, third) by {
      forall d | SequenceOf(first, d) == SequenceOf(third, d) ensures Lookup(first, d) == Lookup(third, d) {
        assert SequenceOf(first, d) <= SequenceOf(second, d) <= SequenceOf(third, d);
      }
    }
    assert !Below(third, first) by {
      var d :| SequenceOf(second, d) > SequenceOf(first, d);
      assert SequenceOf(third, d) >= SequenceOf(second, d);
    }
  }
}
