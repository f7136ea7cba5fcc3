/**
 * Acceptance of incoming operations into a causal log, and what holds of every log
 * built from the empty state (src/domain/sync/causal.ts).
 */
module CausalLog {
  import opened Wrappers
  import opened SyncOperation
  import opened Causal

  // ---- State schema and searches ----

  predicate ValidState(s: CausalState) {
    && ValidFrontier(s.frontier)
    && (forall i :: 0 <= i < |s.seen| ==>
         s.seen[i].sequence > 0 && s.seen[i].lamport > 0 && s.seen[i].cursor > 0)
    && (forall i, j :: 0 <= i < j < |s.seen| ==>
         && s.seen[i].id != s.seen[j].id
         && (s.seen[i].device != s.seen[j].device || s.seen[i].sequence != s.seen[j].sequence)
         && s.seen[i].cursor < s.seen[j].cursor)
    && (s.seen != [] ==> s.seen[|s.seen| - 1].cursor <= s.lastCursor)
  }

  function FindById(seen: seq<Seen>, id: OpaqueId): (found: Option<Seen>)
    ensures found.Some? ==> found.value in seen && found.value.id == id
    ensures found.None? ==> forall row :: row in seen ==> row.id != id
  {
    if seen == [] then None
    else if seen[0].id == id then Some(seen[0])
    else FindById(seen[1..], id)
  }

  function FindIdentity(seen: seq<Seen>, device: OpaqueId, sequence: nat): (found: Option<Seen>)
    ensures found.Some? ==> found.value in seen && found.value.device == device && found.value.sequence == sequence
    ensures found.None? ==> forall row :: row in seen ==> row.device != device || row.sequence != sequence
  {
    if seen == [] then None
    else if seen[0].device == device && seen[0].sequence == sequence then Some(seen[0])
    else FindIdentity(seen[1..], device, sequence)
  }

  // ---- Validation of the claimed frontier ----

  function ClaimError(s: CausalState, claim: Entry): Option<CausalError> {
    match Lookup(s.frontier, claim.device)
    case None => Some(CausalGap)
    case Some(known) =>
      if claim.sequence > known.sequence then Some(CausalGap)
      else if claim.sequence == known.sequence then
        if claim.hash != known.hash then Some(CausalHashMismatch) else None
      else
        match FindIdentity(s.seen, claim.device, claim.sequence)
        case None => Some(CausalHistoryUnavailable)
        case Some(historical) => if historical.hash != claim.hash then Some(CausalHashMismatch) else None
  }

  function ClaimLamport(s: CausalState, claim: Entry): nat {
    match FindIdentity(s.seen, claim.device, claim.sequence)
    case None => 0
    case Some(event) => event.lamport
  }

  function Max(a: nat, b: nat): nat { if a < b then b else a }

  /** The first claim error, or the greatest Lamport time among the claimed events. */
  function ValidateClaims(s: CausalState, claims: seq<Entry>): Result<nat, CausalError> {
    if claims == [] then Ok(0)
    else
      match ValidateClaims(s, claims[..|claims| - 1])
      case Err(e) => Err(e)
      case Ok(greatest) =>
        var claim := claims[|claims| - 1];
        match ClaimError(s, claim)
        case Some(e) => Err(e)
        case None => Ok(Max(greatest, ClaimLamport(s, claim)))
  }

  method ValidateClaimedFrontier(s: CausalState, claims: seq<Entry>) returns (r: Result<nat, CausalError>)
    ensures r == ValidateClaims(s, claims)
    ensures r.Ok? <==> forall c :: c in claims ==> ClaimError(s, c).None?
    ensures r.Ok? ==> forall c :: c in claims ==> ClaimLamport(s, c) <= r.value
    ensures r.Ok? ==> r.value == 0 || exists c :: c in claims && ClaimLamport(s, c) == r.value
  {
    ValidateClaimsOkIff(s, claims);
    var greatest := 0;
    for i := 0 to |claims|
      invariant ValidateClaims(s, claims[..i]) == Ok(greatest)
    {
      var claim := claims[i];
      assert claims[..i + 1][..i] == claims[..i];
      var error := ClaimError(s, claim);
      if error.Some? {
        ValidateErrorStays(s, claims, i + 1, error.value);
        return Err(error.value);
      }
      greatest := Max(greatest, ClaimLamport(s, claim));
    }
    assert claims[..|claims|] == claims;
    r := Ok(greatest);
  }

  lemma {:induction false} ValidateErrorStays(s: CausalState, claims: seq<Entry>, n: nat, e: CausalError)
    requires n <= |claims| && ValidateClaims(s, claims[..n]) == Err(e)
    ensures ValidateClaims(s, claims) == Err(e)
    decreases |claims|
  {
    if n == |claims| {
      assert claims[..n] == claims;
    } else {
      var shorter := claims[..|claims| - 1];
      assert shorter[..n] == claims[..n];
      ValidateErrorStays(s, shorter, n, e);
    }
  }

  lemma {:induction false} ValidateClaimsOkIff(s: CausalState, claims: seq<Entry>)
    ensures ValidateClaims(s, claims).Ok? <==> forall c :: c in claims ==> ClaimError(s, c).None?
    ensures ValidateClaims(s, claims).Ok? ==>
      forall c :: c in claims ==> ClaimLamport(s, c) <= ValidateClaims(s, claims).value
    ensures ValidateClaims(s, claims).Ok? ==>
      ValidateClaims(s, claims).value == 0 ||
      exists c :: c in claims && ClaimLamport(s, c) == ValidateClaims(s, claims).value
  {
    if claims != [] {
      var n := |claims| - 1;
      ValidateClaimsOkIff(s, claims[..n]);
      assert claims == claims[..n] + [claims[n]];
      if ValidateClaims(s, claims).Ok? {
        forall c | c in claims ensures ClaimError(s, c).None? && ClaimLamport(s, c) <= ValidateClaims(s, claims).value {
          assert c in claims[..n] || c == claims[n];
        }
      }
    }
  }

  // ---- Acceptance ----

  datatype Outcome =
    | Accepted(hash: Digest, state: CausalState)
    | ExactDuplicate(hash: Digest, state: CausalState)
    | Rejected(error: CausalError)

  function EntryOf(op: Operation): Entry {
    Entry(op.device, op.sequence, OperationDigest(op))
  }

  function RowOf(op: Operation, cursor: nat): Seen {
    Seen(op.id, OperationDigest(op), op.device, op.sequence, op.lamport, cursor)
  }

  function PreviousHash(frontier: seq<Entry>, device: OpaqueId): Option<Digest> {
    match Lookup(frontier, device)
    case None => None
    case Some(e) => Some(e.hash)
  }

  /** The device's sequence and hash chain. */
  function ChainError(s: CausalState, op: Operation): Option<CausalError> {
    var expected := SequenceOf(s.frontier, op.device) + 1;
    if op.sequence < expected then Some(DeviceSequenceReuse)
    else if op.sequence > expected then Some(DeviceSequenceGap)
    else if op.previousHash != PreviousHash(s.frontier, op.device) then Some(BrokenPreviousOperationHash)
    else None
  }

  function NextState(s: CausalState, op: Operation, frontier: seq<Entry>): CausalState {
    CausalState(frontier, s.lastCursor + 1, s.seen + [RowOf(op, s.lastCursor + 1)])
  }

  /** An operation with a fresh identity at the next cursor. */
  function AcceptNext(s: CausalState, op: Operation, rank: Collation): Outcome {
    match ChainError(s, op)
    case Some(e) => Rejected(e)
    case None =>
      match ValidateClaims(s, op.frontier)
      case Err(e) => Rejected(e)
      case Ok(greatest) =>
        if op.lamport <= greatest then Rejected(LamportRegression)
        else
          match SortedFrontier(SetEntry(s.frontier, EntryOf(op)), rank)
          case Err(e) => Rejected(e)
          case Ok(frontier) =>
            if ValidState(NextState(s, op, frontier))
            then Accepted(OperationDigest(op), NextState(s, op, frontier))
            else Rejected(SchemaViolation)
  }

  function Accept(s: CausalState, op: Operation, cursor: nat, rank: Collation): Outcome {
    if !ValidState(s) || !ValidOperation(op) || cursor == 0 then Rejected(SchemaViolation)
    else
      match FindById(s.seen, op.id)
      case Some(prior) =>
        if prior.hash != OperationDigest(op) || prior.device != op.device || prior.sequence != op.sequence
        then Rejected(OperationIdReuse)
        else if prior.cursor != cursor then Rejected(OperationCursorMismatch)
        else ExactDuplicate(OperationDigest(op), s)
      case None =>
        if FindIdentity(s.seen, op.device, op.sequence).Some? then Rejected(DeviceSequenceReuse)
        else if cursor <= s.lastCursor then Rejected(ServerCursorReorder)
        else if cursor != s.lastCursor + 1 then Rejected(ServerCursorGap)
        else AcceptNext(s, op, rank)
  }

  datatype Delivery = Delivery(operation: Operation, cursor: nat)

  /** The state after any deliveries; a rejected or repeated one changes nothing. */
  function Run(deliveries: seq<Delivery>, rank: Collation): CausalState {
    if deliveries == [] then EmptyState
    else
      var s := Run(deliveries[..|deliveries| - 1], rank);
      var last := deliveries[|deliveries| - 1];
      match Accept(s, last.operation, last.cursor, rank)
      case Accepted(_, next) => next
      case _ => s
  }

  // ---- What holds of every accepted log ----

  /** The last accepted row of a device. */
  function LastOf(seen: seq<Seen>, device: OpaqueId): (last: Option<Seen>)
    ensures last.Some? ==> last.value in seen && last.value.device == device
    ensures last.None? ==> forall row :: row in seen ==> row.device != device
  {
    if seen == [] then None
    else if seen[|seen| - 1].device == device then Some(seen[|seen| - 1])
    else LastOf(seen[..|seen| - 1], device)
  }

  predicate Recorded(row: Seen) {
    row.hash.OperationDigest? && ValidOperation(row.hash.operation)
    && row == RowOf(row.hash.operation, row.cursor)
  }

  /** The operation a recorded row stands for. */
  function OpOf(row: Seen): Operation
    requires row.hash.OperationDigest?
  {
    row.hash.operation
  }

  predicate Matches(row: Seen, claim: Entry) {
    row.device == claim.device && row.sequence == claim.sequence && row.hash == claim.hash
  }

  /** Sequences continue the device's last one and carry its hash. */
  predicate ChainedAfter(earlier: seq<Seen>, row: Seen)
    requires Recorded(row)
  {
    match LastOf(earlier, row.device)
    case None => row.sequence == 1 && OpOf(row).previousHash.None?
    case Some(last) => row.sequence == last.sequence + 1 && OpOf(row).previousHash == Some(last.hash)
  }

  /** Every claimed event was accepted earlier, at a smaller Lamport time. */
  ghost predicate ClaimsKnown(earlier: seq<Seen>, row: Seen)
    requires Recorded(row)
  {
    forall c :: c in OpOf(row).frontier ==>
      exists k :: 0 <= k < |earlier| && Matches(earlier[k], c) && earlier[k].lamport < row.lamport
  }

  ghost predicate RowGood(seen: seq<Seen>, i: int)
    requires 0 <= i < |seen|
  {
    && Recorded(seen[i])
    && seen[i].cursor == i + 1
    && ChainedAfter(seen[..i], seen[i])
    && ClaimsKnown(seen[..i], seen[i])
  }

  ghost predicate GoodLog(seen: seq<Seen>) {
    && (forall i {:trigger RowGood(seen, i)} :: 0 <= i < |seen| ==> RowGood(seen, i))
    && (forall i, j :: 0 <= i < j < |seen| ==> seen[i].id != seen[j].id)
  }

  function RowEntry(row: Option<Seen>): Option<Entry> {
    match row
    case None => None
    case Some(r) => Some(Entry(r.device, r.sequence, r.hash))
  }

  ghost predicate Good(s: CausalState, rank: Collation) {
    && s.lastCursor == |s.seen|
    && GoodLog(s.seen)
    && ValidFrontier(s.frontier)
    && (forall d :: Lookup(s.frontier, d) == RowEntry(LastOf(s.seen, d)))
    && CollationAgrees(s.frontier, rank)
  }

  // ---- Consequences of a good log ----

  lemma {:induction false} LastIsGreatest(seen: seq<Seen>, n: nat, i: nat)
    requires GoodLog(seen) && i < n <= |seen|
    ensures LastOf(seen[..n], seen[i].device).Some?
    ensures LastOf(seen[..n], seen[i].device).value.sequence >= seen[i].sequence
  {
    assert seen[..n][..n - 1] == seen[..n - 1];
    if i < n - 1 {
      LastIsGreatest(seen, n - 1, i);
      assert RowGood(seen, n - 1);
    }
  }

  lemma SequencesIncrease(seen: seq<Seen>, i: nat, j: nat)
    requires GoodLog(seen) && i < j < |seen| && seen[i].device == seen[j].device
    ensures seen[i].sequence < seen[j].sequence
  {
    LastIsGreatest(seen, j, i);
    assert RowGood(seen, j);
  }

  lemma IdentityIsUnique(seen: seq<Seen>, i: nat, j: nat)
    requires GoodLog(seen) && i < |seen| && j < |seen|
    requires seen[i].device == seen[j].device && seen[i].sequence == seen[j].sequence
    ensures i == j
  {
    if i < j { SequencesIncrease(seen, i, j); }
    if j < i { SequencesIncrease(seen, j, i); }
  }

  lemma GoodIsValid(s: CausalState, rank: Collation)
    requires Good(s, rank)
    ensures ValidState(s)
  {
    forall i | 0 <= i < |s.seen|
      ensures s.seen[i].sequence > 0 && s.seen[i].lamport > 0 && s.seen[i].cursor == i + 1
    {
      assert RowGood(s.seen, i);
    }
    forall i, j | 0 <= i < j < |s.seen|
      ensures s.seen[i].device != s.seen[j].device || s.seen[i].sequence != s.seen[j].sequence
    {
      if s.seen[i].device == s.seen[j].device { SequencesIncrease(s.seen, i, j); }
    }
  }

  /** A device's sequences have no gap: every number up to its last one was accepted. */
  lemma {:induction false} SequencesComplete(seen: seq<Seen>, n: nat, device: OpaqueId, k: nat)
    returns (i: nat)
    requires GoodLog(seen) && n <= |seen|
    requires LastOf(seen[..n], device).Some? && 0 < k <= LastOf(seen[..n], device).value.sequence
    ensures i < n && seen[i].device == device && seen[i].sequence == k
    decreases n
  {
    assert seen[..n][..n - 1] == seen[..n - 1];
    assert seen[..n][n - 1] == seen[n - 1];
    if seen[n - 1].device == device && seen[n - 1].sequence == k {
      i := n - 1;
    } else {
      assert RowGood(seen, n - 1);
      i := SequencesComplete(seen, n - 1, device, k);
    }
  }

  lemma RowIndex(seen: seq<Seen>, row: Seen) returns (i: nat)
    requires row in seen
    ensures i < |seen| && seen[i] == row
  {
    i :| i < |seen| && seen[i] == row;
  }

  /** In a good state a claim passes exactly when it names an accepted event by its hash. */
  lemma ClaimPassesIff(s: CausalState, rank: Collation, claim: Entry)
    requires Good(s, rank) && claim.sequence > 0
    ensures ClaimError(s, claim).None? <==> exists k :: 0 <= k < |s.seen| && Matches(s.seen[k], claim)
    ensures forall k :: 0 <= k < |s.seen| && Matches(s.seen[k], claim) ==> ClaimLamport(s, claim) == s.seen[k].lamport
  {
    assert s.seen[..|s.seen|] == s.seen;
    forall k | 0 <= k < |s.seen| && Matches(s.seen[k], claim)
      ensures ClaimError(s, claim).None? && ClaimLamport(s, claim) == s.seen[k].lamport
    {
      LastIsGreatest(s.seen, |s.seen|, k);
      var found := FindIdentity(s.seen, claim.device, claim.sequence);
      var f := RowIndex(s.seen, found.value);
      IdentityIsUnique(s.seen, f, k);
      var l := RowIndex(s.seen, LastOf(s.seen, claim.device).value);
      if s.seen[l].sequence == claim.sequence { IdentityIsUnique(s.seen, l, k); }
    }
    if ClaimError(s, claim).None? {
      assert Lookup(s.frontier, claim.device) == RowEntry(LastOf(s.seen, claim.device));
      if claim.sequence == SequenceOf(s.frontier, claim.device) {
        var l := RowIndex(s.seen, LastOf(s.seen, claim.device).value);
        assert Matches(s.seen[l], claim);
      } else {
        var f := RowIndex(s.seen, FindIdentity(s.seen, claim.device, claim.sequence).value);
        assert Matches(s.seen[f], claim);
      }
    }
  }

  // ---- Acceptance keeps the log good ----

  lemma LastOfAppend(seen: seq<Seen>, row: Seen, d: OpaqueId)
    ensures LastOf(seen + [row], d) == if d == row.device then Some(row) else LastOf(seen, d)
  {
    assert (seen + [row])[..|seen|] == seen;
  }

  lemma AppendKeepsGoodLog(seen: seq<Seen>, row: Seen)
    requires GoodLog(seen) && Recorded(row) && row.cursor == |seen| + 1
    requires forall i :: 0 <= i < |seen| ==> seen[i].id != row.id
    requires ChainedAfter(seen, row) && ClaimsKnown(seen, row)
    ensures GoodLog(seen + [row])
  {
    var next := seen + [row];
    forall i | 0 <= i < |next| ensures RowGood(next, i) {
      if i < |seen| {
        assert next[..i] == seen[..i];
        assert RowGood(seen, i);
      } else {
        assert next[..i] == seen;
      }
    }
  }

  lemma AcceptedFrontier(s: CausalState, op: Operation, cursor: nat, rank: Collation)
    requires Total(rank) && Good(s, rank) && ValidOperation(op)
    requires SortedFrontier(SetEntry(s.frontier, EntryOf(op)), rank).Ok?
    ensures
      var f := SortedFrontier(SetEntry(s.frontier, EntryOf(op)), rank).value;
      && CollationAgrees(f, rank)
      && forall d :: Lookup(f, d) == RowEntry(LastOf(s.seen + [RowOf(op, cursor)], d))
  {
    var set' := SetEntry(s.frontier, EntryOf(op));
    DistinctWhenSorted(s.frontier);
    SortKeepsLookups(set', rank);
    SortIsPermutation(set', rank);
    SameMembers(SortByCollation(set', rank), set');
    SortedFrontierOkIff(set', rank);
    forall d ensures Lookup(SortByCollation(set', rank), d) == RowEntry(LastOf(s.seen + [RowOf(op, cursor)], d)) {
      LastOfAppend(s.seen, RowOf(op, cursor), d);
    }
  }

  /** The whole acceptance rule, read off in one place. */
  predicate Acceptable(s: CausalState, op: Operation, cursor: nat) {
    && ValidOperation(op)
    && FindById(s.seen, op.id).None?
    && cursor == s.lastCursor + 1
    && ChainedAfter(s.seen, RowOf(op, cursor))
    && (forall c :: c in op.frontier ==>
         ClaimError(s, c).None? && ClaimLamport(s, c) < op.lamport)
  }

  lemma AcceptableClaimsKnown(s: CausalState, op: Operation, cursor: nat, rank: Collation)
    requires Good(s, rank) && Acceptable(s, op, cursor)
    ensures ClaimsKnown(s.seen, RowOf(op, cursor))
  {
    forall c | c in op.frontier
      ensures exists k :: 0 <= k < |s.seen| && Matches(s.seen[k], c) && s.seen[k].lamport < op.lamport
    {
      ClaimPassesIff(s, rank, c);
    }
  }

  lemma AcceptableGoodLog(s: CausalState, op: Operation, cursor: nat, rank: Collation)
    requires Good(s, rank) && Acceptable(s, op, cursor)
    ensures GoodLog(s.seen + [RowOf(op, cursor)])
  {
    AcceptableClaimsKnown(s, op, cursor, rank);
    assert forall i :: 0 <= i < |s.seen| ==> s.seen[i].id != op.id;
    AppendKeepsGoodLog(s.seen, RowOf(op, cursor));
  }

  lemma AcceptableKeepsGood(s: CausalState, op: Operation, cursor: nat, rank: Collation)
    requires Total(rank) && Good(s, rank) && Acceptable(s, op, cursor)
    requires SortedFrontier(SetEntry(s.frontier, EntryOf(op)), rank).Ok?
    ensures Good(NextState(s, op, SortedFrontier(SetEntry(s.frontier, EntryOf(op)), rank).value), rank)
  {
    AcceptableGoodLog(s, op, cursor, rank);
    AcceptedFrontier(s, op, cursor, rank);
  }

  lemma ChainedIff(s: CausalState, op: Operation, cursor: nat, rank: Collation)
    requires Good(s, rank) && ValidOperation(op)
    ensures ChainedAfter(s.seen, RowOf(op, cursor)) <==>
      op.sequence == SequenceOf(s.frontier, op.device) + 1
      && op.previousHash == PreviousHash(s.frontier, op.device)
  {
    assert Lookup(s.frontier, op.device) == RowEntry(LastOf(s.seen, op.device));
  }

  lemma ChainedIsFresh(s: CausalState, op: Operation, cursor: nat, rank: Collation)
    requires Good(s, rank) && ValidOperation(op) && ChainedAfter(s.seen, RowOf(op, cursor))
    ensures FindIdentity(s.seen, op.device, op.sequence).None?
  {
    var found := FindIdentity(s.seen, op.device, op.sequence);
    if found.Some? {
      var f := RowIndex(s.seen, found.value);
      assert s.seen[..|s.seen|] == s.seen;
      LastIsGreatest(s.seen, |s.seen|, f);
      assert false;
    }
  }

  lemma AcceptNextNeeds(s: CausalState, op: Operation, rank: Collation)
    requires AcceptNext(s, op, rank).Accepted?
    ensures ChainError(s, op).None?
    ensures forall c :: c in op.frontier ==> ClaimError(s, c).None? && ClaimLamport(s, c) < op.lamport
    ensures SortedFrontier(SetEntry(s.frontier, EntryOf(op)), rank).Ok?
    ensures AcceptNext(s, op, rank).state ==
      NextState(s, op, SortedFrontier(SetEntry(s.frontier, EntryOf(op)), rank).value)
  {
    ValidateClaimsOkIff(s, op.frontier);
  }

  lemma AcceptedGoesNext(s: CausalState, op: Operation, cursor: nat, rank: Collation)
    requires Accept(s, op, cursor, rank).Accepted?
    ensures ValidOperation(op) && FindById(s.seen, op.id).None? && cursor == s.lastCursor + 1
    ensures Accept(s, op, cursor, rank) == AcceptNext(s, op, rank)
  {}

  lemma AcceptNeedsAcceptable(s: CausalState, op: Operation, cursor: nat, rank: Collation)
    requires Good(s, rank) && Accept(s, op, cursor, rank).Accepted?
    ensures Acceptable(s, op, cursor)
    ensures SortedFrontier(SetEntry(s.frontier, EntryOf(op)), rank).Ok?
    ensures Accept(s, op, cursor, rank).state ==
      NextState(s, op, SortedFrontier(SetEntry(s.frontier, EntryOf(op)), rank).value)
  {
    AcceptedGoesNext(s, op, cursor, rank);
    AcceptNextNeeds(s, op, rank);
    ChainedIff(s, op, cursor, rank);
  }

  lemma AcceptableIsAccepted(s: CausalState, op: Operation, rank: Collation)
    requires Total(rank) && Good(s, rank) && Acceptable(s, op, s.lastCursor + 1)
    requires SortedFrontier(SetEntry(s.frontier, EntryOf(op)), rank).Ok?
    ensures Accept(s, op, s.lastCursor + 1, rank) ==
      Accepted(OperationDigest(op), NextState(s, op, SortedFrontier(SetEntry(s.frontier, EntryOf(op)), rank).value))
  {
    var frontier := SortedFrontier(SetEntry(s.frontier, EntryOf(op)), rank).value;
    assert ValidState(NextState(s, op, frontier)) by {
      AcceptableKeepsGood(s, op, s.lastCursor + 1, rank);
      GoodIsValid(NextState(s, op, frontier), rank);
    }
    assert ChainError(s, op).None? by { ChainedIff(s, op, s.lastCursor + 1, rank); }
    assert FindIdentity(s.seen, op.device, op.sequence).None? by { ChainedIsFresh(s, op, s.lastCursor + 1, rank); }
    ClaimsOutrun(s, op);
    assert AcceptNext(s, op, rank) == Accepted(OperationDigest(op), NextState(s, op, frontier));
    GoodIsValid(s, rank);
  }

  lemma ClaimsOutrun(s: CausalState, op: Operation)
    requires ValidOperation(op)
    requires forall c :: c in op.frontier ==> ClaimError(s, c).None? && ClaimLamport(s, c) < op.lamport
    ensures ValidateClaims(s, op.frontier).Ok? && op.lamport > ValidateClaims(s, op.frontier).value
  {
    ValidateClaimsOkIff(s, op.frontier);
  }

  /**
   * When an operation is accepted: it continues its device's hash chain at the next
   * cursor, proves every claim at a greater Lamport time, and at most ten devices are
   * then known whose identifiers sort alike in both orders the code uses.
   */
  lemma AcceptedIff(s: CausalState, op: Operation, cursor: nat, rank: Collation)
    requires Total(rank) && Good(s, rank)
    ensures Accept(s, op, cursor, rank).Accepted? <==>
      Acceptable(s, op, cursor)
      && |SetEntry(s.frontier, EntryOf(op))| <= MAX_FRONTIER_DEVICES
      && CollationAgrees(SetEntry(s.frontier, EntryOf(op)), rank)
  {
    DistinctWhenSorted(s.frontier);
    if ValidOperation(op) { SortedFrontierOkIff(SetEntry(s.frontier, EntryOf(op)), rank); }
    if Accept(s, op, cursor, rank).Accepted? { AcceptNeedsAcceptable(s, op, cursor, rank); }
    if Acceptable(s, op, cursor) && SortedFrontier(SetEntry(s.frontier, EntryOf(op)), rank).Ok? {
      AcceptableIsAccepted(s, op, rank);
    }
  }

  lemma AcceptKeepsGood(s: CausalState, op: Operation, cursor: nat, rank: Collation)
    requires Total(rank) && Good(s, rank) && Accept(s, op, cursor, rank).Accepted?
    ensures Good(Accept(s, op, cursor, rank).state, rank)
  {
    AcceptNeedsAcceptable(s, op, cursor, rank);
    AcceptableKeepsGood(s, op, cursor, rank);
  }

  /** Every log accepted from the empty state, under any deliveries, is good. */
  lemma {:induction false} AcceptedLogsAreGood(deliveries: seq<Delivery>, rank: Collation)
    requires Total(rank)
    ensures Good(Run(deliveries, rank), rank)
  {
    if deliveries != [] {
      var n := |deliveries| - 1;
      AcceptedLogsAreGood(deliveries[..n], rank);
      var s := Run(deliveries[..n], rank);
      if Accept(s, deliveries[n].operation, deliveries[n].cursor, rank).Accepted? {
        AcceptKeepsGood(s, deliveries[n].operation, deliveries[n].cursor, rank);
      }
    }
  }
}
