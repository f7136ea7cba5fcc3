/**
 * The usage ledger (services/sync-worker/src/budget.ts, 442-634, 724-892 and 1438-1487):
 * reservations, their settlement and the expiry of daily buckets.
 */
module BudgetLedger {
  import opened Sums
  import opened Wrappers

  datatype Counter = WorkerRequests | RowsRead | RowsWritten | ClassA | ClassB

  datatype Usage = Usage(workerRequests: int, rowsRead: int, rowsWritten: int, classA: int, classB: int)

  function Of(u: Usage, c: Counter): int {
    match c
    case WorkerRequests => u.workerRequests
    case RowsRead => u.rowsRead
    case RowsWritten => u.rowsWritten
    case ClassA => u.classA
    case ClassB => u.classB
  }

  const NOTHING := Usage(0, 0, 0, 0, 0)

  function Plus(u: Usage, v: Usage): (sum: Usage)
    ensures forall c :: Of(sum, c) == Of(u, c) + Of(v, c)
  {
    Usage(u.workerRequests + v.workerRequests, u.rowsRead + v.rowsRead, u.rowsWritten + v.rowsWritten,
          u.classA + v.classA, u.classB + v.classB)
  }

  function Minus(u: Usage, v: Usage): (difference: Usage)
    ensures forall c :: Of(difference, c) == Of(u, c) - Of(v, c)
  {
    Usage(u.workerRequests - v.workerRequests, u.rowsRead - v.rowsRead, u.rowsWritten - v.rowsWritten,
          u.classA - v.classA, u.classB - v.classB)
  }

  /** `MAX(0, u - v)` in every counter. */
  function ClampedMinus(u: Usage, v: Usage): (difference: Usage)
    ensures forall c :: Of(difference, c) == Positive(Of(u, c) - Of(v, c))
  {
    var d := Minus(u, v);
    Usage(Positive(d.workerRequests), Positive(d.rowsRead), Positive(d.rowsWritten), Positive(d.classA),
      Positive(d.classB))
  }

  predicate AtMost(u: Usage, v: Usage) {
    u.workerRequests <= v.workerRequests && u.rowsRead <= v.rowsRead && u.rowsWritten <= v.rowsWritten
    && u.classA <= v.classA && u.classB <= v.classB
  }

  lemma AtMostMeans(u: Usage, v: Usage)
    ensures AtMost(u, v) <==> forall c :: Of(u, c) <= Of(v, c)
  {
    if forall c :: Of(u, c) <= Of(v, c) {
      assert Of(u, WorkerRequests) <= Of(v, WorkerRequests) && Of(u, RowsRead) <= Of(v, RowsRead);
      assert Of(u, RowsWritten) <= Of(v, RowsWritten) && Of(u, ClassA) <= Of(v, ClassA)
        && Of(u, ClassB) <= Of(v, ClassB);
    }
  }

  // ---- Tables ----

  datatype Scope = Service | Vault(id: nat)

  datatype Suffix = RequestOverhead | Route | ScheduledCleanup | VaultScope(id: nat)

  datatype ReservationId = ReservationId(request: nat, suffix: Suffix)

  datatype ReservationState = Reserved | Committed | Released

  datatype Reservation = Reservation(
    scope: Scope, state: ReservationState, reserved: Usage, committed: Usage, createdAt: nat, underestimated: bool)

  datatype BucketKey = BucketKey(scope: Scope, day: nat)

  datatype Flags = Flags(newVaults: bool, pairings: bool, writes: bool, maintenance: bool, fault: bool)

  datatype Ledger = Ledger(
    buckets: map<BucketKey, Usage>, totals: map<Scope, Usage>,
    reservations: map<ReservationId, Reservation>, flags: Flags, d1Bytes: nat)

  datatype Ceilings = Ceilings(rolling: Usage, daily: Usage)

  datatype Budgets = Budgets(service: Ceilings, vault: Ceilings, d1Bytes: nat)

  function CeilingsOf(b: Budgets, s: Scope): Ceilings {
    if s == Service then b.service else b.vault
  }

  const MILLISECONDS_PER_DAY := 86_400_000
  const ROLLING_WINDOW_DAYS := 30

  function Day(timestamp: nat): nat { timestamp / MILLISECONDS_PER_DAY }

  datatype Access = Read | Diagnostic | Write | NewVault | PairingRetry

  // ---- Reserving ----

  predicate FlagCondition(f: Flags, access: Access) {
    match access
    case Read => true
    case Diagnostic => true
    case Write => !f.maintenance && f.writes && !f.fault
    case NewVault => !f.maintenance && f.writes && f.newVaults
    case PairingRetry => !f.maintenance && f.writes && f.pairings
  }

  function BucketOf(l: Ledger, k: BucketKey): Usage {
    if k in l.buckets then l.buckets[k] else NOTHING
  }

  function TotalOf(l: Ledger, s: Scope): Usage {
    if s in l.totals then l.totals[s] else NOTHING
  }

  /** The WHERE clause of the reservation's insert. */
  predicate Granted(l: Ledger, b: Budgets, k: BucketKey, access: Access, usage: Usage) {
    && FlagCondition(l.flags, access)
    && (access == Read || access == Diagnostic || l.d1Bytes < b.d1Bytes)
    && AtMost(Plus(TotalOf(l, k.scope), usage), CeilingsOf(b, k.scope).rolling)
    && AtMost(Plus(BucketOf(l, k), usage), CeilingsOf(b, k.scope).daily)
  }

  function WithRows(l: Ledger, k: BucketKey): Ledger {
    l.(buckets := l.buckets[k := BucketOf(l, k)], totals := l.totals[k.scope := TotalOf(l, k.scope)])
  }

  /** Adds to a bucket and its total, where their rows exist. */
  function Charge(l: Ledger, k: BucketKey, usage: Usage): Ledger {
    l.(buckets := if k in l.buckets then l.buckets[k := Plus(l.buckets[k], usage)] else l.buckets,
       totals := if k.scope in l.totals then l.totals[k.scope := Plus(l.totals[k.scope], usage)] else l.totals)
  }

  datatype ReserveOutcome = ReservationMade | Refused | ConstraintFailed

  datatype ReserveResult = ReserveResult(ledger: Ledger, outcome: ReserveOutcome)

  /**
   * One batch. The charges ask only whether a reservation of that id exists; a refused
   * insert does not undo the other statements, a repeated primary key undoes them all.
   */
  function Reserve(l: Ledger, b: Budgets, id: ReservationId, s: Scope, access: Access, usage: Usage,
                   now: nat): ReserveResult
  {
    var k := BucketKey(s, Day(now));
    var ready := WithRows(l, k);
    if Granted(ready, b, k, access, usage) then
      if id in l.reservations then ReserveResult(l, ConstraintFailed)
      else
        var row := Reservation(s, Reserved, usage, NOTHING, now, false);
        ReserveResult(Charge(ready.(reservations := l.reservations[id := row]), k, usage), ReservationMade)
    else if id in l.reservations then ReserveResult(Charge(ready, k, usage), Refused)
    else ReserveResult(ready, Refused)
  }

  // ---- Settling ----

  /** Request overhead and inexact measurements settle at what was reserved. */
  function Actual(id: ReservationId, r: Reservation, measured: Option<Usage>): Usage {
    if id.suffix == RequestOverhead || measured.None? then r.reserved else measured.value.(workerRequests := 1)
  }

  predicate Underestimated(id: ReservationId, r: Reservation, measured: Option<Usage>) {
    id.suffix != RequestOverhead && measured.Some?
    && (!AtMost(Actual(id, r, measured), r.reserved) || !AtMost(NOTHING, Actual(id, r, measured)))
  }

  function Settled(id: ReservationId, r: Reservation, measured: Option<Usage>): Reservation {
    var actual := Actual(id, r, measured);
    r.(state := if actual.workerRequests + actual.rowsRead + actual.rowsWritten + actual.classA + actual.classB == 0
                then Released else Committed,
       committed := actual, underestimated := Underestimated(id, r, measured))
  }

  function SettleKey(r: Reservation): BucketKey { BucketKey(r.scope, Day(r.createdAt)) }

  /** The three statements of one row; `None` when a CHECK constraint fails. */
  function SettleRow(l: Ledger, id: ReservationId, measured: Option<Usage>, now: nat): Option<Ledger>
    requires id in l.reservations
  {
    var r := l.reservations[id];
    var actual := Actual(id, r, measured);
    var after := Charge(l, SettleKey(r), Minus(actual, r.reserved));
    if !AtMost(NOTHING, actual) || now < r.createdAt
       || !AtMost(NOTHING, BucketOf(after, SettleKey(r))) || !AtMost(NOTHING, TotalOf(after, r.scope)) then None
    else Some(if r.state == Reserved then after.(reservations := l.reservations[id := Settled(id, r, measured)])
      else after)
  }

  function SettleRows(l: Ledger, ids: seq<ReservationId>, measured: Option<Usage>, now: nat): Option<Ledger>
    requires forall id :: id in ids ==> id in l.reservations
    ensures SettleRows(l, ids, measured, now).Some? ==>
      SettleRows(l, ids, measured, now).value.reservations.Keys == l.reservations.Keys
  {
    if ids == [] then Some(l)
    else
      match SettleRows(l, ids[..|ids| - 1], measured, now)
      case None => None
      case Some(mid) =>
        assert ids[|ids| - 1] in ids;
        SettleRow(mid, ids[|ids| - 1], measured, now)
  }

  predicate AllReserved(l: Ledger, ids: seq<ReservationId>) {
    forall id :: id in ids ==> id in l.reservations && l.reservations[id].state == Reserved
  }

  predicate AnyUnderestimated(l: Ledger, ids: seq<ReservationId>, measured: Option<Usage>)
    requires AllReserved(l, ids)
  {
    exists id :: id in ids && Underestimated(id, l.reservations[id], measured)
  }

  function WithFault(l: Ledger): Ledger { l.(flags := l.flags.(fault := true)) }

  /** A batch that matched fewer rows than expected is kept, and the fault flag raised afterwards. */
  predicate AllRowsMatched(l: Ledger, ids: seq<ReservationId>)
    requires AllReserved(l, ids)
  {
    && (forall id :: id in ids ==> SettleKey(l.reservations[id]) in l.buckets && l.reservations[id].scope in l.totals)
    && forall i, j :: 0 <= i < j < |ids| ==> ids[i] != ids[j]
  }

  datatype SettleOutcome = SettledAll | SettledUnderestimated | SettlementFailed

  datatype SettleResult = SettleResult(ledger: Ledger, outcome: SettleOutcome)

  function Settle(l: Ledger, ids: seq<ReservationId>, measured: Option<Usage>, now: nat): SettleResult {
    if ids == [] then SettleResult(l, SettledAll)
    else if !AllReserved(l, ids) then SettleResult(WithFault(l), SettlementFailed)
    else
      match SettleRows(l, ids, measured, now)
      case None => SettleResult(WithFault(l), SettlementFailed)
      case Some(after) =>
        if !AllRowsMatched(l, ids) then SettleResult(WithFault(after), SettlementFailed)
        else if AnyUnderestimated(l, ids, measured) then SettleResult(WithFault(after), SettledUnderestimated)
        else SettleResult(after, SettledAll)
  }

  // ---- Expiring daily buckets ----

  datatype ExpiredRow = ExpiredRow(key: BucketKey, usage: Usage)

  /** The first day that stays in the window of a maintenance run. */
  function Cutoff(scheduled: nat): int { Day(scheduled) - (ROLLING_WINDOW_DAYS - 1) }

  function ExpireRow(l: Ledger, row: ExpiredRow): Ledger {
    l.(totals := if row.key.scope in l.totals
                 then l.totals[row.key.scope := ClampedMinus(l.totals[row.key.scope], row.usage)] else l.totals,
       buckets := l.buckets - {row.key})
  }

  function ExpireRows(l: Ledger, rows: seq<ExpiredRow>): Ledger {
    if rows == [] then l else ExpireRow(ExpireRows(l, rows[..|rows| - 1]), rows[|rows| - 1])
  }

  const EXPIRY_PAGE := 1000

  /** What the maintenance query returned: current expired buckets, at most a page of them. */
  predicate ExpiredPage(l: Ledger, rows: seq<ExpiredRow>, scheduled: nat) {
    && |rows| <= EXPIRY_PAGE
    && (forall row :: row in rows ==>
         row.key in l.buckets && l.buckets[row.key] == row.usage && row.key.day < Cutoff(scheduled))
    && forall i, j :: 0 <= i < j < |rows| ==> rows[i].key != rows[j].key
  }

  const STALE_AFTER := 3_600_000

  predicate HasStale(l: Ledger, scheduled: nat) {
    exists id ::
      id in l.reservations && l.reservations[id].state == Reserved
        && l.reservations[id].createdAt < scheduled - STALE_AFTER
  }

  /** One maintenance run: expire the page, then raise the fault over reservations never settled. */
  function Maintain(l: Ledger, rows: seq<ExpiredRow>, scheduled: nat): Ledger {
    var expired := ExpireRows(l, rows);
    if HasStale(expired, scheduled) then WithFault(expired) else expired
  }

  // ---- Conservation ----

  function BucketShare(s: Scope, c: Counter): (BucketKey, Usage) -> int {
    (k: BucketKey, u: Usage) => if k.scope == s then Of(u, c) else 0
  }

  /** What a reservation counts for: its settled usage, or until then its reserved usage. */
  function Cost(r: Reservation): Usage {
    if r.state == Reserved then r.reserved else r.committed
  }

  function ReservationShare(k: BucketKey, c: Counter): (ReservationId, Reservation) -> int {
    (id: ReservationId, r: Reservation) => if SettleKey(r) == k then Of(Cost(r), c) else 0
  }

  /** The rolling total of a scope is the sum of its retained buckets. */
  ghost predicate TotalsBalance(l: Ledger, s: Scope, c: Counter) {
    Of(TotalOf(l, s), c) == Total(l.buckets, BucketShare(s, c))
  }

  /** A retained bucket is the sum of the costs of its reservations. */
  ghost predicate BucketBalances(l: Ledger, k: BucketKey, c: Counter) {
    k in l.buckets ==> Of(l.buckets[k], c) == Total(l.reservations, ReservationShare(k, c))
  }

  predicate RowsNonNegative(l: Ledger) {
    forall id :: id in l.reservations ==>
      AtMost(NOTHING, l.reservations[id].reserved) && AtMost(NOTHING, l.reservations[id].committed)
  }

  /** Every bucket has its scope's total, and only days before `window` have lost their bucket. */
  predicate Retained(l: Ledger, window: int) {
    && (forall k :: k in l.buckets ==> k.scope in l.totals)
    && forall id :: id in l.reservations ==>
         SettleKey(l.reservations[id]) in l.buckets || SettleKey(l.reservations[id]).day < window
  }

  ghost predicate Conserved(l: Ledger, window: int) {
    && RowsNonNegative(l)
    && Retained(l, window)
    && (forall s, c :: TotalsBalance(l, s, c))
    && (forall k, c :: BucketBalances(l, k, c))
  }

  lemma NonNegativeMeans(l: Ledger, id: ReservationId, c: Counter)
    requires RowsNonNegative(l) && id in l.reservations
    ensures Of(Cost(l.reservations[id]), c) >= 0 && Of(l.reservations[id].reserved, c) >= 0
  {
    AtMostMeans(NOTHING, l.reservations[id].reserved);
    AtMostMeans(NOTHING, l.reservations[id].committed);
  }

  lemma BucketNonNegative(l: Ledger, k: BucketKey, c: Counter)
    requires RowsNonNegative(l) && BucketBalances(l, k, c) && k in l.buckets
    ensures Of(l.buckets[k], c) >= 0
  {
    forall id | id in l.reservations ensures ReservationShare(k, c)(id, l.reservations[id]) >= 0 {
      NonNegativeMeans(l, id, c);
    }
    TotalNonNegative(l.reservations, ReservationShare(k, c));
  }

  /** A retained bucket never exceeds its scope's total, so expiring it never clamps. */
  lemma BucketWithinTotal(l: Ledger, window: int, k: BucketKey, c: Counter)
    requires Conserved(l, window) && k in l.buckets
    ensures 0 <= Of(l.buckets[k], c) <= Of(TotalOf(l, k.scope), c)
  {
    forall j | j in l.buckets ensures BucketShare(k.scope, c)(j, l.buckets[j]) >= 0 {
      assert BucketBalances(l, j, c);
      BucketNonNegative(l, j, c);
    }
    assert BucketBalances(l, k, c) && TotalsBalance(l, k.scope, c);
    ShareWithinTotal(l.buckets, BucketShare(k.scope, c), k);
  }

  // ---- Charging a bucket and its total by the same amount ----

  lemma WithRowsBalances(l: Ledger, k: BucketKey, s: Scope, c: Counter)
    requires TotalsBalance(l, s, c)
    ensures TotalsBalance(WithRows(l, k), s, c)
  {
    TotalAfterPut(l.buckets, BucketShare(s, c), k, BucketOf(l, k));
  }

  /** The totals balance after a charge exactly when the charge reaches the bucket, or is nothing. */
  lemma ChargeBalancesIff(l: Ledger, k: BucketKey, usage: Usage, c: Counter)
    requires TotalsBalance(l, k.scope, c) && k.scope in l.totals
    ensures TotalsBalance(Charge(l, k, usage), k.scope, c) <==> k in l.buckets || Of(usage, c) == 0
  {
    if k in l.buckets { TotalAfterPut(l.buckets, BucketShare(k.scope, c), k, Plus(l.buckets[k], usage)); }
  }

  lemma ChargeKeepsOthers(l: Ledger, k: BucketKey, usage: Usage, s: Scope, c: Counter)
    requires TotalsBalance(l, s, c) && s != k.scope
    ensures TotalsBalance(Charge(l, k, usage), s, c)
  {
    if k in l.buckets { TotalAfterPut(l.buckets, BucketShare(s, c), k, Plus(l.buckets[k], usage)); }
  }
}
