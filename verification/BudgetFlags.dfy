/**
 * When a reservation is made (services/sync-worker/src/budget.ts, 164-182 and 442-634): the exact condition
 * in flags, storage and usage numbers, and that the ledger fails closed once a settlement went wrong.
 */
module BudgetFlags {
  import opened Wrappers
  import opened BudgetLedger
  import opened BudgetTheorems

  /** What the service flags and the database size ask of each kind of access. */
  predicate Admitted(l: Ledger, b: Budgets, access: Access) {
    && (access != Read && access != Diagnostic ==>
          l.flags.writes && !l.flags.maintenance && l.d1Bytes < b.d1Bytes)
    && (access == Write ==> !l.flags.fault)
    && (access == NewVault ==> l.flags.newVaults)
    && (access == PairingRetry ==> l.flags.pairings)
  }

  /** No counter of the scope would pass a ceiling, over the window or on the day. */
  predicate RoomFor(l: Ledger, b: Budgets, k: BucketKey, usage: Usage) {
    forall c ::
      && Of(TotalOf(l, k.scope), c) + Of(usage, c) <= Of(CeilingsOf(b, k.scope).rolling, c)
      && Of(BucketOf(l, k), c) + Of(usage, c) <= Of(CeilingsOf(b, k.scope).daily, c)
  }

  function Share(charged: bool, usage: Usage, c: Counter): int { if charged then Of(usage, c) else 0 }

  /** Exactly this bucket and this total have grown by `usage`, and nothing else. */
  ghost predicate ChargedBy(l: Ledger, after: Ledger, k: BucketKey, usage: Usage) {
    && (forall j, c :: Of(BucketOf(after, j), c) == Of(BucketOf(l, j), c) + Share(j == k, usage, c))
    && (forall s, c :: Of(TotalOf(after, s), c) == Of(TotalOf(l, s), c) + Share(s == k.scope, usage, c))
    && after.flags == l.flags && after.d1Bytes == l.d1Bytes
  }

  ghost predicate Uncharged(l: Ledger, after: Ledger) {
    && (forall j :: BucketOf(after, j) == BucketOf(l, j)) && (forall s :: TotalOf(after, s) == TotalOf(l, s))
    && after.flags == l.flags && after.d1Bytes == l.d1Bytes
  }

  lemma RoomMeans(l: Ledger, b: Budgets, k: BucketKey, usage: Usage)
    ensures RoomFor(l, b, k, usage) <==>
      AtMost(Plus(TotalOf(l, k.scope), usage), CeilingsOf(b, k.scope).rolling)
      && AtMost(Plus(BucketOf(l, k), usage), CeilingsOf(b, k.scope).daily)
  {
    AtMostMeans(Plus(TotalOf(l, k.scope), usage), CeilingsOf(b, k.scope).rolling);
    AtMostMeans(Plus(BucketOf(l, k), usage), CeilingsOf(b, k.scope).daily);
  }

  lemma GrantedIff(l: Ledger, b: Budgets, k: BucketKey, access: Access, usage: Usage)
    ensures Granted(WithRows(l, k), b, k, access, usage) <==> Admitted(l, b, access) && RoomFor(l, b, k, usage)
  {
    var ready := WithRows(l, k);
    assert BucketOf(ready, k) == BucketOf(l, k) && TotalOf(ready, k.scope) == TotalOf(l, k.scope);
    RoomMeans(ready, b, k, usage);
    assert RoomFor(ready, b, k, usage) <==> RoomFor(l, b, k, usage);
  }

  /**
   * A new id gets its reservation exactly when its access is admitted and there is room, and is then charged
   * once; otherwise it is refused, without a row and without a charge.
   */
  lemma ReservationMadeIff(l: Ledger, b: Budgets, id: ReservationId, s: Scope, access: Access, usage: Usage, now: nat)
    requires id !in l.reservations
    ensures
      var r := Reserve(l, b, id, s, access, usage, now);
      var k := BucketKey(s, now / MILLISECONDS_PER_DAY);
      if Admitted(l, b, access) && RoomFor(l, b, k, usage) then
        && r.outcome == ReservationMade && ChargedBy(l, r.ledger, k, usage)
        && r.ledger.reservations == l.reservations[id := Reservation(s, Reserved, usage, NOTHING, now, false)]
      else r.outcome == Refused && Uncharged(l, r.ledger) && r.ledger.reservations == l.reservations
  {
    var k := BucketKey(s, Day(now));
    GrantedIff(l, b, k, access, usage);
    ChargeMeans(l, k, usage, l.reservations[id := Reservation(s, Reserved, usage, NOTHING, now, false)]);
  }

  lemma ChargeMeans(l: Ledger, k: BucketKey, usage: Usage, rows: map<ReservationId, Reservation>)
    ensures ChargedBy(l, Charge(WithRows(l, k).(reservations := rows), k, usage), k, usage)
  {
    var after := Charge(WithRows(l, k).(reservations := rows), k, usage);
    assert BucketOf(after, k) == Plus(BucketOf(l, k), usage);
    assert TotalOf(after, k.scope) == Plus(TotalOf(l, k.scope), usage);
    forall j, c ensures Of(BucketOf(after, j), c) == Of(BucketOf(l, j), c) + Share(j == k, usage, c) {
      if j != k { assert BucketOf(after, j) == BucketOf(l, j); }
    }
    forall s, c
      ensures Of(TotalOf(after, s), c) == Of(TotalOf(l, s), c) + Share(s == k.scope, usage, c)
    {
      if s != k.scope { assert TotalOf(after, s) == TotalOf(l, s); }
    }
  }

  /** Reads and diagnostics do not depend on any flag, nor on the size of the database. */
  lemma ReadsIgnoreFlags(l: Ledger, b: Budgets, id: ReservationId, s: Scope, access: Access, usage: Usage, now: nat,
                         flags: Flags, bytes: nat)
    requires access == Read || access == Diagnostic
    ensures Reserve(l.(flags := flags, d1Bytes := bytes), b, id, s, access, usage, now).outcome ==
      Reserve(l, b, id, s, access, usage, now).outcome
  {
    var k := BucketKey(s, Day(now));
    var other := l.(flags := flags, d1Bytes := bytes);
    GrantedIff(l, b, k, access, usage);
    GrantedIff(other, b, k, access, usage);
    assert BucketOf(other, k) == BucketOf(l, k) && TotalOf(other, s) == TotalOf(l, s);
  }

  // ---- Failing closed ----

  /** No reservation of any id is made for a refused access. */
  lemma NotAdmittedIsRefused(l: Ledger, b: Budgets, id: ReservationId, s: Scope, access: Access, usage: Usage, now: nat)
    requires !Admitted(l, b, access)
    ensures Reserve(l, b, id, s, access, usage, now).outcome == Refused
    ensures Reserve(l, b, id, s, access, usage, now).ledger.reservations == l.reservations
  {
    GrantedIff(l, b, BucketKey(s, Day(now)), access, usage);
  }

  /** Some counter of a request was measured above what was reserved for it, or below zero. */
  predicate MeasuredOver(id: ReservationId, r: Reservation, measured: Option<Usage>) {
    && id.suffix != RequestOverhead && measured.Some?
    && exists c :: Of(measured.value.(workerRequests := 1), c) > Of(r.reserved, c)
                   || Of(measured.value.(workerRequests := 1), c) < 0
  }

  lemma UnderestimatedIff(id: ReservationId, r: Reservation, measured: Option<Usage>)
    ensures Underestimated(id, r, measured) <==> MeasuredOver(id, r, measured)
  {
    if id.suffix != RequestOverhead && measured.Some? {
      AtMostMeans(measured.value.(workerRequests := 1), r.reserved);
      AtMostMeans(NOTHING, measured.value.(workerRequests := 1));
      assert forall c :: Of(NOTHING, c) == 0;
    }
  }

  /**
   * A settlement that goes through reports an underestimate exactly when a request was measured over its
   * reservation; the fault goes up exactly when it does, or when the settlement fails.
   */
  lemma SettlementReportsIff(l: Ledger, ids: seq<ReservationId>, measured: Option<Usage>, now: nat)
    requires forall id :: id in ids ==> id in l.reservations
    ensures
      var r := Settle(l, ids, measured, now);
      && (r.outcome != SettlementFailed ==>
            (r.outcome == SettledUnderestimated <==>
             exists id :: id in ids && MeasuredOver(id, l.reservations[id], measured)))
      && (r.ledger.flags.fault <==> l.flags.fault || r.outcome != SettledAll)
  {
    forall id | id in ids
      ensures Underestimated(id, l.reservations[id], measured) <==> MeasuredOver(id, l.reservations[id], measured)
    {
      UnderestimatedIff(id, l.reservations[id], measured);
    }
    if AllReserved(l, ids) && SettleRows(l, ids, measured, now).Some? { SettleRowsKeepFlags(l, ids, measured, now); }
  }

  /** Maintenance raises the fault exactly when a reservation older than an hour was never settled. */
  lemma MaintenanceReportsIff(l: Ledger, rows: seq<ExpiredRow>, scheduled: nat)
    ensures Maintain(l, rows, scheduled).flags.fault <==>
      || l.flags.fault
      || exists id :: id in l.reservations && l.reservations[id].state == Reserved
           && l.reservations[id].createdAt + 3_600_000 < scheduled
  {
    ExpiryKeepsRows(l, rows);
    if HasStale(l, scheduled) {
      var id :| id in l.reservations && l.reservations[id].state == Reserved
        && l.reservations[id].createdAt < scheduled - STALE_AFTER;
      assert l.reservations[id].createdAt + 3_600_000 < scheduled;
    }
  }

  /** The event is a settlement that reports an underestimate, or fails. */
  predicate SettlesBadly(l: Ledger, e: LedgerEvent) {
    e.SettleEvent? && Settle(l, e.ids, e.measured, e.now).outcome != SettledAll
  }

  lemma BadSettlementRaisesFault(l: Ledger, e: LedgerEvent, b: Budgets)
    requires SettlesBadly(l, e)
    ensures Step(l, e, b).flags.fault
  {}

  lemma FaultStays(l: Ledger, e: LedgerEvent, b: Budgets)
    requires l.flags.fault
    ensures Step(l, e, b).flags.fault
  {
    match e {
      case SettleEvent(ids, measured, now) =>
        if AllReserved(l, ids) && SettleRows(l, ids, measured, now).Some? {
          SettleRowsKeepFlags(l, ids, measured, now);
        }
      case ExpireEvent(rows, now) => ExpiryKeepsRows(l, rows);
      case _ =>
    }
  }

  /** The ledger before event `i` of a run. */
  function Before(flags: Flags, events: seq<LedgerEvent>, b: Budgets, i: nat): Ledger
    requires i <= |events|
  {
    Run(flags, events[..i], b).ledger
  }

  lemma {:induction false} FaultRemains(flags: Flags, events: seq<LedgerEvent>, b: Budgets, i: nat, j: nat)
    requires i < j <= |events|
    requires Before(flags, events, b, i).flags.fault || SettlesBadly(Before(flags, events, b, i), events[i])
    ensures Before(flags, events, b, j).flags.fault
    decreases j
  {
    assert events[..j][..j - 1] == events[..j - 1];
    var before := Before(flags, events, b, j - 1);
    if i < j - 1 { FaultRemains(flags, events, b, i, j - 1); }
    if before.flags.fault { FaultStays(before, events[j - 1], b); }
    else { BadSettlementRaisesFault(before, events[j - 1], b); }
  }

  /**
   * Over every run: after a settlement that reported an underestimate or failed, no write is reserved any more,
   * whatever settlements, maintenance runs or switches of the other flags follow.
   */
  lemma WritesStopAfterFault(flags: Flags, events: seq<LedgerEvent>, b: Budgets, i: nat, j: nat)
    requires i < j < |events| && SettlesBadly(Before(flags, events, b, i), events[i])
    requires events[j].ReserveEvent? && events[j].access == Write
    ensures
      var l, e := Before(flags, events, b, j), events[j];
      && Reserve(l, b, e.id, e.scope, Write, e.usage, e.now).outcome == Refused
      && Before(flags, events, b, j + 1).reservations == l.reservations
  {
    var l, e := Before(flags, events, b, j), events[j];
    FaultRemains(flags, events, b, i, j);
    NotAdmittedIsRefused(l, b, e.id, e.scope, Write, e.usage, e.now);
    assert events[..j + 1][..j] == events[..j];
  }
}
