/** Conservation and ceilings of the usage ledger over every interleaving of its batches. */
module BudgetTheorems {
  import opened Wrappers
  import opened Sums
  import opened BudgetLedger

  // ---- Reserving ----

  /** A day without a bucket has no reservations to count, unless it was expired. */
  lemma FreshBucketIsEmpty(l: Ledger, window: int, k: BucketKey, c: Counter)
    requires Conserved(l, window) && k !in l.buckets && window <= k.day
    ensures Total(l.reservations, ReservationShare(k, c)) == 0
  {
    var zero := (id: ReservationId, r: Reservation) => 0;
    TotalCongruent(l.reservations, ReservationShare(k, c), zero);
    TotalOfZero(l.reservations, zero);
  }

  lemma WithRowsConserves(l: Ledger, window: int, k: BucketKey)
    requires Conserved(l, window) && window <= k.day
    ensures Conserved(WithRows(l, k), window)
  {
    var ready := WithRows(l, k);
    forall s, c ensures TotalsBalance(ready, s, c) {
      assert TotalsBalance(l, s, c);
      WithRowsBalances(l, k, s, c);
    }
    forall j, c ensures BucketBalances(ready, j, c) {
      assert BucketBalances(l, j, c);
      if j == k && k !in l.buckets { FreshBucketIsEmpty(l, window, k, c); }
    }
  }

  lemma ChargedTotals(l: Ledger, k: BucketKey, usage: Usage, s: Scope, c: Counter)
    requires TotalsBalance(l, s, c) && k in l.buckets && k.scope in l.totals
    ensures TotalsBalance(Charge(l, k, usage), s, c)
  {
    if s == k.scope { ChargeBalancesIff(l, k, usage, c); } else { ChargeKeepsOthers(l, k, usage, s, c); }
  }

  /** A reservation row and its charge move together. */
  lemma RowAndChargeConserve(l: Ledger, window: int, id: ReservationId, r: Reservation, delta: Usage)
    requires Conserved(l, window)
    requires SettleKey(r) in l.buckets
    requires AtMost(NOTHING, r.reserved) && AtMost(NOTHING, r.committed)
    requires id in l.reservations ==> SettleKey(l.reservations[id]) == SettleKey(r)
    requires forall c ::
      Of(delta, c) == Of(Cost(r), c) - if id in l.reservations then Of(Cost(l.reservations[id]), c) else 0
    ensures Conserved(Charge(l.(reservations := l.reservations[id := r]), SettleKey(r), delta), window)
  {
    var k := SettleKey(r);
    var after := Charge(l.(reservations := l.reservations[id := r]), k, delta);
    forall s, c ensures TotalsBalance(after, s, c) {
      assert TotalsBalance(l, s, c);
      ChargedTotals(l, k, delta, s, c);
      assert after.buckets == Charge(l, k, delta).buckets && after.totals == Charge(l, k, delta).totals;
    }
    forall j, c ensures BucketBalances(after, j, c) {
      assert BucketBalances(l, j, c);
      TotalAfterPut(l.reservations, ReservationShare(j, c), id, r);
    }
  }

  lemma FreshReserveConserves(l: Ledger, b: Budgets, window: int, id: ReservationId, s: Scope,
                              access: Access, usage: Usage, now: nat)
    requires Conserved(l, window) && window <= Day(now) && AtMost(NOTHING, usage) && id !in l.reservations
    ensures Conserved(Reserve(l, b, id, s, access, usage, now).ledger, window)
  {
    var k := BucketKey(s, Day(now));
    WithRowsConserves(l, window, k);
    if Granted(WithRows(l, k), b, k, access, usage) {
      RowAndChargeConserve(WithRows(l, k), window, id, Reservation(s, Reserved, usage, NOTHING, now, false), usage);
    }
  }

  /**
   * A reservation batch keeps the ledger balanced exactly when its id is new, or its insert
   * is granted (and so fails on the primary key), or it asks for nothing.
   */
  lemma ReserveConservesIff(l: Ledger, b: Budgets, window: int, id: ReservationId, s: Scope,
                            access: Access, usage: Usage, now: nat)
    requires Conserved(l, window) && window <= Day(now) && AtMost(NOTHING, usage)
    ensures Conserved(Reserve(l, b, id, s, access, usage, now).ledger, window) <==>
      id !in l.reservations || usage == NOTHING
      || Granted(WithRows(l, BucketKey(s, Day(now))), b, BucketKey(s, Day(now)), access, usage)
  {
    var k := BucketKey(s, Day(now));
    if id !in l.reservations {
      FreshReserveConserves(l, b, window, id, s, access, usage, now);
    } else if !Granted(WithRows(l, k), b, k, access, usage) {
      WithRowsConserves(l, window, k);
      BareChargeConservesIff(WithRows(l, k), window, k, usage);
    }
  }

  /** A charge without a reservation row is only right when it is nothing. */
  lemma BareChargeConservesIff(l: Ledger, window: int, k: BucketKey, usage: Usage)
    requires Conserved(l, window) && k in l.buckets
    ensures Conserved(Charge(l, k, usage), window) <==> usage == NOTHING
  {
    var after := Charge(l, k, usage);
    if usage == NOTHING {
      assert Plus(l.buckets[k], usage) == l.buckets[k] && Plus(l.totals[k.scope], usage) == l.totals[k.scope];
      assert after.buckets == l.buckets && after.totals == l.totals;
    } else {
      var c := SomeCounter(usage);
      assert BucketBalances(l, k, c);
      assert !BucketBalances(after, k, c);
    }
  }

  lemma SomeCounter(usage: Usage) returns (c: Counter)
    requires usage != NOTHING
    ensures Of(usage, c) != 0
  {
    if usage.workerRequests != 0 { c := WorkerRequests; }
    else if usage.rowsRead != 0 { c := RowsRead; }
    else if usage.rowsWritten != 0 { c := RowsWritten; }
    else if usage.classA != 0 { c := ClassA; }
    else { c := ClassB; }
  }

  // ---- Settling ----

  /**
   * Settling one reservation keeps the ledger balanced exactly when the bucket of its day
   * is still there or there is nothing to correct; otherwise the total alone is corrected.
   */
  lemma SettleRowConservesIff(l: Ledger, window: int, id: ReservationId, measured: Option<Usage>, now: nat)
    requires Conserved(l, window) && id in l.reservations && l.reservations[id].state == Reserved
    requires l.reservations[id].scope in l.totals
    requires SettleRow(l, id, measured, now).Some?
    ensures Conserved(SettleRow(l, id, measured, now).value, window) <==>
      SettleKey(l.reservations[id]) in l.buckets
      || Actual(id, l.reservations[id], measured) == l.reservations[id].reserved
  {
    var r := l.reservations[id];
    var after := SettleRow(l, id, measured, now).value;
    var delta := Minus(Actual(id, r, measured), r.reserved);
    var row := Settled(id, r, measured);
    if SettleKey(r) in l.buckets {
      RowAndChargeConserve(l, window, id, row, delta);
      assert after == Charge(l.(reservations := l.reservations[id := row]), SettleKey(r), delta);
    } else if Actual(id, r, measured) == r.reserved {
      ExpiredRowConserves(l, window, id, row);
      assert Plus(l.totals[r.scope], delta) == l.totals[r.scope];
      assert after.totals == l.totals && after == l.(reservations := l.reservations[id := row]);
    } else {
      var c := SomeCounter(delta);
      assert TotalsBalance(l, r.scope, c);
      ChargeBalancesIff(l, SettleKey(r), delta, c);
      assert !TotalsBalance(after, r.scope, c);
    }
  }

  /** A charge that reaches the total alone, or nothing. */
  lemma TotalChargeConservesIff(l: Ledger, window: int, k: BucketKey, usage: Usage)
    requires Conserved(l, window) && k !in l.buckets
    ensures Conserved(Charge(l, k, usage), window) <==> usage == NOTHING || k.scope !in l.totals
  {
    var after := Charge(l, k, usage);
    if k.scope !in l.totals {
      assert after == l;
    } else if usage == NOTHING {
      assert Plus(l.totals[k.scope], usage) == l.totals[k.scope];
      assert after.totals == l.totals;
    } else {
      var c := SomeCounter(usage);
      assert TotalsBalance(l, k.scope, c);
      ChargeBalancesIff(l, k, usage, c);
      assert !TotalsBalance(after, k.scope, c);
    }
  }

  lemma NothingToCorrectIff(actual: Usage, reserved: Usage)
    ensures Minus(actual, reserved) == NOTHING <==> actual == reserved
  {}

  /**
   * Settling a reservation that is settled already leaves its row alone and charges its correction
   * again: the ledger stays balanced exactly when there is nothing to correct, or no row to charge.
   */
  lemma RepeatedSettlementConservesIff(l: Ledger, window: int, id: ReservationId, measured: Option<Usage>, now: nat)
    requires Conserved(l, window) && id in l.reservations && l.reservations[id].state != Reserved
    requires SettleRow(l, id, measured, now).Some?
    ensures SettleRow(l, id, measured, now).value.reservations == l.reservations
    ensures Conserved(SettleRow(l, id, measured, now).value, window) <==>
      Actual(id, l.reservations[id], measured) == l.reservations[id].reserved
      || l.reservations[id].scope !in l.totals
  {
    var r := l.reservations[id];
    var delta := Minus(Actual(id, r, measured), r.reserved);
    NothingToCorrectIff(Actual(id, r, measured), r.reserved);
    if SettleKey(r) in l.buckets {
      BareChargeConservesIff(l, window, SettleKey(r), delta);
    } else {
      TotalChargeConservesIff(l, window, SettleKey(r), delta);
    }
  }

  /** A reservation whose bucket is gone counts for no retained bucket. */
  lemma ExpiredRowConserves(l: Ledger, window: int, id: ReservationId, row: Reservation)
    requires Conserved(l, window) && id in l.reservations && SettleKey(row) == SettleKey(l.reservations[id])
    requires SettleKey(row) !in l.buckets && AtMost(NOTHING, row.reserved) && AtMost(NOTHING, row.committed)
    ensures Conserved(l.(reservations := l.reservations[id := row]), window)
  {
    var after := l.(reservations := l.reservations[id := row]);
    forall s, c ensures TotalsBalance(after, s, c) { assert TotalsBalance(l, s, c); }
    forall j, c ensures BucketBalances(after, j, c) {
      assert BucketBalances(l, j, c);
      TotalAfterPut(l.reservations, ReservationShare(j, c), id, row);
    }
  }

  /** Each reservation is settled while its day is retained, or at exactly what it reserved. */
  predicate InTime(l: Ledger, ids: seq<ReservationId>, measured: Option<Usage>)
    requires AllReserved(l, ids)
  {
    forall id :: id in ids ==>
      l.reservations[id].scope in l.totals
      && (SettleKey(l.reservations[id]) in l.buckets
          || Actual(id, l.reservations[id], measured) == l.reservations[id].reserved)
  }

  predicate DistinctIds(ids: seq<ReservationId>) {
    forall i, j :: 0 <= i < j < |ids| ==> ids[i] != ids[j]
  }

  lemma SettleRowKeepsOthers(l: Ledger, settled: ReservationId, measured: Option<Usage>, now: nat, id: ReservationId)
    requires settled in l.reservations && id != settled && SettleRow(l, settled, measured, now).Some?
    ensures
      var after := SettleRow(l, settled, measured, now).value;
      && after.buckets.Keys == l.buckets.Keys && after.totals.Keys == l.totals.Keys && after.flags == l.flags
      && (id in l.reservations ==> id in after.reservations && after.reservations[id] == l.reservations[id])
  {}

  lemma {:induction false} SettleRowsKeepOthers(l: Ledger, ids: seq<ReservationId>, measured: Option<Usage>, now: nat,
                                                id: ReservationId)
    requires AllReserved(l, ids) && id !in ids && SettleRows(l, ids, measured, now).Some?
    ensures
      var after := SettleRows(l, ids, measured, now).value;
      && after.buckets.Keys == l.buckets.Keys && after.totals.Keys == l.totals.Keys && after.flags == l.flags
      && (id in l.reservations ==> id in after.reservations && after.reservations[id] == l.reservations[id])
    decreases |ids|
  {
    if ids != [] {
      var n := |ids| - 1;
      assert ids[n] in ids && forall x :: x in ids[..n] ==> x in ids;
      SettleRowsKeepOthers(l, ids[..n], measured, now, id);
      SettleRowKeepsOthers(SettleRows(l, ids[..n], measured, now).value, ids[n], measured, now, id);
    }
  }

  lemma {:induction false} SettleRowsConserve(l: Ledger, window: int, ids: seq<ReservationId>, measured: Option<Usage>,
                                              now: nat)
    requires Conserved(l, window) && AllReserved(l, ids) && InTime(l, ids, measured) && DistinctIds(ids)
    requires SettleRows(l, ids, measured, now).Some?
    ensures Conserved(SettleRows(l, ids, measured, now).value, window)
    decreases |ids|
  {
    if ids != [] {
      var n := |ids| - 1;
      assert ids[n] in ids && forall x :: x in ids[..n] ==> x in ids;
      assert ids[n] !in ids[..n];
      SettleRowsConserve(l, window, ids[..n], measured, now);
      SettleRowsKeepOthers(l, ids[..n], measured, now, ids[n]);
      SettleRowConservesIff(SettleRows(l, ids[..n], measured, now).value, window, ids[n], measured, now);
    }
  }

  lemma FaultConserves(l: Ledger, window: int)
    requires Conserved(l, window)
    ensures Conserved(WithFault(l), window)
  {
    forall s, c ensures TotalsBalance(WithFault(l), s, c) { assert TotalsBalance(l, s, c); }
    forall k, c ensures BucketBalances(WithFault(l), k, c) { assert BucketBalances(l, k, c); }
  }

  lemma SettleConserves(l: Ledger, window: int, ids: seq<ReservationId>, measured: Option<Usage>, now: nat)
    requires Conserved(l, window) && DistinctIds(ids)
    requires AllReserved(l, ids) ==> InTime(l, ids, measured)
    ensures Conserved(Settle(l, ids, measured, now).ledger, window)
  {
    FaultConserves(l, window);
    if AllReserved(l, ids) && SettleRows(l, ids, measured, now).Some? {
      SettleRowsConserve(l, window, ids, measured, now);
      FaultConserves(SettleRows(l, ids, measured, now).value, window);
    }
  }

  // ---- Expiring ----

  lemma RetainedLater(l: Ledger, window: int, later: int)
    requires Conserved(l, window) && window <= later
    ensures Conserved(l, later)
  {
    forall s, c ensures TotalsBalance(l, s, c) {}
    forall k, c ensures BucketBalances(l, k, c) {}
  }

  /** Expiring a current bucket never clamps and keeps the totals balanced. */
  lemma ExpireRowConserves(l: Ledger, window: int, row: ExpiredRow)
    requires Conserved(l, window) && row.key in l.buckets && l.buckets[row.key] == row.usage && row.key.day < window
    ensures Conserved(ExpireRow(l, row), window)
    ensures forall c ::
      Of(TotalOf(ExpireRow(l, row), row.key.scope), c) == Of(TotalOf(l, row.key.scope), c) - Of(row.usage, c)
  {
    var after := ExpireRow(l, row);
    forall c ensures Of(TotalOf(after, row.key.scope), c) == Of(TotalOf(l, row.key.scope), c) - Of(row.usage, c) {
      BucketWithinTotal(l, window, row.key, c);
    }
    forall s, c ensures TotalsBalance(after, s, c) {
      assert TotalsBalance(l, s, c);
      TotalAfterRemove(l.buckets, BucketShare(s, c), row.key);
    }
    forall k, c ensures BucketBalances(after, k, c) { assert BucketBalances(l, k, c); }
  }

  lemma {:induction false} ExpireRowsKeepOthers(l: Ledger, rows: seq<ExpiredRow>, k: BucketKey)
    requires forall row :: row in rows ==> row.key != k
    ensures k in ExpireRows(l, rows).buckets <==> k in l.buckets
    ensures k in l.buckets ==> ExpireRows(l, rows).buckets[k] == l.buckets[k]
    decreases |rows|
  {
    if rows != [] {
      assert rows[|rows| - 1] in rows && forall row :: row in rows[..|rows| - 1] ==> row in rows;
      ExpireRowsKeepOthers(l, rows[..|rows| - 1], k);
    }
  }

  lemma {:induction false} ExpireRowsConserve(l: Ledger, window: int, rows: seq<ExpiredRow>)
    requires Conserved(l, window)
    requires forall row :: row in rows ==>
      row.key in l.buckets && l.buckets[row.key] == row.usage && row.key.day < window
    requires forall i, j :: 0 <= i < j < |rows| ==> rows[i].key != rows[j].key
    ensures Conserved(ExpireRows(l, rows), window)
    decreases |rows|
  {
    if rows != [] {
      var n := |rows| - 1;
      assert rows[n] in rows && forall row :: row in rows[..n] ==> row in rows;
      ExpireRowsConserve(l, window, rows[..n]);
      ExpireRowsKeepOthers(l, rows[..n], rows[n].key);
      ExpireRowConserves(ExpireRows(l, rows[..n]), window, rows[n]);
    }
  }

  lemma ExpireConserves(l: Ledger, window: int, rows: seq<ExpiredRow>, scheduled: nat)
    requires Conserved(l, window) && window <= Cutoff(scheduled) && ExpiredPage(l, rows, scheduled)
    ensures Conserved(Maintain(l, rows, scheduled), Cutoff(scheduled))
  {
    RetainedLater(l, window, Cutoff(scheduled));
    ExpireRowsConserve(l, Cutoff(scheduled), rows);
    FaultConserves(ExpireRows(l, rows), Cutoff(scheduled));
  }

  predicate RightlyRead(l: Ledger, row: ExpiredRow, c: Counter) {
    var bucket, total := Of(BucketOf(l, row.key), c), Of(TotalOf(l, row.key.scope), c);
    Of(row.usage, c) == bucket || bucket == total <= Of(row.usage, c)
  }

  /**
   * Maintenance reads its page before the batch. What it subtracts is right exactly when,
   * in every counter, the bucket still is what was read, or is the whole total and was
   * over-read, so that the clamp hides the difference. A bucket that another run has
   * already removed counts as zero here.
   */
  lemma StaleExpiryConservesIff(l: Ledger, window: int, row: ExpiredRow)
    requires Conserved(l, window) && row.key.day < window && row.key.scope in l.totals
    ensures Conserved(ExpireRow(l, row), window) <==> forall c :: RightlyRead(l, row, c)
  {
    var s, after := row.key.scope, ExpireRow(l, row);
    forall c ensures TotalsBalance(after, s, c) <==> RightlyRead(l, row, c) {
      assert TotalsBalance(l, s, c);
      TotalAfterRemove(l.buckets, BucketShare(s, c), row.key);
      if row.key in l.buckets {
        BucketWithinTotal(l, window, row.key, c);
      } else {
        TotalIsNonNegative(l, window, s, c);
      }
    }
    forall t, c | t != s ensures TotalsBalance(after, t, c) {
      assert TotalsBalance(l, t, c);
      TotalAfterRemove(l.buckets, BucketShare(t, c), row.key);
    }
    forall k, c ensures BucketBalances(after, k, c) { assert BucketBalances(l, k, c); }
  }

  lemma TotalIsNonNegative(l: Ledger, window: int, s: Scope, c: Counter)
    requires Conserved(l, window)
    ensures Of(TotalOf(l, s), c) >= 0
  {
    assert TotalsBalance(l, s, c);
    forall k | k in l.buckets ensures BucketShare(s, c)(k, l.buckets[k]) >= 0 {
      assert BucketBalances(l, k, c);
      BucketNonNegative(l, k, c);
    }
    TotalNonNegative(l.buckets, BucketShare(s, c));
  }

  // ---- Ceilings ----

  predicate BudgetsValid(b: Budgets) {
    AtMost(NOTHING, b.service.rolling) && AtMost(NOTHING, b.service.daily)
    && AtMost(NOTHING, b.vault.rolling) && AtMost(NOTHING, b.vault.daily)
  }

  predicate Within(l: Ledger, b: Budgets) {
    && (forall s :: s in l.totals ==> AtMost(l.totals[s], CeilingsOf(b, s).rolling))
    && forall k :: k in l.buckets ==> AtMost(l.buckets[k], CeilingsOf(b, k.scope).daily)
  }

  lemma ReserveStaysWithin(l: Ledger, b: Budgets, id: ReservationId, s: Scope, access: Access, usage: Usage, now: nat)
    requires BudgetsValid(b) && Within(l, b) && id !in l.reservations
    ensures Within(Reserve(l, b, id, s, access, usage, now).ledger, b)
  {}

  lemma SmallerChargeStaysWithin(l: Ledger, b: Budgets, k: BucketKey, delta: Usage)
    requires Within(l, b) && AtMost(delta, NOTHING)
    ensures Within(Charge(l, k, delta), b)
  {}

  lemma {:induction false} SettleRowsStayWithin(l: Ledger, b: Budgets, ids: seq<ReservationId>,
                                                measured: Option<Usage>, now: nat)
    requires Within(l, b) && AllReserved(l, ids) && !AnyUnderestimated(l, ids, measured) && DistinctIds(ids)
    requires SettleRows(l, ids, measured, now).Some?
    ensures Within(SettleRows(l, ids, measured, now).value, b)
    decreases |ids|
  {
    if ids != [] {
      var n := |ids| - 1;
      var id := ids[n];
      assert id in ids && (forall x :: x in ids[..n] ==> x in ids) && id !in ids[..n];
      SettleRowsStayWithin(l, b, ids[..n], measured, now);
      SettleRowsKeepOthers(l, ids[..n], measured, now, id);
      var mid := SettleRows(l, ids[..n], measured, now).value;
      assert !Underestimated(id, l.reservations[id], measured);
      SettledRowStaysWithin(mid, b, id, measured, now);
    }
  }

  lemma SettledRowStaysWithin(l: Ledger, b: Budgets, id: ReservationId, measured: Option<Usage>, now: nat)
    requires Within(l, b) && id in l.reservations && !Underestimated(id, l.reservations[id], measured)
    requires SettleRow(l, id, measured, now).Some?
    ensures Within(SettleRow(l, id, measured, now).value, b)
  {
    var r := l.reservations[id];
    SmallerChargeStaysWithin(l, b, SettleKey(r), Minus(Actual(id, r, measured), r.reserved));
  }

  /** Every row of a settled request holds its own settlement. */
  lemma {:induction false} SettleRowsSettle(l: Ledger, ids: seq<ReservationId>, measured: Option<Usage>, now: nat,
                                            id: ReservationId)
    requires AllReserved(l, ids) && DistinctIds(ids) && id in ids && SettleRows(l, ids, measured, now).Some?
    ensures id in SettleRows(l, ids, measured, now).value.reservations
    ensures SettleRows(l, ids, measured, now).value.reservations[id] == Settled(id, l.reservations[id], measured)
    decreases |ids|
  {
    var n := |ids| - 1;
    PrefixFacts(l, ids);
    SettleRowsKeepOthers(l, ids[..n], measured, now, ids[n]);
    if id in ids[..n] { SettleRowsSettle(l, ids[..n], measured, now, id); }
    SettleRowSettles(SettleRows(l, ids[..n], measured, now).value, ids[n], measured, now);
  }

  lemma PrefixFacts(l: Ledger, ids: seq<ReservationId>)
    requires AllReserved(l, ids) && DistinctIds(ids) && ids != []
    ensures
      var n := |ids| - 1;
      && AllReserved(l, ids[..n]) && DistinctIds(ids[..n])
      && ids[n] in ids && ids[n] !in ids[..n]
      && forall x :: x in ids <==> x in ids[..n] || x == ids[n]
  {
    var n := |ids| - 1;
    assert ids == ids[..n] + [ids[n]];
  }

  lemma SettleRowSettles(l: Ledger, id: ReservationId, measured: Option<Usage>, now: nat)
    requires id in l.reservations && l.reservations[id].state == Reserved && SettleRow(l, id, measured, now).Some?
    ensures SettleRow(l, id, measured, now).value.reservations ==
      l.reservations[id := Settled(id, l.reservations[id], measured)]
  {}

  predicate UnsettledIsUnmarked(l: Ledger) {
    forall id :: id in l.reservations && l.reservations[id].state == Reserved ==> !l.reservations[id].underestimated
  }

  /** Some reservation was settled above what it had reserved. */
  predicate HasUnderestimate(l: Ledger) {
    exists id :: id in l.reservations && l.reservations[id].underestimated
  }

  /** No ceiling is passed, unless a reservation was underestimated and the fault is up. */
  predicate WithinOrUnderestimated(l: Ledger, b: Budgets) {
    UnsettledIsUnmarked(l) && (Within(l, b) || (HasUnderestimate(l) && l.flags.fault))
  }

  lemma SettledRowsMarked(l: Ledger, ids: seq<ReservationId>, measured: Option<Usage>, now: nat)
    requires AllReserved(l, ids) && DistinctIds(ids) && SettleRows(l, ids, measured, now).Some?
    requires UnsettledIsUnmarked(l)
    ensures
      var after := SettleRows(l, ids, measured, now).value;
      && UnsettledIsUnmarked(after)
      && (HasUnderestimate(l) || AnyUnderestimated(l, ids, measured) ==> HasUnderestimate(after))
  {
    var after := SettleRows(l, ids, measured, now).value;
    forall id | id in after.reservations
      ensures after.reservations[id] ==
        if id in ids then Settled(id, l.reservations[id], measured) else l.reservations[id]
    {
      if id in ids { SettleRowsSettle(l, ids, measured, now, id); }
      else { SettleRowsKeepOthers(l, ids, measured, now, id); }
    }
    if HasUnderestimate(l) {
      var id :| id in l.reservations && l.reservations[id].underestimated;
      assert id !in ids && id in after.reservations;
    }
    if AnyUnderestimated(l, ids, measured) {
      var id :| id in ids && Underestimated(id, l.reservations[id], measured);
      assert id in after.reservations;
    }
  }

  /** A settlement passes a ceiling only by an underestimated reservation, and then raises the fault. */
  lemma SettleStaysWithin(l: Ledger, b: Budgets, ids: seq<ReservationId>, measured: Option<Usage>, now: nat)
    requires WithinOrUnderestimated(l, b) && DistinctIds(ids)
    ensures WithinOrUnderestimated(Settle(l, ids, measured, now).ledger, b)
  {
    if ids != [] && AllReserved(l, ids) && SettleRows(l, ids, measured, now).Some? {
      var after := SettleRows(l, ids, measured, now).value;
      SettleRowsKeepFlags(l, ids, measured, now);
      SettledRowsMarked(l, ids, measured, now);
      if Within(l, b) && !AnyUnderestimated(l, ids, measured) { SettleRowsStayWithin(l, b, ids, measured, now); }
      assert WithinOrUnderestimated(WithFault(after), b);
    }
  }

  lemma {:induction false} SettleRowsKeepFlags(l: Ledger, ids: seq<ReservationId>, measured: Option<Usage>, now: nat)
    requires (forall id :: id in ids ==> id in l.reservations) && SettleRows(l, ids, measured, now).Some?
    ensures SettleRows(l, ids, measured, now).value.flags == l.flags
    decreases |ids|
  {
    if ids != [] {
      assert ids[|ids| - 1] in ids && forall x :: x in ids[..|ids| - 1] ==> x in ids;
      SettleRowsKeepFlags(l, ids[..|ids| - 1], measured, now);
    }
  }

  lemma {:induction false} ExpiryStaysWithin(l: Ledger, b: Budgets, rows: seq<ExpiredRow>)
    requires BudgetsValid(b) && Within(l, b)
    requires forall row :: row in rows ==> AtMost(NOTHING, row.usage)
    ensures Within(ExpireRows(l, rows), b) && ExpireRows(l, rows).flags == l.flags
    decreases |rows|
  {
    if rows != [] {
      assert rows[|rows| - 1] in rows && forall row :: row in rows[..|rows| - 1] ==> row in rows;
      ExpiryStaysWithin(l, b, rows[..|rows| - 1]);
    }
  }

  // ---- Runs ----

  datatype LedgerEvent =
    | ReserveEvent(id: ReservationId, scope: Scope, access: Access, usage: Usage, now: nat)
    | SettleEvent(ids: seq<ReservationId>, measured: Option<Usage>, now: nat)
    | ExpireEvent(rows: seq<ExpiredRow>, now: nat)
    | ServiceEvent(newVaults: bool, pairings: bool, writes: bool, maintenance: bool, now: nat)
    | StorageEvent(bytes: nat, now: nat)

  datatype LedgerState = LedgerState(ledger: Ledger, clock: nat)

  function Step(l: Ledger, e: LedgerEvent, b: Budgets): Ledger {
    match e
    case ReserveEvent(id, scope, access, usage, now) => Reserve(l, b, id, scope, access, usage, now).ledger
    case SettleEvent(ids, measured, now) => Settle(l, ids, measured, now).ledger
    case ExpireEvent(rows, now) => Maintain(l, rows, now)
    case ServiceEvent(newVaults, pairings, writes, maintenance, _) =>
      l.(flags := Flags(newVaults, pairings, writes, maintenance, l.flags.fault))
    case StorageEvent(bytes, _) => l.(d1Bytes := bytes)
  }

  function EmptyLedger(flags: Flags): Ledger { Ledger(map[], map[], map[], flags, 0) }

  function Run(flags: Flags, events: seq<LedgerEvent>, b: Budgets): LedgerState {
    if events == [] then LedgerState(EmptyLedger(flags), 0)
    else
      var e := events[|events| - 1];
      LedgerState(Step(Run(flags, events[..|events| - 1], b).ledger, e, b), e.now)
  }

  /**
   * The clock does not go back, reservation ids are new, requests settle each of theirs
   * once and before its day leaves the window, and expiry acts on the rows it has read.
   */
  predicate Plausible(s: LedgerState, e: LedgerEvent) {
    s.clock <= e.now
    && match e
       case ReserveEvent(id, _, _, usage, _) => id !in s.ledger.reservations && AtMost(NOTHING, usage)
       case SettleEvent(ids, measured, _) =>
         DistinctIds(ids) && (AllReserved(s.ledger, ids) ==> InTime(s.ledger, ids, measured))
       case ExpireEvent(rows, now) => ExpiredPage(s.ledger, rows, now)
       case _ => true
  }

  predicate PlausibleRun(flags: Flags, events: seq<LedgerEvent>, b: Budgets) {
    events == []
    || (PlausibleRun(flags, events[..|events| - 1], b)
        && Plausible(Run(flags, events[..|events| - 1], b), events[|events| - 1]))
  }

  lemma PlainEventConserves(l: Ledger, flags: Flags, bytes: nat, window: int)
    requires Conserved(l, window)
    ensures Conserved(l.(flags := flags, d1Bytes := bytes), window)
  {
    var after := l.(flags := flags, d1Bytes := bytes);
    forall s, c ensures TotalsBalance(after, s, c) { assert TotalsBalance(l, s, c); }
    forall k, c ensures BucketBalances(after, k, c) { assert BucketBalances(l, k, c); }
  }

  lemma StepConserves(s: LedgerState, e: LedgerEvent, b: Budgets)
    requires Conserved(s.ledger, Cutoff(s.clock)) && Plausible(s, e)
    ensures Conserved(Step(s.ledger, e, b), Cutoff(e.now))
  {
    var l, window := s.ledger, Cutoff(e.now);
    RetainedLater(l, Cutoff(s.clock), window);
    match e {
      case ReserveEvent(id, scope, access, usage, now) =>
        FreshReserveConserves(l, b, window, id, scope, access, usage, now);
      case SettleEvent(ids, measured, now) => SettleConserves(l, window, ids, measured, now);
      case ExpireEvent(rows, now) => ExpireConserves(l, window, rows, now);
      case ServiceEvent(newVaults, pairings, writes, maintenance, _) =>
        PlainEventConserves(l, Flags(newVaults, pairings, writes, maintenance, l.flags.fault), l.d1Bytes, window);
      case StorageEvent(bytes, _) => PlainEventConserves(l, l.flags, bytes, window);
    }
  }

  lemma ReserveKeepsMarks(l: Ledger, b: Budgets, id: ReservationId, s: Scope, access: Access, usage: Usage, now: nat)
    requires UnsettledIsUnmarked(l) && id !in l.reservations
    ensures
      var after := Reserve(l, b, id, s, access, usage, now).ledger;
      UnsettledIsUnmarked(after) && (HasUnderestimate(l) ==> HasUnderestimate(after)) && after.flags == l.flags
  {
    var after := Reserve(l, b, id, s, access, usage, now).ledger;
    if HasUnderestimate(l) {
      var marked :| marked in l.reservations && l.reservations[marked].underestimated;
      assert marked in after.reservations && after.reservations[marked] == l.reservations[marked];
    }
  }

  lemma {:induction false} ExpiryKeepsRows(l: Ledger, rows: seq<ExpiredRow>)
    ensures ExpireRows(l, rows).flags == l.flags && ExpireRows(l, rows).reservations == l.reservations
    decreases |rows|
  {
    if rows != [] { ExpiryKeepsRows(l, rows[..|rows| - 1]); }
  }

  lemma StepStaysWithin(s: LedgerState, e: LedgerEvent, b: Budgets)
    requires Conserved(s.ledger, Cutoff(s.clock)) && Plausible(s, e) && BudgetsValid(b)
    requires WithinOrUnderestimated(s.ledger, b)
    ensures WithinOrUnderestimated(Step(s.ledger, e, b), b)
  {
    var l := s.ledger;
    match e {
      case ReserveEvent(id, scope, access, usage, now) =>
        ReserveKeepsMarks(l, b, id, scope, access, usage, now);
        if Within(l, b) { ReserveStaysWithin(l, b, id, scope, access, usage, now); }
      case SettleEvent(ids, measured, now) => SettleStaysWithin(l, b, ids, measured, now);
      case ExpireEvent(rows, now) =>
        ExpiryKeepsRows(l, rows);
        forall row | row in rows ensures AtMost(NOTHING, row.usage) {
          forall c ensures Of(row.usage, c) >= 0 { BucketWithinTotal(l, Cutoff(s.clock), row.key, c); }
          AtMostMeans(NOTHING, row.usage);
        }
        if Within(l, b) { ExpiryStaysWithin(l, b, rows); }
      case ServiceEvent(_, _, _, _, _) =>
      case StorageEvent(_, _) =>
    }
  }

  /**
   * Over every run: each rolling total is the sum of its retained buckets, each bucket the
   * sum of its reservations' costs, and no counter is above its ceiling unless some
   * reservation was underestimated and the accounting fault is up.
   */
  lemma {:induction false} LedgerConserves(flags: Flags, events: seq<LedgerEvent>, b: Budgets)
    requires BudgetsValid(b) && PlausibleRun(flags, events, b)
    ensures
      var s := Run(flags, events, b);
      && Conserved(s.ledger, Cutoff(s.clock))
      && WithinOrUnderestimated(s.ledger, b)
    decreases |events|
  {
    if events == [] {
      forall s, c ensures TotalsBalance(EmptyLedger(flags), s, c) {}
      forall k, c ensures BucketBalances(EmptyLedger(flags), k, c) {}
    } else {
      var n := |events| - 1;
      LedgerConserves(flags, events[..n], b);
      var s := Run(flags, events[..n], b);
      StepConserves(s, events[n], b);
      StepStaysWithin(s, events[n], b);
    }
  }
}
