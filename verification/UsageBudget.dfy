/**
 * The ledger's batches statement by statement (services/sync-worker/src/budget.ts): a
 * batch is one transaction, and only a failed constraint rolls it back.
 */
module UsageBudget {
  import opened Wrappers
  import opened BudgetLedger

  /** Some expired bucket is at least as old as all others. */
  lemma OldestExists(keys: set<BucketKey>)
    requires keys != {}
    ensures exists k :: k in keys && forall j :: j in keys ==> k.day <= j.day
    decreases keys
  {
    var k :| k in keys;
    if keys != {k} {
      OldestExists(keys - {k});
      var oldest :| oldest in keys - {k} && forall j :: j in keys - {k} ==> oldest.day <= j.day;
      var least := if k.day < oldest.day then k else oldest;
      assert least in keys && forall j :: j in keys ==> least.day <= j.day;
    }
  }

  predicate NotListed(rows: seq<ExpiredRow>, k: BucketKey) {
    forall row :: row in rows ==> row.key != k
  }

  lemma {:induction false} SettleRowsNext(l: Ledger, ids: seq<ReservationId>, i: nat, measured: Option<Usage>, now: nat)
    requires i < |ids| && forall id :: id in ids ==> id in l.reservations
    requires SettleRows(l, ids[..i], measured, now).Some?
    ensures forall id :: id in ids[..i + 1] ==> id in l.reservations
    ensures ids[i] in SettleRows(l, ids[..i], measured, now).value.reservations
    ensures SettleRows(l, ids[..i + 1], measured, now) ==
      SettleRow(SettleRows(l, ids[..i], measured, now).value, ids[i], measured, now)
  {
    assert ids[..i + 1][..i] == ids[..i] && ids[i] in ids;
  }

  lemma {:induction false} SettleFailureStays(l: Ledger, ids: seq<ReservationId>, i: nat, measured: Option<Usage>,
                                              now: nat)
    requires i <= |ids| && forall id :: id in ids ==> id in l.reservations
    requires SettleRows(l, ids[..i], measured, now).None?
    ensures SettleRows(l, ids, measured, now).None?
    decreases |ids|
  {
    if i == |ids| {
      assert ids[..i] == ids;
    } else {
      assert ids[..|ids| - 1][..i] == ids[..i];
      SettleFailureStays(l, ids[..|ids| - 1], i, measured, now);
    }
  }

  class UsageBudgetController {
    const budgets: Budgets
    var buckets: map<BucketKey, Usage>
    var totals: map<Scope, Usage>
    var reservations: map<ReservationId, Reservation>
    var flags: Flags
    var d1Bytes: nat

    constructor (budgets: Budgets, flags: Flags)
      ensures this.budgets == budgets && View() == Ledger(map[], map[], map[], flags, 0)
    {
      this.budgets, this.flags := budgets, flags;
      buckets, totals, reservations, d1Bytes := map[], map[], map[], 0;
    }

    function View(): Ledger
      reads this
    {
      Ledger(buckets, totals, reservations, flags, d1Bytes)
    }

    method ChargeRows(k: BucketKey, usage: Usage)
      modifies this`buckets, this`totals
      ensures View() == Charge(old(View()), k, usage)
    {
      if k in buckets { buckets := buckets[k := Plus(buckets[k], usage)]; }
      if k.scope in totals { totals := totals[k.scope := Plus(totals[k.scope], usage)]; }
    }

    /** A request that already holds the reservation does not repeat it. */
    method Reserve(held: set<ReservationId>, id: ReservationId, s: Scope, access: Access, usage: Usage, now: nat)
      returns (outcome: ReserveOutcome, holds: set<ReservationId>)
      modifies this`buckets, this`totals, this`reservations
      ensures id in held ==> View() == old(View()) && outcome == ReservationMade
      ensures id !in held ==>
        ReserveResult(View(), outcome) == BudgetLedger.Reserve(old(View()), budgets, id, s, access, usage, now)
      ensures holds == if outcome == ReservationMade then held + {id} else held
    {
      if id in held { return ReservationMade, held + {id}; }
      var before := (buckets, totals);
      var k := BucketKey(s, Day(now));
      if k !in buckets { buckets := buckets[k := NOTHING]; }
      if s !in totals { totals := totals[s := NOTHING]; }
      assert buckets == WithRows(old(View()), k).buckets && totals == WithRows(old(View()), k).totals;
      outcome := Refused;
      if Granted(View(), budgets, k, access, usage) {
        if id in reservations {
          buckets, totals := before.0, before.1;
          return ConstraintFailed, held;
        }
        reservations := reservations[id := Reservation(s, Reserved, usage, NOTHING, now, false)];
        outcome := ReservationMade;
      }
      if id in reservations { ChargeRows(k, usage); }
      holds := if outcome == ReservationMade then held + {id} else held;
    }

    /** The three statements of one settled row; false when a constraint fails. */
    method SettleOne(id: ReservationId, measured: Option<Usage>, now: nat) returns (ok: bool)
      requires id in reservations
      modifies this`buckets, this`totals, this`reservations
      ensures ok == SettleRow(old(View()), id, measured, now).Some?
      ensures ok ==> View() == SettleRow(old(View()), id, measured, now).value
    {
      var r := reservations[id];
      var actual := Actual(id, r, measured);
      ChargeRows(SettleKey(r), Minus(actual, r.reserved));
      if !AtMost(NOTHING, BucketOf(View(), SettleKey(r))) || !AtMost(NOTHING, TotalOf(View(), r.scope)) {
        return false;
      }
      if !AtMost(NOTHING, actual) || now < r.createdAt { return false; }
      if r.state == Reserved { reservations := reservations[id := Settled(id, r, measured)]; }
      ok := true;
    }

    method Settle(ids: seq<ReservationId>, measured: Option<Usage>, now: nat) returns (outcome: SettleOutcome)
      modifies this`buckets, this`totals, this`reservations, this`flags
      ensures SettleResult(View(), outcome) == BudgetLedger.Settle(old(View()), ids, measured, now)
    {
      if ids == [] { return SettledAll; }
      if !AllReserved(View(), ids) {
        flags := flags.(fault := true);
        return SettlementFailed;
      }
      var underestimated := AnyUnderestimated(View(), ids, measured);
      var matched := AllRowsMatched(View(), ids);
      var before := (buckets, totals, reservations);
      ghost var start := View();
      for i := 0 to |ids|
        invariant forall id :: id in ids ==> id in start.reservations
        invariant forall id :: id in ids[..i] ==> id in start.reservations
        invariant SettleRows(start, ids[..i], measured, now) == Some(View())
        invariant flags == start.flags
      {
        SettleRowsNext(start, ids, i, measured, now);
        var ok := SettleOne(ids[i], measured, now);
        if !ok {
          SettleFailureStays(start, ids, i + 1, measured, now);
          buckets, totals, reservations := before.0, before.1, before.2;
          flags := flags.(fault := true);
          return SettlementFailed;
        }
      }
      assert ids[..|ids|] == ids;
      if !matched {
        flags := flags.(fault := true);
        return SettlementFailed;
      }
      if underestimated {
        flags := flags.(fault := true);
        return SettledUnderestimated;
      }
      outcome := SettledAll;
    }

    /** The oldest expired buckets first, at most a page of them. */
    method ExpiredBuckets(scheduled: nat) returns (rows: seq<ExpiredRow>)
      ensures ExpiredPage(View(), rows, scheduled)
      ensures forall row, k :: row in rows && k in buckets && k.day < Cutoff(scheduled) && NotListed(rows, k) ==>
        row.key.day <= k.day
      ensures |rows| == EXPIRY_PAGE || forall k :: k in buckets && k.day < Cutoff(scheduled) ==>
        exists row :: row in rows && row.key == k
    {
      rows := [];
      var todo := set k | k in buckets && k.day < Cutoff(scheduled);
      while todo != {} && |rows| < EXPIRY_PAGE
        invariant ExpiredPage(View(), rows, scheduled)
        invariant todo <= buckets.Keys
        invariant forall row :: row in rows ==> row.key !in todo && forall k :: k in todo ==> row.key.day <= k.day
        invariant forall k :: k in buckets && k.day < Cutoff(scheduled) ==>
          k in todo || exists row :: row in rows && row.key == k
        invariant forall k :: k in todo ==> k.day < Cutoff(scheduled)
        decreases todo
      {
        OldestExists(todo);
        var k :| k in todo && forall j :: j in todo ==> k.day <= j.day;
        ghost var earlier := rows;
        rows := rows + [ExpiredRow(k, buckets[k])];
        todo := todo - {k};
        assert forall row :: row in earlier ==> row in rows;
        assert rows[|rows| - 1] in rows;
      }
    }

    method RunBudgetWindowMaintenance(scheduled: nat) returns (rows: seq<ExpiredRow>)
      modifies this`buckets, this`totals, this`flags
      ensures ExpiredPage(old(View()), rows, scheduled)
      ensures View() == Maintain(old(View()), rows, scheduled)
    {
      rows := ExpiredBuckets(scheduled);
      for i := 0 to |rows|
        invariant View() == ExpireRows(old(View()), rows[..i])
      {
        assert rows[..i + 1][..i] == rows[..i];
        var row := rows[i];
        if row.key.scope in totals {
          totals := totals[row.key.scope := ClampedMinus(totals[row.key.scope], row.usage)];
        }
        buckets := buckets - {row.key};
      }
      assert rows[..|rows|] == rows;
      if HasStale(View(), scheduled) { flags := flags.(fault := true); }
    }
  }
}
