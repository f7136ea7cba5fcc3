/**
 * The month-by-month history of a debt (src/domain/calculations.ts, 244-312 and 773-789):
 * a chronological scan finds the payoff month, while sums by month give what remains.
 */
module Debts {
  import opened Wrappers

  type Id = nat
  type Month = nat

  datatype Debt = Debt(id: Id, original: nat, overrides: map<Month, nat>, monthly: Option<nat>)

  datatype Payment = Payment(id: Id, debt: Id, month: Month, day: nat, created: nat, amount: nat, bySelf: bool)

  datatype DebtState = DebtState(
    configuredPlan: nat, planned: nat, actual: nat, actualSelf: nat, actualExternal: int,
    remainingAtStart: nat, remainingAtEnd: nat, remainingPlan: nat, payoff: Option<Month>)

  function Max(a: int, b: int): int { if a < b then b else a }
  function Min(a: int, b: int): int { if a < b then a else b }

  // ---- Chronological order ----

  predicate Earlier(p: Payment, q: Payment) {
    if p.month != q.month then p.month < q.month
    else if p.day != q.day then p.day < q.day
    else if p.created != q.created then p.created < q.created
    else p.id < q.id
  }

  /** Equal keys keep their order. */
  function Insert(p: Payment, sorted: seq<Payment>): seq<Payment> {
    if sorted == [] then [p]
    else if Earlier(p, sorted[|sorted| - 1]) then Insert(p, sorted[..|sorted| - 1]) + [sorted[|sorted| - 1]]
    else sorted + [p]
  }

  /** The debt's own payments, oldest first. */
  function Chronological(debt: Id, payments: seq<Payment>): seq<Payment> {
    if payments == [] then []
    else
      var last := payments[|payments| - 1];
      var rest := Chronological(debt, payments[..|payments| - 1]);
      if last.debt == debt then Insert(last, rest) else rest
  }

  predicate ByMonth(s: seq<Payment>) {
    forall i, j :: 0 <= i < j < |s| ==> s[i].month <= s[j].month
  }

  // ---- Sums ----

  /** What the payments accepted by `counts` add up to. */
  function Paid(s: seq<Payment>, counts: Payment -> bool): nat {
    if s == [] then 0
    else Paid(s[..|s| - 1], counts) + if counts(s[|s| - 1]) then s[|s| - 1].amount else 0
  }

  function Any(): Payment -> bool { (p: Payment) => true }
  function Before(m: Month): Payment -> bool { (p: Payment) => p.month < m }
  function In(m: Month): Payment -> bool { (p: Payment) => p.month == m }
  function SelfIn(m: Month): Payment -> bool { (p: Payment) => p.month == m && p.bySelf }
  function Of(debt: Id): Payment -> bool { (p: Payment) => p.debt == debt }

  /** The month of the first payment that brings the running total up to the original amount. */
  function Payoff(s: seq<Payment>, original: nat): Option<Month> {
    if s == [] then None
    else
      var earlier := Payoff(s[..|s| - 1], original);
      if earlier.Some? then earlier
      else if Paid(s, Any()) >= original then Some(s[|s| - 1].month)
      else None
  }

  function Configured(debt: Debt, m: Month): nat {
    if m in debt.overrides then debt.overrides[m] else if debt.monthly.Some? then debt.monthly.value else 0
  }

  function StateAt(debt: Debt, m: Month, payments: seq<Payment>): DebtState {
    var s := Chronological(debt.id, payments);
    var payoff := Payoff(s, debt.original);
    var atStart := Max(0, debt.original - Paid(s, Before(m)));
    var actual := Paid(s, In(m));
    var atEnd := Max(0, atStart - actual);
    var planned := if atStart == 0 || (payoff.Some? && m > payoff.value) then 0 else Min(Configured(debt, m), atStart);
    DebtState(Configured(debt, m), planned, actual, Paid(s, SelfIn(m)), actual - Paid(s, SelfIn(m)),
              atStart, atEnd, Min(atEnd, Max(0, planned - actual)), payoff)
  }

  /** `calculateDebtProgress`: what the table says is still owed. */
  function Owed(debt: Debt, payments: seq<Payment>): nat {
    Max(0, debt.original - Paid(payments, Of(debt.id)))
  }

  // ---- The loops ----

  method SortPayments(debt: Id, payments: seq<Payment>) returns (sorted: seq<Payment>)
    ensures sorted == Chronological(debt, payments)
  {
    sorted := [];
    for i := 0 to |payments|
      invariant sorted == Chronological(debt, payments[..i])
    {
      assert payments[..i + 1][..i] == payments[..i];
      if payments[i].debt == debt { sorted := Insert(payments[i], sorted); }
    }
    assert payments[..|payments|] == payments;
  }

  method GetDebtStateAtMonth(debt: Debt, month: Month, payments: seq<Payment>) returns (r: DebtState)
    ensures r == StateAt(debt, month, payments)
  {
    var own := SortPayments(debt.id, payments);
    var cumulative, before, actual, actualSelf := 0, 0, 0, 0;
    var payoff: Option<Month> := None;
    for i := 0 to |own|
      invariant cumulative == Paid(own[..i], Any()) && payoff == Payoff(own[..i], debt.original)
      invariant before == Paid(own[..i], Before(month))
      invariant actual == Paid(own[..i], In(month)) && actualSelf == Paid(own[..i], SelfIn(month))
    {
      var p := own[i];
      assert own[..i + 1][..i] == own[..i];
      cumulative := cumulative + p.amount;
      if payoff.None? && cumulative >= debt.original { payoff := Some(p.month); }
      if p.month < month { before := before + p.amount; }
      if p.month == month {
        actual := actual + p.amount;
        if p.bySelf { actualSelf := actualSelf + p.amount; }
      }
    }
    assert own[..|own|] == own;
    var atStart := Max(0, debt.original - before);
    var atEnd := Max(0, atStart - actual);
    var configured := Configured(debt, month);
    var planned := if atStart == 0 || (payoff.Some? && month > payoff.value) then 0 else Min(configured, atStart);
    r := DebtState(configured, planned, actual, actualSelf, actual - actualSelf, atStart, atEnd,
      Min(atEnd, Max(0, planned - actual)), payoff);
  }

  // ---- Sorting ----

  lemma {:induction false} InsertHolds(p: Payment, s: seq<Payment>, q: Payment)
    ensures q in Insert(p, s) <==> q == p || q in s
    decreases |s|
  {
    if s != [] && Earlier(p, s[|s| - 1]) {
      InsertHolds(p, s[..|s| - 1], q);
      assert s == s[..|s| - 1] + [s[|s| - 1]];
    }
  }

  lemma {:induction false} InsertSorts(p: Payment, s: seq<Payment>)
    requires ByMonth(s)
    ensures ByMonth(Insert(p, s))
    decreases |s|
  {
    if s != [] && Earlier(p, s[|s| - 1]) {
      var n := |s| - 1;
      InsertSorts(p, s[..n]);
      forall q | q in Insert(p, s[..n]) ensures q.month <= s[n].month { InsertHolds(p, s[..n], q); }
    }
  }

  lemma {:induction false} InsertAdds(p: Payment, s: seq<Payment>, counts: Payment -> bool)
    ensures Paid(Insert(p, s), counts) == Paid(s, counts) + if counts(p) then p.amount else 0
    decreases |s|
  {
    if s != [] && Earlier(p, s[|s| - 1]) {
      var t := Insert(p, s[..|s| - 1]);
      InsertAdds(p, s[..|s| - 1], counts);
      assert (t + [s[|s| - 1]])[..|t|] == t;
    } else {
      assert (s + [p])[..|s|] == s;
    }
  }

  lemma {:induction false} ChronologicalIsSorted(debt: Id, payments: seq<Payment>)
    ensures ByMonth(Chronological(debt, payments))
    ensures Paid(Chronological(debt, payments), Any()) == Paid(payments, Of(debt))
    decreases |payments|
  {
    if payments != [] {
      var n := |payments| - 1;
      ChronologicalIsSorted(debt, payments[..n]);
      InsertSorts(payments[n], Chronological(debt, payments[..n]));
      InsertAdds(payments[n], Chronological(debt, payments[..n]), Any());
    }
  }

  // ---- The scan agrees with the sums ----

  lemma {:induction false} SumsSplit(s: seq<Payment>, m: Month)
    ensures Paid(s, Before(m + 1)) == Paid(s, Before(m)) + Paid(s, In(m))
    decreases |s|
  {
    if s != [] { SumsSplit(s[..|s| - 1], m); }
  }

  lemma {:induction false} AllBefore(s: seq<Payment>, m: Month)
    requires forall i :: 0 <= i < |s| ==> s[i].month < m
    ensures Paid(s, Before(m)) == Paid(s, Any())
    decreases |s|
  {
    if s != [] { AllBefore(s[..|s| - 1], m); }
  }

  /** Counted up to any month, the original amount is reached exactly when the payoff lies there. */
  lemma {:induction false} ScanAgreesWithSums(s: seq<Payment>, original: nat, m: Month)
    requires ByMonth(s) && original > 0
    ensures Paid(s, Before(m)) >= original <==> Payoff(s, original).Some? && Payoff(s, original).value < m
    ensures Payoff(s, original).Some? <==> Paid(s, Any()) >= original
    decreases |s|
  {
    if s != [] {
      var n := |s| - 1;
      ScanAgreesWithSums(s[..n], original, m);
      if s[n].month < m { AllBefore(s, m); }
    }
  }

  // ---- The timeline ----

  /** A month ends with what the next one starts with. */
  lemma MonthsJoin(debt: Debt, m: Month, payments: seq<Payment>)
    ensures StateAt(debt, m, payments).remainingAtEnd == StateAt(debt, m + 1, payments).remainingAtStart
  {
    SumsSplit(Chronological(debt.id, payments), m);
  }

  /** The debt is down to zero exactly from its payoff month on, and then nothing is planned. */
  lemma ZeroFromPayoffOn(debt: Debt, m: Month, payments: seq<Payment>)
    requires debt.original > 0
    ensures
      var r := StateAt(debt, m, payments);
      && (r.remainingAtEnd == 0 <==> r.payoff.Some? && r.payoff.value <= m)
      && (r.remainingAtStart == 0 <==> r.payoff.Some? && r.payoff.value < m)
      && (r.remainingAtEnd == 0 ==> r.remainingPlan == 0)
  {
    var s := Chronological(debt.id, payments);
    ChronologicalIsSorted(debt.id, payments);
    SumsSplit(s, m);
    ScanAgreesWithSums(s, debt.original, m);
    ScanAgreesWithSums(s, debt.original, m + 1);
  }

  /** Paying the rest of the plan clears at most the debt, and completes the plan unless the debt ends first. */
  lemma PlanFitsDebt(debt: Debt, m: Month, payments: seq<Payment>)
    requires debt.original > 0
    ensures
      var r := StateAt(debt, m, payments);
      && r.remainingPlan <= r.remainingAtEnd && r.planned <= r.remainingAtStart
      && r.planned == Min(r.configuredPlan, r.remainingAtStart)
      && (r.actual <= r.planned ==> r.actual + r.remainingPlan == r.planned)
      && (r.actual > r.planned ==> r.remainingPlan == 0)
  {
    ZeroFromPayoffOn(debt, m, payments);
  }

  /** Once every payment is in the past, the timeline ends at the debt's own progress. */
  lemma TimelineEndsAtProgress(debt: Debt, m: Month, payments: seq<Payment>)
    requires forall p :: p in payments && p.debt == debt.id ==> p.month <= m
    ensures StateAt(debt, m, payments).remainingAtEnd == Owed(debt, payments)
  {
    var s := Chronological(debt.id, payments);
    ChronologicalIsSorted(debt.id, payments);
    forall i | 0 <= i < |s| ensures s[i].month < m + 1 { OwnPaymentsOnly(debt.id, payments, s[i]); }
    AllBefore(s, m + 1);
    SumsSplit(s, m);
  }

  lemma {:induction false} OwnPaymentsOnly(debt: Id, payments: seq<Payment>, q: Payment)
    ensures q in Chronological(debt, payments) <==> q in payments && q.debt == debt
    decreases |payments|
  {
    if payments != [] {
      var n := |payments| - 1;
      OwnPaymentsOnly(debt, payments[..n], q);
      InsertHolds(payments[n], Chronological(debt, payments[..n]), q);
      assert payments == payments[..n] + [payments[n]];
    }
  }

  // ---- The plan ----

  /** An override sets the plan of its own month, whatever the monthly amount, and of no other month. */
  lemma OverrideBeatsMonthly(debt: Debt, m: Month, amount: nat, payments: seq<Payment>, n: Month)
    ensures
      var changed := debt.(overrides := debt.overrides[m := amount]);
      var r := StateAt(changed, n, payments);
      if n != m then r == StateAt(debt, n, payments)
      else
        && r.configuredPlan == amount && r.planned == Min(amount, r.remainingAtStart)
        && r.remainingAtStart == StateAt(debt, n, payments).remainingAtStart
        && r.remainingAtEnd == StateAt(debt, n, payments).remainingAtEnd
  {
    NothingPlannedAtZero(debt.(overrides := debt.overrides[m := amount]), n, payments);
  }

  /** The monthly amount is the plan of exactly the months without an override. */
  lemma MonthlyFillsTheRest(debt: Debt, amount: nat, payments: seq<Payment>, n: Month)
    ensures
      var r := StateAt(debt.(monthly := Some(amount)), n, payments);
      if n in debt.overrides then r == StateAt(debt, n, payments)
      else r.configuredPlan == amount && r.planned == Min(amount, r.remainingAtStart)
    ensures
      var r := StateAt(debt.(monthly := None), n, payments);
      n !in debt.overrides ==> r.configuredPlan == r.planned == r.remainingPlan == 0
  {
    NothingPlannedAtZero(debt.(monthly := Some(amount)), n, payments);
  }

  /** The test for the payoff month never cuts a plan that the debt itself does not. */
  lemma NothingPlannedAtZero(debt: Debt, m: Month, payments: seq<Payment>)
    ensures
      var r := StateAt(debt, m, payments);
      r.planned == Min(r.configuredPlan, r.remainingAtStart)
  {
    if debt.original > 0 { ZeroFromPayoffOn(debt, m, payments); }
  }

  // ---- The actual payments ----

  /** What the table's own payments on a debt add up to, among those that `counts` accepts. */
  function PaidOn(debt: Id, payments: seq<Payment>, counts: Payment -> bool): nat {
    Paid(payments, (p: Payment) => p.debt == debt && counts(p))
  }

  lemma {:induction false} SortingKeepsSums(debt: Id, payments: seq<Payment>, counts: Payment -> bool)
    ensures Paid(Chronological(debt, payments), counts) == PaidOn(debt, payments, counts)
    decreases |payments|
  {
    if payments != [] {
      var n := |payments| - 1;
      SortingKeepsSums(debt, payments[..n], counts);
      InsertAdds(payments[n], Chronological(debt, payments[..n]), counts);
    }
  }

  lemma {:induction false} SameCounts(s: seq<Payment>, f: Payment -> bool, g: Payment -> bool)
    requires forall p :: f(p) == g(p)
    ensures Paid(s, f) == Paid(s, g)
    decreases |s|
  {
    if s != [] { SameCounts(s[..|s| - 1], f, g); }
  }

  /** A month's actual payments are the table's own of that month, split by who paid them. */
  lemma ActualIsWhatWasPaid(debt: Debt, m: Month, payments: seq<Payment>)
    ensures
      var r := StateAt(debt, m, payments);
      && r.actual == PaidOn(debt.id, payments, (p: Payment) => p.month == m)
      && r.actualSelf == PaidOn(debt.id, payments, (p: Payment) => p.month == m && p.bySelf)
      && r.actualExternal == PaidOn(debt.id, payments, (p: Payment) => p.month == m && !p.bySelf)
      && r.remainingAtStart == Max(0, debt.original - PaidOn(debt.id, payments, (p: Payment) => p.month < m))
  {
    var self, external := (p: Payment) => p.month == m && p.bySelf, (p: Payment) => p.month == m && !p.bySelf;
    var all, before := (p: Payment) => p.month == m, (p: Payment) => p.month < m;
    var s := Chronological(debt.id, payments);
    SortingKeepsSums(debt.id, payments, all);
    SortingKeepsSums(debt.id, payments, self);
    SortingKeepsSums(debt.id, payments, external);
    SortingKeepsSums(debt.id, payments, before);
    SameCounts(s, In(m), all);
    SameCounts(s, SelfIn(m), self);
    SameCounts(s, Before(m), before);
    PayersSplit(s, m, self, external);
  }

  lemma {:induction false} PayersSplit(s: seq<Payment>, m: Month, self: Payment -> bool, external: Payment -> bool)
    requires forall p :: self(p) == (p.month == m && p.bySelf) && external(p) == (p.month == m && !p.bySelf)
    ensures Paid(s, In(m)) == Paid(s, self) + Paid(s, external)
    decreases |s|
  {
    if s != [] { PayersSplit(s[..|s| - 1], m, self, external); }
  }
}
