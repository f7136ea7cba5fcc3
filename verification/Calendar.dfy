/**
 * The Gregorian calendar the date library works on, as day numbers: month `m` is the month
 * with index `m % 12` of year `m / 12`.
 */
module Calendar {
  predicate IsLeap(year: nat) {
    year % 4 == 0 && (year % 100 != 0 || year % 400 == 0)
  }

  function DaysInMonth(m: nat): (days: nat)
    ensures 28 <= days <= 31
  {
    var index := m % 12;
    if index == 1 then (if IsLeap(m / 12) then 29 else 28)
    else if index == 3 || index == 5 || index == 8 || index == 10 then 30
    else 31
  }

  /** The day number of the first of a month. */
  function MonthStart(m: nat): nat {
    if m == 0 then 0 else MonthStart(m - 1) + DaysInMonth(m - 1)
  }

  /** The day number of the last of a month. */
  function MonthEnd(m: nat): nat {
    MonthStart(m) + DaysInMonth(m) - 1
  }

  function MonthFrom(d: nat, m: nat): (found: nat)
    requires MonthStart(m) <= d
    ensures MonthStart(found) <= d <= MonthEnd(found)
    decreases d - MonthStart(m)
  {
    if d <= MonthEnd(m) then m else MonthFrom(d, m + 1)
  }

  /** The month a day lies in. */
  function MonthOf(d: nat): (m: nat)
    ensures MonthStart(m) <= d <= MonthEnd(m)
  {
    MonthFrom(d, 0)
  }

  lemma {:induction false} MonthsInOrder(m: nat, n: nat)
    requires m < n
    ensures MonthEnd(m) < MonthStart(n)
    decreases n
  {
    if m < n - 1 { MonthsInOrder(m, n - 1); }
  }

  lemma MonthOfRises(d: nat, e: nat)
    requires d <= e
    ensures MonthOf(d) <= MonthOf(e)
  {
    if MonthOf(e) < MonthOf(d) { MonthsInOrder(MonthOf(e), MonthOf(d)); }
  }

  lemma MonthOfBefore(d: nat, m: nat)
    requires d < MonthStart(m)
    ensures MonthOf(d) < m
  {
    if m < MonthOf(d) { MonthsInOrder(m, MonthOf(d)); }
  }
}
