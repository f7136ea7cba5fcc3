/**
 * Planned occurrences of a fixed commitment (src/domain/recurrence.ts, 25-97 and 109-126).
 */
module Recurrence {
  import opened Wrappers
  import opened Calendar

  datatype Frequency = Monthly | Yearly | Weekly

  type DueDay = d: int | 1 <= d <= 31 witness 1

  datatype Commitment = Commitment(active: bool, frequency: Frequency, dueDay: DueDay, start: nat, end: Option<nat>)

  // ---- What an occurrence is ----

  predicate InRange(c: Commitment, d: nat) {
    c.start <= d && (c.end.Some? ==> d <= c.end.value)
  }

  /** The due day of a month, moved to the last day of a shorter month. */
  function ClampDay(m: nat, day: DueDay): nat {
    MonthStart(m) + (if day < DaysInMonth(m) then day else DaysInMonth(m)) - 1
  }

  /** Whole weeks after the start. */
  predicate IsSeventh(start: nat, d: nat) {
    start <= d && (d - start) % 7 == 0
  }

  /** A day the commitment's frequency picks out, whatever month is asked about. */
  predicate Falls(c: Commitment, d: nat) {
    match c.frequency
    case Monthly => d == ClampDay(MonthOf(d), c.dueDay)
    case Yearly => MonthOf(d) % 12 == MonthOf(c.start) % 12 && d == ClampDay(MonthOf(d), c.dueDay)
    case Weekly => IsSeventh(c.start, d)
  }

  predicate Occurs(c: Commitment, d: nat) {
    c.active && InRange(c, d) && Falls(c, d)
  }

  ghost predicate Ascending(s: seq<nat>) {
    forall i, j :: 0 <= i < j < |s| ==> s[i] < s[j]
  }

  /** Exactly the occurrences of one month, each once and in order. */
  ghost predicate AreOccurrencesOf(dates: seq<nat>, c: Commitment, month: nat) {
    Ascending(dates) && forall d :: d in dates <==> Occurs(c, d) && MonthOf(d) == month
  }

  lemma AppendAscends(s: seq<nat>, x: nat)
    requires Ascending(s) && forall d :: d in s ==> d < x
    ensures Ascending(s + [x])
  {
    forall i, j | 0 <= i < j < |s + [x]| ensures (s + [x])[i] < (s + [x])[j] {
      assert (s + [x])[i] in s;
    }
  }

  // ---- The loops ----

  lemma NextSeventh(start: nat, cursor: nat)
    requires IsSeventh(start, cursor)
    ensures IsSeventh(start, cursor + 7)
    ensures forall d: nat :: cursor < d < cursor + 7 ==> !IsSeventh(start, d)
  {}

  /** The weekly branch: forward to the month, then every seventh day in it. */
  method WeeklyDates(start: nat, month: nat) returns (dates: seq<nat>)
    ensures Ascending(dates)
    ensures forall d: nat :: d in dates <==> IsSeventh(start, d) && MonthStart(month) <= d <= MonthEnd(month)
  {
    dates := [];
    var cursor := start;
    while cursor < MonthStart(month)
      invariant IsSeventh(start, cursor)
      invariant forall d: nat :: IsSeventh(start, d) && d < cursor ==> d < MonthStart(month)
      decreases MonthStart(month) - cursor
    {
      NextSeventh(start, cursor);
      cursor := cursor + 7;
    }
    while cursor <= MonthEnd(month)
      invariant IsSeventh(start, cursor) && MonthStart(month) <= cursor && Ascending(dates)
      invariant forall d: nat :: d in dates <==>
        IsSeventh(start, d) && MonthStart(month) <= d < cursor && d <= MonthEnd(month)
      decreases MonthEnd(month) + 7 - cursor
    {
      AppendAscends(dates, cursor);
      NextSeventh(start, cursor);
      dates := dates + [cursor];
      cursor := cursor + 7;
    }
  }

  /** Only days inside the month and the commitment's own range are kept. */
  method FilterDates(c: Commitment, month: nat, planned: seq<nat>) returns (dates: seq<nat>)
    requires Ascending(planned)
    ensures Ascending(dates)
    ensures forall d :: d in dates <==> d in planned && MonthOf(d) == month && InRange(c, d)
  {
    dates := [];
    for i := 0 to |planned|
      invariant Ascending(dates)
      invariant forall d :: d in dates <==> d in planned[..i] && MonthOf(d) == month && InRange(c, d)
    {
      if MonthOf(planned[i]) == month && InRange(c, planned[i]) {
        AppendAscends(dates, planned[i]);
        dates := dates + [planned[i]];
      }
    }
    assert planned[..|planned|] == planned;
  }

  method GetCommitmentOccurrences(c: Commitment, month: nat) returns (dates: seq<nat>)
    ensures AreOccurrencesOf(dates, c, month)
  {
    if !c.active { return []; }
    var planned: seq<nat> := [];
    match c.frequency {
      case Monthly =>
        planned := [ClampDay(month, c.dueDay)];
      case Yearly =>
        if MonthOf(c.start) % 12 == month % 12 { planned := [ClampDay(month, c.dueDay)]; }
      case Weekly =>
        planned := WeeklyDates(c.start, month);
    }
    dates := FilterDates(c, month, planned);
  }

  /** Occurrences that are due on or after a day and not paid yet. */
  predicate Due(c: Commitment, d: nat, from: nat, paid: set<nat>) {
    Occurs(c, d) && from <= d && d !in paid
  }

  const HORIZON: nat := 120

  /** When earlier months and earlier dates hold nothing due, the date at hand is the first. */
  lemma FirstOfMonths(c: Commitment, dates: seq<nat>, month: nat, i: nat, from: nat, paid: set<nat>)
    requires AreOccurrencesOf(dates, c, month) && i < |dates|
    requires forall d :: Due(c, d, from, paid) ==> month <= MonthOf(d)
    requires forall d :: d in dates[..i] ==> !Due(c, d, from, paid)
    ensures forall d :: Due(c, d, from, paid) ==> dates[i] <= d
  {
    assert dates[i] in dates;
    forall d | Due(c, d, from, paid) ensures dates[i] <= d {
      if MonthOf(d) == month {
        var k :| 0 <= k < |dates| && dates[k] == d;
      } else if d < dates[i] {
        MonthOfRises(d, dates[i]);
      }
    }
  }

  /** The first due occurrence, looked for in 120 months and no further than the end date. */
  method GetNextCommitmentOccurrence(c: Commitment, from: nat, paid: set<nat>) returns (next: Option<nat>)
    ensures next.Some? ==> Due(c, next.value, from, paid) && forall d :: Due(c, d, from, paid) ==> next.value <= d
    ensures next.Some? <==> exists d :: Due(c, d, from, paid) && MonthOf(d) < MonthOf(from) + HORIZON
  {
    if !c.active { return None; }
    var start := MonthOf(from);
    forall d | from <= d ensures start <= MonthOf(d) { MonthOfRises(from, d); }
    for offset := 0 to HORIZON
      invariant forall d :: Due(c, d, from, paid) ==> start + offset <= MonthOf(d)
    {
      var dates := GetCommitmentOccurrences(c, start + offset);
      for i := 0 to |dates|
        invariant forall d :: d in dates[..i] ==> !Due(c, d, from, paid)
      {
        if from <= dates[i] && dates[i] !in paid {
          assert dates[i] in dates;
          FirstOfMonths(c, dates, start + offset, i, from, paid);
          return Some(dates[i]);
        }
      }
      assert dates[..|dates|] == dates;
      if c.end.Some? && MonthStart(start + offset) > c.end.value {
        forall d | InRange(c, d) ensures MonthOf(d) < start + offset { MonthOfBefore(d, start + offset); }
        return None;
      }
    }
    return None;
  }

  // ---- Successive months ----

  function Flatten(months: seq<seq<nat>>): seq<nat> {
    if |months| == 0 then [] else Flatten(months[..|months| - 1]) + months[|months| - 1]
  }

  /** Successive months together hold every occurrence of their span once, in order. */
  lemma {:induction false} MonthsTogether(c: Commitment, first: nat, months: seq<seq<nat>>)
    requires forall k :: 0 <= k < |months| ==> AreOccurrencesOf(months[k], c, first + k)
    ensures Ascending(Flatten(months))
    ensures forall d :: d in Flatten(months) <==> Occurs(c, d) && first <= MonthOf(d) < first + |months|
    decreases |months|
  {
    if |months| > 0 {
      var n := |months| - 1;
      var s, t := Flatten(months[..n]), months[n];
      MonthsTogether(c, first, months[..n]);
      forall i, j | 0 <= i < j < |s + t| ensures (s + t)[i] < (s + t)[j] {
        if i < |s| <= j {
          assert s[i] in s && t[j - |s|] in t;
          MonthsInOrder(MonthOf(s[i]), MonthOf(t[j - |s|]));
        }
      }
    }
  }

  lemma SeventhDay(c: Commitment, k: nat)
    requires c.active && c.frequency.Weekly?
    ensures InRange(c, c.start + 7 * k) ==> Occurs(c, c.start + 7 * k)
  {
    assert 7 * k % 7 == 0;
  }

  /**
   * From the starting month on, the months of a weekly commitment together are exactly
   * start, start + 7, and so on, up to the end date or the end of the span.
   */
  lemma WeeklyIsEverySeventhDay(c: Commitment, months: seq<seq<nat>>)
    requires c.active && c.frequency.Weekly?
    requires forall k :: 0 <= k < |months| ==> AreOccurrencesOf(months[k], c, MonthOf(c.start) + k)
    ensures forall k :: 0 <= k < |Flatten(months)| ==> Flatten(months)[k] == c.start + 7 * k
    ensures
      var next := c.start + 7 * |Flatten(months)|;
      (c.end.Some? && next > c.end.value) || MonthOf(next) >= MonthOf(c.start) + |months|
  {
    var all := Flatten(months);
    MonthsTogether(c, MonthOf(c.start), months);
    forall k | 0 <= k < |all| ensures all[k] == c.start + 7 * k {
      WeekAt(c, all, |months|, k);
    }
    var next := c.start + 7 * |all|;
    assert next !in all;
    SeventhDay(c, |all|);
    MonthOfRises(c.start, next);
  }

  /** No occurrence lies strictly between two sevenths. */
  lemma AfterWeek(c: Commitment, d: nat, k: nat)
    requires IsSeventh(c.start, d) && (k > 0 ==> d > c.start + 7 * (k - 1))
    ensures d >= c.start + 7 * k
  {
    var n := (d - c.start) / 7;
    assert d == c.start + 7 * n;
  }

  /** A member past the one before index k is not before the one at k. */
  lemma NoneBetween(dates: seq<nat>, k: nat, d: nat)
    requires Ascending(dates) && d in dates && k < |dates| && (k > 0 ==> dates[k - 1] < d)
    ensures dates[k] <= d
  {
    var i :| 0 <= i < |dates| && dates[i] == d;
  }

  lemma {:induction false} WeekAt(c: Commitment, dates: seq<nat>, n: nat, k: nat)
    requires c.active && c.frequency.Weekly? && Ascending(dates) && k < |dates|
    requires forall d :: d in dates <==> Occurs(c, d) && MonthOf(c.start) <= MonthOf(d) < MonthOf(c.start) + n
    ensures dates[k] == c.start + 7 * k
  {
    var week := c.start + 7 * k;
    assert dates[k] in dates;
    if k > 0 { WeekAt(c, dates, n, k - 1); }
    AfterWeek(c, dates[k], k);
    SeventhDay(c, k);
    MonthOfRises(c.start, week);
    MonthOfRises(week, dates[k]);
    NoneBetween(dates, k, week);
  }

  // ---- Days of the month ----

  /** The day as a calendar shows it, from 1. */
  function DayOfMonth(d: nat): nat {
    d - MonthStart(MonthOf(d)) + 1
  }

  lemma MonthIsFound(m: nat, d: nat)
    requires MonthStart(m) <= d <= MonthEnd(m)
    ensures MonthOf(d) == m
  {
    if MonthOf(d) < m { MonthsInOrder(MonthOf(d), m); }
    if m < MonthOf(d) { MonthsInOrder(m, MonthOf(d)); }
  }

  /** The due day as written, or else the last day of a month that is too short for it. */
  predicate IsDueDay(d: nat, day: DueDay) {
    || DayOfMonth(d) == day
    || (DayOfMonth(d) == DaysInMonth(MonthOf(d)) && DaysInMonth(MonthOf(d)) < day)
  }

  /** A monthly commitment falls on its due day in every month, a yearly one in its own month of every year. */
  lemma FallsOnDueDayIff(c: Commitment, d: nat)
    requires c.frequency != Weekly
    ensures Falls(c, d) <==>
      IsDueDay(d, c.dueDay) && (c.frequency == Yearly ==> MonthOf(d) % 12 == MonthOf(c.start) % 12)
  {}

  /** Each month holds exactly one due day. */
  lemma OneDueDayAMonth(m: nat, day: DueDay)
    ensures exists d: nat :: MonthOf(d) == m && IsDueDay(d, day)
    ensures forall d: nat, e: nat :: MonthOf(d) == MonthOf(e) && IsDueDay(d, day) && IsDueDay(e, day) ==> d == e
  {
    var d := MonthStart(m) + (if day < DaysInMonth(m) then day else DaysInMonth(m)) - 1;
    MonthIsFound(m, d);
    assert IsDueDay(d, day);
  }

  /** An active monthly commitment is due once in every month that lies inside its range, and never twice. */
  lemma MonthlyIsOnceAMonth(c: Commitment, m: nat, dates: seq<nat>)
    requires c.active && c.frequency == Monthly && AreOccurrencesOf(dates, c, m)
    ensures |dates| <= 1
    ensures c.start <= MonthStart(m) && (c.end.Some? ==> MonthEnd(m) <= c.end.value) ==> |dates| == 1
  {
    assert |dates| > 1 ==> dates[0] < dates[1];
    OneDueDayAMonth(m, c.dueDay);
    forall i | 0 < i < |dates| ensures dates[0] == dates[i] {
      assert dates[0] in dates && dates[i] in dates;
    }
    if c.start <= MonthStart(m) && (c.end.Some? ==> MonthEnd(m) <= c.end.value) {
      var d: nat :| MonthOf(d) == m && IsDueDay(d, c.dueDay);
      FallsOnDueDayIff(c, d);
      assert Occurs(c, d);
    }
  }
}
