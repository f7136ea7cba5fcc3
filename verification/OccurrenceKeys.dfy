/**
 * Occurrence keys: a commitment's id and a date, joined by a colon, and how a payment finds
 * its occurrence again from the key (src/domain/recurrence.ts, 36-37; src/db/commands.ts, 360-374).
 */
module OccurrenceKeys {
  import opened Wrappers
  import opened Calendar
  import opened Recurrence

  // ---- Decimal text ----

  predicate IsDigit(ch: char) { '0' <= ch <= '9' }

  predicate AllDigits(s: string) { forall i :: 0 <= i < |s| ==> IsDigit(s[i]) }

  /** The last `width` decimal digits of a number. */
  function Digits(n: nat, width: nat): (s: string)
    ensures |s| == width && AllDigits(s)
  {
    if width == 0 then "" else Digits(n / 10, width - 1) + [(n % 10) as char + '0']
  }

  function Value(s: string): nat
    requires AllDigits(s)
  {
    if s == "" then 0 else 10 * Value(s[..|s| - 1]) + (s[|s| - 1] - '0') as nat
  }

  function Power10(n: nat): nat { if n == 0 then 1 else 10 * Power10(n - 1) }

  lemma {:induction false} ValueOfDigits(n: nat, width: nat)
    requires n < Power10(width)
    ensures Value(Digits(n, width)) == n
    decreases width
  {
    if width > 0 {
      ValueOfDigits(n / 10, width - 1);
      assert Digits(n, width)[..width - 1] == Digits(n / 10, width - 1);
    }
  }

  // ---- Dates ----

  /** The month after the last one of year 9999. */
  const END_OF_YEARS: nat := 120000

  /** `yyyy-MM`. */
  function MonthText(m: nat): (s: string)
    ensures |s| == 7
  {
    Digits(m / 12, 4) + "-" + Digits(m % 12 + 1, 2)
  }

  /** `yyyy-MM-dd`. */
  function IsoDate(d: nat): (s: string)
    ensures |s| == 10 && s[..7] == MonthText(MonthOf(d))
  {
    MonthText(MonthOf(d)) + "-" + Digits(d - MonthStart(MonthOf(d)) + 1, 2)
  }

  /** Four digits, two digits and two digits between hyphens. */
  predicate IsDateText(s: string) {
    |s| == 10 && AllDigits(s[..4]) && s[4] == '-' && AllDigits(s[5..7]) && s[7] == '-' && AllDigits(s[8..])
  }

  /** The month written at the front of such a text, if there is one with that number. */
  function MonthIn(s: string): Option<nat>
    requires IsDateText(s)
  {
    var number := Value(s[5..7]);
    if 1 <= number <= 12 then Some(12 * Value(s[..4]) + number - 1) else None
  }

  lemma NoColon(d: nat)
    ensures ':' !in IsoDate(d)
  {
    var m := MonthOf(d);
    assert forall ch :: ch in IsoDate(d) ==> ch == '-' || IsDigit(ch);
  }

  lemma MonthTextRoundTrip(m: nat)
    requires m < END_OF_YEARS
    ensures AllDigits(MonthText(m)[..4]) && Value(MonthText(m)[..4]) == m / 12
    ensures AllDigits(MonthText(m)[5..]) && Value(MonthText(m)[5..]) == m % 12 + 1
  {
    var year, number := Digits(m / 12, 4), Digits(m % 12 + 1, 2);
    assert MonthText(m)[..4] == year && MonthText(m)[5..] == number;
    Powers();
    ValueOfDigits(m / 12, 4);
    ValueOfDigits(m % 12 + 1, 2);
  }

  lemma Powers()
    ensures Power10(2) == 100 && Power10(4) == 10000
  {
    assert Power10(1) == 10 && Power10(3) == 1000;
  }

  lemma DateTextRoundTrip(d: nat)
    requires MonthOf(d) < END_OF_YEARS
    ensures IsDateText(IsoDate(d)) && MonthIn(IsoDate(d)) == Some(MonthOf(d))
  {
    var s, m := IsoDate(d), MonthOf(d);
    MonthTextRoundTrip(m);
    assert s[..4] == MonthText(m)[..4] && s[5..7] == MonthText(m)[5..];
    assert s[8..] == Digits(d - MonthStart(m) + 1, 2);
    assert s[4] == MonthText(m)[4];
  }

  lemma {:induction false} ValueIsShort(s: string)
    requires AllDigits(s)
    ensures Value(s) < Power10(|s|)
    decreases |s|
  {
    if s != "" { ValueIsShort(s[..|s| - 1]); }
  }

  lemma YearsEnd(s: string)
    requires IsDateText(s) && MonthIn(s).Some?
    ensures MonthIn(s).value < END_OF_YEARS
  {
    ValueIsShort(s[..4]);
    Powers();
  }

  // ---- Keys ----

  function OccurrenceKey(id: string, d: nat): string { id + ":" + IsoDate(d) }

  /** Minus one when the text does not hold the character. */
  function LastIndexOf(s: string, ch: char): (i: int)
    ensures -1 <= i < |s| && (i >= 0 ==> s[i] == ch)
  {
    if s == "" then -1 else if s[|s| - 1] == ch then |s| - 1 else LastIndexOf(s[..|s| - 1], ch)
  }

  lemma {:induction false} LastColon(id: string, text: string)
    requires ':' !in text
    ensures LastIndexOf(id + ":" + text, ':') == |id|
    decreases |text|
  {
    var s := id + ":" + text;
    if text == "" {
      assert s == id + ":";
    } else {
      assert s[..|s| - 1] == id + ":" + text[..|text| - 1];
      LastColon(id, text[..|text| - 1]);
    }
  }

  /** A key falls apart into its own id and date, even when the id holds colons. */
  lemma KeySplits(id: string, d: nat)
    requires MonthOf(d) < END_OF_YEARS
    ensures
      var key := OccurrenceKey(id, d);
      LastIndexOf(key, ':') == |id| && key[..|id|] == id && key[|id| + 1..] == IsoDate(d)
  {
    NoColon(d);
    LastColon(id, IsoDate(d));
    assert OccurrenceKey(id, d) == id + ":" + IsoDate(d);
  }

  lemma KeysDiffer(id: string, d: nat, other: string, e: nat)
    requires MonthOf(d) < END_OF_YEARS && MonthOf(e) < END_OF_YEARS
    ensures OccurrenceKey(id, d) == OccurrenceKey(other, e) <==> id == other && d == e
  {
    if OccurrenceKey(id, d) == OccurrenceKey(other, e) {
      KeySplits(id, d);
      KeySplits(other, e);
      DateTextRoundTrip(d);
      DateTextRoundTrip(e);
      DayOfDate(d);
      DayOfDate(e);
    }
  }

  lemma DayOfDate(d: nat)
    ensures AllDigits(IsoDate(d)[8..]) && Value(IsoDate(d)[8..]) == d - MonthStart(MonthOf(d)) + 1
  {
    var day := d - MonthStart(MonthOf(d)) + 1;
    assert IsoDate(d)[8..] == Digits(day, 2);
    Powers();
    ValueOfDigits(day, 2);
  }

  // ---- The lookup ----

  datatype Failure = InvalidTerm | NoCommitment | NotPlanned

  /** `NoReturn` stands for a call that never comes back. */
  datatype Outcome = Found(id: string, date: nat) | Failed(failure: Failure) | NoReturn

  function CursorAfter(start: nat, n: nat): nat { start + 7 * n }

  /** The weekly loop's guard; an invalid month has no last day, and nothing comes after it. */
  predicate Continues(cursor: nat, month: Option<nat>) {
    month.Some? ==> cursor <= MonthEnd(month.value)
  }

  ghost predicate LoopEnds(start: nat, month: Option<nat>) {
    exists n: nat :: !Continues(CursorAfter(start, n), month)
  }

  /** The weekly loop comes to an end exactly when the key names a month from 1 to 12. */
  lemma WeeklyLoopEndsIff(start: nat, due: string)
    requires IsDateText(due)
    ensures LoopEnds(start, MonthIn(due)) <==> 1 <= Value(due[5..7]) <= 12
  {
    if 1 <= Value(due[5..7]) <= 12 {
      assert !Continues(CursorAfter(start, MonthEnd(MonthIn(due).value) + 1), MonthIn(due));
    }
  }

  predicate WellFormedKey(key: string) {
    LastIndexOf(key, ':') > 0 && IsDateText(key[LastIndexOf(key, ':') + 1..])
  }

  function CommitmentIn(key: string): string
    requires WellFormedKey(key)
  {
    key[..LastIndexOf(key, ':')]
  }

  function DueIn(key: string): string
    requires WellFormedKey(key)
  {
    key[LastIndexOf(key, ':') + 1..]
  }

  const StuckDate := "2024-99-01"
  const StuckKey := "id:2024-99-01"

  lemma StuckDateIsDate()
    ensures IsDateText(StuckDate) && Value(StuckDate[5..7]) == 99
  {
    var month := StuckDate[5..7];
    assert month == ['9', '9'] && month[..1] == ['9'] && month[..1][..0] == "";
    assert Value(month[..1]) == 9;
  }

  /** A key that passes every check and names month 99: a weekly commitment is looked up for ever. */
  lemma MonthNinetyNineNeverEnds(start: nat)
    ensures WellFormedKey(StuckKey) && CommitmentIn(StuckKey) == "id" && DueIn(StuckKey) == StuckDate
    ensures IsDateText(StuckDate) && !LoopEnds(start, MonthIn(StuckDate))
  {
    assert StuckKey == "id" + ":" + StuckDate;
    LastColon("id", StuckDate);
    assert StuckKey[..2] == "id" && StuckKey[3..] == StuckDate;
    StuckDateIsDate();
    WeeklyLoopEndsIff(start, StuckDate);
  }

  /** An occurrence that a payment may name: its id is not empty and its year has four digits. */
  predicate Payable(commitments: map<string, Commitment>, id: string, d: nat) {
    id in commitments && id != "" && Occurs(commitments[id], d) && MonthOf(d) < END_OF_YEARS
  }

  /** Splits the key at its last colon and looks the date up among that month's occurrences. */
  method RequireCommitmentOccurrence(commitments: map<string, Commitment>, key: string) returns (r: Outcome)
    ensures forall id, d :: r == Found(id, d) <==> Payable(commitments, id, d) && key == OccurrenceKey(id, d)
    ensures r == Failed(InvalidTerm) <==> !WellFormedKey(key)
    ensures r == Failed(NoCommitment) <==> WellFormedKey(key) && CommitmentIn(key) !in commitments
    ensures r.NoReturn? <==>
      && WellFormedKey(key) && CommitmentIn(key) in commitments
      && var c := commitments[CommitmentIn(key)];
         c.active && c.frequency.Weekly? && !LoopEnds(c.start, MonthIn(DueIn(key)))
  {
    forall id, d | MonthOf(d) < END_OF_YEARS && key == OccurrenceKey(id, d)
      ensures LastIndexOf(key, ':') == |id| && key[..|id|] == id && key[|id| + 1..] == IsoDate(d)
      ensures IsDateText(IsoDate(d)) && MonthIn(IsoDate(d)) == Some(MonthOf(d))
    {
      KeySplits(id, d);
      DateTextRoundTrip(d);
    }
    var separator := LastIndexOf(key, ':');
    if separator <= 0 { return Failed(InvalidTerm); }
    var id, due := key[..separator], key[separator + 1..];
    if !IsDateText(due) { return Failed(InvalidTerm); }
    if id !in commitments { return Failed(NoCommitment); }
    var c := commitments[id];
    var month := MonthIn(due);
    WeeklyLoopEndsIff(c.start, due);
    if month.None? {
      if c.active && c.frequency.Weekly? { return NoReturn; }
      return Failed(NotPlanned);
    }
    YearsEnd(due);
    var dates := GetCommitmentOccurrences(c, month.value);
    for i := 0 to |dates|
      invariant forall d :: d in dates[..i] ==> OccurrenceKey(id, d) != key
    {
      if OccurrenceKey(id, dates[i]) == key {
        assert dates[i] in dates;
        forall other, e | Payable(commitments, other, e) { KeysDiffer(id, dates[i], other, e); }
        return Found(id, dates[i]);
      }
    }
    assert dates[..|dates|] == dates;
    return Failed(NotPlanned);
  }
}
