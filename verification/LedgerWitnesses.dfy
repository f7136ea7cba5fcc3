/**
 * One short run of the usage ledger, for a request of any usage, and the three ways its next
 * batch can unbalance it: a request id drawn twice, a settlement after the window has moved on,
 * and a second maintenance run on rows that the first one has already expired.
 */
module LedgerWitnesses {
  import opened Wrappers
  import opened BudgetLedger
  import opened BudgetTheorems

  const UpFlags := Flags(true, true, true, false, false)
  const FirstId := ReservationId(1, Route)
  const SecondId := ReservationId(2, Route)
  const DayOne := MILLISECONDS_PER_DAY
  const DayThirty := 30 * MILLISECONDS_PER_DAY
  const FirstBucket := BucketKey(Service, 0)
  const SecondBucket := BucketKey(Service, 1)

  /** Room for two requests in the window, and in a day. */
  function Room(u: Usage): Budgets {
    var ceilings := Ceilings(Plus(u, u), Plus(u, u));
    Budgets(ceilings, ceilings, 1)
  }

  function FirstReserve(u: Usage): LedgerEvent { ReserveEvent(FirstId, Service, Read, u, 0) }

  function SecondReserve(u: Usage): LedgerEvent { ReserveEvent(SecondId, Service, Read, u, DayOne) }

  function ReadRow(u: Usage): ExpiredRow { ExpiredRow(FirstBucket, u) }

  function Maintenance(u: Usage): LedgerEvent { ExpireEvent([ReadRow(u)], DayThirty) }

  function RowAt(u: Usage, now: nat): Reservation { Reservation(Service, Reserved, u, NOTHING, now, false) }

  function OneReserved(u: Usage): Ledger {
    Ledger(map[FirstBucket := u], map[Service := u], map[FirstId := RowAt(u, 0)], UpFlags, 0)
  }

  function TwoReserved(u: Usage): Ledger {
    Ledger(map[FirstBucket := u, SecondBucket := u], map[Service := Plus(u, u)],
           map[FirstId := RowAt(u, 0), SecondId := RowAt(u, DayOne)], UpFlags, 0)
  }

  function FirstExpired(u: Usage): Ledger {
    Ledger(map[SecondBucket := u], map[Service := u],
           map[FirstId := RowAt(u, 0), SecondId := RowAt(u, DayOne)], UpFlags.(fault := true), 0)
  }

  predicate OneRequest(u: Usage) {
    AtMost(NOTHING, u) && u.workerRequests == 1
  }

  lemma DaysOfTheRun()
    ensures Day(0) == 0 && Day(DayOne) == 1 && Day(DayThirty) == 30
    ensures Cutoff(DayOne) == -28 && Cutoff(DayThirty) == 1
  {}

  // ---- The run ----

  /** What a granted batch writes. */
  function WithReservation(l: Ledger, id: ReservationId, s: Scope, usage: Usage, now: nat): Ledger {
    var k := BucketKey(s, Day(now));
    Ledger(l.buckets[k := Plus(BucketOf(l, k), usage)], l.totals[s := Plus(TotalOf(l, s), usage)],
           l.reservations[id := Reservation(s, Reserved, usage, NOTHING, now, false)], l.flags, l.d1Bytes)
  }

  lemma GrantedReserve(l: Ledger, b: Budgets, id: ReservationId, s: Scope, access: Access, usage: Usage, now: nat)
    requires id !in l.reservations
    requires Granted(WithRows(l, BucketKey(s, Day(now))), b, BucketKey(s, Day(now)), access, usage)
    ensures Reserve(l, b, id, s, access, usage, now).ledger == WithReservation(l, id, s, usage, now)
  {
    var k := BucketKey(s, Day(now));
    assert WithRows(l, k).buckets[k := Plus(BucketOf(l, k), usage)] == l.buckets[k := Plus(BucketOf(l, k), usage)];
    assert WithRows(l, k).totals[s := Plus(TotalOf(l, s), usage)] == l.totals[s := Plus(TotalOf(l, s), usage)];
  }

  lemma PlusNothing(u: Usage)
    ensures Plus(NOTHING, u) == u
  {}

  lemma FirstStep(u: Usage)
    requires OneRequest(u)
    ensures Step(EmptyLedger(UpFlags), FirstReserve(u), Room(u)) == OneReserved(u)
  {
    DaysOfTheRun();
    PlusNothing(u);
    GrantedReserve(EmptyLedger(UpFlags), Room(u), FirstId, Service, Read, u, 0);
  }

  lemma SecondStep(u: Usage)
    requires OneRequest(u)
    ensures Step(OneReserved(u), SecondReserve(u), Room(u)) == TwoReserved(u)
  {
    DaysOfTheRun();
    PlusNothing(u);
    GrantedReserve(OneReserved(u), Room(u), SecondId, Service, Read, u, DayOne);
    assert WithReservation(OneReserved(u), SecondId, Service, u, DayOne).buckets == TwoReserved(u).buckets;
  }

  lemma OneExpires(l: Ledger, row: ExpiredRow)
    ensures ExpireRows(l, [row]) == ExpireRow(l, row)
  {
    assert [row][..0] == [];
  }

  lemma HalfOfTwo(u: Usage)
    requires AtMost(NOTHING, u)
    ensures ClampedMinus(Plus(u, u), u) == u
  {}

  lemma FirstBucketExpires(u: Usage)
    requires OneRequest(u)
    ensures ExpireRow(TwoReserved(u), ReadRow(u)) == FirstExpired(u).(flags := UpFlags)
  {
    HalfOfTwo(u);
    assert TwoReserved(u).buckets - {FirstBucket} == map[SecondBucket := u];
  }

  lemma ThirdStep(u: Usage)
    requires OneRequest(u)
    ensures Step(TwoReserved(u), Maintenance(u), Room(u)) == FirstExpired(u)
  {
    DaysOfTheRun();
    OneExpires(TwoReserved(u), ReadRow(u));
    FirstBucketExpires(u);
    assert FirstId in FirstExpired(u).reservations;
  }

  lemma RunSnoc(events: seq<LedgerEvent>, e: LedgerEvent, b: Budgets)
    ensures Run(UpFlags, events + [e], b) == LedgerState(Step(Run(UpFlags, events, b).ledger, e, b), e.now)
    ensures PlausibleRun(UpFlags, events + [e], b) <==>
      PlausibleRun(UpFlags, events, b) && Plausible(Run(UpFlags, events, b), e)
  {
    assert (events + [e])[..|events|] == events;
  }

  lemma OneReservedReached(u: Usage)
    requires OneRequest(u)
    ensures Run(UpFlags, [FirstReserve(u)], Room(u)) == LedgerState(OneReserved(u), 0)
    ensures PlausibleRun(UpFlags, [FirstReserve(u)], Room(u))
  {
    RunSnoc([], FirstReserve(u), Room(u));
    FirstStep(u);
    assert [] + [FirstReserve(u)] == [FirstReserve(u)];
  }

  lemma TwoReservedReached(u: Usage)
    requires OneRequest(u)
    ensures Run(UpFlags, [FirstReserve(u), SecondReserve(u)], Room(u)) == LedgerState(TwoReserved(u), DayOne)
    ensures PlausibleRun(UpFlags, [FirstReserve(u), SecondReserve(u)], Room(u))
  {
    OneReservedReached(u);
    RunSnoc([FirstReserve(u)], SecondReserve(u), Room(u));
    SecondStep(u);
    assert [FirstReserve(u)] + [SecondReserve(u)] == [FirstReserve(u), SecondReserve(u)];
  }

  lemma PageIsRead(u: Usage)
    ensures ExpiredPage(TwoReserved(u), [ReadRow(u)], DayThirty)
    ensures Plausible(LedgerState(TwoReserved(u), DayOne), Maintenance(u))
  {
    DaysOfTheRun();
  }

  lemma MaintenanceRuns(u: Usage, events: seq<LedgerEvent>)
    requires OneRequest(u) && PlausibleRun(UpFlags, events, Room(u))
    requires Run(UpFlags, events, Room(u)) == LedgerState(TwoReserved(u), DayOne)
    ensures Run(UpFlags, events + [Maintenance(u)], Room(u)) == LedgerState(FirstExpired(u), DayThirty)
    ensures PlausibleRun(UpFlags, events + [Maintenance(u)], Room(u))
  {
    PageIsRead(u);
    RunSnoc(events, Maintenance(u), Room(u));
    ThirdStep(u);
  }

  lemma FirstExpiredReached(u: Usage)
    requires OneRequest(u)
    ensures Run(UpFlags, [FirstReserve(u), SecondReserve(u), Maintenance(u)], Room(u)) ==
      LedgerState(FirstExpired(u), DayThirty)
    ensures PlausibleRun(UpFlags, [FirstReserve(u), SecondReserve(u), Maintenance(u)], Room(u))
  {
    var earlier := [FirstReserve(u), SecondReserve(u)];
    TwoReservedReached(u);
    MaintenanceRuns(u, earlier);
    assert earlier + [Maintenance(u)] == [FirstReserve(u), SecondReserve(u), Maintenance(u)];
  }

  lemma RoomIsValid(u: Usage)
    requires OneRequest(u)
    ensures BudgetsValid(Room(u))
  {}

  // ---- The next batch ----

  /** The id of a request that still stands, drawn again at the ceiling: charged, without a reservation. */
  lemma RepeatedIdUnbalances(u: Usage)
    requires OneRequest(u)
    ensures Run(UpFlags, [FirstReserve(u), SecondReserve(u)], Room(u)) == LedgerState(TwoReserved(u), DayOne)
    ensures Conserved(TwoReserved(u), Cutoff(DayOne))
    ensures !Conserved(Reserve(TwoReserved(u), Room(u), FirstId, Service, Read, u, DayOne).ledger, Cutoff(DayOne))
  {
    TwoReservedReached(u);
    RoomIsValid(u);
    LedgerConserves(UpFlags, [FirstReserve(u), SecondReserve(u)], Room(u));
    DaysOfTheRun();
    ReserveConservesIff(TwoReserved(u), Room(u), Cutoff(DayOne), FirstId, Service, Read, u, DayOne);
  }

  lemma SettlesLate(u: Usage, measured: Usage)
    requires OneRequest(u) && measured == u.(rowsRead := u.rowsRead + 1)
    ensures SettleRow(FirstExpired(u), FirstId, Some(measured), DayThirty).Some?
    ensures Actual(FirstId, RowAt(u, 0), Some(measured)) != u
    ensures SettleKey(RowAt(u, 0)) == FirstBucket
  {
    DaysOfTheRun();
    assert Actual(FirstId, RowAt(u, 0), Some(measured)) == measured;
    assert AtMost(NOTHING, Plus(u, Minus(measured, u)));
  }

  /** A reservation of an expired day, settled at one row read more than it reserved: the total alone moves. */
  lemma LateSettlementUnbalances(u: Usage, measured: Usage)
    requires OneRequest(u) && measured == u.(rowsRead := u.rowsRead + 1)
    ensures Run(UpFlags, [FirstReserve(u), SecondReserve(u), Maintenance(u)], Room(u)) ==
      LedgerState(FirstExpired(u), DayThirty)
    ensures Conserved(FirstExpired(u), Cutoff(DayThirty))
    ensures SettleRow(FirstExpired(u), FirstId, Some(measured), DayThirty).Some?
    ensures !Conserved(SettleRow(FirstExpired(u), FirstId, Some(measured), DayThirty).value, Cutoff(DayThirty))
  {
    FirstExpiredReached(u);
    RoomIsValid(u);
    LedgerConserves(UpFlags, [FirstReserve(u), SecondReserve(u), Maintenance(u)], Room(u));
    SettlesLate(u, measured);
    SettleRowConservesIff(FirstExpired(u), Cutoff(DayThirty), FirstId, Some(measured), DayThirty);
  }

  /** Two maintenance runs that read the same page: the second takes the expired bucket off the total again. */
  lemma OverlappingMaintenanceUnbalances(u: Usage)
    requires OneRequest(u)
    ensures Run(UpFlags, [FirstReserve(u), SecondReserve(u), Maintenance(u)], Room(u)) ==
      LedgerState(FirstExpired(u), DayThirty)
    ensures ExpiredPage(TwoReserved(u), [ReadRow(u)], DayThirty)
    ensures Conserved(FirstExpired(u), Cutoff(DayThirty))
    ensures !Conserved(ExpireRow(FirstExpired(u), ReadRow(u)), Cutoff(DayThirty))
  {
    FirstExpiredReached(u);
    PageIsRead(u);
    RoomIsValid(u);
    LedgerConserves(UpFlags, [FirstReserve(u), SecondReserve(u), Maintenance(u)], Room(u));
    DaysOfTheRun();
    StaleExpiryConservesIff(FirstExpired(u), Cutoff(DayThirty), ReadRow(u));
    assert !RightlyRead(FirstExpired(u), ReadRow(u), WorkerRequests);
  }

  function SettledOnce(u: Usage, measured: Usage): Ledger {
    var row := Settled(FirstId, RowAt(u, 0), Some(measured));
    Ledger(map[FirstBucket := Plus(u, Minus(measured, u)), SecondBucket := u],
           map[Service := Plus(Plus(u, u), Minus(measured, u))],
           map[FirstId := row, SecondId := RowAt(u, DayOne)], UpFlags, 0)
  }

  lemma SettlesOnce(u: Usage, measured: Usage)
    requires OneRequest(u) && measured == u.(rowsRead := u.rowsRead + 1)
    ensures SettleRow(TwoReserved(u), FirstId, Some(measured), DayOne) == Some(SettledOnce(u, measured))
    ensures Settled(FirstId, RowAt(u, 0), Some(measured)).state != Reserved
  {
    DaysOfTheRun();
    assert Actual(FirstId, RowAt(u, 0), Some(measured)) == measured;
    assert SettleKey(RowAt(u, 0)) == FirstBucket;
    var before, after := TwoReserved(u), SettledOnce(u, measured);
    assert before.buckets[FirstBucket := Plus(u, Minus(measured, u))] == after.buckets;
    assert before.totals[Service := Plus(Plus(u, u), Minus(measured, u))] == after.totals;
    assert before.reservations[FirstId := after.reservations[FirstId]] == after.reservations;
  }

  lemma SettlesTwice(u: Usage, measured: Usage)
    requires OneRequest(u) && measured == u.(rowsRead := u.rowsRead + 1)
    ensures SettleRow(SettledOnce(u, measured), FirstId, Some(measured), DayOne).Some?
    ensures Actual(FirstId, SettledOnce(u, measured).reservations[FirstId], Some(measured)) != u
    ensures SettledOnce(u, measured).reservations[FirstId].reserved == u
  {
    DaysOfTheRun();
    assert SettleKey(SettledOnce(u, measured).reservations[FirstId]) == FirstBucket;
  }

  /** A reservation settled at one row read more than it reserved, and settled again: charged twice. */
  lemma RepeatedSettlementUnbalances(u: Usage, measured: Usage)
    requires OneRequest(u) && measured == u.(rowsRead := u.rowsRead + 1)
    ensures Run(UpFlags, [FirstReserve(u), SecondReserve(u)], Room(u)) == LedgerState(TwoReserved(u), DayOne)
    ensures SettleRow(TwoReserved(u), FirstId, Some(measured), DayOne) == Some(SettledOnce(u, measured))
    ensures Conserved(SettledOnce(u, measured), Cutoff(DayOne))
    ensures SettleRow(SettledOnce(u, measured), FirstId, Some(measured), DayOne).Some?
    ensures !Conserved(SettleRow(SettledOnce(u, measured), FirstId, Some(measured), DayOne).value, Cutoff(DayOne))
  {
    TwoReservedReached(u);
    RoomIsValid(u);
    LedgerConserves(UpFlags, [FirstReserve(u), SecondReserve(u)], Room(u));
    DaysOfTheRun();
    SettlesOnce(u, measured);
    SettleRowConservesIff(TwoReserved(u), Cutoff(DayOne), FirstId, Some(measured), DayOne);
    SettlesTwice(u, measured);
    RepeatedSettlementConservesIff(SettledOnce(u, measured), Cutoff(DayOne), FirstId, Some(measured), DayOne);
  }
}
