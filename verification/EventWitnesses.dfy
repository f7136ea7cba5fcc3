/**
 * One short run of the finance commands: two events that use up the same sinking goal, the first
 * of them paid. Saving that event without its pointer loses the link to its transaction, and a
 * payment of the second event cannot be undone.
 */
module EventWitnesses {
  import opened Wrappers
  import opened Ledger
  import opened FinanceDb
  import opened Commands
  import opened CommandTheorems
  import opened RoundTrips
  import opened TopUps

  const Savings := Account(100, true, false)
  const Fund := Goal(1, true, 100, None, false)
  const FirstEvent := Event(10, 1, 1, Some(1), None, 1)
  const SecondEvent := Event(10, 1, 1, Some(1), None, 2)
  const PayFirst := EventInput(1, None, None, None, None)
  const PaySecond := EventInput(2, None, None, None, None)
  const FirstTx := PlainTx(Expense, 10, 1, None, Some(1), 1, PlannedEventPlan).(plannedEvent := Some(1))

  const Preparation := [
    PutAccount(1, Savings), PutCategories(map[1 := ForExpense]), PutGoals(map[1 := Fund]),
    PutEvent(1, FirstEvent), PutEvent(2, SecondEvent)]
  const FirstPayment := PayPlannedEvent(PayFirst, 1, 2)

  const Prepared := Db(map[1 := Savings], map[], map[1 := FirstEvent, 2 := SecondEvent], map[1 := Fund],
                       map[], map[], map[1 := ForExpense])
  const FirstPaid := Db(map[1 := Savings], map[1 := FirstTx],
                        map[1 := FirstEvent.(paid := Some(1)), 2 := SecondEvent],
                        map[1 := Fund.(usedAt := Some(1))], map[], map[], map[1 := ForExpense])

  lemma RunSnoc(commands: seq<Command>, c: Command)
    ensures Run(commands + [c]) ==
      if Execute(Run(commands), c).Ok? then Execute(Run(commands), c).value else Run(commands)
    ensures KeepsPointers(commands + [c]) <==> KeepsPointers(commands) && KeepsPointer(Run(commands), c)
  {
    assert (commands + [c])[..|commands|] == commands;
  }

  lemma OpeningBalance(db: Db, a: Id)
    requires a in db.accounts && db.transactions == map[]
    ensures BalanceOf(db, a) == db.accounts[a].opening
  {}

  lemma AccountSaved()
    ensures Run([PutAccount(1, Savings)]) == EMPTY.(accounts := map[1 := Savings])
    ensures KeepsPointers([PutAccount(1, Savings)])
  {
    var c := PutAccount(1, Savings);
    RunSnoc([], c);
    OpeningBalance(EMPTY.(accounts := map[1 := Savings]), 1);
    assert [] + [c] == [c];
  }

  lemma TablesSaved()
    ensures Run(Preparation[..3]) ==
      Db(map[1 := Savings], map[], map[], map[1 := Fund], map[], map[], map[1 := ForExpense])
    ensures KeepsPointers(Preparation[..3])
  {
    AccountSaved();
    RunSnoc([Preparation[0]], Preparation[1]);
    assert [Preparation[0]] + [Preparation[1]] == Preparation[..2];
    RunSnoc(Preparation[..2], Preparation[2]);
    assert Preparation[..2] + [Preparation[2]] == Preparation[..3];
  }

  lemma EventSaved(commands: seq<Command>, id: Id, event: Event)
    requires KeepsPointers(commands) && event.paid.None? && id !in Run(commands).events
    requires SaveEvent(Run(commands), id, event).Ok?
    ensures KeepsPointers(commands + [PutEvent(id, event)])
    ensures Run(commands + [PutEvent(id, event)]) == Run(commands).(events := Run(commands).events[id := event])
  {
    RunSnoc(commands, PutEvent(id, event));
  }

  lemma PreparedReached()
    ensures Run(Preparation) == Prepared && KeepsPointers(Preparation)
  {
    TablesSaved();
    EventSaved(Preparation[..3], 1, FirstEvent);
    assert Preparation[..3] + [Preparation[3]] == Preparation[..4];
    EventSaved(Preparation[..4], 2, SecondEvent);
    assert Preparation[..4] + [Preparation[4]] == Preparation;
    assert map[1 := FirstEvent][2 := SecondEvent] == Prepared.events;
  }

  /** Without a shortfall the payment is the expense alone. */
  lemma CoveredPayment(db: Db, input: EventInput, paymentId: Id, fundingId: Id)
    requires input.event in db.events && db.events[input.event].paid.None?
    requires
      var event, t := db.events[input.event], EventTx(db, input);
      && event.plannedAmount > 0 && t.amount > 0 && t.account in db.accounts
      && CategoryError(db, event.category, ForExpense).None?
      && BalanceOf(db, t.account) >= t.amount && CanAdd(db, paymentId, t)
    ensures PayEvent(db, input, paymentId, fundingId) ==
      Ok(PaidDb(db, input, EventTx(db, input), db.events[input.event], paymentId))
  {}

  lemma FirstPaidReached()
    ensures Run(Preparation + [FirstPayment]) == FirstPaid && KeepsPointers(Preparation + [FirstPayment])
  {
    PreparedReached();
    OpeningBalance(Prepared, 1);
    assert EventTx(Prepared, PayFirst) == FirstTx;
    CoveredPayment(Prepared, PayFirst, 1, 2);
    RunSnoc(Preparation, FirstPayment);
    FirstPaidTables();
  }

  lemma FirstPaidTables()
    ensures PaidDb(Prepared, PayFirst, FirstTx, FirstEvent, 1) == FirstPaid
  {
    var paid := PaidDb(Prepared, PayFirst, FirstTx, FirstEvent, 1);
    assert Completes(1, Fund, FirstEvent);
    assert paid.events == FirstPaid.events;
    assert paid.goals == FirstPaid.goals;
    assert paid.transactions == FirstPaid.transactions;
  }

  /** The paid event saved as it first was: accepted, and its transaction points at an event that denies it. */
  lemma SavingCanDropPointer()
    ensures Run(Preparation + [FirstPayment]) == FirstPaid && Sound(FirstPaid)
    ensures SaveEvent(FirstPaid, 1, FirstEvent).Ok? && !Sound(SaveEvent(FirstPaid, 1, FirstEvent).value)
  {
    FirstPaidReached();
    ReachableIsSound(Preparation + [FirstPayment]);
    assert SaveEvent(FirstPaid, 1, FirstEvent).Ok?;
    SaveEventKeepsLinksIff(FirstPaid, 1, FirstEvent);
  }

  lemma BalanceAfterFirst()
    ensures BalanceOf(FirstPaid, 1) == 90
  {
    BalanceAfterPut(FirstPaid.accounts, map[], 1, FirstTx, 1);
    OpeningBalance(Prepared, 1);
    assert map[][1 := FirstTx] == FirstPaid.transactions;
  }

  /** The goal keeps the day of the second payment, because the first event completes it too. */
  lemma GoalStaysUsed()
    ensures !GoalComesBack(FirstPaid, 2, 2)
  {
    assert Completes(1, FirstPaid.goals[1], SecondEvent);
    assert Completes(1, FirstPaid.goals[1], FirstPaid.events[1]) && FirstPaid.events[1].paid.Some?;
    assert OtherCompletion(FirstPaid, 2, 1);
  }

  /** Paid from its own account and without a top-up, and still the deletion does not restore the tables. */
  lemma SecondPaymentStaysOnGoal()
    ensures Run(Preparation + [FirstPayment]) == FirstPaid
    ensures EventTx(FirstPaid, PaySecond).account == FirstPaid.events[2].account
    ensures PayEvent(FirstPaid, PaySecond, 3, 4).Ok?
    ensures DeleteTransaction(PayEvent(FirstPaid, PaySecond, 3, 4).value, 3) != Ok(FirstPaid)
  {
    FirstPaidReached();
    BalanceAfterFirst();
    CoveredPayment(FirstPaid, PaySecond, 3, 4);
    GoalStaysUsed();
    ReachablePaymentIsUndoneIff(Preparation + [FirstPayment], PaySecond, 3, 4);
  }
}
