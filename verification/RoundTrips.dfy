/**
 * What the payment commands move, and what deleting a payment undoes
 * (src/db/commands.ts, 228-321, 376-509, 511-858).
 */
module RoundTrips {
  import opened Wrappers
  import opened Sums
  import opened Ledger
  import opened FinanceDb
  import opened Commands
  import opened CommandTheorems

  // ---- Where the money goes ----

  /** `amount` leaves one account; every other balance stays. */
  ghost predicate Leaves(db: Db, after: Db, from: Id, amount: int) {
    after.accounts == db.accounts
    && forall a :: a in db.accounts ==> BalanceOf(after, a) == BalanceOf(db, a) - if a == from then amount else 0
  }

  /** `amount` goes from one account to another; every other balance stays. */
  ghost predicate Moves(db: Db, after: Db, from: Id, to: Id, amount: int) {
    after.accounts == db.accounts
    && forall a :: a in db.accounts ==>
         BalanceOf(after, a) == BalanceOf(db, a) - (if a == from then amount else 0) + (if a == to then amount else 0)
  }

  lemma AddMoves(db: Db, id: Id, t: Tx)
    requires AddTx(db, id, t).Ok?
    ensures forall a :: a in db.accounts ==> BalanceOf(AddTx(db, id, t).value, a) == BalanceOf(db, a) + Effect(t, a)
  {
    forall a | a in db.accounts ensures BalanceOf(AddTx(db, id, t).value, a) == BalanceOf(db, a) + Effect(t, a) {
      BalanceAfterPut(db.accounts, db.transactions, id, t, a);
    }
  }

  /** A commitment is paid out of exactly one account: the savings it is funded from, or its own. */
  lemma CommitmentIsPaidOnce(db: Db, input: CommitmentInput, plan: Option<Occurrence>, paymentId: Id, fundingId: Id)
    requires MarkCommitmentPaid(db, input, plan, paymentId, fundingId).Ok? && !KeyUsed(db, input.key)
    ensures
      var after := MarkCommitmentPaid(db, input, plan, paymentId, fundingId).value;
      && KeyUsed(after, input.key)
      && Leaves(db, after, Or(input.funding, Or(input.paymentAccount, input.account)),
        Or(input.actualAmount, input.amount))
  {
    var payment := PaymentTx(input);
    if input.funding.None? {
      AddMoves(db, paymentId, payment);
    } else {
      var funding := FundingTx(input, input.funding.value);
      var funded := AddTx(db, fundingId, funding).value;
      AddMoves(db, fundingId, funding);
      AddMoves(funded, paymentId, payment);
    }
    assert HasKey(MarkCommitmentPaid(db, input, plan, paymentId, fundingId).value.transactions[paymentId], input.key);
  }

  lemma ContributionMoves(db: Db, g: Id, from: Id, amount: int, date: Date, newId: Id)
    requires ContributeToGoal(db, g, from, amount, date, newId).Ok?
    ensures g in db.goals && 0 < amount
    ensures Moves(db, ContributeToGoal(db, g, from, amount, date, newId).value, from, db.goals[g].linkedAccount, amount)
  {
    AddMoves(db, newId,
      PlainTx(Transfer, amount, from, Some(db.goals[g].linkedAccount), None, date, GoalPlan).(goal := Some(g)));
  }

  lemma WithdrawalMoves(db: Db, g: Id, to: Id, amount: int, date: Date, newId: Id)
    requires WithdrawFromGoal(db, g, to, amount, date, newId).Ok?
    ensures g in db.goals && 0 < amount
    ensures Moves(db, WithdrawFromGoal(db, g, to, amount, date, newId).value, db.goals[g].linkedAccount, to, amount)
  {
    AddMoves(db, newId, PlainTx(Transfer, amount, db.goals[g].linkedAccount, Some(to), None, date, Manual));
  }

  /** What is contributed can be withdrawn again, and leaves every balance as it was. */
  lemma ContributeThenWithdraw(db: Db, g: Id, a: Id, amount: int, date: Date, first: Id, second: Id)
    requires ContributeToGoal(db, g, a, amount, date, first).Ok?
    requires WithdrawFromGoal(ContributeToGoal(db, g, a, amount, date, first).value, g, a, amount, date, second).Ok?
    ensures
      var after := WithdrawFromGoal(ContributeToGoal(db, g, a, amount, date, first).value, g, a, amount, date,
        second).value;
      forall x :: x in db.accounts ==> x in after.accounts && BalanceOf(after, x) == BalanceOf(db, x)
  {
    ContributionMoves(db, g, a, amount, date, first);
    WithdrawalMoves(ContributeToGoal(db, g, a, amount, date, first).value, g, a, amount, date, second);
  }

  /** An event takes its amount from its account; a top-up adds just what is missing, and leaves nothing over. */
  lemma EventIsPaidOnce(db: Db, input: EventInput, paymentId: Id, fundingId: Id)
    requires input.event in db.events && PayEvent(db, input, paymentId, fundingId).Ok?
    ensures
      var t := EventTx(db, input);
      var after := PayEvent(db, input, paymentId, fundingId).value;
      && t.account in db.accounts && after.events[input.event].paid == Some(paymentId)
      && if t.amount <= BalanceOf(db, t.account) then Leaves(db, after, t.account, t.amount)
         else
           && BalanceOf(after, t.account) == 0 && input.topUp.Some? && input.topUp.value in db.accounts
           && BalanceOf(after, input.topUp.value) ==
             BalanceOf(db, input.topUp.value) - (t.amount - BalanceOf(db, t.account))
  {
    var t := EventTx(db, input);
    var funded := PayEventMeans(db, input, paymentId, fundingId);
    if t.amount > BalanceOf(db, t.account) {
      AddMoves(db, fundingId,
        PlainTx(Transfer, t.amount - BalanceOf(db, t.account), input.topUp.value, Some(t.account), None, t.date, Manual)
          .(occurrence := Some(EventFunding(input.event))));
    }
    AddMoves(funded, paymentId, t);
    GoalsAside(AddTx(funded, paymentId, t).value, PayEvent(db, input, paymentId, fundingId).value);
  }

  /** Balances look at accounts and transactions only. */
  lemma GoalsAside(db: Db, after: Db)
    requires after.accounts == db.accounts && after.transactions == db.transactions
    ensures forall a :: a in db.accounts ==> BalanceOf(after, a) == BalanceOf(db, a)
  {}

  /** A repayment takes its amount off the debt, and off the account when it is personal. */
  lemma RepaymentMoves(db: Db, input: DebtInput, paymentId: Id, newId: Id)
    requires RecordDebtPayment(db, input, paymentId, newId).Ok?
    ensures
      var after := RecordDebtPayment(db, input, paymentId, newId).value;
      && input.debt in db.debts && input.debt in after.debts
      && Remaining(after, input.debt) == Remaining(db, input.debt) - input.amount
      && (after.debts[input.debt].paid <==> db.debts[input.debt].paid || Remaining(after, input.debt) == 0)
      && if input.personal then input.account.Some? && Leaves(db, after, input.account.value, input.amount)
         else forall a :: a in db.accounts ==> a in after.accounts && BalanceOf(after, a) == BalanceOf(db, a)
  {
    var after := RecordDebtPayment(db, input, paymentId, newId).value;
    TotalAfterPut(db.payments, PaidTo(input.debt), paymentId,
      Payment(input.debt, input.amount, if input.personal then Some(newId) else None));
    if input.personal {
      PersonalMeans(db, input, paymentId, newId);
      var t := DebtTx(input, paymentId, input.account.value);
      AddMoves(db, newId, t);
      GoalsAside(AddTx(db, newId, t).value, after);
    } else {
      GoalsAside(db, after);
    }
  }

  // ---- What deleting a payment undoes ----

  /** A key no row carries has no funding transfer either. */
  lemma UnusedKeyHasNoFunding(db: Db, key: OccurrenceKey)
    requires Sound(db) && !KeyUsed(db, key)
    ensures !KeyUsed(db, CommitmentFunding(key))
  {
    forall f | f in db.transactions ensures !HasKey(db.transactions[f], CommitmentFunding(key)) {
      assert FundingHasPayment(db.transactions, f);
    }
  }

  /** The one row that carries a key is the one found by it. */
  lemma OnlyRowByKey(transactions: Transactions, id: Id, key: OccurrenceKey)
    requires id in transactions && HasKey(transactions[id], key)
    requires forall j :: j in transactions && j != id ==> !HasKey(transactions[j], key)
    ensures ByKey(transactions, key) == Some(id)
  {}

  lemma NoRowByKey(transactions: Transactions, key: OccurrenceKey)
    requires forall j :: j in transactions ==> !HasKey(transactions[j], key)
    ensures ByKey(transactions, key) == None
  {}

  /** A deletion that leads back to a solvent state goes through. */
  lemma UndoneIs(paid: Db, id: Id, db: Db)
    requires Solvent(db) && id in paid.transactions && DeleteError(paid, paid.transactions[id]).None?
    requires AfterDelete(paid, id) == db
    ensures DeleteTransaction(paid, id) == Ok(db)
  {}

  lemma CommitmentPaymentGoes(paid: Db, id: Id, key: OccurrenceKey)
    requires id in paid.transactions && key.CommitmentKey?
    requires
      var t := paid.transactions[id];
      t.source == CommitmentPlan && t.occurrence == Some(key) && t.plannedEvent.None? && t.debtPayment.None?
    ensures DeleteError(paid, paid.transactions[id]).None?
    ensures AfterDelete(paid, id) ==
      RemoveTx(RemoveTx(paid, ByKey(paid.transactions, CommitmentFunding(key))), Some(id))
  {}

  /** Deleting the payment of a commitment takes its funding transfer along and restores the tables. */
  lemma PayThenDelete(db: Db, input: CommitmentInput, plan: Option<Occurrence>, paymentId: Id, fundingId: Id)
    requires Sound(db) && !KeyUsed(db, input.key)
    requires MarkCommitmentPaid(db, input, plan, paymentId, fundingId).Ok?
    ensures DeleteTransaction(MarkCommitmentPaid(db, input, plan, paymentId, fundingId).value, paymentId) == Ok(db)
  {
    UnusedKeyHasNoFunding(db, input.key);
    assert MarkCommitmentPaid(db, input, plan, paymentId, fundingId) == PayCommitment(db, input, paymentId, fundingId);
    if input.funding.Some? { FundedPayThenDelete(db, input, paymentId, fundingId); }
    else { PlainPayThenDelete(db, input, paymentId, fundingId); }
  }

  lemma FundedPayThenDelete(db: Db, input: CommitmentInput, paymentId: Id, fundingId: Id)
    requires Solvent(db) && !KeyUsed(db, CommitmentFunding(input.key)) && input.key.CommitmentKey?
      && input.funding.Some?
    requires PaymentTx(input).account in db.accounts && PayCommitment(db, input, paymentId, fundingId).Ok?
    ensures DeleteTransaction(PayCommitment(db, input, paymentId, fundingId).value, paymentId) == Ok(db)
  {
    FundedMeans(db, input, paymentId, fundingId);
    var paid := PayCommitment(db, input, paymentId, fundingId).value;
    OnlyRowByKey(paid.transactions, fundingId, CommitmentFunding(input.key));
    CommitmentPaymentGoes(paid, paymentId, input.key);
    assert paid.transactions - {fundingId} - {paymentId} == db.transactions;
    UndoneIs(paid, paymentId, db);
  }

  lemma PlainPayThenDelete(db: Db, input: CommitmentInput, paymentId: Id, fundingId: Id)
    requires Solvent(db) && !KeyUsed(db, CommitmentFunding(input.key)) && input.key.CommitmentKey?
      && input.funding.None?
    requires PaymentTx(input).account in db.accounts && PayCommitment(db, input, paymentId, fundingId).Ok?
    ensures DeleteTransaction(PayCommitment(db, input, paymentId, fundingId).value, paymentId) == Ok(db)
  {
    var paid := PayCommitment(db, input, paymentId, fundingId).value;
    NoRowByKey(paid.transactions, CommitmentFunding(input.key));
    CommitmentPaymentGoes(paid, paymentId, input.key);
    assert paid.transactions - {paymentId} == db.transactions;
    UndoneIs(paid, paymentId, db);
  }

  lemma RepaymentGoes(paid: Db, id: Id, p: Id)
    requires id in paid.transactions && p in paid.payments && paid.payments[p].transaction == Some(id)
    requires
      var t := paid.transactions[id];
      t.source == DebtPlan && t.occurrence.None? && t.plannedEvent.None? && t.debtPayment == Some(p)
    requires paid.payments[p].debt in paid.debts
    ensures DeleteError(paid, paid.transactions[id]).None?
    ensures
      var d := paid.payments[p].debt;
      var less := paid.(payments := paid.payments - {p}, transactions := paid.transactions - {id});
      AfterDelete(paid, id) == less.(debts := less.debts[d := less.debts[d].(paid := Remaining(less, d) == 0)])
  {}

  lemma StatusComesBack(db: Db, d: Id, debts: map<Id, Debt>)
    requires DebtsRight(db) && d in db.debts && d in debts
    requires debts[d].original == db.debts[d].original
    requires debts.Keys == db.debts.Keys && forall x :: x in debts && x != d ==> debts[x] == db.debts[x]
    ensures debts[d := debts[d].(paid := Remaining(db, d) == 0)] == db.debts
  {
    assert debts[d := debts[d].(paid := Remaining(db, d) == 0)].Keys == db.debts.Keys;
  }

  lemma PersonalShape(db: Db, input: DebtInput, paymentId: Id, newId: Id)
    requires RecordDebtPayment(db, input, paymentId, newId).Ok? && input.personal
    ensures
      var paid := RecordDebtPayment(db, input, paymentId, newId).value;
      && input.debt in db.debts && newId in paid.transactions && paymentId in paid.payments
      && paid.transactions - {newId} == db.transactions && paid.payments - {paymentId} == db.payments
      && paid.payments[paymentId].transaction == Some(newId) && paid.payments[paymentId].debt == input.debt
      && paid.transactions[newId] == DebtTx(input, paymentId, input.account.value)
      && paid.debts.Keys == db.debts.Keys && paid.debts[input.debt].original == db.debts[input.debt].original
      && (forall x :: x in paid.debts && x != input.debt ==> paid.debts[x] == db.debts[x])
      && paid.(transactions := db.transactions, payments := db.payments, debts := db.debts) == db
  {
    PersonalMeans(db, input, paymentId, newId);
    var paid := RecordDebtPayment(db, input, paymentId, newId).value;
    assert paid.transactions - {newId} == db.transactions && paid.payments - {paymentId} == db.payments;
  }

  /** Deleting a personal repayment restores the tables, the debt's status included. */
  lemma RepayThenDelete(db: Db, input: DebtInput, paymentId: Id, newId: Id)
    requires Sound(db) && input.personal && RecordDebtPayment(db, input, paymentId, newId).Ok?
    ensures DeleteTransaction(RecordDebtPayment(db, input, paymentId, newId).value, newId) == Ok(db)
  {
    var paid := RecordDebtPayment(db, input, paymentId, newId).value;
    PersonalShape(db, input, paymentId, newId);
    RepaymentGoes(paid, newId, paymentId);
    StatusComesBack(db, input.debt, paid.debts);
    var less := paid.(payments := db.payments, transactions := db.transactions);
    assert Remaining(less, input.debt) == Remaining(db, input.debt);
    UndoneIs(paid, newId, db);
  }

  // ---- Events ----

  ghost function BalanceOfOrZero(db: Db, a: Id): int { if a in db.accounts then BalanceOf(db, a) else 0 }

  /** The rows left once the payment and the event's top-up are gone. */
  ghost function WithoutEventRows(transactions: Transactions, e: Id, id: Id): Transactions {
    var f := ByKey(transactions, EventFunding(e));
    (if f.Some? then transactions - {f.value} else transactions) - {id}
  }

  lemma EventPaymentGoes(paid: Db, id: Id, e: Id)
    requires id in paid.transactions && e in paid.events && paid.events[e].paid == Some(id)
    requires
      var t := paid.transactions[id];
      t.source == PlannedEventPlan && t.occurrence.None? && t.plannedEvent == Some(e) && t.debtPayment.None?
    ensures DeleteError(paid, paid.transactions[id]).None?
    ensures AfterDelete(paid, id) == paid.(
      transactions := WithoutEventRows(paid.transactions, e, id),
      events := paid.events[e := paid.events[e].(paid := None)], goals := ReopenGoal(paid, e))
  {}

  /** Only a top-up that was there before the payment is missing afterwards. */
  lemma RowsComeBackIff(db: Db, funded: Db, input: EventInput, paymentId: Id, fundingId: Id)
    requires input.event in db.events && paymentId !in funded.transactions
    requires TopUp(db, input, EventTx(db, input).amount - BalanceOfOrZero(db, EventTx(db, input).account),
      fundingId) == Ok(funded)
    ensures
      var t := EventTx(db, input);
      WithoutEventRows(funded.transactions[paymentId := t], input.event, paymentId) == db.transactions
      <==> !KeyUsed(db, EventFunding(input.event))
    ensures funded.(transactions := db.transactions) == db
  {
    var t, key := EventTx(db, input), EventFunding(input.event);
    var transactions := funded.transactions[paymentId := t];
    if t.amount - BalanceOfOrZero(db, t.account) > 0 {
      OnlyRowByKey(transactions, fundingId, key);
      assert transactions - {fundingId} - {paymentId} == db.transactions;
    } else if KeyUsed(db, key) {
      var j :| j in db.transactions && HasKey(db.transactions[j], key);
      assert HasKey(transactions[j], key);
      var f := ByKey(transactions, key).value;
      assert f != paymentId && f in db.transactions && f !in WithoutEventRows(transactions, input.event, paymentId);
    } else {
      NoRowByKey(transactions, key);
      assert transactions - {paymentId} == db.transactions;
    }
  }

  /** What the linked goal has to look like before the payment, for deleting it to bring the goal back. */
  predicate GoalComesBack(db: Db, e: Id, date: Date)
    requires e in db.events
  {
    var link := db.events[e].linkedGoal;
    link.Some? && link.value in db.goals && Completes(link.value, db.goals[link.value], db.events[e]) ==>
      db.goals[link.value].usedAt == if OtherCompletion(db, e, link.value) then Some(date) else None
  }

  /**
   * Paid from its own account, the event completes its goal, and deleting it reopens the goal unless
   * another event completes it too.
   */
  lemma GoalComesBackIff(db: Db, paid: Db, e: Id, payment: Id, date: Date)
    requires e in db.events && db.events[e].paid.None?
    requires paid.goals == UseGoal(db, db.events[e], true, date)
    requires paid.events == db.events[e := db.events[e].(paid := Some(payment))]
    ensures ReopenGoal(paid, e) == db.goals <==> GoalComesBack(db, e, date)
  {
    var link := db.events[e].linkedGoal;
    if link.Some? && link.value in db.goals && Completes(link.value, db.goals[link.value], db.events[e]) {
      var g := link.value;
      SameCompletions(db, paid, e, g);
      var back := ReopenGoal(paid, e);
      assert back[g].usedAt == if OtherCompletion(db, e, g) then Some(date) else None;
      assert back[g] == db.goals[g].(usedAt := back[g].usedAt);
      if back[g].usedAt == db.goals[g].usedAt { assert back == db.goals; }
    }
  }

  lemma SameCompletions(db: Db, paid: Db, e: Id, g: Id)
    requires g in db.goals && g in paid.goals && e in db.events
    requires paid.goals[g].sinking == db.goals[g].sinking && paid.goals[g].linkedAccount == db.goals[g].linkedAccount
    requires paid.events.Keys == db.events.Keys && forall o :: o in db.events && o != e ==>
      paid.events[o] == db.events[o]
    ensures OtherCompletion(paid, e, g) <==> OtherCompletion(db, e, g)
  {
    if OtherCompletion(db, e, g) {
      var o :| o in db.events && o != e && db.events[o].paid.Some? && Completes(g, db.goals[g], db.events[o]);
      assert o in paid.events && paid.events[o] == db.events[o];
    }
    if OtherCompletion(paid, e, g) {
      var o :| o in paid.events && o != e && paid.events[o].paid.Some? && Completes(g, paid.goals[g], paid.events[o]);
      assert o in db.events && paid.events[o] == db.events[o];
    }
  }

  /**
   * The exact condition, read off the tables before the payment: the event is paid from its
   * own account, no top-up is left over from before, and the goal that the payment completes
   * is unused, or already used on the very day of the payment when another event completes it too.
   */
  predicate CanBeUndone(db: Db, input: EventInput)
    requires input.event in db.events
  {
    && EventTx(db, input).account == db.events[input.event].account
    && !KeyUsed(db, EventFunding(input.event))
    && GoalComesBack(db, input.event, EventTx(db, input).date)
  }

  lemma EventDeletion(db: Db, funded: Db, input: EventInput, paymentId: Id, fundingId: Id)
    requires input.event in db.events && db.events[input.event].paid.None? && paymentId !in funded.transactions
    requires TopUp(db, input, EventTx(db, input).amount - BalanceOfOrZero(db, EventTx(db, input).account),
      fundingId) == Ok(funded)
    ensures
      var paid := PaidDb(funded, input, EventTx(db, input), db.events[input.event], paymentId);
      && DeleteError(paid, paid.transactions[paymentId]).None?
      && (AfterDelete(paid, paymentId) == db <==> CanBeUndone(db, input))
  {
    var e, t := input.event, EventTx(db, input);
    var paid := PaidDb(funded, input, t, db.events[e], paymentId);
    EventPaymentGoes(paid, paymentId, e);
    RowsComeBackIff(db, funded, input, paymentId, fundingId);
    var after := AfterDelete(paid, paymentId);
    assert after.events[e] == db.events[e].(account := t.account);
    if t.account == db.events[e].account {
      assert after.events == db.events;
      assert db.events[e].(account := t.account, paid := Some(paymentId)) == db.events[e].(paid := Some(paymentId));
      GoalComesBackIff(db, paid, e, paymentId, t.date);
    }
  }

  /**
   * Deleting the payment of an event restores the tables exactly when it could be undone:
   * over every sound state, and every way of paying the event.
   */
  lemma PayEventThenDeleteRestoresIff(db: Db, input: EventInput, paymentId: Id, fundingId: Id)
    requires Sound(db) && input.event in db.events && db.events[input.event].paid.None?
    requires PayEvent(db, input, paymentId, fundingId).Ok?
    ensures DeleteTransaction(PayEvent(db, input, paymentId, fundingId).value, paymentId) == Ok(db) <==>
      CanBeUndone(db, input)
  {
    var funded := PayEventMeans(db, input, paymentId, fundingId);
    var paid := PayEvent(db, input, paymentId, fundingId).value;
    EventDeletion(db, funded, input, paymentId, fundingId);
    if AfterDelete(paid, paymentId) == db { UndoneIs(paid, paymentId, db); }
  }

  /**
   * The deletion goes through, and whatever the goal, the rows are back and the event is open at the
   * account it was paid from.
   */
  lemma PayEventThenDeleteReopens(db: Db, input: EventInput, paymentId: Id, fundingId: Id)
    requires Sound(db) && input.event in db.events && db.events[input.event].paid.None?
    requires !KeyUsed(db, EventFunding(input.event)) && PayEvent(db, input, paymentId, fundingId).Ok?
    ensures
      var back := DeleteTransaction(PayEvent(db, input, paymentId, fundingId).value, paymentId);
      && back.Ok?
      && back.value.(goals := db.goals) == db.(events :=
           db.events[input.event := db.events[input.event].(account := EventTx(db, input).account)])
  {
    var e, t := input.event, EventTx(db, input);
    var funded := PayEventMeans(db, input, paymentId, fundingId);
    var paid := PayEvent(db, input, paymentId, fundingId).value;
    EventPaymentGoes(paid, paymentId, e);
    RowsComeBackIff(db, funded, input, paymentId, fundingId);
    var after := AfterDelete(paid, paymentId);
    assert after.events == db.events[e := db.events[e].(account := t.account)];
    GoalsAside(db, after);
    UndoneIs(paid, paymentId, after);
  }

  /**
   * Unlinking gives back the linked expense, except that it is then a manual one: the
   * tables are restored exactly when the expense had been entered by hand.
   */
  lemma LinkThenUnlinkRestoresIff(db: Db, id: Id, plan: Option<Occurrence>, confirmMismatch: bool)
    requires Sound(db) && LinkTransaction(db, id, plan, confirmMismatch).Ok?
    ensures
      var back := UnlinkPayment(LinkTransaction(db, id, plan, confirmMismatch).value, id);
      && back == Ok(db.(transactions := db.transactions[id := db.transactions[id].(source := Manual)]))
      && (back == Ok(db) <==> db.transactions[id].source == Manual)
  {
    var linked := LinkTransaction(db, id, plan, confirmMismatch).value;
    UnusedKeyHasNoFunding(db, plan.value.key);
    assert !KeyUsed(linked, CommitmentFunding(plan.value.key));
    var back := db.transactions[id].(source := Manual);
    assert linked.transactions[id := back] == db.transactions[id := back];
    if back == db.transactions[id] { assert db.transactions[id := back] == db.transactions; }
  }
}
