/**
 * Solvency and link integrity: every command that commits keeps every balance
 * non-negative, every row on existing accounts, and every cross-link right.
 */
module CommandTheorems {
  import opened Wrappers
  import opened Sums
  import opened Ledger
  import opened FinanceDb
  import opened Commands

  // ---- Adding a row without event or debt links ----

  predicate OnAccounts(db: Db, t: Tx) {
    t.account in db.accounts
    && (t.kind == Transfer ==> t.toAccount.Some? && t.toAccount.value in db.accounts)
  }

  lemma SolventAfterAdd(db: Db, id: Id, t: Tx)
    requires Solvent(db) && id !in db.transactions && ValidTx(t) && t.account in db.accounts
    requires BalanceOf(db, t.account) + Effect(t, t.account) >= 0
    ensures Solvent(db.(transactions := db.transactions[id := t]))
  {
    var after := db.(transactions := db.transactions[id := t]);
    forall a | a in after.accounts ensures BalanceOf(after, a) >= 0 {
      BalanceAfterPut(db.accounts, db.transactions, id, t, a);
      assert BalanceOf(db, a) >= 0;
    }
  }

  lemma AddKeepsSound(db: Db, id: Id, t: Tx)
    requires Sound(db) && AddTx(db, id, t).Ok?
    requires Unlinked(t) && RowShape(t) && !IsFunding(t) && OnAccounts(db, t)
    requires BalanceOf(db, t.account) + Effect(t, t.account) >= 0
    ensures Sound(AddTx(db, id, t).value)
  {
    SolventAfterAdd(db, id, t);
    FreeKey(db, id, t);
    PutUnlinked(db, id, t);
    DebtsUnmoved(db, AddTx(db, id, t).value);
  }

  lemma FreeKey(db: Db, id: Id, t: Tx)
    requires CanAdd(db, id, t)
    ensures KeyFree(db.transactions, id, t.occurrence)
  {
    forall j | j in db.transactions && j != id && db.transactions[j].occurrence.Some?
      ensures db.transactions[j].occurrence != t.occurrence
    {
      if t.occurrence.Some? { assert !HasKey(db.transactions[j], t.occurrence.value); }
    }
  }

  lemma DebtsUnmoved(db: Db, after: Db)
    requires DebtsRight(db) && after.debts == db.debts && after.payments == db.payments
    ensures DebtsRight(after)
  {
    forall d | d in after.debts ensures PaidSum(after, d) == PaidSum(db, d) {}
  }

  // ---- Accounts ----

  lemma OtherBalances(db: Db, accounts: Accounts, a: Id)
    requires a in db.accounts && a in accounts && db.accounts[a].opening == accounts[a].opening
    ensures BalanceOf(db.(accounts := accounts), a) == BalanceOf(db, a)
  {}

  lemma SaveAccountKeepsSound(db: Db, id: Id, account: Account)
    requires Sound(db) && SaveAccount(db, id, account).Ok?
    ensures Sound(SaveAccount(db, id, account).value)
  {
    var after := SaveAccount(db, id, account).value;
    forall a | a in after.accounts ensures BalanceOf(after, a) >= 0 {
      if a != id { OtherBalances(db, after.accounts, a); }
    }
    DebtsUnmoved(db, after);
  }

  lemma DeleteAccountKeepsSound(db: Db, id: Id, referenced: bool)
    requires Sound(db) && DeleteAccount(db, id, referenced).Ok?
    ensures Sound(DeleteAccount(db, id, referenced).value)
  {
    var after := DeleteAccount(db, id, referenced).value;
    forall a | a in after.accounts ensures BalanceOf(after, a) >= 0 { OtherBalances(db, after.accounts, a); }
    DebtsUnmoved(db, after);
  }

  lemma AdjustKeepsSound(db: Db, newId: Id, a: Id, target: int, date: Date)
    requires Sound(db) && AdjustBalance(db, newId, a, target, date).Ok?
    ensures Sound(AdjustBalance(db, newId, a, target, date).value)
    ensures a in db.accounts && BalanceOf(AdjustBalance(db, newId, a, target, date).value, a) == target
  {
    if target != BalanceOf(db, a) {
      var t := PlainTx(Adjustment, target - BalanceOf(db, a), a, None, None, date, AdjustmentEntry);
      AddKeepsSound(db, newId, t);
      BalanceAfterPut(db.accounts, db.transactions, newId, t, a);
    }
  }

  // ---- Manual transactions ----

  /** Only the accounts either version touches can change balance. */
  lemma UntouchedBalance(db: Db, id: Id, t: Tx, a: Id)
    requires a in db.accounts && !Touches(t, a) && (id in db.transactions ==> !Touches(db.transactions[id], a))
    ensures BalanceOf(db.(transactions := db.transactions[id := t]), a) == BalanceOf(db, a)
  {
    BalanceAfterPut(db.accounts, db.transactions, id, t, a);
  }

  lemma SaveTransactionKeepsSound(db: Db, id: Id, t: Tx)
    requires Sound(db) && SaveTransaction(db, id, t).Ok?
    ensures Sound(SaveTransaction(db, id, t).value)
  {
    var after := SaveTransaction(db, id, t).value;
    forall a | a in after.accounts ensures BalanceOf(after, a) >= 0 {
      if !Touches(t, a) && !(id in db.transactions && Touches(db.transactions[id], a)) {
        UntouchedBalance(db, id, t, a);
      }
    }
    PutUnlinked(db, id, t);
    DebtsUnmoved(db, after);
  }

  // ---- Commitments ----

  lemma PlainPaymentKeepsSound(db: Db, id: Id, t: Tx)
    requires Sound(db) && AddTx(db, id, t).Ok? && t.kind == Expense
    requires Unlinked(t) && RowShape(t) && !IsFunding(t)
    requires t.account in db.accounts && BalanceOf(db, t.account) >= t.amount
    ensures Sound(AddTx(db, id, t).value)
  {
    AddKeepsSound(db, id, t);
  }

  /** Payment and funding together, as if the payment were written first. */
  lemma FundedPaymentKeepsLinks(db: Db, payment: Tx, funding: Tx, key: OccurrenceKey, paymentId: Id, fundingId: Id)
    requires Linked(db) && Funds(funding, payment, key) && HasKey(funding, CommitmentFunding(key))
    requires Unlinked(payment) && RowShape(payment) && Unlinked(funding) && RowShape(funding) && key.CommitmentKey?
    requires CanAdd(db, fundingId, funding) && CanAdd(db, paymentId, payment) && paymentId != fundingId
    ensures Linked(db.(transactions := db.transactions[fundingId := funding][paymentId := payment]))
  {
    FreeKey(db, fundingId, funding);
    FreeKey(db, paymentId, payment);
    var paid := db.(transactions := db.transactions[paymentId := payment]);
    PutUnlinked(db, paymentId, payment);
    assert Funds(funding, paid.transactions[paymentId], key);
    PutUnlinked(paid, fundingId, funding);
    assert paid.transactions[fundingId := funding] == db.transactions[fundingId := funding][paymentId := payment];
  }

  lemma FundedPaymentKeepsSolvent(db: Db, payment: Tx, funding: Tx, paymentId: Id, fundingId: Id)
    requires Solvent(db) && fundingId !in db.transactions && paymentId !in db.transactions && paymentId != fundingId
    requires payment.kind == Expense && payment.account in db.accounts && ValidTx(payment)
    requires funding.kind == Transfer && funding.toAccount == Some(payment.account) && funding.amount == payment.amount
    requires ValidTx(funding) && funding.account in db.accounts && BalanceOf(db, funding.account) >= funding.amount
    ensures Solvent(db.(transactions := db.transactions[fundingId := funding][paymentId := payment]))
  {
    SolventAfterAdd(db, fundingId, funding);
    BalanceAfterPut(db.accounts, db.transactions, fundingId, funding, payment.account);
    assert BalanceOf(db, payment.account) >= 0;
    SolventAfterAdd(db.(transactions := db.transactions[fundingId := funding]), paymentId, payment);
  }

  lemma FundedPaymentKeepsSound(db: Db, payment: Tx, funding: Tx, key: OccurrenceKey, paymentId: Id, fundingId: Id)
    requires Sound(db) && key.CommitmentKey? && Funds(funding, payment, key) && HasKey(funding, CommitmentFunding(key))
    requires Unlinked(payment) && RowShape(payment) && Unlinked(funding) && RowShape(funding)
    requires CanAdd(db, fundingId, funding) && CanAdd(db, paymentId, payment) && paymentId != fundingId
    requires ValidTx(payment) && ValidTx(funding) && OnAccounts(db, payment) && OnAccounts(db, funding)
    requires BalanceOf(db, funding.account) >= funding.amount
    ensures Sound(db.(transactions := db.transactions[fundingId := funding][paymentId := payment]))
  {
    FundedPaymentKeepsLinks(db, payment, funding, key, paymentId, fundingId);
    FundedPaymentKeepsSolvent(db, payment, funding, paymentId, fundingId);
    DebtsUnmoved(db, db.(transactions := db.transactions[fundingId := funding][paymentId := payment]));
  }

  lemma FundedMeans(db: Db, input: CommitmentInput, paymentId: Id, fundingId: Id)
    requires PaymentTx(input).account in db.accounts && PayCommitment(db, input, paymentId, fundingId).Ok?
      && input.funding.Some?
    ensures
      var payment, funding := PaymentTx(input), FundingTx(input, input.funding.value);
      && ValidTx(payment) && ValidTx(funding) && funding.account in db.accounts
      && BalanceOf(db, funding.account) >= funding.amount
      && CanAdd(db, fundingId, funding) && CanAdd(db, paymentId, payment) && paymentId != fundingId
      && PayCommitment(db, input, paymentId, fundingId) ==
           Ok(db.(transactions := db.transactions[fundingId := funding][paymentId := payment]))
  {
    var funded := AddTx(db, fundingId, FundingTx(input, input.funding.value)).value;
    CanAddEarlier(db, funded, paymentId, PaymentTx(input));
  }

  lemma CanAddEarlier(db: Db, later: Db, id: Id, t: Tx)
    requires CanAdd(later, id, t)
    requires forall j :: j in db.transactions ==> j in later.transactions && later.transactions[j] == db.transactions[j]
    ensures CanAdd(db, id, t)
  {
    forall j | j in db.transactions && t.occurrence.Some? ensures !HasKey(db.transactions[j], t.occurrence.value) {
      assert later.transactions[j] == db.transactions[j];
    }
    forall j | j in db.transactions && t.plannedEvent.Some? ensures db.transactions[j].plannedEvent != t.plannedEvent {
      assert later.transactions[j] == db.transactions[j];
    }
  }

  lemma MarkCommitmentPaidKeepsSound(db: Db, input: CommitmentInput, plan: Option<Occurrence>, paymentId: Id,
                                     fundingId: Id)
    requires Sound(db) && MarkCommitmentPaid(db, input, plan, paymentId, fundingId).Ok?
    ensures Sound(MarkCommitmentPaid(db, input, plan, paymentId, fundingId).value)
  {
    if !KeyUsed(db, input.key) {
      if input.funding.Some? {
        FundedMeans(db, input, paymentId, fundingId);
        FundedPaymentKeepsSound(db, PaymentTx(input), FundingTx(input, input.funding.value), input.key, paymentId,
          fundingId);
      } else {
        PlainPaymentKeepsSound(db, paymentId, PaymentTx(input));
      }
    }
  }

  lemma RekeyKeepsBalances(db: Db, id: Id, t: Tx)
    requires Solvent(db) && id in db.transactions
    requires t.(source := db.transactions[id].source, occurrence := db.transactions[id].occurrence) ==
      db.transactions[id]
    ensures Solvent(db.(transactions := db.transactions[id := t]))
  {
    var after := db.(transactions := db.transactions[id := t]);
    forall a | a in after.accounts ensures BalanceOf(after, a) >= 0 {
      BalanceAfterPut(db.accounts, db.transactions, id, t, a);
      assert BalanceOf(db, a) >= 0;
    }
  }

  lemma LinkKeepsSound(db: Db, id: Id, plan: Option<Occurrence>, confirmMismatch: bool)
    requires Sound(db) && LinkTransaction(db, id, plan, confirmMismatch).Ok?
    ensures Sound(LinkTransaction(db, id, plan, confirmMismatch).value)
  {
    var after := LinkTransaction(db, id, plan, confirmMismatch).value;
    var updated := after.transactions[id];
    forall j | j in db.transactions && j != id && db.transactions[j].occurrence.Some?
      ensures db.transactions[j].occurrence != updated.occurrence
    {
      assert !HasKey(db.transactions[j], plan.value.key);
    }
    PutUnlinked(db, id, updated);
    RekeyKeepsBalances(db, id, updated);
    DebtsUnmoved(db, after);
  }

  lemma UnlinkKeepsSound(db: Db, id: Id)
    requires Sound(db) && UnlinkPayment(db, id).Ok?
    ensures Sound(UnlinkPayment(db, id).value)
  {
    var after := UnlinkPayment(db, id).value;
    assert RowShape(db.transactions[id]);
    PutUnlinked(db, id, after.transactions[id]);
    RekeyKeepsBalances(db, id, after.transactions[id]);
    DebtsUnmoved(db, after);
  }

  // ---- Planned income and goals ----

  lemma IncomeKeepsSound(db: Db, income: Id, key: OccurrenceKey, due: Option<Occurrence>, account: Id,
                         amount: Option<int>, date: Date, newId: Id)
    requires Sound(db) && MarkIncomeReceived(db, income, key, due, account, amount, date, newId).Ok?
    ensures Sound(MarkIncomeReceived(db, income, key, due, account, amount, date, newId).value)
  {
    if !KeyUsed(db, key) {
      var t := PlainTx(Income, Or(amount, due.value.amount), account, None, Some(due.value.category), date,
        PlannedIncomePlan)
        .(occurrence := Some(key), plannedIncome := Some(income));
      assert BalanceOf(db, account) >= 0;
      AddKeepsSound(db, newId, t);
    }
  }

  lemma WithdrawKeepsSound(db: Db, g: Id, to: Id, amount: int, date: Date, newId: Id)
    requires Sound(db) && WithdrawFromGoal(db, g, to, amount, date, newId).Ok?
    ensures Sound(WithdrawFromGoal(db, g, to, amount, date, newId).value)
  {
    AddKeepsSound(db, newId, PlainTx(Transfer, amount, db.goals[g].linkedAccount, Some(to), None, date, Manual));
  }

  /** A contribution also never lifts the goal's account past its target. */
  lemma ContributeKeepsSound(db: Db, g: Id, from: Id, amount: int, date: Date, newId: Id)
    requires Sound(db) && ContributeToGoal(db, g, from, amount, date, newId).Ok?
    ensures Sound(ContributeToGoal(db, g, from, amount, date, newId).value)
    ensures BalanceOf(ContributeToGoal(db, g, from, amount, date, newId).value, db.goals[g].linkedAccount) <=
      db.goals[g].target
  {
    var linked := db.goals[g].linkedAccount;
    var t := PlainTx(Transfer, amount, from, Some(linked), None, date, GoalPlan).(goal := Some(g));
    AddKeepsSound(db, newId, t);
    BalanceAfterPut(db.accounts, db.transactions, newId, t, linked);
  }

  // ---- Planned events ----

  lemma TopUpKeepsSound(db: Db, input: EventInput, fundingId: Id)
    requires Sound(db) && input.event in db.events && EventTx(db, input).account in db.accounts
    requires TopUp(db, input, EventTx(db, input).amount - BalanceOf(db, EventTx(db, input).account), fundingId).Ok?
    ensures
      var funded := TopUp(db, input, EventTx(db, input).amount - BalanceOf(db, EventTx(db, input).account),
        fundingId).value;
      && Sound(funded)
      && funded == db.(transactions := funded.transactions)
      && BalanceOf(funded, EventTx(db, input).account) >= EventTx(db, input).amount
  {
    var t := EventTx(db, input);
    var shortfall := t.amount - BalanceOf(db, t.account);
    if shortfall > 0 {
      var transfer := PlainTx(Transfer, shortfall, input.topUp.value, Some(t.account), None, t.date, Manual)
        .(occurrence := Some(EventFunding(input.event)));
      AddKeepsSound(db, fundingId, transfer);
      BalanceAfterPut(db.accounts, db.transactions, fundingId, transfer, t.account);
    }
  }

  lemma EventPaymentKeepsSound(db: Db, paymentId: Id, t: Tx, e: Id, event: Event, goals: map<Id, Goal>)
    requires Sound(db) && e in db.events && db.events[e].paid.None? && paymentId !in db.transactions
    requires ValidTx(t) && t.kind == Expense && t.source == PlannedEventPlan
    requires t.plannedEvent == Some(e) && t.occurrence.None? && t.debtPayment.None?
    requires t.account in db.accounts && BalanceOf(db, t.account) >= t.amount && event.paid == Some(paymentId)
    ensures Sound(db.(transactions := db.transactions[paymentId := t], events := db.events[e := event], goals := goals))
  {
    var paid := db.(transactions := db.transactions[paymentId := t], events := db.events[e := event]);
    SolventAfterAdd(db, paymentId, t);
    PutEventRow(db, paymentId, t, e, event);
    SameBalances(db.(transactions := paid.transactions), paid);
    DebtsUnmoved(db, paid);
    GoalsDoNotMatter(paid, goals);
  }

  lemma SameBalances(db: Db, after: Db)
    requires Solvent(db) && after.accounts == db.accounts && after.transactions == db.transactions
    ensures Solvent(after)
  {
    forall a | a in after.accounts ensures BalanceOf(after, a) == BalanceOf(db, a) {}
  }

  lemma GoalsDoNotMatter(db: Db, goals: map<Id, Goal>)
    requires Sound(db)
    ensures Sound(db.(goals := goals))
  {
    SameBalances(db, db.(goals := goals));
    DebtsUnmoved(db, db.(goals := goals));
  }

  function PaidDb(funded: Db, input: EventInput, t: Tx, event: Event, paymentId: Id): Db {
    funded.(transactions := funded.transactions[paymentId := t],
            events := funded.events[input.event := event.(account := t.account, paid := Some(paymentId))],
            goals := UseGoal(funded, event, t.account == event.account, t.date))
  }

  lemma PayEventMeans(db: Db, input: EventInput, paymentId: Id, fundingId: Id) returns (funded: Db)
    requires input.event in db.events && PayEvent(db, input, paymentId, fundingId).Ok?
    ensures
      var event, t := db.events[input.event], EventTx(db, input);
      && t.account in db.accounts && ValidTx(t) && paymentId !in funded.transactions
      && TopUp(db, input, t.amount - BalanceOf(db, t.account), fundingId) == Ok(funded)
      && PayEvent(db, input, paymentId, fundingId) == Ok(PaidDb(funded, input, t, event, paymentId))
  {
    var t := EventTx(db, input);
    funded := TopUp(db, input, t.amount - BalanceOf(db, t.account), fundingId).value;
  }

  lemma FundedEventKeepsSound(db: Db, funded: Db, input: EventInput, paymentId: Id, fundingId: Id)
    requires Sound(db) && input.event in db.events && db.events[input.event].paid.None?
    requires EventTx(db, input).account in db.accounts && ValidTx(EventTx(db, input))
      && paymentId !in funded.transactions
    requires TopUp(db, input, EventTx(db, input).amount - BalanceOf(db, EventTx(db, input).account), fundingId) ==
      Ok(funded)
    ensures Sound(PaidDb(funded, input, EventTx(db, input), db.events[input.event], paymentId))
  {
    var event, t := db.events[input.event], EventTx(db, input);
    TopUpKeepsSound(db, input, fundingId);
    EventPaymentKeepsSound(funded, paymentId, t, input.event, event.(account := t.account, paid := Some(paymentId)),
      UseGoal(funded, event, t.account == event.account, t.date));
  }

  lemma PayEventKeepsSound(db: Db, input: EventInput, paymentId: Id, fundingId: Id)
    requires Sound(db) && input.event in db.events && db.events[input.event].paid.None?
    requires PayEvent(db, input, paymentId, fundingId).Ok?
    ensures Sound(PayEvent(db, input, paymentId, fundingId).value)
  {
    var funded := PayEventMeans(db, input, paymentId, fundingId);
    FundedEventKeepsSound(db, funded, input, paymentId, fundingId);
  }

  /** The link of an unpaid event is never taken, so paying it always records a new expense. */
  lemma UnpaidEventHasNoPayment(db: Db, e: Id, t: Id)
    requires EventsLinked(db) && e in db.events && db.events[e].paid.None? && t in db.transactions
    ensures !PaysEvent(db.transactions[t], e)
  {}

  lemma MarkEventPaidKeepsSound(db: Db, input: EventInput, paymentId: Id, fundingId: Id)
    requires Sound(db) && MarkEventPaid(db, input, paymentId, fundingId).Ok?
    ensures Sound(MarkEventPaid(db, input, paymentId, fundingId).value)
  {
    if db.events[input.event].paid.None? {
      forall t | t in db.transactions ensures !PaysEvent(db.transactions[t], input.event) {
        UnpaidEventHasNoPayment(db, input.event, t);
      }
      PayEventKeepsSound(db, input, paymentId, fundingId);
    }
  }

  lemma SavedEventLinks(db: Db, id: Id, event: Event)
    requires EventsLinked(db) && SaveEvent(db, id, event).Ok?
    ensures EventsLinked(db.(events := db.events[id := event])) <==>
      (event.paid.Some? || id !in db.events || db.events[id].paid.None?)
  {
    var after := db.(events := db.events[id := event]);
    if event.paid.None? && id in db.events && db.events[id].paid.Some? {
      assert after.transactions[db.events[id].paid.value].plannedEvent == Some(id);
    }
    if event.paid.Some? { assert db.transactions[event.paid.value].plannedEvent == Some(id); }
  }

  /** Saving an event keeps the links exactly when it does not drop the pointer to a paid transaction. */
  lemma SaveEventKeepsLinksIff(db: Db, id: Id, event: Event)
    requires Sound(db) && SaveEvent(db, id, event).Ok?
    ensures Sound(SaveEvent(db, id, event).value) <==>
      (event.paid.Some? || id !in db.events || db.events[id].paid.None?)
  {
    SavedEventLinks(db, id, event);
    SameBalances(db, SaveEvent(db, id, event).value);
    DebtsUnmoved(db, SaveEvent(db, id, event).value);
  }

  lemma DeleteEventKeepsSound(db: Db, id: Id)
    requires Sound(db) && DeleteEvent(db, id).Ok?
    ensures Sound(DeleteEvent(db, id).value)
  {
    var after := DeleteEvent(db, id).value;
    forall a | a in after.accounts ensures BalanceOf(after, a) == BalanceOf(db, a) {}
    DebtsUnmoved(db, after);
  }

  // ---- Debts ----

  lemma SumAfterPayment(db: Db, p: Id, payment: Payment, d: Id)
    requires p !in db.payments
    ensures PaidSum(db.(payments := db.payments[p := payment]), d) ==
      PaidSum(db, d) + if payment.debt == d then payment.amount else 0
  {
    TotalAfterPut(db.payments, PaidTo(d), p, payment);
  }

  /** The tables after a repayment, with its transaction when it is a personal one. */
  ghost function RepaidDb(db: Db, input: DebtInput, paymentId: Id, transaction: Option<Id>, t: Tx): Db
    requires input.debt in db.debts
  {
    db.(transactions := if transaction.Some? then db.transactions[transaction.value := t] else db.transactions,
        payments := db.payments[paymentId := Payment(input.debt, input.amount, transaction)],
        debts := if input.amount == Remaining(db, input.debt)
                 then db.debts[input.debt := db.debts[input.debt].(paid := true)] else db.debts)
  }

  lemma RepaymentKeepsDebts(db: Db, input: DebtInput, paymentId: Id, transaction: Option<Id>, t: Tx)
    requires DebtsRight(db) && input.debt in db.debts && 0 < input.amount <= Remaining(db, input.debt)
    requires paymentId !in db.payments
    ensures DebtsRight(RepaidDb(db, input, paymentId, transaction, t))
  {
    var after := RepaidDb(db, input, paymentId, transaction, t);
    forall d | d in after.debts
      ensures after.debts[d].original > 0 && PaidSum(after, d) <= after.debts[d].original
      ensures after.debts[d].paid <==> PaidSum(after, d) == after.debts[d].original
    {
      SumAfterPayment(db, paymentId, Payment(input.debt, input.amount, transaction), d);
      assert PaidSum(after, d) == PaidSum(db.(payments := after.payments), d);
    }
  }

  lemma LinkedWithoutDebts(db: Db, debts: map<Id, Debt>)
    requires Linked(db) && db.debts.Keys <= debts.Keys
    ensures Linked(db.(debts := debts))
  {}

  lemma RepaidKeepsLinks(db: Db, input: DebtInput, paymentId: Id, transaction: Option<Id>, t: Tx)
    requires Linked(db) && input.debt in db.debts && 0 < input.amount && paymentId !in db.payments
    requires transaction.Some? ==>
      && transaction.value !in db.transactions && RowShape(t) && t.debtPayment == Some(paymentId)
      && t.plannedEvent.None? && t.amount == input.amount
    ensures Linked(RepaidDb(db, input, paymentId, transaction, t))
  {
    var after := RepaidDb(db, input, paymentId, transaction, t);
    PutPayment(db, paymentId, Payment(input.debt, input.amount, transaction), t);
    LinkedWithoutDebts(db.(transactions := after.transactions, payments := after.payments), after.debts);
  }

  lemma ExternalRepaymentKeepsSound(db: Db, input: DebtInput, paymentId: Id, t: Tx)
    requires Sound(db) && input.debt in db.debts && 0 < input.amount <= Remaining(db, input.debt)
      && paymentId !in db.payments
    ensures Sound(RepaidDb(db, input, paymentId, None, t))
  {
    SameBalances(db, RepaidDb(db, input, paymentId, None, t));
    RepaymentKeepsDebts(db, input, paymentId, None, t);
    RepaidKeepsLinks(db, input, paymentId, None, t);
  }

  lemma PersonalRepaymentKeepsSound(db: Db, input: DebtInput, paymentId: Id, newId: Id, t: Tx)
    requires Sound(db) && input.debt in db.debts && 0 < input.amount <= Remaining(db, input.debt)
      && paymentId !in db.payments
    requires newId !in db.transactions && ValidTx(t) && t.kind == Expense && RowShape(t) && t.amount == input.amount
    requires t.debtPayment == Some(paymentId) && t.plannedEvent.None?
    requires t.account in db.accounts && BalanceOf(db, t.account) >= t.amount
    ensures Sound(RepaidDb(db, input, paymentId, Some(newId), t))
  {
    SolventAfterAdd(db, newId, t);
    SameBalances(db.(transactions := db.transactions[newId := t]), RepaidDb(db, input, paymentId, Some(newId), t));
    RepaymentKeepsDebts(db, input, paymentId, Some(newId), t);
    RepaidKeepsLinks(db, input, paymentId, Some(newId), t);
  }

  lemma PersonalMeans(db: Db, input: DebtInput, paymentId: Id, newId: Id)
    requires RecordDebtPayment(db, input, paymentId, newId).Ok? && input.personal
    ensures input.debt in db.debts && 0 < input.amount <= Remaining(db, input.debt) && paymentId !in db.payments
    ensures input.account.Some? && input.account.value in db.accounts
    ensures BalanceOf(db, input.account.value) >= input.amount && newId !in db.transactions
    ensures ValidTx(DebtTx(input, paymentId, input.account.value))
    ensures RecordDebtPayment(db, input, paymentId, newId) ==
      Ok(RepaidDb(db, input, paymentId, Some(newId), DebtTx(input, paymentId, input.account.value)))
  {}

  lemma RecordDebtPaymentKeepsSound(db: Db, input: DebtInput, paymentId: Id, newId: Id)
    requires Sound(db) && RecordDebtPayment(db, input, paymentId, newId).Ok?
    ensures Sound(RecordDebtPayment(db, input, paymentId, newId).value)
  {
    if input.personal {
      PersonalMeans(db, input, paymentId, newId);
      PersonalRepaymentKeepsSound(db, input, paymentId, newId, DebtTx(input, paymentId, input.account.value));
    } else {
      var t := PlainTx(Expense, 1, 0, None, None, 0, Manual);
      ExternalRepaymentKeepsSound(db, input, paymentId, t);
      assert RecordDebtPayment(db, input, paymentId, newId) == Ok(RepaidDb(db, input, paymentId, None, t));
    }
  }

  lemma SaveDebtKeepsSound(db: Db, id: Id, debt: Debt)
    requires Sound(db) && SaveDebt(db, id, debt).Ok?
    ensures Sound(SaveDebt(db, id, debt).value)
  {
    var after := SaveDebt(db, id, debt).value;
    forall a | a in after.accounts ensures BalanceOf(after, a) == BalanceOf(db, a) {}
    forall d | d in after.debts ensures PaidSum(after, d) == PaidSum(db, d) {}
  }

  lemma DeleteDebtKeepsSound(db: Db, id: Id)
    requires Sound(db) && DeleteDebt(db, id).Ok?
    ensures Sound(DeleteDebt(db, id).value)
  {
    var after := DeleteDebt(db, id).value;
    forall a | a in after.accounts ensures BalanceOf(after, a) == BalanceOf(db, a) {}
    forall d | d in after.debts ensures PaidSum(after, d) == PaidSum(db, d) {}
  }

  // ---- Deleting a transaction ----

  /** Only a commitment payment is ever relied on by a funding transfer. */
  lemma OnlyPaymentsAreFunded(transactions: Transactions, id: Id)
    requires FundingPaired(transactions) && UniqueIndexes(transactions) && id in transactions
    requires transactions[id].source != CommitmentPlan
    ensures !ReliedOn(transactions, id)
  {
    if transactions[id].occurrence.Some? {
      forall f | f in transactions
        ensures !HasKey(transactions[f], CommitmentFunding(transactions[id].occurrence.value))
      {
        assert FundingHasPayment(transactions, f);
      }
    }
  }

  lemma KeyedRowIsUnlinked(transactions: Transactions, f: Id, key: OccurrenceKey)
    requires RowsShaped(transactions) && f in transactions && HasKey(transactions[f], key) && !key.CommitmentKey?
    ensures Unlinked(transactions[f]) && transactions[f].source != CommitmentPlan
  {
    assert RowShape(transactions[f]);
  }

  /** Taking out a top-up or a funding transfer, when there is one. */
  lemma RemoveKeyedKeepsLinks(db: Db, key: OccurrenceKey)
    requires Linked(db) && !key.CommitmentKey?
    ensures Linked(RemoveTx(db, ByKey(db.transactions, key)))
    ensures forall t :: t in RemoveTx(db, ByKey(db.transactions, key)).transactions ==>
      !HasKey(db.transactions[t], key)
  {
    var found := ByKey(db.transactions, key);
    if found.Some? {
      KeyedRowIsUnlinked(db.transactions, found.value, key);
      OnlyPaymentsAreFunded(db.transactions, found.value);
      RemoveUnlinked(db, found.value);
    }
  }

  lemma DeletePlanPaymentKeepsLinks(db: Db, id: Id)
    requires Linked(db) && id in db.transactions && db.transactions[id].source == CommitmentPlan
    ensures Linked(RemoveTx(DropCommitmentFunding(db, db.transactions[id]), Some(id)))
  {
    var t := db.transactions[id];
    assert RowShape(t);
    var dropped := DropCommitmentFunding(db, t);
    RemoveKeyedKeepsLinks(db, CommitmentFunding(t.occurrence.value));
    assert id in dropped.transactions;
    RemoveUnlinked(dropped, id);
  }

  lemma DeletePlanPaymentKeepsDebts(db: Db, id: Id)
    requires DebtsRight(db) && id in db.transactions
    ensures DebtsRight(RemoveTx(DropCommitmentFunding(db, db.transactions[id]), Some(id)))
  {
    DebtsUnmoved(db, RemoveTx(DropCommitmentFunding(db, db.transactions[id]), Some(id)));
  }

  /** Event and row unlinked together, before the top-up goes. */
  function Unpaired(db: Db, id: Id, e: Id): Db
    requires e in db.events
  {
    db.(transactions := db.transactions - {id}, events := db.events[e := db.events[e].(paid := None)])
  }

  lemma EventDeleteMeans(db: Db, id: Id, e: Id)
    requires UniqueIndexes(db.transactions) && id in db.transactions && db.transactions[id].occurrence.None?
    requires db.transactions[id].plannedEvent == Some(e) && e in db.events && db.events[e].paid == Some(id)
    ensures
      var cleared := Unpaired(db, id, e);
      RemoveTx(DropEventLink(db, id, db.transactions[id]), Some(id)) ==
        RemoveTx(cleared, ByKey(cleared.transactions, EventFunding(e))).(goals := ReopenGoal(db, e))
  {
    SameRowByKey(db.transactions, id, EventFunding(e));
    var f := ByKey(db.transactions, EventFunding(e));
    if f.Some? { assert db.transactions - {f.value} - {id} == db.transactions - {id} - {f.value}; }
  }

  lemma DeleteEventPaymentKeepsLinks(db: Db, id: Id)
    requires Linked(db) && DebtsRight(db) && id in db.transactions && db.transactions[id].plannedEvent.Some?
    ensures Linked(RemoveTx(DropEventLink(db, id, db.transactions[id]), Some(id)))
    ensures DebtsRight(RemoveTx(DropEventLink(db, id, db.transactions[id]), Some(id)))
  {
    var e := db.transactions[id].plannedEvent.value;
    assert RowShape(db.transactions[id]);
    RemoveEventRow(db, id, e);
    EventDeleteMeans(db, id, e);
    RemoveKeyedKeepsLinks(Unpaired(db, id, e), EventFunding(e));
    LinkedWithoutGoals(RemoveTx(Unpaired(db, id, e), ByKey(Unpaired(db, id, e).transactions, EventFunding(e))),
      ReopenGoal(db, e));
    DebtsUnmoved(db, RemoveTx(DropEventLink(db, id, db.transactions[id]), Some(id)));
  }

  lemma LinkedWithoutGoals(db: Db, goals: map<Id, Goal>)
    requires Linked(db)
    ensures Linked(db.(goals := goals))
  {}

  /** A row without a key is not what a key names. */
  lemma SameRowByKey(transactions: Transactions, id: Id, key: OccurrenceKey)
    requires UniqueIndexes(transactions) && id in transactions && transactions[id].occurrence.None?
    ensures ByKey(transactions - {id}, key) == ByKey(transactions, key)
  {
    var a, b := ByKey(transactions - {id}, key), ByKey(transactions, key);
    if b.Some? { assert b.value in transactions - {id} && HasKey((transactions - {id})[b.value], key); }
    if a.Some? { assert HasKey(transactions[a.value], key); }
  }

  lemma DebtsAfterRemoval(db: Db, p: Id)
    requires DebtsRight(db) && p in db.payments && db.payments[p].debt in db.debts && db.payments[p].amount > 0
    ensures
      var d := db.payments[p].debt;
      var less := db.(payments := db.payments - {p});
      DebtsRight(less.(debts := db.debts[d := db.debts[d].(paid := Remaining(less, d) == 0)]))
  {
    var d := db.payments[p].debt;
    var less := db.(payments := db.payments - {p});
    var after := less.(debts := db.debts[d := db.debts[d].(paid := Remaining(less, d) == 0)]);
    forall o | o in after.debts
      ensures after.debts[o].original > 0 && PaidSum(after, o) <= after.debts[o].original
      ensures after.debts[o].paid <==> PaidSum(after, o) == after.debts[o].original
    {
      TotalAfterRemove(db.payments, PaidTo(o), p);
      assert PaidSum(after, o) == PaidSum(less, o);
    }
  }

  lemma DeleteRepaymentKeepsLinks(db: Db, id: Id)
    requires Linked(db) && DebtsRight(db) && id in db.transactions && db.transactions[id].debtPayment.Some?
    ensures
      var after := RemoveTx(DropRepayment(db, id, db.transactions[id]), Some(id));
      Linked(after) && DebtsRight(after)
  {
    var t := db.transactions[id];
    var p := t.debtPayment.value;
    RemovePayment(db, id, p);
    DebtsAfterRemoval(db, p);
    var after := RemoveTx(DropRepayment(db, id, t), Some(id));
    LinkedWithoutDebts(db.(transactions := after.transactions, payments := after.payments), after.debts);
    DebtsUnmoved(after.(transactions := db.transactions), after);
  }

  lemma DeletePlainKeepsLinks(db: Db, id: Id)
    requires Linked(db) && DebtsRight(db) && id in db.transactions && Unlinked(db.transactions[id])
    requires db.transactions[id].source != CommitmentPlan
    ensures Linked(RemoveTx(db, Some(id)))
    ensures DebtsRight(RemoveTx(db, Some(id)))
  {
    OnlyPaymentsAreFunded(db.transactions, id);
    RemoveUnlinked(db, id);
    DebtsUnmoved(db, RemoveTx(db, Some(id)));
  }

  /** A row has one kind of link, so only one of the three clean-ups does anything. */
  lemma DeleteCases(db: Db, id: Id)
    requires Linked(db) && id in db.transactions
    ensures
      var t := db.transactions[id];
      AfterDelete(db, id) ==
        if t.source == CommitmentPlan then RemoveTx(DropCommitmentFunding(db, t), Some(id))
        else if t.plannedEvent.Some? then RemoveTx(DropEventLink(db, id, t), Some(id))
        else if t.debtPayment.Some? then RemoveTx(DropRepayment(db, id, t), Some(id))
        else RemoveTx(db, Some(id))
  {
    assert RowShape(db.transactions[id]);
  }

  lemma RemovalsCompose(a: Db, b: Db, c: Db)
    requires OnlyRemoves(a, b) && OnlyRemoves(b, c)
    ensures OnlyRemoves(a, c)
  {}

  lemma DeleteOnlyRemoves(db: Db, id: Id)
    requires id in db.transactions
    ensures OnlyRemoves(db, AfterDelete(db, id))
  {
    var t := db.transactions[id];
    var funding := DropCommitmentFunding(db, t);
    var event := DropEventLink(funding, id, t);
    var repayment := DropRepayment(event, id, t);
    RemovalsCompose(db, funding, event);
    RemovalsCompose(db, event, repayment);
    RemovalsCompose(db, repayment, AfterDelete(db, id));
  }

  lemma DeleteKeepsLinks(db: Db, id: Id)
    requires Linked(db) && DebtsRight(db) && id in db.transactions
    ensures Linked(AfterDelete(db, id)) && DebtsRight(AfterDelete(db, id))
  {
    var t := db.transactions[id];
    DeleteCases(db, id);
    if t.source == CommitmentPlan {
      DeletePlanPaymentKeepsLinks(db, id);
      DeletePlanPaymentKeepsDebts(db, id);
    } else if t.plannedEvent.Some? {
      DeleteEventPaymentKeepsLinks(db, id);
    } else if t.debtPayment.Some? {
      DeleteRepaymentKeepsLinks(db, id);
    } else {
      DeletePlainKeepsLinks(db, id);
    }
  }

  lemma DeleteTransactionKeepsSound(db: Db, id: Id)
    requires Sound(db) && DeleteTransaction(db, id).Ok?
    ensures Sound(DeleteTransaction(db, id).value)
  {
    if id in db.transactions {
      DeleteKeepsLinks(db, id);
      DeleteOnlyRemoves(db, id);
    }
  }

  /** A funding transfer never goes alone: deleting it is refused as long as it exists. */
  lemma FundingIsNeverDeletedAlone(db: Db, id: Id)
    requires Sound(db) && id in db.transactions && IsFunding(db.transactions[id])
    ensures DeleteTransaction(db, id) == Err(FundedPayment)
  {
    assert FundingHasPayment(db.transactions, id);
    var key := db.transactions[id].occurrence.value.payment;
    var p :| p in db.transactions && Funds(db.transactions[id], db.transactions[p], key);
    assert HasKey(db.transactions[p], key);
  }

  // ---- Runs ----

  datatype Command =
    | PutAccount(id: Id, saved: Account)
    | DropAccount(id: Id, referenced: bool)
    | Adjust(newId: Id, account: Id, target: int, date: Date)
    | PutTransaction(id: Id, tx: Tx)
    | DropTransaction(id: Id)
    | PayPlan(input: CommitmentInput, plan: Option<Occurrence>, paymentId: Id, fundingId: Id)
    | Link(id: Id, plan: Option<Occurrence>, confirmMismatch: bool)
    | Unlink(id: Id)
    | ReceiveIncome(income: Id, key: OccurrenceKey, due: Option<Occurrence>, account: Id, received: Option<int>,
                    date: Date, newId: Id)
    | Withdraw(goal: Id, to: Id, amount: int, date: Date, newId: Id)
    | Contribute(goal: Id, from: Id, amount: int, date: Date, newId: Id)
    | PayPlannedEvent(payment: EventInput, paymentId: Id, fundingId: Id)
    | PutEvent(id: Id, planned: Event)
    | DropEvent(id: Id)
    | Repay(repayment: DebtInput, paymentId: Id, newId: Id)
    | PutDebt(id: Id, debt: Debt)
    | DropDebt(id: Id)
    | PutGoals(goals: map<Id, Goal>)
    | PutCategories(categories: map<Id, CategoryKind>)

  ghost function Execute(db: Db, c: Command): Outcome {
    match c
    case PutAccount(id, account) => SaveAccount(db, id, account)
    case DropAccount(id, referenced) => DeleteAccount(db, id, referenced)
    case Adjust(newId, account, target, date) => AdjustBalance(db, newId, account, target, date)
    case PutTransaction(id, tx) => SaveTransaction(db, id, tx)
    case DropTransaction(id) => DeleteTransaction(db, id)
    case PayPlan(input, plan, paymentId, fundingId) => MarkCommitmentPaid(db, input, plan, paymentId, fundingId)
    case Link(id, plan, confirmMismatch) => LinkTransaction(db, id, plan, confirmMismatch)
    case Unlink(id) => UnlinkPayment(db, id)
    case ReceiveIncome(income, key, due, account, amount, date, newId) =>
      MarkIncomeReceived(db, income, key, due, account, amount, date, newId)
    case Withdraw(goal, to, amount, date, newId) => WithdrawFromGoal(db, goal, to, amount, date, newId)
    case Contribute(goal, from, amount, date, newId) => ContributeToGoal(db, goal, from, amount, date, newId)
    case PayPlannedEvent(event, paymentId, fundingId) => MarkEventPaid(db, event, paymentId, fundingId)
    case PutEvent(id, event) => SaveEvent(db, id, event)
    case DropEvent(id) => DeleteEvent(db, id)
    case Repay(repayment, paymentId, newId) => RecordDebtPayment(db, repayment, paymentId, newId)
    case PutDebt(id, debt) => SaveDebt(db, id, debt)
    case DropDebt(id) => DeleteDebt(db, id)
    case PutGoals(goals) => Ok(db.(goals := goals))
    case PutCategories(categories) => Ok(db.(categories := categories))
  }

  const EMPTY := Db(map[], map[], map[], map[], map[], map[], map[])

  /** A command that throws changes nothing. */
  ghost function Run(commands: seq<Command>): Db {
    if commands == [] then EMPTY
    else
      var db := Run(commands[..|commands| - 1]);
      match Execute(db, commands[|commands| - 1])
      case Err(_) => db
      case Ok(after) => after
  }

  /** An event save that does not drop the pointer to its paid transaction. */
  predicate KeepsPointer(db: Db, c: Command) {
    c.PutEvent? ==> c.planned.paid.Some? || c.id !in db.events || db.events[c.id].paid.None?
  }

  ghost predicate KeepsPointers(commands: seq<Command>) {
    commands == []
    || (KeepsPointers(commands[..|commands| - 1])
        && KeepsPointer(Run(commands[..|commands| - 1]), commands[|commands| - 1]))
  }

  lemma CategoriesDoNotMatter(db: Db, categories: map<Id, CategoryKind>)
    requires Sound(db)
    ensures Sound(db.(categories := categories))
  {
    SameBalances(db, db.(categories := categories));
    DebtsUnmoved(db, db.(categories := categories));
  }

  lemma CommandKeepsSound(db: Db, c: Command)
    requires Sound(db) && KeepsPointer(db, c) && Execute(db, c).Ok?
    ensures Sound(Execute(db, c).value)
  {
    match c {
      case PutAccount(id, account) => SaveAccountKeepsSound(db, id, account);
      case DropAccount(id, referenced) => DeleteAccountKeepsSound(db, id, referenced);
      case Adjust(newId, account, target, date) => AdjustKeepsSound(db, newId, account, target, date);
      case PutTransaction(id, tx) => SaveTransactionKeepsSound(db, id, tx);
      case DropTransaction(id) => DeleteTransactionKeepsSound(db, id);
      case PayPlan(input, plan, paymentId, fundingId) =>
        MarkCommitmentPaidKeepsSound(db, input, plan, paymentId, fundingId);
      case Link(id, plan, confirmMismatch) => LinkKeepsSound(db, id, plan, confirmMismatch);
      case Unlink(id) => UnlinkKeepsSound(db, id);
      case ReceiveIncome(income, key, due, account, amount, date, newId) =>
        IncomeKeepsSound(db, income, key, due, account, amount, date, newId);
      case Withdraw(goal, to, amount, date, newId) => WithdrawKeepsSound(db, goal, to, amount, date, newId);
      case Contribute(goal, from, amount, date, newId) => ContributeKeepsSound(db, goal, from, amount, date, newId);
      case PayPlannedEvent(event, paymentId, fundingId) => MarkEventPaidKeepsSound(db, event, paymentId, fundingId);
      case PutEvent(id, event) => SaveEventKeepsLinksIff(db, id, event);
      case DropEvent(id) => DeleteEventKeepsSound(db, id);
      case Repay(repayment, paymentId, newId) => RecordDebtPaymentKeepsSound(db, repayment, paymentId, newId);
      case PutDebt(id, debt) => SaveDebtKeepsSound(db, id, debt);
      case DropDebt(id) => DeleteDebtKeepsSound(db, id);
      case PutGoals(goals) => GoalsDoNotMatter(db, goals);
      case PutCategories(categories) => CategoriesDoNotMatter(db, categories);
    }
  }

  lemma EmptyIsSound()
    ensures Sound(EMPTY)
  {}

  /**
   * Every state reachable from an empty database: no balance is negative, the cash ledger
   * reconciles without a difference, and every cross-link holds.
   */
  lemma {:induction false} ReachableIsSound(commands: seq<Command>)
    requires KeepsPointers(commands)
    ensures
      var db := Run(commands);
      && Sound(db)
      && (forall a :: a in db.accounts ==> BalanceOf(db, a) >= 0)
      && Reconcile(db.accounts, db.transactions).difference == 0
    decreases |commands|
  {
    if commands == [] {
      EmptyIsSound();
    } else {
      var n := |commands| - 1;
      ReachableIsSound(commands[..n]);
      if Execute(Run(commands[..n]), commands[n]).Ok? { CommandKeepsSound(Run(commands[..n]), commands[n]); }
    }
    ReferentialReconciles(Run(commands).accounts, Run(commands).transactions);
  }
}
