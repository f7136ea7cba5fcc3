/**
 * What the commands that edit single rows accept, store and change
 * (src/db/commands.ts, 75-358, 376-609, 733-858, 921-970 and 1036-1057), in rows and balances.
 */
module CommandEffects {
  import opened Wrappers
  import opened Sums
  import opened Ledger
  import opened FinanceDb
  import opened Commands
  import opened RoundTrips

  // ---- One row changes ----

  /** The table holds the row under its id, and every other row as before. */
  predicate Holds<T(==)>(before: map<Id, T>, after: map<Id, T>, id: Id, row: T) {
    && id in after && after[id] == row
    && after.Keys == before.Keys + {id}
    && forall k :: k in before && k != id ==> after[k] == before[k]
  }

  /** The table has lost the row, and holds every other row as before. */
  predicate Lacks<T(==)>(before: map<Id, T>, after: map<Id, T>, id: Id) {
    && id !in after
    && after.Keys == before.Keys - {id}
    && forall k :: k in after ==> after[k] == before[k]
  }

  predicate OnlyTransactionsDiffer(db: Db, after: Db) { after == db.(transactions := after.transactions) }

  // ---- Manual transactions ----

  /** What a row moves on an account, or nothing if there is no such row. */
  function EffectOfRow(db: Db, id: Id, a: Id): int {
    if id in db.transactions then Effect(db.transactions[id], a) else 0
  }

  /** The row is a person's own entry on known accounts, under a category of its own kind. */
  predicate Enterable(db: Db, t: Tx) {
    && ValidTx(t) && Independent(t)
    && t.account in db.accounts && (t.toAccount.Some? ==> t.toAccount.value in db.accounts)
    && (t.category.Some? && (t.kind == Income || t.kind == Expense) ==>
          t.category.value in db.categories
          && db.categories[t.category.value] == if t.kind == Income then ForIncome else ForExpense)
  }

  predicate NamedBy(db: Db, id: Id, t: Tx, a: Id) {
    || a == t.account || t.toAccount == Some(a)
    || (id in db.transactions && (a == db.transactions[id].account || db.transactions[id].toAccount == Some(a)))
  }

  /**
   * A transaction is saved if and only if it may be entered, does not replace a linked row, and no account
   * that the old or the new row names would fall below zero once the old row's effect is taken back and the
   * new one's added.
   */
  lemma SaveTransactionIff(db: Db, id: Id, t: Tx)
    ensures SaveTransaction(db, id, t).Ok? <==>
      && Enterable(db, t) && (id in db.transactions ==> Independent(db.transactions[id]))
      && forall a :: a in db.accounts && NamedBy(db, id, t, a) ==>
           BalanceOf(db, a) - EffectOfRow(db, id, a) + Effect(t, a) >= 0
  {
    forall a | a in db.accounts
      ensures BalanceOf(db.(transactions := db.transactions[id := t]), a) ==
        BalanceOf(db, a) - EffectOfRow(db, id, a) + Effect(t, a)
    {
      BalanceAfterPut(db.accounts, db.transactions, id, t, a);
    }
  }

  /** The saved row stands in the table, nothing else differs, and balances move by the two rows' effects. */
  lemma SavedTransactionStands(db: Db, id: Id, t: Tx)
    requires SaveTransaction(db, id, t).Ok?
    ensures
      var after := SaveTransaction(db, id, t).value;
      && OnlyTransactionsDiffer(db, after) && Holds(db.transactions, after.transactions, id, t)
      && forall a :: a in db.accounts ==>
           BalanceOf(after, a) == BalanceOf(db, a) - EffectOfRow(db, id, a) + Effect(t, a)
  {
    var after := SaveTransaction(db, id, t).value;
    forall a | a in db.accounts
      ensures BalanceOf(after, a) == BalanceOf(db, a) - EffectOfRow(db, id, a) + Effect(t, a)
    {
      BalanceAfterPut(db.accounts, db.transactions, id, t, a);
    }
  }

  /** A new entry that is deleted again, in any solvent tables, leaves them as they were. */
  lemma SaveThenDelete(db: Db, id: Id, t: Tx)
    requires Solvent(db) && id !in db.transactions && SaveTransaction(db, id, t).Ok?
    ensures DeleteTransaction(SaveTransaction(db, id, t).value, id) == Ok(db)
  {
    var saved := SaveTransaction(db, id, t).value;
    assert saved.transactions - {id} == db.transactions;
    UndoneIs(saved, id, db);
  }

  /** Deleting an entry without links takes that row alone, and gives back what it moved. */
  lemma PlainDeletionTakesOneRow(db: Db, id: Id)
    requires id in db.transactions && Independent(db.transactions[id])
    ensures DeleteTransaction(db, id).Ok? <==>
      forall a :: a in db.accounts ==> BalanceOf(db, a) - Effect(db.transactions[id], a) >= 0
    ensures DeleteTransaction(db, id).Ok? ==>
      var after := DeleteTransaction(db, id).value;
      && OnlyTransactionsDiffer(db, after) && Lacks(db.transactions, after.transactions, id)
      && forall a :: a in db.accounts ==> BalanceOf(after, a) == BalanceOf(db, a) - Effect(db.transactions[id], a)
  {
    var after := db.(transactions := db.transactions - {id});
    assert AfterDelete(db, id) == after;
    forall a | a in db.accounts ensures BalanceOf(after, a) == BalanceOf(db, a) - Effect(db.transactions[id], a) {
      TotalAfterRemove(db.transactions, EffectOn(a), id);
    }
  }

  // ---- Accounts ----

  /**
   * A saved account stands in the table with a balance moved by its opening amount alone; whether it is
   * savings changes only while no transaction and no goal names it.
   */
  lemma SavedAccountStands(db: Db, id: Id, account: Account)
    requires SaveAccount(db, id, account).Ok?
    ensures
      var after := SaveAccount(db, id, account).value;
      && after == db.(accounts := after.accounts) && Holds(db.accounts, after.accounts, id, account)
      && (forall a :: a in db.accounts && a != id ==> BalanceOf(after, a) == BalanceOf(db, a))
      && (id in db.accounts ==>
            && BalanceOf(after, id) == BalanceOf(db, id) + account.opening - db.accounts[id].opening
            && (account.isProtected == db.accounts[id].isProtected
                || ((forall t :: t in db.transactions ==> !Touches(db.transactions[t], id))
                    && forall g :: g in db.goals ==> db.goals[g].linkedAccount != id)))
  {
    if id in db.accounts && !HasHistory(db, id) {
      forall t | t in db.transactions ensures !Touches(db.transactions[t], id) {}
    }
  }

  /** A deleted account is gone alone, and no transaction, goal or event that stays names it. */
  lemma DeletedAccountIsUnnamed(db: Db, id: Id, referenced: bool)
    requires DeleteAccount(db, id, referenced).Ok?
    ensures
      var after := DeleteAccount(db, id, referenced).value;
      && after == db.(accounts := after.accounts) && Lacks(db.accounts, after.accounts, id) && !referenced
      && (forall t :: t in after.transactions ==> !Touches(after.transactions[t], id))
      && (forall g :: g in after.goals ==> after.goals[g].linkedAccount != id)
      && forall e :: e in after.events ==> after.events[e].account != id
  {
    var after := DeleteAccount(db, id, referenced).value;
    forall t | t in after.transactions ensures !Touches(after.transactions[t], id) {}
  }

  /** An adjustment brings one account to its target and moves no other. */
  lemma AdjustmentMovesOne(db: Db, newId: Id, a: Id, target: int, date: Date)
    requires AdjustBalance(db, newId, a, target, date).Ok?
    ensures
      var after := AdjustBalance(db, newId, a, target, date).value;
      && a in db.accounts && target >= 0 && OnlyTransactionsDiffer(db, after)
      && BalanceOf(after, a) == target
      && (forall b :: b in db.accounts && b != a ==> BalanceOf(after, b) == BalanceOf(db, b))
      && (after == db <==> target == BalanceOf(db, a))
  {
    if target != BalanceOf(db, a) {
      AddMoves(db, newId, PlainTx(Adjustment, target - BalanceOf(db, a), a, None, None, date, AdjustmentEntry));
    }
  }

  // ---- Plans ----

  /** An income arrives once: on its account, in the amount given or else planned. */
  lemma IncomeArrivesOnce(db: Db, income: Id, key: OccurrenceKey, due: Option<Occurrence>, account: Id,
                          amount: Option<int>, date: Date, newId: Id)
    requires MarkIncomeReceived(db, income, key, due, account, amount, date, newId).Ok?
    ensures
      var after := MarkIncomeReceived(db, income, key, due, account, amount, date, newId).value;
      && KeyUsed(after, key) && (KeyUsed(db, key) <==> after == db)
      && (!KeyUsed(db, key) ==>
            && due.Some? && account in db.accounts && OnlyTransactionsDiffer(db, after)
            && var arrived := if amount.Some? then amount.value else due.value.amount;
               forall a :: a in db.accounts ==>
                 BalanceOf(after, a) == BalanceOf(db, a) + if a == account then arrived else 0)
  {
    if !KeyUsed(db, key) {
      var after := MarkIncomeReceived(db, income, key, due, account, amount, date, newId).value;
      AddMoves(db, newId, after.transactions[newId]);
      assert HasKey(after.transactions[newId], key);
    }
  }

  /** Linking changes no balance: an entry already made becomes the payment of the occurrence, under its key. */
  lemma LinkedEntryPays(db: Db, id: Id, plan: Option<Occurrence>, confirmMismatch: bool)
    requires LinkTransaction(db, id, plan, confirmMismatch).Ok?
    ensures
      var after := LinkTransaction(db, id, plan, confirmMismatch).value;
      && plan.Some? && !KeyUsed(db, plan.value.key) && KeyUsed(after, plan.value.key)
      && id in db.transactions && (db.transactions[id].amount == plan.value.amount || confirmMismatch)
      && OnlyTransactionsDiffer(db, after)
      && Holds(db.transactions, after.transactions, id,
               db.transactions[id].(source := CommitmentPlan, occurrence := Some(plan.value.key)))
      && forall a :: a in db.accounts ==> BalanceOf(after, a) == BalanceOf(db, a)
  {
    var after := LinkTransaction(db, id, plan, confirmMismatch).value;
    assert HasKey(after.transactions[id], plan.value.key);
    forall a | a in db.accounts ensures BalanceOf(after, a) == BalanceOf(db, a) {
      BalanceAfterPut(db.accounts, db.transactions, id, after.transactions[id], a);
    }
  }

  /** A saved event stands, and one that is paid keeps its account and goal, and a payment that names it. */
  lemma SavedEventStands(db: Db, id: Id, event: Event)
    requires SaveEvent(db, id, event).Ok?
    ensures
      var after := SaveEvent(db, id, event).value;
      && after == db.(events := after.events) && Holds(db.events, after.events, id, event)
      && event.account in db.accounts && event.plannedAmount >= 0
      && event.category in db.categories && db.categories[event.category] == ForExpense
      && (id in db.events && db.events[id].paid.Some? ==>
            event.account == db.events[id].account && event.linkedGoal == db.events[id].linkedGoal)
      && (event.paid.Some? ==>
            event.paid.value in db.transactions && db.transactions[event.paid.value].plannedEvent == Some(id)
            && db.transactions[event.paid.value].kind == Expense)
  {}

  /** A debt is stored with the status its payments give it: paid exactly when nothing of it remains. */
  lemma SavedDebtStands(db: Db, id: Id, debt: Debt)
    ensures SaveDebt(db, id, debt).Ok? <==>
      debt.original > 0 && PaidSum(db, id) <= debt.original && (debt.paid <==> PaidSum(db, id) == debt.original)
    ensures SaveDebt(db, id, debt).Ok? ==>
      var after := SaveDebt(db, id, debt).value;
      && after == db.(debts := after.debts) && Holds(db.debts, after.debts, id, debt)
      && (debt.paid <==> Remaining(after, id) == 0)
  {}

  /** An event is deleted while it is unpaid, a debt while it has no payments, and each goes alone. */
  lemma UnusedPlansGo(db: Db, id: Id)
    ensures DeleteEvent(db, id).Ok? <==> !(id in db.events && db.events[id].paid.Some?)
    ensures DeleteEvent(db, id).Ok? ==>
      var after := DeleteEvent(db, id).value;
      after == db.(events := after.events) && Lacks(db.events, after.events, id)
    ensures DeleteDebt(db, id).Ok? <==> forall p :: p in db.payments ==> db.payments[p].debt != id
    ensures DeleteDebt(db, id).Ok? ==>
      var after := DeleteDebt(db, id).value;
      after == db.(debts := after.debts) && Lacks(db.debts, after.debts, id)
  {}

  // ---- When money moves ----

  predicate Spendable(db: Db, a: Id) { a in db.accounts && !db.accounts[a].isProtected }

  predicate Savings(db: Db, a: Id) { a in db.accounts && db.accounts[a].isProtected }

  /** A contribution is taken exactly when its account can give it and it keeps the goal within its target. */
  lemma ContributionTakenIff(db: Db, g: Id, from: Id, amount: int, date: Date, newId: Id)
    ensures ContributeToGoal(db, g, from, amount, date, newId).Ok? <==>
      && g in db.goals && !db.goals[g].archived && !(db.goals[g].sinking && db.goals[g].usedAt.Some?)
      && Spendable(db, from) && Savings(db, db.goals[g].linkedAccount)
      && 0 < amount <= BalanceOf(db, from) && newId !in db.transactions
      && amount <= db.goals[g].target && BalanceOf(db, db.goals[g].linkedAccount) + amount <= db.goals[g].target
  {}

  /** A withdrawal is taken exactly when the savings of an open goal hold it, both accounts being in use. */
  lemma WithdrawalTakenIff(db: Db, g: Id, to: Id, amount: int, date: Date, newId: Id)
    ensures WithdrawFromGoal(db, g, to, amount, date, newId).Ok? <==>
      && g in db.goals && !db.goals[g].archived && db.goals[g].usedAt.None?
      && Savings(db, db.goals[g].linkedAccount) && !db.accounts[db.goals[g].linkedAccount].archived
      && Spendable(db, to) && !db.accounts[to].archived
      && 0 < amount <= BalanceOf(db, db.goals[g].linkedAccount) && newId !in db.transactions
  {}

  /** A repayment is taken exactly when the debt still owes it and, if personal, an account can give it. */
  lemma RepaymentTakenIff(db: Db, input: DebtInput, paymentId: Id, newId: Id)
    requires PaymentsLinked(db)
    ensures RecordDebtPayment(db, input, paymentId, newId).Ok? <==>
      && input.debt in db.debts && 0 < input.amount && paymentId !in db.payments
      && PaidSum(db, input.debt) + input.amount <= db.debts[input.debt].original
      && (input.personal ==>
            && input.account.Some? && input.account.value in db.accounts
            && input.category.Some? && input.category.value in db.categories
            && db.categories[input.category.value] == ForExpense
            && input.amount <= BalanceOf(db, input.account.value) && newId !in db.transactions)
  {}

  /** What a commitment's own account and its savings must hold, and which rows must still be free. */
  ghost predicate CanPay(db: Db, input: CommitmentInput, account: Id, amount: int, paymentId: Id, fundingId: Id)
    requires account in db.accounts
  {
    && 0 < amount && paymentId !in db.transactions
    && match input.funding
       case None => amount <= BalanceOf(db, account)
       case Some(source) =>
         && source in db.accounts && db.accounts[source].isProtected && !db.accounts[source].archived
         && !db.accounts[account].isProtected && amount <= BalanceOf(db, source)
         && fundingId !in db.transactions && fundingId != paymentId
  }

  lemma FreshRowAdds(db: Db, id: Id, t: Tx, key: OccurrenceKey)
    requires t.occurrence == Some(key) && !KeyUsed(db, key) && t.plannedEvent.None? && ValidTx(t)
    ensures AddTx(db, id, t).Ok? <==> id !in db.transactions
  {}

  lemma PlainPaymentIff(db: Db, input: CommitmentInput, paymentId: Id, fundingId: Id)
    requires input.funding.None? && PaymentTx(input).account in db.accounts && !KeyUsed(db, input.key)
    ensures PayCommitment(db, input, paymentId, fundingId).Ok? <==>
      CanPay(db, input, PaymentTx(input).account, PaymentTx(input).amount, paymentId, fundingId)
  {
    if ValidTx(PaymentTx(input)) { FreshRowAdds(db, paymentId, PaymentTx(input), input.key); }
  }

  /** Once the transfer is in, the account holds enough, and the payment's key is still free. */
  lemma FundedAccountPays(db: Db, input: CommitmentInput, funding: Tx, paymentId: Id, fundingId: Id)
    requires input.funding.Some? && funding == FundingTx(input, input.funding.value)
    requires PaymentTx(input).account in db.accounts && BalanceOf(db, PaymentTx(input).account) >= 0
    requires input.funding.value != PaymentTx(input).account && ValidTx(PaymentTx(input))
    requires !KeyUsed(db, input.key) && AddTx(db, fundingId, funding).Ok?
    ensures
      var funded := AddTx(db, fundingId, funding).value;
      && FundsError(funded, PaymentTx(input).account, PaymentTx(input).amount).None?
      && (AddTx(funded, paymentId, PaymentTx(input)).Ok? <==> paymentId !in db.transactions && paymentId != fundingId)
  {
    var funded := AddTx(db, fundingId, funding).value;
    BalanceAfterPut(db.accounts, db.transactions, fundingId, funding, PaymentTx(input).account);
    forall t | t in funded.transactions ensures !HasKey(funded.transactions[t], input.key) {
      if t != fundingId { assert funded.transactions[t] == db.transactions[t]; }
    }
    FreshRowAdds(funded, paymentId, PaymentTx(input), input.key);
  }

  lemma FundedPaymentIff(db: Db, input: CommitmentInput, paymentId: Id, fundingId: Id)
    requires input.funding.Some? && PaymentTx(input).account in db.accounts
    requires BalanceOf(db, PaymentTx(input).account) >= 0
    requires !KeyUsed(db, input.key) && !KeyUsed(db, CommitmentFunding(input.key))
    ensures PayCommitment(db, input, paymentId, fundingId).Ok? <==>
      CanPay(db, input, PaymentTx(input).account, PaymentTx(input).amount, paymentId, fundingId)
  {
    var source, account := input.funding.value, PaymentTx(input).account;
    if ValidTx(PaymentTx(input)) && source in db.accounts && source != account {
      var funding := FundingTx(input, source);
      FreshRowAdds(db, fundingId, funding, CommitmentFunding(input.key));
      if AddTx(db, fundingId, funding).Ok? { FundedAccountPays(db, input, funding, paymentId, fundingId); }
    }
  }

  /** A commitment not paid yet is paid exactly when it is still as planned and the money is there. */
  lemma CommitmentPaidIff(db: Db, input: CommitmentInput, plan: Option<Occurrence>, paymentId: Id, fundingId: Id)
    requires Sound(db) && !KeyUsed(db, input.key)
    ensures
      var account := if input.paymentAccount.Some? then input.paymentAccount.value else input.account;
      var amount := if input.actualAmount.Some? then input.actualAmount.value else input.amount;
      MarkCommitmentPaid(db, input, plan, paymentId, fundingId).Ok? <==>
        && input.key.CommitmentKey?
        && plan == Some(Occurrence(input.key, input.amount, input.account, input.category))
        && account in db.accounts && !db.accounts[account].archived
        && input.category in db.categories && db.categories[input.category] == ForExpense
        && CanPay(db, input, account, amount, paymentId, fundingId)
  {
    if PaymentTx(input).account in db.accounts {
      UnusedKeyHasNoFunding(db, input.key);
      if input.funding.None? { PlainPaymentIff(db, input, paymentId, fundingId); }
      else { FundedPaymentIff(db, input, paymentId, fundingId); }
    }
  }

  /** What an event's account is short of, and who may bring it. */
  ghost predicate CanCover(db: Db, input: EventInput, account: Id, shortfall: int, paymentId: Id, fundingId: Id)
    requires account in db.accounts
  {
    shortfall <= 0
    || (&& Savings(db, account) && input.topUp.Some? && Spendable(db, input.topUp.value)
        && shortfall <= BalanceOf(db, input.topUp.value)
        && !KeyUsed(db, EventFunding(input.event)) && fundingId !in db.transactions && fundingId != paymentId)
  }

  lemma TopUpIff(db: Db, input: EventInput, shortfall: int, paymentId: Id, fundingId: Id)
    requires input.event in db.events && EventTx(db, input).account in db.accounts && fundingId != paymentId
    ensures TopUp(db, input, shortfall, fundingId).Ok? <==>
      CanCover(db, input, EventTx(db, input).account, shortfall, paymentId, fundingId)
    ensures TopUp(db, input, shortfall, fundingId).Ok? ==>
      var funded := TopUp(db, input, shortfall, fundingId).value;
      && (forall t :: t in db.transactions ==> t in funded.transactions && funded.transactions[t] == db.transactions[t])
      && (forall t :: t in funded.transactions && t !in db.transactions ==>
           t == fundingId && funded.transactions[t].plannedEvent.None?)
  {}

  /** An unpaid event that no transaction names is paid as planned. */
  lemma UnpaidIsPaid(db: Db, input: EventInput, paymentId: Id, fundingId: Id)
    requires EventsLinked(db) && input.event in db.events && db.events[input.event].paid.None?
    ensures MarkEventPaid(db, input, paymentId, fundingId) == PayEvent(db, input, paymentId, fundingId)
  {
    assert forall x :: x in db.transactions ==> !PaysEvent(db.transactions[x], input.event);
  }

  lemma EventRowAdds(db: Db, id: Id, t: Tx, e: Id)
    requires t.plannedEvent == Some(e) && t.occurrence.None? && t.kind == Expense
    requires forall x :: x in db.transactions ==> db.transactions[x].plannedEvent != Some(e)
    ensures AddTx(db, id, t).Ok? <==> t.amount > 0 && id !in db.transactions
  {}

  lemma PayEventIff(db: Db, input: EventInput, paymentId: Id, fundingId: Id)
    requires EventsLinked(db) && input.event in db.events && db.events[input.event].paid.None?
    requires fundingId != paymentId
    ensures
      var event, t := db.events[input.event], EventTx(db, input);
      PayEvent(db, input, paymentId, fundingId).Ok? <==>
        && event.plannedAmount > 0 && t.amount > 0 && paymentId !in db.transactions && t.account in db.accounts
        && event.category in db.categories && db.categories[event.category] == ForExpense
        && CanCover(db, input, t.account, t.amount - BalanceOf(db, t.account), paymentId, fundingId)
  {
    var t := EventTx(db, input);
    if t.account in db.accounts {
      var shortfall := t.amount - BalanceOf(db, t.account);
      TopUpIff(db, input, shortfall, paymentId, fundingId);
      if TopUp(db, input, shortfall, fundingId).Ok? {
        EventRowAdds(TopUp(db, input, shortfall, fundingId).value, paymentId, t, input.event);
      }
    }
  }

  /** An event not paid yet is paid exactly when its plan still stands and the money is there, or can be brought. */
  lemma EventPaidIff(db: Db, input: EventInput, paymentId: Id, fundingId: Id)
    requires Sound(db) && input.event in db.events && db.events[input.event].paid.None? && fundingId != paymentId
    ensures
      var event := db.events[input.event];
      var account := if input.account.Some? then input.account.value else event.account;
      var amount := if input.amount.Some? then input.amount.value else event.plannedAmount;
      MarkEventPaid(db, input, paymentId, fundingId).Ok? <==>
        && event.plannedAmount > 0 && amount > 0 && paymentId !in db.transactions && account in db.accounts
        && event.category in db.categories && db.categories[event.category] == ForExpense
        && CanCover(db, input, account, amount - BalanceOf(db, account), paymentId, fundingId)
  {
    UnpaidIsPaid(db, input, paymentId, fundingId);
    PayEventIff(db, input, paymentId, fundingId);
  }

  /** An income not received yet is received exactly when the plan has it, on a known account. */
  lemma IncomeReceivedIff(db: Db, income: Id, key: OccurrenceKey, due: Option<Occurrence>, account: Id,
                          amount: Option<int>, date: Date, newId: Id)
    requires !KeyUsed(db, key)
    ensures MarkIncomeReceived(db, income, key, due, account, amount, date, newId).Ok? <==>
      && due.Some? && due.value.key == key && key.IncomeKey? && key.income == income && account in db.accounts
      && due.value.category in db.categories && db.categories[due.value.category] == ForIncome
      && newId !in db.transactions && 0 < (if amount.Some? then amount.value else due.value.amount)
  {}
}
