/**
 * The commands of src/db/commands.ts over mutable tables: each reads, checks and then
 * writes row by row in one transaction, and restores the tables when it throws.
 */
module FinanceCommands {
  import opened Wrappers
  import opened Sums
  import opened Ledger
  import opened FinanceDb
  import opened Commands

  /** Committed with the outcome's tables, or thrown with the tables as they were. */
  predicate Ends(error: Option<CommandError>, outcome: Outcome, before: Db, now: Db) {
    match outcome
    case Ok(after) => error.None? && now == after
    case Err(e) => error == Some(e) && now == before
  }

  class FinanceDatabase {
    var accounts: Accounts
    var transactions: Transactions
    var events: map<Id, Event>
    var goals: map<Id, Goal>
    var debts: map<Id, Debt>
    var payments: map<Id, Payment>
    var categories: map<Id, CategoryKind>

    constructor ()
      ensures View() == Db(map[], map[], map[], map[], map[], map[], map[])
    {
      accounts, transactions, events, goals := map[], map[], map[], map[];
      debts, payments, categories := map[], map[], map[];
    }

    function View(): Db
      reads this
    {
      Db(accounts, transactions, events, goals, debts, payments, categories)
    }

    method RequireAvailableFunds(a: Id, amount: int) returns (error: Option<CommandError>)
      ensures error == FundsError(View(), a, amount)
    {
      if a !in accounts { return Some(UnknownAccount); }
      var balances := CalculateAccountBalances(accounts, transactions);
      error := if balances[a] < amount then Some(InsufficientFunds) else None;
    }

    method AddTransaction(id: Id, t: Tx) returns (error: Option<CommandError>)
      modifies this`transactions
      ensures Ends(error, AddTx(old(View()), id, t),
        old(View()), View())
    {
      if !ValidTx(t) { return Some(InvalidTransaction); }
      if !CanAdd(View(), id, t) { return Some(DuplicateKey); }
      transactions := transactions[id := t];
      error := None;
    }

    method SaveAccount(id: Id, account: Account) returns (error: Option<CommandError>)
      modifies this`accounts
      ensures Ends(error, Commands.SaveAccount(old(View()), id, account),
        old(View()), View())
    {
      if account.opening < 0 { return Some(NegativeBalance); }
      if id in accounts && accounts[id].isProtected != account.isProtected
         && (HasHistory(View(), id) || exists g :: g in goals && goals[g].linkedAccount == id) {
        return Some(PurposeLocked);
      }
      var balances := CalculateAccountBalances(map[id := account], transactions);
      if balances[id] < 0 { return Some(NegativeBalance); }
      accounts := accounts[id := account];
      error := None;
    }

    method DeleteAccount(id: Id, referenced: bool) returns (error: Option<CommandError>)
      modifies this`accounts
      ensures Ends(error, Commands.DeleteAccount(old(View()), id, referenced),
        old(View()), View())
    {
      if referenced || HasHistory(View(), id)
         || (exists g :: g in goals && goals[g].linkedAccount == id)
         || (exists e :: e in events && events[e].account == id) {
        return Some(AccountInUse);
      }
      accounts := accounts - {id};
      error := None;
    }

    method AdjustAccountBalance(newId: Id, a: Id, target: int, date: Date) returns (error: Option<CommandError>)
      modifies this`transactions
      ensures Ends(error, AdjustBalance(old(View()), newId, a, target, date),
        old(View()), View())
    {
      if target < 0 { return Some(NegativeBalance); }
      if a !in accounts { return Some(UnknownAccount); }
      var balances := CalculateAccountBalances(accounts, transactions);
      var delta := target - balances[a];
      if delta == 0 { return None; }
      error := AddTransaction(newId, PlainTx(Adjustment, delta, a, None, None, date, AdjustmentEntry));
    }

    method SaveTransaction(id: Id, t: Tx) returns (error: Option<CommandError>)
      modifies this`transactions
      ensures Ends(error, Commands.SaveTransaction(old(View()), id, t),
        old(View()), View())
    {
      error := ManualError(View(), t);
      if error.Some? { return; }
      if id in transactions && !Independent(transactions[id]) { return Some(LinkedTransaction); }
      var next := transactions[id := t];
      var negative := NegativeAmong(t, if id in transactions then Some(transactions[id]) else None, next);
      if negative { return Some(NegativeBalance); }
      transactions := next;
    }

    /** Whether an account that the old or the new row touches would end below zero. */
    method NegativeAmong(t: Tx, previous: Option<Tx>, next: Transactions) returns (negative: bool)
      ensures negative <==> exists a ::
        a in accounts && (Touches(t, a) || (previous.Some? && Touches(previous.value, a)))
          && Balance(accounts, next, a) < 0
    {
      var balances := CalculateAccountBalances(accounts, next);
      var affected := set a | a in accounts && (Touches(t, a) || (previous.Some? && Touches(previous.value, a)));
      ghost var all := affected;
      while affected != {}
        invariant affected <= all
        invariant forall a :: a in all && a !in affected ==> balances[a] >= 0
        decreases affected
      {
        var a :| a in affected;
        if balances[a] < 0 { return true; }
        affected := affected - {a};
      }
      negative := false;
    }

    // ---- Commitments ----

    /** `fund` and `pay`: the top-up from savings is undone when the payment cannot follow it. */
    method PayCommitment(input: CommitmentInput, paymentId: Id, fundingId: Id) returns (error: Option<CommandError>)
      requires PaymentTx(input).account in accounts
      modifies this`transactions
      ensures Ends(error, Commands.PayCommitment(old(View()), input, paymentId, fundingId),
        old(View()), View())
    {
      var payment := PaymentTx(input);
      if !ValidTx(payment) { return Some(InvalidTransaction); }
      var before := transactions;
      if input.funding.Some? {
        var source := input.funding.value;
        if source !in accounts { return Some(UnknownAccount); }
        if !accounts[source].isProtected || accounts[source].archived
           || accounts[payment.account].isProtected || source == payment.account {
          return Some(InvalidSavings);
        }
        error := RequireAvailableFunds(source, payment.amount);
        if error.Some? { return; }
        error := AddTransaction(fundingId, FundingTx(input, source));
        if error.Some? { return; }
      }
      error := RequireAvailableFunds(payment.account, payment.amount);
      if error.None? { error := AddTransaction(paymentId, payment); }
      if error.Some? { transactions := before; }
    }

    method MarkCommitmentPaid(input: CommitmentInput, plan: Option<Occurrence>, paymentId: Id, fundingId: Id)
      returns (error: Option<CommandError>)
      modifies this`transactions
      ensures Ends(error, Commands.MarkCommitmentPaid(old(View()), input, plan, paymentId, fundingId),
        old(View()), View())
    {
      if plan.None? || plan.value.key != input.key || !input.key.CommitmentKey? { return Some(UnknownPlan); }
      if plan.value != Occurrence(input.key, input.amount, input.account, input.category) { return Some(PlanChanged); }
      var account := Or(input.paymentAccount, input.account);
      if account !in accounts { return Some(UnknownAccount); }
      if accounts[account].archived { return Some(ArchivedAccount); }
      error := CategoryError(View(), input.category, ForExpense);
      if error.Some? || KeyUsed(View(), input.key) { return; }
      error := PayCommitment(input, paymentId, fundingId);
    }

    method LinkTransactionToCommitment(id: Id, plan: Option<Occurrence>, confirmMismatch: bool)
      returns (error: Option<CommandError>)
      modifies this`transactions
      ensures Ends(error, LinkTransaction(old(View()), id, plan, confirmMismatch),
        old(View()), View())
    {
      if plan.None? || !plan.value.key.CommitmentKey? { return Some(UnknownPlan); }
      if KeyUsed(View(), plan.value.key) { return Some(AlreadyPaid); }
      if id !in transactions || transactions[id].kind != Expense || !Independent(transactions[id]) {
        return Some(NotLinkable);
      }
      var t := transactions[id];
      if t.amount != plan.value.amount && !confirmMismatch { return Some(AmountMismatch); }
      var updated := t.(source := CommitmentPlan, occurrence := Some(plan.value.key));
      if !ValidTx(updated) { return Some(InvalidTransaction); }
      transactions := transactions[id := updated];
      error := None;
    }

    method UnlinkCommitmentPayment(id: Id) returns (error: Option<CommandError>)
      modifies this`transactions
      ensures Ends(error, UnlinkPayment(old(View()), id),
        old(View()), View())
    {
      if id !in transactions || transactions[id].source != CommitmentPlan || transactions[id].occurrence.None? {
        return Some(UnknownPlan);
      }
      if KeyUsed(View(), CommitmentFunding(transactions[id].occurrence.value)) { return Some(FundedPayment); }
      transactions := transactions[id := transactions[id].(source := Manual, occurrence := None)];
      error := None;
    }

    // ---- Goals ----

    method ContributeToGoal(g: Id, from: Id, amount: int, date: Date, newId: Id) returns (error: Option<CommandError>)
      modifies this`transactions
      ensures Ends(error, Commands.ContributeToGoal(old(View()), g, from, amount, date, newId),
        old(View()), View())
    {
      if g !in goals { return Some(UnknownGoal); }
      var goal := goals[g];
      if goal.archived || (goal.sinking && goal.usedAt.Some?) { return Some(GoalClosed); }
      var linked := goal.linkedAccount;
      if from !in accounts || linked !in accounts { return Some(UnknownAccount); }
      if accounts[from].isProtected || !accounts[linked].isProtected || from == linked { return Some(InvalidSavings); }
      var balances := CalculateAccountBalances(accounts, transactions);
      var saved := if balances[linked] < 0 then 0 else balances[linked];
      var room := if goal.target - saved < 0 then 0 else goal.target - saved;
      if room == 0 { return Some(GoalFull); }
      if amount <= 0 || amount > room { return Some(InvalidAmount); }
      error := RequireAvailableFunds(from, amount);
      if error.Some? { return; }
      error := AddTransaction(newId,
        PlainTx(Transfer, amount, from, Some(linked), None, date, GoalPlan).(goal := Some(g)));
    }

    method WithdrawFromGoal(g: Id, to: Id, amount: int, date: Date, newId: Id) returns (error: Option<CommandError>)
      modifies this`transactions
      ensures Ends(error, Commands.WithdrawFromGoal(old(View()), g, to, amount, date, newId),
        old(View()), View())
    {
      if g !in goals || goals[g].archived || goals[g].usedAt.Some? { return Some(UnknownGoal); }
      var source := goals[g].linkedAccount;
      if source !in accounts || to !in accounts { return Some(UnknownAccount); }
      if !accounts[source].isProtected || accounts[source].archived || accounts[to].isProtected
        || accounts[to].archived {
        return Some(InvalidSavings);
      }
      var t := PlainTx(Transfer, amount, source, Some(to), None, date, Manual);
      if !ValidTx(t) { return Some(InvalidTransaction); }
      error := RequireAvailableFunds(source, amount);
      if error.Some? { return; }
      error := AddTransaction(newId, t);
    }

    // ---- Planned events ----

    method PayTopUp(input: EventInput, balances: map<Id, int>, fundingId: Id) returns (error: Option<CommandError>)
      requires input.event in events && EventTx(View(), input).account in accounts
      requires balances.Keys == accounts.Keys && forall a :: a in accounts ==> balances[a] == BalanceOf(View(), a)
      modifies this`transactions
      ensures Ends(error, TopUp(old(View()), input,
        EventTx(old(View()), input).amount - BalanceOf(old(View()), EventTx(old(View()), input).account), fundingId),
        old(View()), View())
    {
      var t := EventTx(View(), input);
      var shortfall := t.amount - balances[t.account];
      if shortfall <= 0 { return None; }
      if !accounts[t.account].isProtected || input.topUp.None? { return Some(InsufficientFunds); }
      var source := input.topUp.value;
      if source !in accounts { return Some(UnknownAccount); }
      if accounts[source].isProtected || source == t.account { return Some(InvalidSavings); }
      if balances[source] < shortfall { return Some(InsufficientFunds); }
      if KeyUsed(View(), EventFunding(input.event)) { return Some(AlreadyPaid); }
      error := AddTransaction(fundingId,
        PlainTx(Transfer, shortfall, source, Some(t.account), None, t.date, Manual)
          .(occurrence := Some(EventFunding(input.event))));
    }

    method PayPlannedEvent(input: EventInput, paymentId: Id, fundingId: Id) returns (error: Option<CommandError>)
      requires input.event in events
      modifies this`transactions, this`events, this`goals
      ensures Ends(error, PayEvent(old(View()), input, paymentId, fundingId),
        old(View()), View())
    {
      var event, t := events[input.event], EventTx(View(), input);
      if event.plannedAmount <= 0 { return Some(InvalidAmount); }
      if t.account !in accounts { return Some(UnknownAccount); }
      error := CategoryError(View(), event.category, ForExpense);
      if error.Some? { return; }
      var before := transactions;
      var balances := CalculateAccountBalances(accounts, transactions);
      error := PayTopUp(input, balances, fundingId);
      if error.Some? { return; }
      error := RecordPayment(input.event, event, t, paymentId);
      if error.Some? { transactions := before; }
    }

    method RecordPayment(e: Id, event: Event, t: Tx, paymentId: Id) returns (error: Option<CommandError>)
      modifies this`transactions, this`events, this`goals
      ensures Ends(error, RecordEventPayment(old(View()), e, event, t, paymentId),
        old(View()), View())
    {
      error := AddTransaction(paymentId, t);
      if error.Some? { return; }
      goals := UseGoal(View(), event, t.account == event.account, t.date);
      events := events[e := event.(account := t.account, paid := Some(paymentId))];
    }

    method FindEventPayment(e: Id) returns (found: Option<Id>)
      ensures found.Some? ==> found.value in transactions && PaysEvent(transactions[found.value], e)
      ensures found.None? ==> forall t :: t in transactions ==> !PaysEvent(transactions[t], e)
    {
      var todo := transactions.Keys;
      while todo != {}
        invariant forall t :: t in transactions && t !in todo ==> !PaysEvent(transactions[t], e)
        decreases todo
      {
        var t :| t in todo;
        if t in transactions && PaysEvent(transactions[t], e) { return Some(t); }
        todo := todo - {t};
      }
      found := None;
    }

    /** An event that is already paid stays as it is; a stray payment is adopted before a new one is made. */
    method MarkPlannedEventPaid(input: EventInput, paymentId: Id, fundingId: Id) returns (error: Option<CommandError>)
      requires UniqueIndexes(transactions)
      modifies this`transactions, this`events, this`goals
      ensures Ends(error, MarkEventPaid(old(View()), input, paymentId, fundingId),
        old(View()), View())
    {
      if input.event !in events { return Some(UnknownEvent); }
      var event := events[input.event];
      if event.paid.Some? { return None; }
      var existing := FindEventPayment(input.event);
      if existing.Some? {
        var t := transactions[existing.value];
        goals := UseGoal(View(), event, t.account == event.account, t.date);
        events := events[input.event := event.(paid := existing)];
        return None;
      }
      error := PayPlannedEvent(input, paymentId, fundingId);
    }

    method SavePlannedEvent(id: Id, event: Event) returns (error: Option<CommandError>)
      modifies this`events
      ensures Ends(error, SaveEvent(old(View()), id, event),
        old(View()), View())
    {
      var outcome := SaveEvent(View(), id, event);
      if outcome.Err? { return Some(outcome.error); }
      events := events[id := event];
      error := None;
    }

    method MarkPlannedIncomeReceived(income: Id, key: OccurrenceKey, due: Option<Occurrence>, account: Id,
                                     amount: Option<int>, date: Date, newId: Id)
      returns (error: Option<CommandError>)
      modifies this`transactions
      ensures Ends(error, MarkIncomeReceived(old(View()), income, key, due, account, amount, date, newId),
        old(View()), View())
    {
      if KeyUsed(View(), key) { return None; }
      if due.None? || due.value.key != key || !key.IncomeKey? || key.income != income { return Some(UnknownPlan); }
      if account !in accounts { return Some(UnknownAccount); }
      error := CategoryError(View(), due.value.category, ForIncome);
      if error.Some? { return; }
      error := AddTransaction(newId,
        PlainTx(Income, Or(amount, due.value.amount), account, None, Some(due.value.category), date, PlannedIncomePlan)
          .(occurrence := Some(key), plannedIncome := Some(income)));
    }

    // ---- Debts ----

    /** `payments.reduce(...)` over the payments of one debt. */
    method PaidSoFar(debt: Id) returns (paid: int)
      ensures paid == PaidSum(View(), debt)
    {
      paid := 0;
      var todo := payments.Keys;
      ghost var done: map<Id, Payment> := map[];
      while todo != {}
        invariant todo !! done.Keys && todo + done.Keys == payments.Keys
        invariant forall p :: p in done ==> done[p] == payments[p]
        invariant paid == Total(done, PaidTo(debt))
        decreases todo
      {
        var p :| p in todo;
        TotalAfterPut(done, PaidTo(debt), p, payments[p]);
        if payments[p].debt == debt { paid := paid + payments[p].amount; }
        todo, done := todo - {p}, done[p := payments[p]];
      }
      assert done == payments;
    }

    method SaveDebt(id: Id, debt: Debt) returns (error: Option<CommandError>)
      modifies this`debts
      ensures Ends(error, Commands.SaveDebt(old(View()), id, debt),
        old(View()), View())
    {
      if debt.original <= 0 { return Some(InvalidAmount); }
      var paid := PaidSoFar(id);
      if paid > debt.original { return Some(DebtMismatch); }
      if (paid == debt.original && !debt.paid) || (paid < debt.original && debt.paid) { return Some(DebtMismatch); }
      debts := debts[id := debt];
      error := None;
    }

    method StoreRepayment(input: DebtInput, paymentId: Id, transaction: Option<Id>, remaining: int)
      returns (error: Option<CommandError>)
      requires input.debt in debts
      modifies this`payments, this`debts
      ensures Ends(error, Commands.StoreRepayment(old(View()), input, paymentId, transaction, remaining),
        old(View()), View())
    {
      if paymentId in payments
        || (transaction.Some? && exists p :: p in payments && payments[p].transaction == transaction) {
        return Some(DuplicateKey);
      }
      payments := payments[paymentId := Payment(input.debt, input.amount, transaction)];
      if input.amount == remaining { debts := debts[input.debt := debts[input.debt].(paid := true)]; }
      error := None;
    }

    method RecordDebtPayment(input: DebtInput, paymentId: Id, newId: Id) returns (error: Option<CommandError>)
      modifies this`transactions, this`payments, this`debts
      ensures Ends(error, Commands.RecordDebtPayment(old(View()), input, paymentId, newId),
        old(View()), View())
    {
      if input.debt !in debts { return Some(UnknownDebt); }
      var paid := PaidSoFar(input.debt);
      var remaining := if debts[input.debt].original - paid < 0 then 0 else debts[input.debt].original - paid;
      if remaining == 0 || input.amount <= 0 || input.amount > remaining { return Some(InvalidAmount); }
      var before := transactions;
      if input.personal {
        if input.account.None? || input.category.None? { return Some(InvalidTransaction); }
        if input.account.value !in accounts { return Some(UnknownAccount); }
        error := CategoryError(View(), input.category.value, ForExpense);
        if error.Some? { return; }
        error := RequireAvailableFunds(input.account.value, input.amount);
        if error.Some? { return; }
        error := AddTransaction(newId, DebtTx(input, paymentId, input.account.value));
        if error.Some? { return; }
      }
      error := StoreRepayment(input, paymentId, if input.personal then Some(newId) else None, remaining);
      if error.Some? { transactions := before; }
    }

    // ---- Deleting a transaction ----

    method FindByKey(key: OccurrenceKey) returns (found: Option<Id>)
      requires UniqueIndexes(transactions)
      ensures found == ByKey(transactions, key)
    {
      var todo := transactions.Keys;
      while todo != {}
        invariant forall t :: t in transactions && t !in todo ==> !HasKey(transactions[t], key)
        decreases todo
      {
        var t :| t in todo;
        if t in transactions && HasKey(transactions[t], key) { return Some(t); }
        todo := todo - {t};
      }
      found := None;
    }

    method RemoveRow(id: Option<Id>)
      modifies this`transactions
      ensures View() == RemoveTx(old(View()), id)
    {
      if id.Some? { transactions := transactions - {id.value}; }
    }

    method ClearEvent(id: Id, t: Tx)
      requires UniqueIndexes(transactions)
      modifies this`transactions, this`events, this`goals
      ensures View() == DropEventLink(old(View()), id, t)
    {
      if t.plannedEvent.None? || t.plannedEvent.value !in events || events[t.plannedEvent.value].paid != Some(id) {
        return;
      }
      var e := t.plannedEvent.value;
      goals := ReopenGoal(View(), e);
      events := events[e := events[e].(paid := None)];
      var funding := FindByKey(EventFunding(e));
      RemoveRow(funding);
    }

    method ClearRepayment(id: Id, t: Tx)
      modifies this`payments, this`debts
      ensures View() == DropRepayment(old(View()), id, t)
    {
      if t.debtPayment.None? || t.debtPayment.value !in payments
        || payments[t.debtPayment.value].transaction != Some(id) {
        return;
      }
      var d := payments[t.debtPayment.value].debt;
      payments := payments - {t.debtPayment.value};
      if d in debts {
        var paid := PaidSoFar(d);
        debts := debts[d := debts[d].(paid := debts[d].original - paid <= 0)];
      }
    }

    /** All the deletions of one transaction. */
    method RemoveWithLinks(id: Id)
      requires UniqueIndexes(transactions) && id in transactions
      modifies this
      ensures View() == AfterDelete(old(View()), id)
    {
      var t := transactions[id];
      if t.source == CommitmentPlan && t.occurrence.Some? {
        var funding := FindByKey(CommitmentFunding(t.occurrence.value));
        RemoveRow(funding);
      }
      ClearEvent(id, t);
      ClearRepayment(id, t);
      RemoveRow(Some(id));
    }

    method AnyNegative() returns (negative: bool)
      ensures negative <==> exists a :: a in accounts && BalanceOf(View(), a) < 0
    {
      var balances := CalculateAccountBalances(accounts, transactions);
      negative := exists a :: a in accounts && balances[a] < 0;
    }

    /** A thrown error undoes every write of the transaction. */
    method RollBack(before: Db)
      modifies this
      ensures View() == before
    {
      accounts, transactions, events, goals := before.accounts, before.transactions, before.events, before.goals;
      debts, payments, categories := before.debts, before.payments, before.categories;
    }

    method DeleteTransaction(id: Id) returns (error: Option<CommandError>)
      requires UniqueIndexes(transactions)
      modifies this
      ensures Ends(error, Commands.DeleteTransaction(old(View()), id),
        old(View()), View())
    {
      if id !in transactions { return None; }
      error := DeleteError(View(), transactions[id]);
      if error.Some? { return; }
      var before := View();
      RemoveWithLinks(id);
      var negative := AnyNegative();
      if negative {
        RollBack(before);
        error := Some(NegativeBalance);
      }
    }
  }
}
