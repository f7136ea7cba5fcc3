/**
 * The finance tables the commands of src/db/commands.ts work on, and the invariants that
 * the cross-table checks of src/domain/integrity.ts express.
 */
module FinanceDb {
  import opened Wrappers
  import opened Sums
  import opened Ledger

  datatype CategoryKind = ForIncome | ForExpense

  datatype Event = Event(plannedAmount: int, account: Id, category: Id, linkedGoal: Option<Id>, paid: Option<Id>,
                         date: Date)

  datatype Goal = Goal(linkedAccount: Id, sinking: bool, target: int, usedAt: Option<Date>, archived: bool)

  datatype Debt = Debt(original: int, paid: bool)

  datatype Payment = Payment(debt: Id, amount: int, transaction: Option<Id>)

  datatype Db = Db(
    accounts: Accounts, transactions: Transactions, events: map<Id, Event>, goals: map<Id, Goal>,
    debts: map<Id, Debt>, payments: map<Id, Payment>, categories: map<Id, CategoryKind>)

  ghost function BalanceOf(db: Db, a: Id): int
    requires a in db.accounts
  {
    Balance(db.accounts, db.transactions, a)
  }

  function PaidTo(debt: Id): (Id, Payment) -> int {
    (id: Id, p: Payment) => if p.debt == debt then p.amount else 0
  }

  ghost function PaidSum(db: Db, debt: Id): int { Total(db.payments, PaidTo(debt)) }

  /** `calculateDebtProgress(...).remaining` */
  ghost function Remaining(db: Db, debt: Id): int
    requires debt in db.debts
  {
    var left := db.debts[debt].original - PaidSum(db, debt);
    if left < 0 then 0 else left
  }

  // ---- Invariants ----

  ghost predicate Solvent(db: Db) {
    forall a :: a in db.accounts ==> BalanceOf(db, a) >= 0
  }

  predicate UniqueIndexes(transactions: Transactions) {
    forall i, j :: i in transactions && j in transactions && i != j ==>
      && (transactions[i].occurrence.None? || transactions[i].occurrence != transactions[j].occurrence)
      && (transactions[i].plannedEvent.None? || transactions[i].plannedEvent != transactions[j].plannedEvent)
  }

  predicate HasKey(t: Tx, key: OccurrenceKey) { t.occurrence == Some(key) }

  /** `payment` is what the funding transfer `f` pays for. */
  predicate Funds(f: Tx, payment: Tx, key: OccurrenceKey) {
    && HasKey(payment, key) && payment.source == CommitmentPlan && payment.kind == Expense
    && f.kind == Transfer && f.toAccount == Some(payment.account)
    && f.amount == payment.amount && f.date == payment.date
  }

  predicate FundingHasPayment(transactions: Transactions, id: Id)
    requires id in transactions
  {
    transactions[id].occurrence.Some? && transactions[id].occurrence.value.CommitmentFunding? ==>
      exists p :: p in transactions
        && Funds(transactions[id], transactions[p], transactions[id].occurrence.value.payment)
  }

  predicate FundingPaired(transactions: Transactions) {
    forall id :: id in transactions ==> FundingHasPayment(transactions, id)
  }

  /** Only plan payments carry commitment keys; linked rows carry one kind of link. */
  predicate RowShape(t: Tx) {
    && (t.source == CommitmentPlan ==> t.occurrence.Some? && t.occurrence.value.CommitmentKey?)
    && (t.plannedEvent.Some? ==> t.source == PlannedEventPlan && t.occurrence.None? && t.debtPayment.None?)
    && (t.debtPayment.Some? ==> t.source == DebtPlan && t.occurrence.None?)
    && (t.occurrence.Some? && t.occurrence.value.CommitmentKey? ==> t.source == CommitmentPlan)
  }

  predicate RowsShaped(transactions: Transactions) {
    forall id :: id in transactions ==> RowShape(transactions[id])
  }

  /** An event points at a transaction exactly when that transaction points at the event. */
  predicate EventsLinked(db: Db) {
    && (forall e :: e in db.events && db.events[e].paid.Some? ==>
         db.events[e].paid.value in db.transactions
         && db.transactions[db.events[e].paid.value].plannedEvent == Some(e))
    && forall t :: t in db.transactions && db.transactions[t].plannedEvent.Some? ==>
         db.transactions[t].plannedEvent.value in db.events
         && db.events[db.transactions[t].plannedEvent.value].paid == Some(t)
  }

  /** A personal repayment and its transaction point at each other, with one amount. */
  predicate PaymentsLinked(db: Db) {
    && (forall p :: p in db.payments ==> db.payments[p].debt in db.debts && db.payments[p].amount > 0)
    && (forall p :: p in db.payments && db.payments[p].transaction.Some? ==>
         db.payments[p].transaction.value in db.transactions
         && db.transactions[db.payments[p].transaction.value].debtPayment == Some(p)
         && db.transactions[db.payments[p].transaction.value].amount == db.payments[p].amount)
    && forall t :: t in db.transactions && db.transactions[t].debtPayment.Some? ==>
         db.transactions[t].debtPayment.value in db.payments
         && db.payments[db.transactions[t].debtPayment.value].transaction == Some(t)
  }

  /** A debt is paid exactly when its payments add up to it, and they never add up to more. */
  ghost predicate DebtsRight(db: Db) {
    forall d :: d in db.debts ==>
      && db.debts[d].original > 0
      && PaidSum(db, d) <= db.debts[d].original
      && (db.debts[d].paid <==> PaidSum(db, d) == db.debts[d].original)
  }

  predicate Linked(db: Db) {
    && UniqueIndexes(db.transactions) && FundingPaired(db.transactions) && RowsShaped(db.transactions)
    && EventsLinked(db) && PaymentsLinked(db)
  }

  ghost predicate Sound(db: Db) {
    Solvent(db) && Referential(db.accounts, db.transactions) && Linked(db) && DebtsRight(db)
  }

  // ---- Rows without links ----

  predicate Unlinked(t: Tx) { t.plannedEvent.None? && t.debtPayment.None? }

  /** No other row uses the key. */
  predicate KeyFree(transactions: Transactions, id: Id, key: Option<OccurrenceKey>) {
    forall j :: j in transactions && j != id && transactions[j].occurrence.Some? ==> transactions[j].occurrence != key
  }

  predicate IsFundedBy(transactions: Transactions, key: OccurrenceKey) {
    exists f :: f in transactions && HasKey(transactions[f], CommitmentFunding(key))
  }

  /** Nothing is funded by the row's key, or it has none. */
  predicate ReliedOn(transactions: Transactions, id: Id)
    requires id in transactions
  {
    transactions[id].occurrence.Some? && IsFundedBy(transactions, transactions[id].occurrence.value)
  }

  predicate IsFunding(t: Tx) { t.occurrence.Some? && t.occurrence.value.CommitmentFunding? }

  lemma FundingKept(before: Transactions, after: Transactions, f: Id, changed: Id)
    requires FundingPaired(before) && f in before && f in after && f != changed && after[f] == before[f]
    requires changed in before ==> !ReliedOn(before, changed)
    requires forall j :: j in before && j != changed ==> j in after && after[j] == before[j]
    ensures FundingHasPayment(after, f)
  {
    assert FundingHasPayment(before, f);
    if IsFunding(before[f]) {
      var key := before[f].occurrence.value.payment;
      var p :| p in before && Funds(before[f], before[p], key);
      if p == changed { assert HasKey(before[f], CommitmentFunding(key)); }
      assert p in after && Funds(after[f], after[p], key);
    }
  }

  lemma FundingAfterPut(transactions: Transactions, id: Id, t: Tx)
    requires FundingPaired(transactions) && (id in transactions ==> !ReliedOn(transactions, id))
    requires IsFunding(t) ==>
      exists p :: p in transactions && p != id && Funds(t, transactions[p], t.occurrence.value.payment)
    ensures FundingPaired(transactions[id := t])
  {
    var after := transactions[id := t];
    forall f | f in after ensures FundingHasPayment(after, f) {
      if f != id {
        FundingKept(transactions, after, f, id);
      } else if IsFunding(t) {
        var p :| p in transactions && p != id && Funds(t, transactions[p], t.occurrence.value.payment);
        assert Funds(after[f], after[p], t.occurrence.value.payment);
      }
    }
  }

  lemma FundingAfterRemove(transactions: Transactions, id: Id)
    requires FundingPaired(transactions) && id in transactions && !ReliedOn(transactions, id)
    ensures FundingPaired(transactions - {id})
  {
    forall f | f in transactions - {id} ensures FundingHasPayment(transactions - {id}, f) {
      FundingKept(transactions, transactions - {id}, f, id);
    }
  }

  /**
   * Writing a row without event or debt links keeps every link, if its key is free and nothing relied on
   * the old row.
   */
  lemma PutUnlinked(db: Db, id: Id, t: Tx)
    requires Linked(db) && Unlinked(t) && RowShape(t) && KeyFree(db.transactions, id, t.occurrence)
    requires id in db.transactions ==> Unlinked(db.transactions[id]) && !ReliedOn(db.transactions, id)
    requires IsFunding(t) ==>
      exists p :: p in db.transactions && p != id && Funds(t, db.transactions[p], t.occurrence.value.payment)
    ensures Linked(db.(transactions := db.transactions[id := t]))
  {
    FundingAfterPut(db.transactions, id, t);
  }

  /** Removing a row without event or debt links keeps every link, if nothing that stays relies on it. */
  lemma RemoveUnlinked(db: Db, id: Id)
    requires Linked(db) && id in db.transactions && Unlinked(db.transactions[id]) && !ReliedOn(db.transactions, id)
    ensures Linked(db.(transactions := db.transactions - {id}))
  {
    FundingAfterRemove(db.transactions, id);
  }

  // ---- Event rows ----

  /** A new expense paired with its unpaid event. */
  lemma PutEventRow(db: Db, id: Id, t: Tx, e: Id, event: Event)
    requires Linked(db) && id !in db.transactions && e in db.events && db.events[e].paid.None?
    requires t.plannedEvent == Some(e) && RowShape(t) && event.paid == Some(id)
    ensures Linked(db.(transactions := db.transactions[id := t], events := db.events[e := event]))
  {
    FundingAfterPut(db.transactions, id, t);
  }

  lemma RemoveEventRow(db: Db, id: Id, e: Id)
    requires Linked(db) && id in db.transactions && db.transactions[id].plannedEvent == Some(e)
    ensures e in db.events && db.events[e].paid == Some(id)
    ensures Linked(db.(transactions := db.transactions - {id}, events := db.events[e := db.events[e].(paid := None)]))
  {
    FundingAfterRemove(db.transactions, id);
  }

  // ---- Debt rows ----

  /** A repayment, with its transaction when it is a personal one. */
  lemma PutPayment(db: Db, p: Id, payment: Payment, t: Tx)
    requires Linked(db) && p !in db.payments && payment.debt in db.debts && payment.amount > 0
    requires payment.transaction.Some? ==>
      && payment.transaction.value !in db.transactions
      && RowShape(t) && t.debtPayment == Some(p) && t.plannedEvent.None? && t.amount == payment.amount
    ensures
      var transactions :=
        if payment.transaction.Some? then db.transactions[payment.transaction.value := t] else db.transactions;
      Linked(db.(transactions := transactions, payments := db.payments[p := payment]))
  {
    if payment.transaction.Some? { FundingAfterPut(db.transactions, payment.transaction.value, t); }
  }

  lemma RemovePayment(db: Db, id: Id, p: Id)
    requires Linked(db) && id in db.transactions && db.transactions[id].debtPayment == Some(p)
    ensures p in db.payments && db.payments[p].transaction == Some(id) && db.payments[p].debt in db.debts
    ensures Linked(db.(transactions := db.transactions - {id}, payments := db.payments - {p}))
  {
    FundingAfterRemove(db.transactions, id);
  }
}
