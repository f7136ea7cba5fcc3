/**
 * The cross-table integrity check of backups and imports (src/domain/integrity.ts): the
 * check as its loops run it, what it accepts, and that no command leads out of it.
 */
module Integrity {
  import opened Wrappers
  import opened Sums
  import opened Ledger
  import opened FinanceDb
  import opened Commands
  import opened CommandTheorems

  // ---- What the check demands ----

  predicate NoLinks(t: Tx) {
    t.goal.None? && t.plannedEvent.None? && t.plannedIncome.None? && t.debtPayment.None?
  }

  /** A funding transfer goes from savings to the account of a plan payment of equal amount and date. */
  predicate FundingPasses(db: Db, t: Tx)
    requires IsFunding(t)
  {
    && t.kind == Transfer && t.source == Manual && NoLinks(t)
    && t.account in db.accounts && db.accounts[t.account].isProtected
    && (t.toAccount.Some? && t.toAccount.value in db.accounts ==> !db.accounts[t.toAccount.value].isProtected)
    && exists p :: p in db.transactions && Funds(t, db.transactions[p], t.occurrence.value.payment)
  }

  predicate LinksPass(db: Db, id: Id, t: Tx) {
    && (t.plannedIncome.Some? ==>
          && t.source == PlannedIncomePlan && t.kind == Income
          && t.occurrence.Some? && t.occurrence.value.IncomeKey? && t.occurrence.value.income == t.plannedIncome.value)
    && (t.plannedEvent.Some? ==>
          && t.plannedEvent.value in db.events && t.source == PlannedEventPlan && t.kind == Expense
          && db.events[t.plannedEvent.value].paid == Some(id))
    && (t.debtPayment.Some? ==> t.debtPayment.value in db.payments && t.source == DebtPlan && t.kind == Expense)
  }

  /** A row made from a plan names that plan. */
  predicate SourcePasses(t: Tx) {
    && (t.source == GoalPlan ==> t.goal.Some?)
    && (t.source == CommitmentPlan ==> t.occurrence.Some? && t.occurrence.value.CommitmentKey?)
    && (t.source == PlannedIncomePlan ==> t.plannedIncome.Some?)
    && (t.source == PlannedEventPlan ==> t.plannedEvent.Some?)
    && (t.source == DebtPlan ==> t.debtPayment.Some?)
  }

  predicate RowPasses(db: Db, id: Id)
    requires id in db.transactions
  {
    var t := db.transactions[id];
    && t.account in db.accounts
    && (t.toAccount.Some? ==> t.toAccount.value in db.accounts)
    && (t.kind == Transfer ==> t.toAccount.Some? && t.toAccount.value != t.account)
    && SourcePasses(t) && LinksPass(db, id, t)
    && (IsFunding(t) ==> FundingPasses(db, t))
  }

  predicate PaymentPasses(db: Db, p: Id)
    requires p in db.payments
  {
    var payment := db.payments[p];
    && payment.debt in db.debts
    && (payment.transaction.Some? ==>
          && payment.transaction.value in db.transactions
          && var t := db.transactions[payment.transaction.value];
             t.debtPayment == Some(p) && t.source == DebtPlan && t.kind == Expense && t.amount == payment.amount)
  }

  predicate EventPasses(db: Db, e: Id)
    requires e in db.events
  {
    && db.events[e].account in db.accounts
    && (db.events[e].paid.Some? ==>
          && db.events[e].paid.value in db.transactions
          && var t := db.transactions[db.events[e].paid.value];
             t.plannedEvent == Some(e) && t.source == PlannedEventPlan && t.kind == Expense)
  }

  /** No occurrence key, event or debt payment is named by two transactions. */
  predicate NamedOnce(transactions: Transactions) {
    forall i, j :: i in transactions && j in transactions && i != j ==>
      && (transactions[i].occurrence.None? || transactions[i].occurrence != transactions[j].occurrence)
      && (transactions[i].plannedEvent.None? || transactions[i].plannedEvent != transactions[j].plannedEvent)
      && (transactions[i].debtPayment.None? || transactions[i].debtPayment != transactions[j].debtPayment)
  }

  ghost predicate Passes(db: Db) {
    && NamedOnce(db.transactions)
    && (forall id :: id in db.transactions ==> RowPasses(db, id))
    && (forall p :: p in db.payments ==> PaymentPasses(db, p))
    && (forall d :: d in db.debts ==> PaidSum(db, d) <= db.debts[d].original)
    && (forall e :: e in db.events ==> EventPasses(db, e))
  }

  // ---- The check, loop by loop ----

  function Present<T>(value: Option<T>): set<T> { if value.Some? then {value.value} else {} }

  function KeysOf(rows: Transactions): set<OccurrenceKey> {
    set id | id in rows && rows[id].occurrence.Some? :: rows[id].occurrence.value
  }

  function EventsOf(rows: Transactions): set<Id> {
    set id | id in rows && rows[id].plannedEvent.Some? :: rows[id].plannedEvent.value
  }

  function RepaymentsOf(rows: Transactions): set<Id> {
    set id | id in rows && rows[id].debtPayment.Some? :: rows[id].debtPayment.value
  }

  predicate NamesSomethingSeen(rows: Transactions, t: Tx) {
    || (t.occurrence.Some? && t.occurrence.value in KeysOf(rows))
    || (t.plannedEvent.Some? && t.plannedEvent.value in EventsOf(rows))
    || (t.debtPayment.Some? && t.debtPayment.value in RepaymentsOf(rows))
  }

  lemma SeenGrows(rows: Transactions, id: Id, t: Tx)
    requires id !in rows
    ensures KeysOf(rows[id := t]) == KeysOf(rows) + Present(t.occurrence)
    ensures EventsOf(rows[id := t]) == EventsOf(rows) + Present(t.plannedEvent)
    ensures RepaymentsOf(rows[id := t]) == RepaymentsOf(rows) + Present(t.debtPayment)
  {
    var next := rows[id := t];
    assert forall j :: j in rows ==> j in next && next[j] == rows[j];
    assert id in next && next[id] == t;
  }

  /** A set of seen names finds a repetition exactly when there is one. */
  lemma NamedOnceGrows(rows: Transactions, id: Id, t: Tx)
    requires id !in rows && NamedOnce(rows)
    ensures NamedOnce(rows[id := t]) <==> !NamesSomethingSeen(rows, t)
  {
    var next := rows[id := t];
    if NamesSomethingSeen(rows, t) {
      var j :| j in rows && (
        (t.occurrence.Some? && rows[j].occurrence == t.occurrence)
        || (t.plannedEvent.Some? && rows[j].plannedEvent == t.plannedEvent)
        || (t.debtPayment.Some? && rows[j].debtPayment == t.debtPayment));
      assert j in next && id in next && j != id;
    } else {
      forall j | j in rows
        ensures t.occurrence.None? || rows[j].occurrence != t.occurrence
        ensures t.plannedEvent.None? || rows[j].plannedEvent != t.plannedEvent
        ensures t.debtPayment.None? || rows[j].debtPayment != t.debtPayment
      {
        if rows[j].occurrence.Some? { assert rows[j].occurrence.value in KeysOf(rows); }
        if rows[j].plannedEvent.Some? { assert rows[j].plannedEvent.value in EventsOf(rows); }
        if rows[j].debtPayment.Some? { assert rows[j].debtPayment.value in RepaymentsOf(rows); }
      }
    }
  }

  lemma RepetitionStays(rows: Transactions, all: Transactions)
    requires !NamedOnce(rows) && forall id :: id in rows ==> id in all && all[id] == rows[id]
    ensures !NamedOnce(all)
  {}

  /** The first loop: one pass with a set of seen names for each kind of link. */
  method CheckTransactions(db: Db) returns (ok: bool)
    ensures ok <==> NamedOnce(db.transactions) && forall id :: id in db.transactions ==> RowPasses(db, id)
  {
    var keys: set<OccurrenceKey>, events: set<Id>, repayments: set<Id> := {}, {}, {};
    var todo := db.transactions.Keys;
    ghost var done: Transactions := map[];
    while todo != {}
      invariant todo !! done.Keys && todo + done.Keys == db.transactions.Keys
      invariant forall id :: id in done ==> done[id] == db.transactions[id] && RowPasses(db, id)
      invariant NamedOnce(done)
      invariant keys == KeysOf(done) && events == EventsOf(done) && repayments == RepaymentsOf(done)
      decreases todo
    {
      var id :| id in todo;
      var t := db.transactions[id];
      if !RowPasses(db, id) { return false; }
      NamedOnceGrows(done, id, t);
      SeenGrows(done, id, t);
      if (t.occurrence.Some? && t.occurrence.value in keys) || (t.plannedEvent.Some? && t.plannedEvent.value in events)
         || (t.debtPayment.Some? && t.debtPayment.value in repayments)
      {
        RepetitionStays(done[id := t], db.transactions);
        return false;
      }
      keys, events, repayments :=
        keys + Present(t.occurrence), events + Present(t.plannedEvent), repayments + Present(t.debtPayment);
      todo, done := todo - {id}, done[id := t];
    }
    assert done == db.transactions;
    ok := true;
  }

  method PaidOn(payments: map<Id, Payment>, debt: Id) returns (paid: int)
    ensures paid == Total(payments, PaidTo(debt))
  {
    paid := 0;
    var left := payments;
    while left.Keys != {}
      invariant left.Keys <= payments.Keys && forall p :: p in left ==> left[p] == payments[p]
      invariant paid == Total(payments, PaidTo(debt)) - Total(left, PaidTo(debt))
      decreases left.Keys
    {
      var p :| p in left.Keys;
      TotalAfterRemove(left, PaidTo(debt), p);
      if left[p].debt == debt { paid := paid + left[p].amount; }
      left := left - {p};
    }
  }

  method CheckDebts(db: Db) returns (ok: bool)
    ensures ok <==> forall d :: d in db.debts ==> PaidSum(db, d) <= db.debts[d].original
  {
    var todo := db.debts.Keys;
    while todo != {}
      invariant todo <= db.debts.Keys
      invariant forall d :: d in db.debts && d !in todo ==> PaidSum(db, d) <= db.debts[d].original
      decreases todo
    {
      var d :| d in todo;
      var paid := PaidOn(db.payments, d);
      if paid > db.debts[d].original { return false; }
      todo := todo - {d};
    }
    ok := true;
  }

  method AssertFinanceDataIntegrity(db: Db) returns (ok: bool)
    ensures ok <==> Passes(db)
  {
    ok := CheckTransactions(db);
    if !ok { return; }
    if exists p :: p in db.payments && !PaymentPasses(db, p) { return false; }
    ok := CheckDebts(db);
    if !ok { return; }
    ok := forall e :: e in db.events ==> EventPasses(db, e);
  }

  // ---- What the commands keep beside their links ----

  /** The shape of a row, whatever the other tables hold. */
  predicate RowFits(t: Tx) {
    && ValidTx(t) && SourcePasses(t)
    && (IsFunding(t) ==> t.kind == Transfer && t.source == Manual && NoLinks(t))
    && (t.plannedIncome.Some? ==>
          && t.source == PlannedIncomePlan && t.kind == Income
          && t.occurrence.Some? && t.occurrence.value.IncomeKey? && t.occurrence.value.income == t.plannedIncome.value)
    && (t.plannedEvent.Some? ==> t.source == PlannedEventPlan && t.kind == Expense)
    && (t.debtPayment.Some? ==> t.source == DebtPlan && t.kind == Expense)
  }

  predicate RowPlaced(accounts: Accounts, t: Tx) {
    && t.account in accounts
    && (t.toAccount.Some? ==> t.toAccount.value in accounts)
    && (IsFunding(t) ==>
          accounts[t.account].isProtected && t.toAccount.Some? && !accounts[t.toAccount.value].isProtected)
  }

  predicate Placed(db: Db) {
    && (forall id :: id in db.transactions ==>
      RowFits(db.transactions[id]) && RowPlaced(db.accounts, db.transactions[id]))
    && (forall e :: e in db.events ==> db.events[e].account in db.accounts)
  }

  // ---- What the check guarantees ----

  /** A payment's transaction names it back; a payment that a transaction names does so too, or names none. */
  predicate PaymentsPaired(db: Db) {
    && (forall p :: p in db.payments ==> db.payments[p].debt in db.debts)
    && (forall p :: p in db.payments && db.payments[p].transaction.Some? ==>
         && db.payments[p].transaction.value in db.transactions
         && var t := db.transactions[db.payments[p].transaction.value];
            t.debtPayment == Some(p) && t.amount == db.payments[p].amount)
    && forall t :: t in db.transactions && db.transactions[t].debtPayment.Some? ==>
         && db.transactions[t].debtPayment.value in db.payments
         && var named := db.payments[db.transactions[t].debtPayment.value].transaction;
            named == Some(t) || named.None?
  }

  ghost predicate NothingOverpaid(db: Db) {
    forall d :: d in db.debts ==> PaidSum(db, d) <= db.debts[d].original
  }

  ghost predicate LinksRight(db: Db) {
    && NamedOnce(db.transactions) && FundingPaired(db.transactions) && EventsLinked(db)
    && PaymentsPaired(db) && NothingOverpaid(db)
  }

  lemma PassingIsRight(db: Db)
    requires Passes(db)
    ensures LinksRight(db)
  {
    forall id | id in db.transactions ensures FundingHasPayment(db.transactions, id) { assert RowPasses(db, id); }
    forall t | t in db.transactions && db.transactions[t].debtPayment.Some?
      ensures db.transactions[t].debtPayment.value in db.payments
      ensures
        var named := db.payments[db.transactions[t].debtPayment.value].transaction;
        named == Some(t) || named.None?
    {
      assert RowPasses(db, t) && PaymentPasses(db, db.transactions[t].debtPayment.value);
    }
    EventsOfPassing(db);
    forall p | p in db.payments ensures db.payments[p].debt in db.debts { assert PaymentPasses(db, p); }
  }

  lemma EventsOfPassing(db: Db)
    requires Passes(db)
    ensures EventsLinked(db)
  {
    forall e | e in db.events && db.events[e].paid.Some?
      ensures db.events[e].paid.value in db.transactions
      ensures db.transactions[db.events[e].paid.value].plannedEvent == Some(e)
    {
      assert EventPasses(db, e);
    }
    forall t | t in db.transactions && db.transactions[t].plannedEvent.Some?
      ensures db.transactions[t].plannedEvent.value in db.events
      ensures db.events[db.transactions[t].plannedEvent.value].paid == Some(t)
    {
      assert RowPasses(db, t);
    }
  }

  lemma RightPasses(db: Db)
    requires LinksRight(db) && Placed(db)
    ensures Passes(db)
  {
    forall id | id in db.transactions ensures RowPasses(db, id) {
      assert RowFits(db.transactions[id]) && RowPlaced(db.accounts, db.transactions[id]);
      assert FundingHasPayment(db.transactions, id);
    }
    forall e | e in db.events ensures EventPasses(db, e) {
      if db.events[e].paid.Some? { assert RowFits(db.transactions[db.events[e].paid.value]); }
    }
    forall p | p in db.payments ensures PaymentPasses(db, p) {
      if db.payments[p].transaction.Some? { assert RowFits(db.transactions[db.payments[p].transaction.value]); }
    }
  }

  /**
   * Where each row by itself has its shape, the check accepts exactly the tables whose links are right: no
   * key, event or payment named twice, every funding transfer with its payment, events and transactions
   * pointing at each other, payments paired with transactions, and no debt overpaid.
   */
  lemma PassesIff(db: Db)
    requires Placed(db)
    ensures Passes(db) <==> LinksRight(db)
  {
    if Passes(db) { PassingIsRight(db); }
    if LinksRight(db) { RightPasses(db); }
  }

  /** Sound tables with rows in shape pass. */
  lemma SoundPasses(db: Db)
    requires Sound(db) && Placed(db)
    ensures Passes(db)
  {
    RightPasses(db);
  }

  /** A transaction names a payment, and the payment does not name it. */
  predicate Stray(db: Db, t: Id)
    requires t in db.transactions
  {
    var link := db.transactions[t].debtPayment;
    link.Some? && link.value in db.payments && db.payments[link.value].transaction != Some(t)
  }

  /**
   * What passes has the repayments linked both ways exactly when no transaction names an external payment: the
   * check follows a payment to its transaction, and from a transaction only asks that the payment exists.
   */
  lemma PassingIsPairedIff(db: Db)
    requires Passes(db) && forall p :: p in db.payments ==> db.payments[p].amount > 0
    ensures PaymentsLinked(db) <==> forall t :: t in db.transactions ==> !Stray(db, t)
  {
    PassingIsRight(db);
  }

  const StrayTables: Db := Db(
    map[1 := Account(500, false, false)],
    map[1 := PlainTx(Expense, 100, 1, None, None, 1, DebtPlan).(debtPayment := Some(1))],
    map[], map[], map[1 := Debt(100, true)], map[1 := Payment(1, 100, None)], map[])

  /** One external payment and a transaction that names it: accepted, and yet the link goes one way only. */
  lemma StrayRepaymentPasses()
    ensures Passes(StrayTables) && Placed(StrayTables) && !PaymentsLinked(StrayTables)
  {
    var db := StrayTables;
    assert PaidSum(db, 1) == 100 by {
      TotalWithout(db.payments, PaidTo(1), 1);
      assert db.payments - {1} == map[];
    }
    assert Stray(db, 1);
    PassesIff(db);
  }

  // ---- Every command keeps its rows in shape ----

  /** Accounts keep their purpose, and every row is an old one or a fitting new one. */
  lemma RowsKeep(db: Db, after: Db)
    requires Placed(db) && after.accounts == db.accounts
    requires forall t :: t in after.transactions ==>
      || (t in db.transactions && after.transactions[t] == db.transactions[t])
      || (RowFits(after.transactions[t]) && RowPlaced(after.accounts, after.transactions[t]))
    requires forall e :: e in after.events ==>
      (e in db.events && after.events[e].account == db.events[e].account) || after.events[e].account in after.accounts
    ensures Placed(after)
  {
    forall t | t in after.transactions
      ensures RowFits(after.transactions[t]) && RowPlaced(after.accounts, after.transactions[t])
    {
      if t in db.transactions && after.transactions[t] == db.transactions[t] {
        assert RowFits(db.transactions[t]) && RowPlaced(db.accounts, db.transactions[t]);
      }
    }
  }

  lemma AddKeepsPlaced(db: Db, id: Id, t: Tx)
    requires Placed(db) && AddTx(db, id, t).Ok? && RowFits(t) && RowPlaced(db.accounts, t)
    ensures Placed(AddTx(db, id, t).value)
  {
    RowsKeep(db, AddTx(db, id, t).value);
  }

  /** An account with a history keeps its purpose, so funding transfers stay right. */
  lemma SaveAccountKeepsPlaced(db: Db, id: Id, account: Account)
    requires Placed(db) && SaveAccount(db, id, account).Ok?
    ensures Placed(SaveAccount(db, id, account).value)
  {
    var after := SaveAccount(db, id, account).value;
    forall t | t in after.transactions ensures RowPlaced(after.accounts, after.transactions[t]) {
      assert RowPlaced(db.accounts, db.transactions[t]);
    }
  }

  lemma DeleteAccountKeepsPlaced(db: Db, id: Id, referenced: bool)
    requires Placed(db) && DeleteAccount(db, id, referenced).Ok?
    ensures Placed(DeleteAccount(db, id, referenced).value)
  {
    var after := DeleteAccount(db, id, referenced).value;
    forall t | t in after.transactions ensures RowPlaced(after.accounts, after.transactions[t]) {
      assert RowPlaced(db.accounts, db.transactions[t]);
    }
  }

  lemma SaveTransactionKeepsPlaced(db: Db, id: Id, t: Tx)
    requires Placed(db) && SaveTransaction(db, id, t).Ok?
    ensures Placed(SaveTransaction(db, id, t).value)
  {
    RowsKeep(db, SaveTransaction(db, id, t).value);
  }

  predicate EventsStay(db: Db, after: Db) {
    forall e :: e in after.events ==> e in db.events && after.events[e].account == db.events[e].account
  }

  lemma FundingKeepsEvents(db: Db, t: Tx)
    ensures DropCommitmentFunding(db, t).events == db.events
  {}

  lemma RepaymentKeepsEvents(db: Db, id: Id, t: Tx)
    ensures DropRepayment(db, id, t).events == db.events
  {}

  lemma LinkKeepsEvents(db: Db, id: Id, t: Tx)
    ensures EventsStay(db, DropEventLink(db, id, t))
  {}

  lemma EventsKeepAccounts(db: Db, id: Id)
    requires id in db.transactions
    ensures EventsStay(db, AfterDelete(db, id))
  {
    var t := db.transactions[id];
    var funding := DropCommitmentFunding(db, t);
    var event := DropEventLink(funding, id, t);
    FundingKeepsEvents(db, t);
    LinkKeepsEvents(funding, id, t);
    RepaymentKeepsEvents(event, id, t);
    assert AfterDelete(db, id).events == event.events;
  }

  lemma DeleteKeepsPlaced(db: Db, id: Id)
    requires Placed(db) && DeleteTransaction(db, id).Ok?
    ensures Placed(DeleteTransaction(db, id).value)
  {
    if id in db.transactions {
      DeleteOnlyRemoves(db, id);
      EventsKeepAccounts(db, id);
      RowsKeep(db, AfterDelete(db, id));
    }
  }

  lemma PayCommitmentKeepsPlaced(db: Db, input: CommitmentInput, paymentId: Id, fundingId: Id)
    requires Placed(db) && PaymentTx(input).account in db.accounts && input.key.CommitmentKey?
    requires PayCommitment(db, input, paymentId, fundingId).Ok?
    ensures Placed(PayCommitment(db, input, paymentId, fundingId).value)
  {
    var payment := PaymentTx(input);
    if input.funding.None? {
      AddKeepsPlaced(db, paymentId, payment);
    } else {
      var funding := FundingTx(input, input.funding.value);
      assert RowFits(funding) && RowPlaced(db.accounts, funding);
      AddKeepsPlaced(db, fundingId, funding);
      var funded := AddTx(db, fundingId, funding).value;
      assert PayCommitment(db, input, paymentId, fundingId) == AddTx(funded, paymentId, payment);
      AddKeepsPlaced(funded, paymentId, payment);
    }
  }

  lemma RelabelKeepsPlaced(db: Db, id: Id, t: Tx)
    requires Placed(db) && id in db.transactions && RowFits(t) && !IsFunding(t)
    requires t.account == db.transactions[id].account && t.toAccount == db.transactions[id].toAccount
    ensures Placed(db.(transactions := db.transactions[id := t]))
  {
    assert RowPlaced(db.accounts, db.transactions[id]);
    RowsKeep(db, db.(transactions := db.transactions[id := t]));
  }

  lemma LinkKeepsPlaced(db: Db, id: Id, plan: Option<Occurrence>, confirmMismatch: bool)
    requires Placed(db) && LinkTransaction(db, id, plan, confirmMismatch).Ok?
    ensures Placed(LinkTransaction(db, id, plan, confirmMismatch).value)
  {
    assert RowFits(db.transactions[id]);
    RelabelKeepsPlaced(db, id, db.transactions[id].(source := CommitmentPlan, occurrence := Some(plan.value.key)));
  }

  lemma UnlinkKeepsPlaced(db: Db, id: Id)
    requires Placed(db) && UnlinkPayment(db, id).Ok?
    ensures Placed(UnlinkPayment(db, id).value)
  {
    assert RowFits(db.transactions[id]);
    RelabelKeepsPlaced(db, id, db.transactions[id].(source := Manual, occurrence := None));
  }

  lemma TopUpKeepsPlaced(db: Db, input: EventInput, shortfall: int, fundingId: Id)
    requires Placed(db) && input.event in db.events && TopUp(db, input, shortfall, fundingId).Ok?
    ensures Placed(TopUp(db, input, shortfall, fundingId).value)
    ensures TopUp(db, input, shortfall, fundingId).value.accounts == db.accounts
    ensures TopUp(db, input, shortfall, fundingId).value.events == db.events
  {
    if shortfall > 0 {
      var t := EventTx(db, input);
      AddKeepsPlaced(db, fundingId,
        PlainTx(Transfer, shortfall, input.topUp.value, Some(t.account), None, t.date, Manual)
          .(occurrence := Some(EventFunding(input.event))));
    }
  }

  lemma RecordEventKeepsPlaced(db: Db, e: Id, event: Event, t: Tx, paymentId: Id)
    requires Placed(db) && RecordEventPayment(db, e, event, t, paymentId).Ok?
    requires RowFits(t) && RowPlaced(db.accounts, t)
    ensures Placed(RecordEventPayment(db, e, event, t, paymentId).value)
  {
    RowsKeep(db, RecordEventPayment(db, e, event, t, paymentId).value);
  }

  lemma PayEventKeepsPlaced(db: Db, input: EventInput, paymentId: Id, fundingId: Id)
    requires Placed(db) && input.event in db.events && PayEvent(db, input, paymentId, fundingId).Ok?
    ensures Placed(PayEvent(db, input, paymentId, fundingId).value)
  {
    var t := EventTx(db, input);
    var funded := PayEventMeans(db, input, paymentId, fundingId);
    TopUpKeepsPlaced(db, input, t.amount - BalanceOf(db, t.account), fundingId);
    RecordEventKeepsPlaced(funded, input.event, db.events[input.event], t, paymentId);
  }

  /** An event that points at a payment keeps its account, and goals have no place in the check. */
  lemma PointingKeepsPlaced(db: Db, e: Id, paid: Option<Id>, goals: map<Id, Goal>)
    requires Placed(db) && e in db.events
    ensures Placed(db.(events := db.events[e := db.events[e].(paid := paid)], goals := goals))
  {
    RowsKeep(db, db.(events := db.events[e := db.events[e].(paid := paid)], goals := goals));
  }

  lemma MarkEventPaidKeepsPlaced(db: Db, input: EventInput, paymentId: Id, fundingId: Id)
    requires Placed(db) && MarkEventPaid(db, input, paymentId, fundingId).Ok?
    ensures Placed(MarkEventPaid(db, input, paymentId, fundingId).value)
  {
    var after := MarkEventPaid(db, input, paymentId, fundingId).value;
    if db.events[input.event].paid.Some? {
      assert after == db;
    } else if exists t :: t in db.transactions && PaysEvent(db.transactions[t], input.event) {
      PointingKeepsPlaced(db, input.event, after.events[input.event].paid, after.goals);
    } else {
      PayEventKeepsPlaced(db, input, paymentId, fundingId);
    }
  }

  lemma RepaymentKeepsPlaced(db: Db, input: DebtInput, paymentId: Id, newId: Id)
    requires Placed(db) && RecordDebtPayment(db, input, paymentId, newId).Ok?
    ensures Placed(RecordDebtPayment(db, input, paymentId, newId).value)
  {
    RowsKeep(db, RecordDebtPayment(db, input, paymentId, newId).value);
  }

  lemma AdjustKeepsPlaced(db: Db, newId: Id, a: Id, target: int, date: Date)
    requires Placed(db) && AdjustBalance(db, newId, a, target, date).Ok?
    ensures Placed(AdjustBalance(db, newId, a, target, date).value)
  {
    if target != BalanceOf(db, a) {
      AddKeepsPlaced(db, newId, PlainTx(Adjustment, target - BalanceOf(db, a), a, None, None, date, AdjustmentEntry));
    }
  }

  lemma IncomeKeepsPlaced(db: Db, income: Id, key: OccurrenceKey, due: Option<Occurrence>, account: Id,
                          amount: Option<int>, date: Date, newId: Id)
    requires Placed(db) && MarkIncomeReceived(db, income, key, due, account, amount, date, newId).Ok?
    ensures Placed(MarkIncomeReceived(db, income, key, due, account, amount, date, newId).value)
  {
    RowsKeep(db, MarkIncomeReceived(db, income, key, due, account, amount, date, newId).value);
  }

  lemma WithdrawKeepsPlaced(db: Db, g: Id, to: Id, amount: int, date: Date, newId: Id)
    requires Placed(db) && WithdrawFromGoal(db, g, to, amount, date, newId).Ok?
    ensures Placed(WithdrawFromGoal(db, g, to, amount, date, newId).value)
  {
    RowsKeep(db, WithdrawFromGoal(db, g, to, amount, date, newId).value);
  }

  lemma ContributeKeepsPlaced(db: Db, g: Id, from: Id, amount: int, date: Date, newId: Id)
    requires Placed(db) && ContributeToGoal(db, g, from, amount, date, newId).Ok?
    ensures Placed(ContributeToGoal(db, g, from, amount, date, newId).value)
  {
    RowsKeep(db, ContributeToGoal(db, g, from, amount, date, newId).value);
  }

  lemma CommandKeepsPlaced(db: Db, c: Command)
    requires Placed(db) && Execute(db, c).Ok?
    ensures Placed(Execute(db, c).value)
  {
    match c {
      case PutAccount(id, account) => SaveAccountKeepsPlaced(db, id, account);
      case DropAccount(id, referenced) => DeleteAccountKeepsPlaced(db, id, referenced);
      case PutTransaction(id, tx) => SaveTransactionKeepsPlaced(db, id, tx);
      case DropTransaction(id) => DeleteKeepsPlaced(db, id);
      case PayPlan(input, plan, paymentId, fundingId) =>
        if Execute(db, c).value != db { PayCommitmentKeepsPlaced(db, input, paymentId, fundingId); }
      case Link(id, plan, confirmMismatch) => LinkKeepsPlaced(db, id, plan, confirmMismatch);
      case Unlink(id) => UnlinkKeepsPlaced(db, id);
      case PayPlannedEvent(event, paymentId, fundingId) => MarkEventPaidKeepsPlaced(db, event, paymentId, fundingId);
      case Repay(repayment, paymentId, newId) => RepaymentKeepsPlaced(db, repayment, paymentId, newId);
      case PutEvent(id, event) => RowsKeep(db, SaveEvent(db, id, event).value);
      case Adjust(newId, account, target, date) => AdjustKeepsPlaced(db, newId, account, target, date);
      case ReceiveIncome(income, key, due, account, amount, date, newId) =>
        IncomeKeepsPlaced(db, income, key, due, account, amount, date, newId);
      case Withdraw(goal, to, amount, date, newId) => WithdrawKeepsPlaced(db, goal, to, amount, date, newId);
      case Contribute(goal, from, amount, date, newId) => ContributeKeepsPlaced(db, goal, from, amount, date, newId);
      case _ =>
    }
  }

  /** Every state the commands reach from an empty database passes the integrity check. */
  lemma {:induction false} ReachablePasses(commands: seq<Command>)
    requires KeepsPointers(commands)
    ensures Passes(Run(commands)) && Placed(Run(commands))
    decreases |commands|
  {
    ReachableIsSound(commands);
    if commands != [] {
      var n := |commands| - 1;
      ReachablePasses(commands[..n]);
      if Execute(Run(commands[..n]), commands[n]).Ok? { CommandKeepsPlaced(Run(commands[..n]), commands[n]); }
    }
    SoundPasses(Run(commands));
  }
}
