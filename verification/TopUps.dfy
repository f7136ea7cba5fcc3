/**
 * A top-up never outlives the payment of its event, over every run of the commands
 * (src/db/commands.ts, 228-321 and 611-731).
 */
module TopUps {
  import opened Wrappers
  import opened Ledger
  import opened FinanceDb
  import opened Commands
  import opened CommandTheorems
  import opened RoundTrips

  predicate IsTopUp(t: Tx) { t.occurrence.Some? && t.occurrence.value.EventFunding? }

  predicate EventIsPaid(db: Db, e: Id) { e in db.events && db.events[e].paid.Some? }

  predicate TopUpsArePaid(db: Db) {
    forall t :: t in db.transactions && IsTopUp(db.transactions[t]) ==>
      EventIsPaid(db, db.transactions[t].occurrence.value.event)
  }

  /** Rows and payments stay, or the top-ups that lose their payment go with it. */
  lemma TopUpsStayPaid(db: Db, after: Db)
    requires TopUpsArePaid(db)
    requires forall t :: t in after.transactions && IsTopUp(after.transactions[t]) ==>
      (t in db.transactions && db.transactions[t].occurrence == after.transactions[t].occurrence)
      || EventIsPaid(after, after.transactions[t].occurrence.value.event)
    requires forall e :: EventIsPaid(db, e) && KeyUsed(after, EventFunding(e)) ==> EventIsPaid(after, e)
    ensures TopUpsArePaid(after)
  {
    forall t | t in after.transactions && IsTopUp(after.transactions[t])
      ensures EventIsPaid(after, after.transactions[t].occurrence.value.event)
    {
      var e := after.transactions[t].occurrence.value.event;
      assert HasKey(after.transactions[t], EventFunding(e));
    }
  }

  lemma PaymentKeepsTopUps(db: Db, input: EventInput, paymentId: Id, fundingId: Id)
    requires TopUpsArePaid(db) && MarkEventPaid(db, input, paymentId, fundingId).Ok?
    ensures TopUpsArePaid(MarkEventPaid(db, input, paymentId, fundingId).value)
  {
    var after := MarkEventPaid(db, input, paymentId, fundingId).value;
    if MarkEventPaid(db, input, paymentId, fundingId) == PayEvent(db, input, paymentId, fundingId) {
      var funded := PayEventMeans(db, input, paymentId, fundingId);
      assert EventIsPaid(after, input.event);
    }
    TopUpsStayPaid(db, after);
  }

  lemma DeletionKeepsTopUps(db: Db, id: Id)
    requires UniqueIndexes(db.transactions) && TopUpsArePaid(db) && id in db.transactions
    ensures TopUpsArePaid(AfterDelete(db, id))
  {
    var t, after := db.transactions[id], AfterDelete(db, id);
    DeleteOnlyRemoves(db, id);
    forall e | EventIsPaid(db, e) && KeyUsed(after, EventFunding(e)) ensures EventIsPaid(after, e) {
      OtherEventsStayPaid(db, id, e);
    }
    TopUpsStayPaid(db, after);
  }

  lemma TopUpIsGone(transactions: Transactions, e: Id)
    requires UniqueIndexes(transactions)
    ensures
      var f := ByKey(transactions, EventFunding(e));
      forall j :: j in transactions && Some(j) != f ==> !HasKey(transactions[j], EventFunding(e))
  {}

  /** An event that loses its payment loses its top-up. */
  lemma UnpaidLosesTopUp(db: Db, id: Id, t: Tx, e: Id)
    requires UniqueIndexes(db.transactions) && EventIsPaid(db, e) && KeyUsed(DropEventLink(db, id, t), EventFunding(e))
    ensures EventIsPaid(DropEventLink(db, id, t), e)
  {
    if t.plannedEvent == Some(e) && db.events[e].paid == Some(id) { TopUpIsGone(db.transactions, e); }
  }

  lemma OtherEventsStayPaid(db: Db, id: Id, e: Id)
    requires UniqueIndexes(db.transactions) && id in db.transactions && EventIsPaid(db, e)
    requires KeyUsed(AfterDelete(db, id), EventFunding(e))
    ensures EventIsPaid(AfterDelete(db, id), e)
  {
    var t := db.transactions[id];
    var first := DropCommitmentFunding(db, t);
    var second := DropEventLink(first, id, t);
    StillUsed(first, id, t, EventFunding(e));
    UnpaidLosesTopUp(first, id, t, e);
    RepaymentDropKeepsEvents(second, id, t);
  }

  lemma StillUsed(first: Db, id: Id, t: Tx, key: OccurrenceKey)
    requires KeyUsed(RemoveTx(DropRepayment(DropEventLink(first, id, t), id, t), Some(id)), key)
    ensures KeyUsed(DropEventLink(first, id, t), key)
  {}

  lemma RepaymentDropKeepsEvents(db: Db, id: Id, t: Tx)
    ensures RemoveTx(DropRepayment(db, id, t), Some(id)).events == db.events
  {}

  // ---- Every command ----

  /** Commands that write no top-up and leave the events alone. */
  lemma PlainKeepsTopUps(db: Db, after: Db)
    requires TopUpsArePaid(db) && after.events == db.events
    requires forall t :: t in after.transactions && IsTopUp(after.transactions[t]) ==>
      t in db.transactions && db.transactions[t].occurrence == after.transactions[t].occurrence
    ensures TopUpsArePaid(after)
  {
    TopUpsStayPaid(db, after);
  }

  lemma PaymentAddsNoTopUp(db: Db, input: CommitmentInput, paymentId: Id, fundingId: Id)
    requires TopUpsArePaid(db) && input.key.CommitmentKey? && PaymentTx(input).account in db.accounts
    requires PayCommitment(db, input, paymentId, fundingId).Ok?
    ensures TopUpsArePaid(PayCommitment(db, input, paymentId, fundingId).value)
  {
    if input.funding.Some? { FundedMeans(db, input, paymentId, fundingId); }
    PlainKeepsTopUps(db, PayCommitment(db, input, paymentId, fundingId).value);
  }

  lemma CommitmentKeepsTopUps(db: Db, input: CommitmentInput, plan: Option<Occurrence>, paymentId: Id, fundingId: Id)
    requires TopUpsArePaid(db) && MarkCommitmentPaid(db, input, plan, paymentId, fundingId).Ok?
    ensures TopUpsArePaid(MarkCommitmentPaid(db, input, plan, paymentId, fundingId).value)
  {
    if !KeyUsed(db, input.key) { PaymentAddsNoTopUp(db, input, paymentId, fundingId); }
  }

  lemma SaveEventKeepsTopUps(db: Db, id: Id, event: Event)
    requires TopUpsArePaid(db) && SaveEvent(db, id, event).Ok?
    requires event.paid.Some? || id !in db.events || db.events[id].paid.None?
    ensures TopUpsArePaid(SaveEvent(db, id, event).value)
  {
    TopUpsStayPaid(db, SaveEvent(db, id, event).value);
  }

  lemma SavingsKeepTopUps(db: Db, c: Command)
    requires TopUpsArePaid(db) && (c.Withdraw? || c.Contribute? || c.ReceiveIncome? || c.Adjust?) && Execute(db, c).Ok?
    ensures TopUpsArePaid(Execute(db, c).value)
  {
    PlainKeepsTopUps(db, Execute(db, c).value);
  }

  lemma RowsKeepTopUps(db: Db, c: Command)
    requires TopUpsArePaid(db) && (c.PutTransaction? || c.Link? || c.Unlink? || c.Repay?) && Execute(db, c).Ok?
    ensures TopUpsArePaid(Execute(db, c).value)
  {
    PlainKeepsTopUps(db, Execute(db, c).value);
  }

  /** An unpaid event may go; accounts, debts, goals and categories do not matter. */
  lemma OthersKeepTopUps(db: Db, c: Command)
    requires TopUpsArePaid(db) && Execute(db, c).Ok?
    requires c.PutAccount? || c.DropAccount? || c.DropEvent? || c.PutDebt? || c.DropDebt? || c.PutGoals?
      || c.PutCategories?
    ensures TopUpsArePaid(Execute(db, c).value)
  {}

  lemma CommandKeepsTopUps(db: Db, c: Command)
    requires Sound(db) && TopUpsArePaid(db) && KeepsPointer(db, c) && Execute(db, c).Ok?
    ensures TopUpsArePaid(Execute(db, c).value)
  {
    match c {
      case PayPlannedEvent(event, paymentId, fundingId) => PaymentKeepsTopUps(db, event, paymentId, fundingId);
      case DropTransaction(id) => if id in db.transactions { DeletionKeepsTopUps(db, id); }
      case PutEvent(id, event) => SaveEventKeepsTopUps(db, id, event);
      case PayPlan(input, plan, paymentId, fundingId) => CommitmentKeepsTopUps(db, input, plan, paymentId, fundingId);
      case PutTransaction(_, _) => RowsKeepTopUps(db, c);
      case Link(_, _, _) => RowsKeepTopUps(db, c);
      case Unlink(_) => RowsKeepTopUps(db, c);
      case Repay(_, _, _) => RowsKeepTopUps(db, c);
      case Withdraw(_, _, _, _, _) => SavingsKeepTopUps(db, c);
      case Contribute(_, _, _, _, _) => SavingsKeepTopUps(db, c);
      case ReceiveIncome(_, _, _, _, _, _, _) => SavingsKeepTopUps(db, c);
      case Adjust(_, _, _, _) => SavingsKeepTopUps(db, c);
      case _ => OthersKeepTopUps(db, c);
    }
  }

  /** In every state the commands reach, a top-up exists only while its event is paid. */
  lemma {:induction false} ReachableTopUpsArePaid(commands: seq<Command>)
    requires KeepsPointers(commands)
    ensures TopUpsArePaid(Run(commands))
    decreases |commands|
  {
    if commands != [] {
      var n := |commands| - 1;
      ReachableTopUpsArePaid(commands[..n]);
      ReachableIsSound(commands[..n]);
      if Execute(Run(commands[..n]), commands[n]).Ok? { CommandKeepsTopUps(Run(commands[..n]), commands[n]); }
    }
  }

  /**
   * In reachable states, deleting the payment of an event restores the tables exactly when it
   * was paid from its own account and the goal that it completes comes back as it was.
   */
  lemma ReachablePaymentIsUndoneIff(commands: seq<Command>, input: EventInput, paymentId: Id, fundingId: Id)
    requires KeepsPointers(commands)
    requires
      var db := Run(commands);
      input.event in db.events && db.events[input.event].paid.None? && PayEvent(db, input, paymentId, fundingId).Ok?
    ensures
      var db := Run(commands);
      DeleteTransaction(PayEvent(db, input, paymentId, fundingId).value, paymentId) == Ok(db) <==>
        EventTx(db, input).account == db.events[input.event].account
        && GoalComesBack(db, input.event, EventTx(db, input).date)
  {
    ReachableIsSound(commands);
    ReachableTopUpsArePaid(commands);
    PayEventThenDeleteRestoresIff(Run(commands), input, paymentId, fundingId);
  }
}
