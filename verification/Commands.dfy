/**
 * What each finance command does to the tables (src/db/commands.ts): the state after a
 * committed transaction, or the error that rolls it back.
 */
module Commands {
  import opened Wrappers
  import opened Ledger
  import opened FinanceDb

  datatype CommandError =
    | InvalidTransaction | LinkedTransaction | UnknownAccount | UnknownCategory | WrongCategory | ArchivedAccount
    | InsufficientFunds | NegativeBalance | AccountInUse | PurposeLocked | UnknownPlan | PlanChanged | AlreadyPaid
    | NotLinkable | AmountMismatch | FundedPayment | InvalidSavings | UnknownGoal | GoalClosed | GoalFull
    | InvalidAmount | UnknownEvent | EventPaid | UnknownDebt | DebtMismatch | DebtHasHistory | DuplicateKey

  type Outcome = Result<Db, CommandError>

  /** One due date of a commitment, as the current plan has it. */
  datatype Occurrence = Occurrence(key: OccurrenceKey, amount: int, account: Id, category: Id)

  // ---- Shared checks ----

  /** `transactionSchema` */
  predicate ValidTx(t: Tx) {
    && (t.kind != Adjustment ==> t.amount > 0)
    && (t.kind == Transfer ==> t.toAccount.Some? && t.toAccount.value != t.account)
  }

  function CategoryError(db: Db, category: Id, kind: CategoryKind): Option<CommandError> {
    if category !in db.categories then Some(UnknownCategory)
    else if db.categories[category] != kind then Some(WrongCategory) else None
  }

  predicate Independent(t: Tx) {
    && (t.source == Manual || t.source == QuickAdd)
    && t.occurrence.None? && t.plannedIncome.None? && t.plannedEvent.None? && t.goal.None? && t.debtPayment.None?
  }

  predicate HasHistory(db: Db, a: Id) {
    exists t :: t in db.transactions && (db.transactions[t].account == a || db.transactions[t].toAccount == Some(a))
  }

  predicate KeyUsed(db: Db, key: OccurrenceKey) {
    exists t :: t in db.transactions && HasKey(db.transactions[t], key)
  }

  /** An `add` with its unique indexes. */
  predicate CanAdd(db: Db, id: Id, t: Tx) {
    && id !in db.transactions
    && (t.occurrence.Some? ==> !KeyUsed(db, t.occurrence.value))
    && (t.plannedEvent.Some? ==>
          forall j :: j in db.transactions ==> db.transactions[j].plannedEvent != t.plannedEvent)
  }

  function AddTx(db: Db, id: Id, t: Tx): Outcome {
    if !ValidTx(t) then Err(InvalidTransaction)
    else if !CanAdd(db, id, t) then Err(DuplicateKey)
    else Ok(db.(transactions := db.transactions[id := t]))
  }

  /** `requireAvailableFunds` */
  ghost function FundsError(db: Db, a: Id, amount: int): Option<CommandError> {
    if a !in db.accounts then Some(UnknownAccount)
    else if BalanceOf(db, a) < amount then Some(InsufficientFunds) else None
  }

  function PlainTx(kind: TxType, amount: int, account: Id, toAccount: Option<Id>, category: Option<Id>, date: Date,
                   source: Source): Tx
  {
    Tx(kind, amount, account, toAccount, category, date, source, None, None, None, None, None)
  }

  // ---- Accounts ----

  ghost function SaveAccount(db: Db, id: Id, account: Account): Outcome {
    var next := db.(accounts := db.accounts[id := account]);
    if account.opening < 0 then Err(NegativeBalance)
    else if id in db.accounts && db.accounts[id].isProtected != account.isProtected
            && (HasHistory(db, id) || exists g :: g in db.goals && db.goals[g].linkedAccount == id)
              then Err(PurposeLocked)
    else if BalanceOf(next, id) < 0 then Err(NegativeBalance)
    else Ok(next)
  }

  /** `referenced`: a commitment, planned income, preset or the settings name the account. */
  function DeleteAccount(db: Db, id: Id, referenced: bool): Outcome {
    if referenced || HasHistory(db, id)
       || (exists g :: g in db.goals && db.goals[g].linkedAccount == id)
       || (exists e :: e in db.events && db.events[e].account == id) then Err(AccountInUse)
    else Ok(db.(accounts := db.accounts - {id}))
  }

  ghost function AdjustBalance(db: Db, newId: Id, a: Id, target: int, date: Date): Outcome {
    if target < 0 then Err(NegativeBalance)
    else if a !in db.accounts then Err(UnknownAccount)
    else if target == BalanceOf(db, a) then Ok(db)
    else AddTx(db, newId, PlainTx(Adjustment, target - BalanceOf(db, a), a, None, None, date, AdjustmentEntry))
  }

  // ---- Manual transactions ----

  function ManualError(db: Db, t: Tx): Option<CommandError> {
    if !ValidTx(t) then Some(InvalidTransaction)
    else if !Independent(t) then Some(LinkedTransaction)
    else if t.account !in db.accounts then Some(UnknownAccount)
    else if t.toAccount.Some? && t.toAccount.value !in db.accounts then Some(UnknownAccount)
    else if t.category.Some? && t.kind == Income then CategoryError(db, t.category.value, ForIncome)
    else if t.category.Some? && t.kind == Expense then CategoryError(db, t.category.value, ForExpense)
    else None
  }

  predicate Touches(t: Tx, a: Id) { t.account == a || t.toAccount == Some(a) }

  ghost function SaveTransaction(db: Db, id: Id, t: Tx): Outcome {
    var next := db.(transactions := db.transactions[id := t]);
    if ManualError(db, t).Some? then Err(ManualError(db, t).value)
    else if id in db.transactions && !Independent(db.transactions[id]) then Err(LinkedTransaction)
    else if exists a ::
              a in db.accounts && (Touches(t, a) || (id in db.transactions && Touches(db.transactions[id], a)))
                        && BalanceOf(next, a) < 0 then Err(NegativeBalance)
    else Ok(next)
  }

  // ---- Commitments ----

  datatype CommitmentInput = CommitmentInput(
    key: OccurrenceKey, amount: int, account: Id, category: Id, date: Date,
    actualAmount: Option<int>, paymentAccount: Option<Id>, funding: Option<Id>)

  function Or<T>(value: Option<T>, fallback: T): T {
    if value.Some? then value.value else fallback
  }

  function PaymentTx(input: CommitmentInput): Tx {
    PlainTx(Expense, Or(input.actualAmount, input.amount), Or(input.paymentAccount, input.account), None,
      Some(input.category), input.date, CommitmentPlan).(occurrence := Some(input.key))
  }

  function FundingTx(input: CommitmentInput, source: Id): Tx {
    var payment := PaymentTx(input);
    PlainTx(Transfer, payment.amount, source, Some(payment.account), None, payment.date, Manual)
      .(occurrence := Some(CommitmentFunding(input.key)))
  }

  /** The optional top-up from savings, and then the payment itself. */
  ghost function PayCommitment(db: Db, input: CommitmentInput, paymentId: Id, fundingId: Id): Outcome
    requires PaymentTx(input).account in db.accounts
  {
    var payment := PaymentTx(input);
    if !ValidTx(payment) then Err(InvalidTransaction)
    else
      match input.funding
      case None =>
        (match FundsError(db, payment.account, payment.amount)
         case Some(e) => Err(e)
         case None => AddTx(db, paymentId, payment))
      case Some(source) =>
        if source !in db.accounts then Err(UnknownAccount)
        else if !db.accounts[source].isProtected || db.accounts[source].archived
                || db.accounts[payment.account].isProtected || source == payment.account then Err(InvalidSavings)
        else
          match FundsError(db, source, payment.amount)
          case Some(e) => Err(e)
          case None =>
            match AddTx(db, fundingId, FundingTx(input, source))
            case Err(e) => Err(e)
            case Ok(funded) =>
              match FundsError(funded, payment.account, payment.amount)
              case Some(e) => Err(e)
              case None => AddTx(funded, paymentId, payment)
  }

  ghost function MarkCommitmentPaid(db: Db, input: CommitmentInput, plan: Option<Occurrence>, paymentId: Id,
                                    fundingId: Id): Outcome
  {
    if plan.None? || plan.value.key != input.key || !input.key.CommitmentKey? then Err(UnknownPlan)
    else if plan.value != Occurrence(input.key, input.amount, input.account, input.category) then Err(PlanChanged)
    else
      var account := Or(input.paymentAccount, input.account);
      if account !in db.accounts then Err(UnknownAccount)
      else if db.accounts[account].archived then Err(ArchivedAccount)
      else if CategoryError(db, input.category, ForExpense).Some?
        then Err(CategoryError(db, input.category, ForExpense).value)
      else if KeyUsed(db, input.key) then Ok(db)
      else PayCommitment(db, input, paymentId, fundingId)
  }

  function LinkTransaction(db: Db, id: Id, plan: Option<Occurrence>, confirmMismatch: bool): Outcome {
    if plan.None? || !plan.value.key.CommitmentKey? then Err(UnknownPlan)
    else if KeyUsed(db, plan.value.key) then Err(AlreadyPaid)
    else if id !in db.transactions || db.transactions[id].kind != Expense || !Independent(db.transactions[id])
    then Err(NotLinkable)
    else if db.transactions[id].amount != plan.value.amount && !confirmMismatch then Err(AmountMismatch)
    else
      var updated := db.transactions[id].(source := CommitmentPlan, occurrence := Some(plan.value.key));
      if !ValidTx(updated) then Err(InvalidTransaction)
      else Ok(db.(transactions := db.transactions[id := updated]))
  }

  function UnlinkPayment(db: Db, id: Id): Outcome {
    if id !in db.transactions || db.transactions[id].source != CommitmentPlan || db.transactions[id].occurrence.None?
    then Err(UnknownPlan)
    else if KeyUsed(db, CommitmentFunding(db.transactions[id].occurrence.value)) then Err(FundedPayment)
    else Ok(db.(transactions := db.transactions[id := db.transactions[id].(source := Manual, occurrence := None)]))
  }

  // ---- Planned income ----

  /** `due`: the income's occurrence in the chosen month under this key, if the plan has one. */
  function MarkIncomeReceived(db: Db, income: Id, key: OccurrenceKey, due: Option<Occurrence>, account: Id,
                              amount: Option<int>, date: Date, newId: Id): Outcome {
    if KeyUsed(db, key) then Ok(db)
    else if due.None? || due.value.key != key || !key.IncomeKey? || key.income != income then Err(UnknownPlan)
    else if account !in db.accounts then Err(UnknownAccount)
    else if CategoryError(db, due.value.category, ForIncome).Some?
      then Err(CategoryError(db, due.value.category, ForIncome).value)
    else
      AddTx(db, newId,
        PlainTx(Income, Or(amount, due.value.amount), account, None, Some(due.value.category), date, PlannedIncomePlan)
          .(occurrence := Some(key), plannedIncome := Some(income)))
  }

  // ---- Goals ----

  ghost function WithdrawFromGoal(db: Db, g: Id, to: Id, amount: int, date: Date, newId: Id): Outcome {
    if g !in db.goals || db.goals[g].archived || db.goals[g].usedAt.Some? then Err(UnknownGoal)
    else
      var source := db.goals[g].linkedAccount;
      if source !in db.accounts || to !in db.accounts then Err(UnknownAccount)
      else if !db.accounts[source].isProtected || db.accounts[source].archived
              || db.accounts[to].isProtected || db.accounts[to].archived then Err(InvalidSavings)
      else
        var t := PlainTx(Transfer, amount, source, Some(to), None, date, Manual);
        if !ValidTx(t) then Err(InvalidTransaction)
        else if FundsError(db, source, amount).Some? then Err(FundsError(db, source, amount).value)
        else AddTx(db, newId, t)
  }

  ghost function ContributeToGoal(db: Db, g: Id, from: Id, amount: int, date: Date, newId: Id): Outcome {
    if g !in db.goals then Err(UnknownGoal)
    else if db.goals[g].archived || (db.goals[g].sinking && db.goals[g].usedAt.Some?) then Err(GoalClosed)
    else
      var linked := db.goals[g].linkedAccount;
      if from !in db.accounts || linked !in db.accounts then Err(UnknownAccount)
      else if db.accounts[from].isProtected || !db.accounts[linked].isProtected || from == linked
        then Err(InvalidSavings)
      else
        var saved := if BalanceOf(db, linked) < 0 then 0 else BalanceOf(db, linked);
        var room := if db.goals[g].target - saved < 0 then 0 else db.goals[g].target - saved;
        if room == 0 then Err(GoalFull)
        else if amount <= 0 || amount > room then Err(InvalidAmount)
        else if FundsError(db, from, amount).Some? then Err(FundsError(db, from, amount).value)
        else AddTx(db, newId, PlainTx(Transfer, amount, from, Some(linked), None, date, GoalPlan).(goal := Some(g)))
  }

  // ---- Planned events ----

  /** `isGoalCompletionEvent` */
  predicate Completes(g: Id, goal: Goal, event: Event) {
    goal.sinking && event.linkedGoal == Some(g) && event.account == goal.linkedAccount
  }

  function UseGoal(db: Db, event: Event, matches: bool, date: Date): map<Id, Goal> {
    if event.linkedGoal.Some? && event.linkedGoal.value in db.goals && matches
       && Completes(event.linkedGoal.value, db.goals[event.linkedGoal.value], event)
    then db.goals[event.linkedGoal.value := db.goals[event.linkedGoal.value].(usedAt := Some(date))] else db.goals
  }

  datatype EventInput = EventInput(event: Id, date: Option<Date>, amount: Option<int>, account: Option<Id>,
                                   topUp: Option<Id>)

  function EventTx(db: Db, input: EventInput): Tx
    requires input.event in db.events
  {
    var event := db.events[input.event];
    PlainTx(Expense, Or(input.amount, event.plannedAmount), Or(input.account, event.account), None,
      Some(event.category),
      Or(input.date, event.date), PlannedEventPlan).(plannedEvent := Some(input.event))
  }

  /** A protected account that is short may be topped up from a spendable one. */
  ghost function TopUp(db: Db, input: EventInput, shortfall: int, fundingId: Id): Outcome
    requires input.event in db.events
  {
    var account := EventTx(db, input).account;
    if shortfall <= 0 then Ok(db)
    else if account !in db.accounts then Err(UnknownAccount)
    else if !db.accounts[account].isProtected || input.topUp.None? then Err(InsufficientFunds)
    else
      var source := input.topUp.value;
      if source !in db.accounts then Err(UnknownAccount)
      else if db.accounts[source].isProtected || source == account then Err(InvalidSavings)
      else if BalanceOf(db, source) < shortfall then Err(InsufficientFunds)
      else if KeyUsed(db, EventFunding(input.event)) then Err(AlreadyPaid)
      else AddTx(db, fundingId,
        PlainTx(Transfer, shortfall, source, Some(account), None, EventTx(db, input).date, Manual)
          .(occurrence := Some(EventFunding(input.event))))
  }

  /** The expense itself, the event's pointer to it, and the goal it completes. */
  function RecordEventPayment(db: Db, e: Id, event: Event, t: Tx, paymentId: Id): Outcome {
    match AddTx(db, paymentId, t)
    case Err(error) => Err(error)
    case Ok(paid) =>
      Ok(paid.(events := db.events[e := event.(account := t.account, paid := Some(paymentId))],
               goals := UseGoal(db, event, t.account == event.account, t.date)))
  }

  predicate PaysEvent(t: Tx, e: Id) { t.plannedEvent == Some(e) }

  ghost function PayEvent(db: Db, input: EventInput, paymentId: Id, fundingId: Id): Outcome
    requires input.event in db.events
  {
    var event := db.events[input.event];
    var t := EventTx(db, input);
    if event.plannedAmount <= 0 then Err(InvalidAmount)
    else if t.account !in db.accounts then Err(UnknownAccount)
    else if CategoryError(db, event.category, ForExpense).Some?
      then Err(CategoryError(db, event.category, ForExpense).value)
    else
      match TopUp(db, input, t.amount - BalanceOf(db, t.account), fundingId)
      case Err(e) => Err(e)
      case Ok(funded) => RecordEventPayment(funded, input.event, event, t, paymentId)
  }

  ghost function MarkEventPaid(db: Db, input: EventInput, paymentId: Id, fundingId: Id): Outcome {
    if input.event !in db.events then Err(UnknownEvent)
    else
      var event := db.events[input.event];
      if event.paid.Some? then Ok(db)
      else if exists t :: t in db.transactions && PaysEvent(db.transactions[t], input.event) then
        var t :| t in db.transactions && PaysEvent(db.transactions[t], input.event);
        Ok(db.(events := db.events[input.event := event.(paid := Some(t))],
               goals := UseGoal(db, event, db.transactions[t].account == event.account, db.transactions[t].date)))
      else PayEvent(db, input, paymentId, fundingId)
  }

  function SaveEvent(db: Db, id: Id, event: Event): Outcome {
    if event.plannedAmount < 0 then Err(InvalidAmount)
    else if id in db.events && db.events[id].paid.Some?
            && (db.events[id].account != event.account || db.events[id].linkedGoal != event.linkedGoal)
              then Err(EventPaid)
    else if event.account !in db.accounts then Err(UnknownAccount)
    else if CategoryError(db, event.category, ForExpense).Some?
      then Err(CategoryError(db, event.category, ForExpense).value)
    else if event.linkedGoal.Some? && event.linkedGoal.value !in db.goals then Err(UnknownGoal)
    else if event.paid.Some?
            && (event.paid.value !in db.transactions || !PaysEvent(db.transactions[event.paid.value], id)
                || db.transactions[event.paid.value].source != PlannedEventPlan
                || db.transactions[event.paid.value].kind != Expense) then Err(InvalidTransaction)
    else Ok(db.(events := db.events[id := event]))
  }

  function DeleteEvent(db: Db, id: Id): Outcome {
    if id in db.events && db.events[id].paid.Some? then Err(EventPaid) else Ok(db.(events := db.events - {id}))
  }

  // ---- Debts ----

  datatype DebtInput = DebtInput(debt: Id, personal: bool, account: Option<Id>, category: Option<Id>, amount: int,
                                 date: Date)

  function DebtTx(input: DebtInput, paymentId: Id, account: Id): Tx {
    PlainTx(Expense, input.amount, account, None, input.category, input.date, DebtPlan).(debtPayment := Some(paymentId))
  }

  ghost function StoreRepayment(db: Db, input: DebtInput, paymentId: Id, transaction: Option<Id>,
                                remaining: int): Outcome
    requires input.debt in db.debts
  {
    if paymentId in db.payments
       || (transaction.Some? && exists p :: p in db.payments && db.payments[p].transaction == transaction)
         then Err(DuplicateKey)
    else Ok(db.(
      payments := db.payments[paymentId := Payment(input.debt, input.amount, transaction)],
      debts := if input.amount == remaining then db.debts[input.debt := db.debts[input.debt].(paid := true)]
        else db.debts))
  }

  ghost function RecordDebtPayment(db: Db, input: DebtInput, paymentId: Id, newId: Id): Outcome {
    if input.debt !in db.debts then Err(UnknownDebt)
    else
      var remaining := Remaining(db, input.debt);
      if remaining == 0 || input.amount <= 0 || input.amount > remaining then Err(InvalidAmount)
      else if !input.personal then StoreRepayment(db, input, paymentId, None, remaining)
      else if input.account.None? || input.category.None? then Err(InvalidTransaction)
      else if input.account.value !in db.accounts then Err(UnknownAccount)
      else if CategoryError(db, input.category.value, ForExpense).Some?
      then Err(CategoryError(db, input.category.value, ForExpense).value)
      else if FundsError(db, input.account.value, input.amount).Some?
      then Err(FundsError(db, input.account.value, input.amount).value)
      else
        match AddTx(db, newId, DebtTx(input, paymentId, input.account.value))
        case Err(e) => Err(e)
        case Ok(paid) => StoreRepayment(paid, input, paymentId, Some(newId), remaining)
  }

  ghost function SaveDebt(db: Db, id: Id, debt: Debt): Outcome {
    var paid := PaidSum(db, id);
    if debt.original <= 0 then Err(InvalidAmount)
    else if paid > debt.original then Err(DebtMismatch)
    else if (paid == debt.original && !debt.paid) || (paid < debt.original && debt.paid) then Err(DebtMismatch)
    else Ok(db.(debts := db.debts[id := debt]))
  }

  function DeleteDebt(db: Db, id: Id): Outcome {
    if exists p :: p in db.payments && db.payments[p].debt == id then Err(DebtHasHistory)
    else Ok(db.(debts := db.debts - {id}))
  }

  // ---- Deleting a transaction ----

  /** The row a unique occurrence key names. */
  ghost function ByKey(transactions: Transactions, key: OccurrenceKey): (found: Option<Id>)
    ensures found.Some? ==> found.value in transactions && HasKey(transactions[found.value], key)
    ensures found.None? ==> forall t :: t in transactions ==> !HasKey(transactions[t], key)
  {
    if t :| t in transactions && HasKey(transactions[t], key) then Some(t) else None
  }

  /** Accounts stay, and every row that stays is unchanged. */
  predicate OnlyRemoves(db: Db, after: Db) {
    after.accounts == db.accounts
    && forall t :: t in after.transactions ==> t in db.transactions && after.transactions[t] == db.transactions[t]
  }

  function RemoveTx(db: Db, id: Option<Id>): (after: Db)
    ensures OnlyRemoves(db, after)
  {
    match id
    case None => db
    case Some(t) => db.(transactions := db.transactions - {t})
  }

  /** A commitment payment takes its funding transfer with it. */
  ghost function DropCommitmentFunding(db: Db, t: Tx): (after: Db)
    ensures OnlyRemoves(db, after)
  {
    if t.source == CommitmentPlan && t.occurrence.Some?
    then RemoveTx(db, ByKey(db.transactions, CommitmentFunding(t.occurrence.value))) else db
  }

  predicate OtherCompletion(db: Db, e: Id, g: Id)
    requires g in db.goals
  {
    exists o :: o in db.events && o != e && db.events[o].paid.Some? && Completes(g, db.goals[g], db.events[o])
  }

  /** A goal used by this event becomes available again, unless another paid event completed it too. */
  function ReopenGoal(db: Db, e: Id): map<Id, Goal>
    requires e in db.events
  {
    var link := db.events[e].linkedGoal;
    if link.Some? && link.value in db.goals && db.goals[link.value].usedAt.Some?
       && Completes(link.value, db.goals[link.value], db.events[e]) && !OtherCompletion(db, e, link.value)
    then db.goals[link.value := db.goals[link.value].(usedAt := None)] else db.goals
  }

  /** An event expense clears its event, and takes its top-up with it. */
  ghost function DropEventLink(db: Db, id: Id, t: Tx): (after: Db)
    ensures OnlyRemoves(db, after)
  {
    if t.plannedEvent.None? || t.plannedEvent.value !in db.events || db.events[t.plannedEvent.value].paid != Some(id)
      then db
    else
      var e := t.plannedEvent.value;
      RemoveTx(
        db.(events := db.events[e := db.events[e].(paid := None)], goals := ReopenGoal(db, e)),
        ByKey(db.transactions, EventFunding(e)))
  }

  /** A personal repayment goes with its transaction, and the debt's status is recomputed. */
  ghost function DropRepayment(db: Db, id: Id, t: Tx): (after: Db)
    ensures OnlyRemoves(db, after)
  {
    if t.debtPayment.None? || t.debtPayment.value !in db.payments
      || db.payments[t.debtPayment.value].transaction != Some(id) then db
    else
      var d := db.payments[t.debtPayment.value].debt;
      var less := db.(payments := db.payments - {t.debtPayment.value});
      if d !in db.debts then less
      else less.(debts := db.debts[d := db.debts[d].(paid := Remaining(less, d) == 0)])
  }

  function DeleteError(db: Db, t: Tx): Option<CommandError> {
    if IsFunding(t) && KeyUsed(db, t.occurrence.value.payment) then Some(FundedPayment)
    else if t.occurrence.Some? && t.occurrence.value.EventFunding? && t.occurrence.value.event in db.events
            && db.events[t.occurrence.value.event].paid.Some? then Some(EventPaid)
    else None
  }

  /** The tables after all deletions, before the balances are checked. */
  ghost function AfterDelete(db: Db, id: Id): Db
    requires id in db.transactions
  {
    var t := db.transactions[id];
    RemoveTx(DropRepayment(DropEventLink(DropCommitmentFunding(db, t), id, t), id, t), Some(id))
  }

  ghost function DeleteTransaction(db: Db, id: Id): Outcome {
    if id !in db.transactions then Ok(db)
    else
      var t := db.transactions[id];
      if DeleteError(db, t).Some? then Err(DeleteError(db, t).value)
      else
        var after := AfterDelete(db, id);
        if exists a :: a in after.accounts && BalanceOf(after, a) < 0 then Err(NegativeBalance) else Ok(after)
  }
}
