/**
 * The finance ledger: accounts, transactions and balances (src/domain/calculations.ts, 18-98).
 */
module Ledger {
  import opened Wrappers
  import opened Sums

  type Id = nat
  type Date = nat

  datatype TxType = Income | Expense | Transfer | Adjustment

  datatype Source = Manual | QuickAdd | CommitmentPlan | PlannedIncomePlan | PlannedEventPlan | GoalPlan | DebtPlan
    | AdjustmentEntry

  /** Occurrence keys, with their prefixes kept apart. */
  datatype OccurrenceKey =
    | CommitmentKey(commitment: Id, due: Date)
    | CommitmentFunding(payment: OccurrenceKey)
    | EventFunding(event: Id)
    | IncomeKey(income: Id, due: Date)

  datatype Tx = Tx(
    kind: TxType, amount: int, account: Id, toAccount: Option<Id>, category: Option<Id>, date: Date,
    source: Source, occurrence: Option<OccurrenceKey>,
    plannedIncome: Option<Id>, plannedEvent: Option<Id>, goal: Option<Id>, debtPayment: Option<Id>)

  datatype Account = Account(opening: int, isProtected: bool, archived: bool)

  type Accounts = map<Id, Account>
  type Transactions = map<Id, Tx>

  /** What a transaction does to one account. */
  function Effect(t: Tx, a: Id): int {
    if t.kind == Transfer then
      (if t.account == a then -t.amount else 0) + (if t.toAccount == Some(a) then t.amount else 0)
    else if t.account != a then 0
    else if t.kind == Expense then -t.amount else t.amount
  }

  function EffectOn(a: Id): (Id, Tx) -> int { (id: Id, t: Tx) => Effect(t, a) }

  ghost function Balance(accounts: Accounts, transactions: Transactions, a: Id): int
    requires a in accounts
  {
    accounts[a].opening + Total(transactions, EffectOn(a))
  }

  lemma BalanceAfterPut(accounts: Accounts, transactions: Transactions, id: Id, t: Tx, a: Id)
    requires a in accounts
    ensures Balance(accounts, transactions[id := t], a) ==
      Balance(accounts, transactions, a) + Effect(t, a) - if id in transactions then Effect(transactions[id], a) else 0
  {
    TotalAfterPut(transactions, EffectOn(a), id, t);
  }

  function Moved(balances: map<Id, int>, a: Id, amount: int): map<Id, int> {
    if a in balances then balances[a := balances[a] + amount] else balances
  }

  /** One transaction's effect on the listed accounts. */
  function AfterRow(balances: map<Id, int>, t: Tx): map<Id, int> {
    if t.kind == Transfer then
      var left := Moved(balances, t.account, -t.amount);
      if t.toAccount.Some? then Moved(left, t.toAccount.value, t.amount) else left
    else Moved(balances, t.account, if t.kind == Expense then -t.amount else t.amount)
  }

  lemma AfterRowMoves(balances: map<Id, int>, t: Tx)
    ensures AfterRow(balances, t).Keys == balances.Keys
    ensures forall a :: a in balances ==> AfterRow(balances, t)[a] == balances[a] + Effect(t, a)
  {}

  /** `calculateAccountBalances`: one pass over the rows, skipping accounts that are not listed. */
  method CalculateAccountBalances(accounts: Accounts, transactions: Transactions) returns (balances: map<Id, int>)
    ensures balances.Keys == accounts.Keys
    ensures forall a :: a in accounts ==> balances[a] == Balance(accounts, transactions, a)
  {
    balances := map a | a in accounts :: accounts[a].opening;
    var todo := transactions.Keys;
    ghost var done: Transactions := map[];
    while todo != {}
      invariant todo !! done.Keys && todo + done.Keys == transactions.Keys
      invariant forall id :: id in done ==> done[id] == transactions[id]
      invariant balances.Keys == accounts.Keys
      invariant forall a :: a in accounts ==> balances[a] == Balance(accounts, done, a)
      decreases todo
    {
      var id :| id in todo;
      var t := transactions[id];
      forall a | a in accounts
        ensures Balance(accounts, done[id := t], a) == Balance(accounts, done, a) + Effect(t, a)
      {
        BalanceAfterPut(accounts, done, id, t, a);
      }
      AfterRowMoves(balances, t);
      balances := AfterRow(balances, t);
      todo, done := todo - {id}, done[id := t];
    }
    assert done == transactions;
  }

  // ---- Reconciliation ----

  function Opening(): (Id, Account) -> int { (id: Id, a: Account) => a.opening }

  function InScope(accounts: Accounts, kind: TxType): (Id, Tx) -> int {
    (id: Id, t: Tx) => if t.account in accounts && t.kind == kind then t.amount else 0
  }

  datatype Reconciliation = Reconciliation(expected: int, actual: int, difference: int)

  ghost function ActualTotal(accounts: Accounts, transactions: Transactions): int {
    Total(accounts, (id: Id, a: Account) => a.opening + Total(transactions, EffectOn(id)))
  }

  /** `reconcileCashLedger` */
  ghost function Reconcile(accounts: Accounts, transactions: Transactions): Reconciliation {
    var expected := Total(accounts, Opening()) + Total(transactions, InScope(accounts, Income))
      - Total(transactions, InScope(accounts, Expense)) + Total(transactions, InScope(accounts, Adjustment));
    var actual := ActualTotal(accounts, transactions);
    Reconciliation(expected, actual, actual - expected)
  }

  /** What a transfer adds to the difference: its destination's side less its source's. */
  function Gap(accounts: Accounts): (Id, Tx) -> int {
    (id: Id, t: Tx) =>
      if t.kind != Transfer then 0
      else (if t.toAccount.Some? && t.toAccount.value in accounts then t.amount else 0)
           - (if t.account in accounts then t.amount else 0)
  }

  function TotalEffect(accounts: Accounts, t: Tx): int {
    if t.kind == Transfer then Gap(accounts)(0, t)
    else if t.account !in accounts then 0
    else if t.kind == Expense then -t.amount else t.amount
  }

  function EffectOf(t: Tx): (Id, Account) -> int { (id: Id, a: Account) => Effect(t, id) }

  lemma {:induction false} EffectsAddUp(accounts: Accounts, t: Tx)
    ensures Total(accounts, EffectOf(t)) == TotalEffect(accounts, t)
    decreases accounts.Keys
  {
    if accounts.Keys != {} {
      var id :| id in accounts.Keys;
      TotalWithout(accounts, EffectOf(t), id);
      EffectsAddUp(accounts - {id}, t);
    }
  }

  lemma {:induction false} SumsAddUp<K, V>(m: map<K, V>, f: (K, V) -> int, g: (K, V) -> int, sum: (K, V) -> int)
    requires forall k :: k in m ==> sum(k, m[k]) == f(k, m[k]) + g(k, m[k])
    ensures Total(m, sum) == Total(m, f) + Total(m, g)
    decreases m.Keys
  {
    if m.Keys != {} {
      var k :| k in m.Keys;
      TotalWithout(m, f, k);
      TotalWithout(m, g, k);
      TotalWithout(m, sum, k);
      SumsAddUp(m - {k}, f, g, sum);
    }
  }

  /** The accounts together change by each transaction's total effect. */
  lemma {:induction false} ActualAddsUp(accounts: Accounts, transactions: Transactions)
    ensures ActualTotal(accounts, transactions) ==
      Total(accounts, Opening()) + Total(transactions, (id: Id, t: Tx) => TotalEffect(accounts, t))
    decreases transactions.Keys
  {
    var effects := (id: Id, t: Tx) => TotalEffect(accounts, t);
    var balances := (id: Id, a: Account) => a.opening + Total(transactions, EffectOn(id));
    if transactions.Keys == {} {
      TotalCongruent(accounts, balances, Opening());
    } else {
      var k :| k in transactions.Keys;
      var rest := transactions - {k};
      var without := (id: Id, a: Account) => a.opening + Total(rest, EffectOn(id));
      forall id | id in accounts
        ensures balances(id, accounts[id]) == without(id, accounts[id]) + EffectOf(transactions[k])(id, accounts[id])
      {
        TotalWithout(transactions, EffectOn(id), k);
      }
      SumsAddUp(accounts, without, EffectOf(transactions[k]), balances);
      EffectsAddUp(accounts, transactions[k]);
      ActualAddsUp(accounts, rest);
      TotalWithout(transactions, effects, k);
      TotalCongruent(accounts, without, (id: Id, a: Account) => a.opening + Total(rest, EffectOn(id)));
    }
  }

  lemma {:induction false} EffectsByKind(accounts: Accounts, transactions: Transactions)
    ensures Total(transactions, (id: Id, t: Tx) => TotalEffect(accounts, t)) ==
      Total(transactions, InScope(accounts, Income)) - Total(transactions, InScope(accounts, Expense))
      + Total(transactions, InScope(accounts, Adjustment)) + Total(transactions, Gap(accounts))
    decreases transactions.Keys
  {
    if transactions.Keys != {} {
      var k :| k in transactions.Keys;
      TotalWithout(transactions, (id: Id, t: Tx) => TotalEffect(accounts, t), k);
      TotalWithout(transactions, InScope(accounts, Income), k);
      TotalWithout(transactions, InScope(accounts, Expense), k);
      TotalWithout(transactions, InScope(accounts, Adjustment), k);
      TotalWithout(transactions, Gap(accounts), k);
      EffectsByKind(accounts, transactions - {k});
    }
  }

  /** The difference is exactly what the one-sided transfers leave over. */
  lemma DifferenceIsOneSidedTransfers(accounts: Accounts, transactions: Transactions)
    ensures Reconcile(accounts, transactions).difference == Total(transactions, Gap(accounts))
  {
    ActualAddsUp(accounts, transactions);
    EffectsByKind(accounts, transactions);
  }

  /** Every row's accounts exist. */
  predicate Referential(accounts: Accounts, transactions: Transactions) {
    forall id :: id in transactions ==>
      && transactions[id].account in accounts
      && (transactions[id].kind == Transfer ==>
            transactions[id].toAccount.Some? && transactions[id].toAccount.value in accounts)
  }

  lemma ReferentialReconciles(accounts: Accounts, transactions: Transactions)
    requires Referential(accounts, transactions)
    ensures Reconcile(accounts, transactions).difference == 0
  {
    DifferenceIsOneSidedTransfers(accounts, transactions);
    TotalOfZero(transactions, Gap(accounts));
  }
}
