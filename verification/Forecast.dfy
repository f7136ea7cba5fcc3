/**
 * The cash forecast (src/domain/forecast.ts, 87-342): what each month does to spendable
 * cash, protected balances, goals and debts, and the conservation laws over the horizon.
 */
module Forecast {
  import opened Wrappers
  import opened Sums

  type Id = nat

  datatype Account = Account(isProtected: bool, archived: bool)

  datatype Goal = Goal(id: Id, linkedAccount: Id, target: nat, archived: bool, sinking: bool)

  datatype Flow = Flow(account: Id, amount: nat)

  datatype EventPlan = EventPlan(account: Id, amount: nat, linkedGoal: Option<Id>)

  /**
   * One month's plan: unreceived incomes, unpaid commitments, what is left of the budgets,
   * the unpaid events, and for each goal and debt what is still planned for the month.
   * `open` says whether the goal's target month has not passed and its purpose is not done.
   */
  datatype Month = Month(
    incomes: seq<Flow>, commitments: seq<Flow>, budgets: nat, events: seq<EventPlan>,
    contribution: Id -> nat, open: Id -> bool, repayment: Id -> nat)

  datatype Input = Input(accounts: map<Id, Account>, goals: seq<Goal>, debts: seq<Id>)

  datatype State = State(
    spendable: int, vaults: map<Id, int>, goalBalances: map<Id, int>, goalUsed: set<Id>, debtRemaining: map<Id, int>)

  function Max(a: int, b: int): int { if a < b then b else a }
  function Min(a: int, b: int): int { if a < b then a else b }

  /** An active protected account. */
  predicate IsVault(input: Input, a: Id) {
    a in input.accounts && input.accounts[a].isProtected && !input.accounts[a].archived
  }

  function ValueOf(m: map<Id, int>, k: Id): int { if k in m then m[k] else 0 }

  function BalanceIn(): (Id, int) -> int { (a: Id, v: int) => v }

  /** Spendable and protected money together. */
  ghost function TotalCash(s: State): int { s.spendable + Total(s.vaults, BalanceIn()) }

  // ---- Moving money ----

  /** `adjustGoalBalances` over the first goals of the list. */
  function AdjustGoals(balances: map<Id, int>, goals: seq<Goal>, a: Id, amount: int): map<Id, int> {
    if goals == [] then balances
    else
      var g := goals[|goals| - 1];
      var rest := AdjustGoals(balances, goals[..|goals| - 1], a, amount);
      if g.linkedAccount == a then rest[g.id := Max(0, ValueOf(rest, g.id) + amount)] else rest
  }

  /** Moves a protected balance and the goals that follow it. */
  function MoveVault(s: State, input: Input, a: Id, amount: int): State {
    s.(vaults := s.vaults[a := Max(0, ValueOf(s.vaults, a) + amount)],
       goalBalances := AdjustGoals(s.goalBalances, input.goals, a, amount))
  }

  /** What a protected account can cover of a payment; the rest is spendable cash. */
  function Covered(s: State, a: Id, amount: nat): int { Min(amount, Max(0, ValueOf(s.vaults, a))) }

  /** `applyToAccount` with a non-negative amount. */
  function Receive(s: State, input: Input, f: Flow): State {
    if IsVault(input, f.account) then MoveVault(s, input, f.account, f.amount)
    else s.(spendable := s.spendable + f.amount)
  }

  /** `applyToAccount` with minus that amount, and the same rule for a planned event. */
  function Pay(s: State, input: Input, f: Flow): State {
    if IsVault(input, f.account) then
      var covered := Covered(s, f.account, f.amount);
      MoveVault(s, input, f.account, -covered).(spendable := s.spendable - (f.amount - covered))
    else s.(spendable := s.spendable - f.amount)
  }

  function ReceiveAll(s: State, input: Input, flows: seq<Flow>): State {
    if flows == [] then s else Receive(ReceiveAll(s, input, flows[..|flows| - 1]), input, flows[|flows| - 1])
  }

  function PayAll(s: State, input: Input, flows: seq<Flow>): State {
    if flows == [] then s else Pay(PayAll(s, input, flows[..|flows| - 1]), input, flows[|flows| - 1])
  }

  function Amounts(flows: seq<Flow>): nat {
    if flows == [] then 0 else Amounts(flows[..|flows| - 1]) + flows[|flows| - 1].amount
  }

  // ---- Savings ----

  /** `getEffectiveGoalContribution`: the rest of the month's plan, capped by the rest of the target. */
  function Contribution(s: State, g: Goal, month: Month): nat {
    if g.archived || g.id in s.goalUsed || !month.open(g.id) then 0
    else Min(month.contribution(g.id), Max(0, g.target - Max(0, ValueOf(s.goalBalances, g.id))))
  }

  function Contribute(s: State, input: Input, g: Goal, month: Month): State {
    var amount := Contribution(s, g, month);
    if amount <= 0 then s else Receive(s.(spendable := s.spendable - amount), input, Flow(g.linkedAccount, amount))
  }

  function ContributeAll(s: State, input: Input, goals: seq<Goal>, month: Month): State {
    if goals == [] then s
    else Contribute(ContributeAll(s, input, goals[..|goals| - 1], month), input, goals[|goals| - 1], month)
  }

  function SavedIn(s: State, input: Input, goals: seq<Goal>, month: Month): nat {
    if goals == [] then 0
    else
      var n := |goals| - 1;
      SavedIn(s, input, goals[..n], month) + Contribution(ContributeAll(s, input, goals[..n], month), goals[n], month)
  }

  // ---- Events ----

  function FindGoal(goals: seq<Goal>, id: Id): Option<Goal> {
    if goals == [] then None else if goals[0].id == id then Some(goals[0]) else FindGoal(goals[1..], id)
  }

  /** A positive planned event on a sinking goal's own account uses the goal up. */
  function UsedBy(input: Input, e: EventPlan): set<Id> {
    if e.amount == 0 || e.linkedGoal.None? then {}
    else
      match FindGoal(input.goals, e.linkedGoal.value)
      case None => {}
      case Some(g) => if g.sinking && e.account == g.linkedAccount then {g.id} else {}
  }

  function HoldEvent(s: State, input: Input, e: EventPlan): State {
    var paid := Pay(s, input, Flow(e.account, e.amount));
    paid.(goalUsed := paid.goalUsed + UsedBy(input, e))
  }

  function HoldEvents(s: State, input: Input, events: seq<EventPlan>): State {
    if events == [] then s else HoldEvent(HoldEvents(s, input, events[..|events| - 1]), input, events[|events| - 1])
  }

  function EventAmounts(events: seq<EventPlan>): nat {
    if events == [] then 0 else EventAmounts(events[..|events| - 1]) + events[|events| - 1].amount
  }

  // ---- Debts ----

  function Repayment(s: State, debt: Id, month: Month): int {
    Min(month.repayment(debt), Max(0, ValueOf(s.debtRemaining, debt)))
  }

  function Repay(s: State, debt: Id, month: Month): State {
    var remaining := Max(0, ValueOf(s.debtRemaining, debt));
    var payment := Repayment(s, debt, month);
    s.(spendable := s.spendable - payment, debtRemaining := s.debtRemaining[debt := remaining - payment])
  }

  function RepayAll(s: State, debts: seq<Id>, month: Month): State {
    if debts == [] then s else Repay(RepayAll(s, debts[..|debts| - 1], month), debts[|debts| - 1], month)
  }

  function RepaidIn(s: State, debts: seq<Id>, month: Month): int {
    if debts == [] then 0
    else
      var n := |debts| - 1;
      RepaidIn(s, debts[..n], month) + Repayment(RepayAll(s, debts[..n], month), debts[n], month)
  }

  // ---- A month ----

  datatype MonthReport = MonthReport(
    plannedIncome: int, plannedExpenses: int, savings: int, repaid: int, planBalance: int,
    spendable: int, protectedBalance: int, totalCash: int,
    goalBalances: map<Id, int>, debtRemaining: map<Id, int>)

  /** The stages of a month, in the order they are simulated. */
  function AfterCommitments(s: State, input: Input, m: Month): State {
    PayAll(ReceiveAll(s, input, m.incomes), input, m.commitments)
  }

  function AfterBudgets(s: State, input: Input, m: Month): State {
    var paid := AfterCommitments(s, input, m);
    paid.(spendable := paid.spendable - m.budgets)
  }

  function AfterSavings(s: State, input: Input, m: Month): State {
    ContributeAll(AfterBudgets(s, input, m), input, input.goals, m)
  }

  function AfterEvents(s: State, input: Input, m: Month): State {
    HoldEvents(AfterSavings(s, input, m), input, m.events)
  }

  function AfterMonth(s: State, input: Input, m: Month): State {
    RepayAll(AfterEvents(s, input, m), input.debts, m)
  }

  ghost function MonthResult(s: State, input: Input, m: Month): MonthReport {
    var income := Amounts(m.incomes);
    var repaid := RepaidIn(AfterEvents(s, input, m), input.debts, m);
    var expenses := Amounts(m.commitments) + m.budgets + EventAmounts(m.events) + repaid;
    var savings := SavedIn(AfterBudgets(s, input, m), input, input.goals, m);
    var after := AfterMonth(s, input, m);
    MonthReport(income, expenses, savings, repaid, income - expenses - savings, after.spendable,
           Total(after.vaults, BalanceIn()), TotalCash(after), after.goalBalances, after.debtRemaining)
  }

  function AfterMonths(s: State, input: Input, months: seq<Month>): State {
    if |months| == 0 then s else AfterMonth(AfterMonths(s, input, months[..|months| - 1]), input, months[|months| - 1])
  }

  // ---- The starting state ----

  /** The spendable share of an account's balance: all of it, when active and not protected. */
  function SpendableIn(balances: map<Id, int>): (Id, Account) -> int {
    (a: Id, account: Account) => if account.archived || account.isProtected then 0 else ValueOf(balances, a)
  }

  /** Balances as the ledger has them; goals and vaults never start below zero. */
  ghost predicate StartsFrom(s: State, input: Input, balances: map<Id, int>) {
    && s.spendable == Total(input.accounts, SpendableIn(balances))
    && (forall a :: a in s.vaults <==> IsVault(input, a))
    && (forall a :: a in s.vaults ==> s.vaults[a] == Max(0, ValueOf(balances, a)))
    && (forall g :: g in input.goals ==>
         g.id in s.goalBalances && s.goalBalances[g.id] == Max(0, ValueOf(balances, g.linkedAccount)))
    && (forall d :: d in input.debts ==> d in s.debtRemaining && s.debtRemaining[d] >= 0)
  }

  // ---- Invariants ----

  predicate UniqueGoals(goals: seq<Goal>) {
    forall i, j :: 0 <= i < j < |goals| ==> goals[i].id != goals[j].id
  }

  /** Vaults are exactly the active protected accounts, none below zero. */
  ghost predicate VaultsValid(s: State, input: Input) {
    (forall a :: a in s.vaults <==> IsVault(input, a)) && forall a :: a in s.vaults ==> s.vaults[a] >= 0
  }

  /** A goal's balance is the protected balance of its linked account. */
  predicate GoalMatches(s: State, input: Input, g: Goal) {
    IsVault(input, g.linkedAccount) ==>
      g.id in s.goalBalances && g.linkedAccount in s.vaults && s.goalBalances[g.id] == s.vaults[g.linkedAccount]
  }

  predicate GoalsMatch(s: State, input: Input) {
    forall g :: g in input.goals ==> GoalMatches(s, input, g)
  }

  predicate DebtsValid(s: State, input: Input) {
    forall d :: d in input.debts ==> d in s.debtRemaining && s.debtRemaining[d] >= 0
  }

  ghost predicate Valid(s: State, input: Input) {
    VaultsValid(s, input) && GoalsMatch(s, input) && DebtsValid(s, input)
  }

  lemma StartIsValid(s: State, input: Input, balances: map<Id, int>)
    requires StartsFrom(s, input, balances)
    ensures Valid(s, input)
  {}

  // ---- Moving money keeps vaults and goals together ----

  lemma {:induction false} AdjustedGoal(balances: map<Id, int>, goals: seq<Goal>, a: Id, amount: int, g: Goal)
    requires UniqueGoals(goals) && g in goals
    ensures ValueOf(AdjustGoals(balances, goals, a, amount), g.id) ==
      if g.linkedAccount == a then Max(0, ValueOf(balances, g.id) + amount) else ValueOf(balances, g.id)
    ensures g.id in balances ==> g.id in AdjustGoals(balances, goals, a, amount)
  {
    var n := |goals| - 1;
    assert goals[n] in goals && UniqueGoals(goals[..n]);
    if g in goals[..n] {
      var i :| 0 <= i < n && goals[..n][i] == g;
      assert goals[i].id != goals[n].id;
      AdjustedGoal(balances, goals[..n], a, amount, g);
    } else {
      UnlistedGoal(balances, goals[..n], a, amount, g.id);
    }
  }

  lemma {:induction false} UnlistedGoal(balances: map<Id, int>, goals: seq<Goal>, a: Id, amount: int, id: Id)
    requires forall g :: g in goals ==> g.id != id
    ensures id in AdjustGoals(balances, goals, a, amount) <==> id in balances
    ensures ValueOf(AdjustGoals(balances, goals, a, amount), id) == ValueOf(balances, id)
  {
    if goals != [] {
      assert goals[|goals| - 1] in goals;
      UnlistedGoal(balances, goals[..|goals| - 1], a, amount, id);
    }
  }

  lemma MoveKeepsValid(s: State, input: Input, a: Id, amount: int)
    requires UniqueGoals(input.goals) && Valid(s, input) && IsVault(input, a) && s.vaults[a] + amount >= 0
    ensures Valid(MoveVault(s, input, a, amount), input)
    ensures Total(MoveVault(s, input, a, amount).vaults, BalanceIn()) == Total(s.vaults, BalanceIn()) + amount
  {
    var after := MoveVault(s, input, a, amount);
    TotalAfterPut(s.vaults, BalanceIn(), a, s.vaults[a] + amount);
    forall g | g in input.goals ensures GoalMatches(after, input, g) {
      AdjustedGoal(s.goalBalances, input.goals, a, amount, g);
      assert GoalMatches(s, input, g);
    }
  }

  lemma ReceiveConserves(s: State, input: Input, f: Flow)
    requires UniqueGoals(input.goals) && Valid(s, input)
    ensures Valid(Receive(s, input, f), input)
    ensures TotalCash(Receive(s, input, f)) == TotalCash(s) + f.amount
  {
    if IsVault(input, f.account) { MoveKeepsValid(s, input, f.account, f.amount); }
    else { SpendableOnly(s, input, s.spendable + f.amount); }
  }

  lemma PayConserves(s: State, input: Input, f: Flow)
    requires UniqueGoals(input.goals) && Valid(s, input)
    ensures Valid(Pay(s, input, f), input)
    ensures TotalCash(Pay(s, input, f)) == TotalCash(s) - f.amount
  {
    if IsVault(input, f.account) {
      var covered := Covered(s, f.account, f.amount);
      MoveKeepsValid(s, input, f.account, -covered);
      SpendableOnly(MoveVault(s, input, f.account, -covered), input, s.spendable - (f.amount - covered));
    } else {
      SpendableOnly(s, input, s.spendable - f.amount);
    }
  }

  lemma SpendableOnly(s: State, input: Input, spendable: int)
    requires Valid(s, input)
    ensures Valid(s.(spendable := spendable), input)
  {
    forall g | g in input.goals
      ensures GoalMatches(s.(spendable := spendable), input, g)
    {
      assert GoalMatches(s, input, g);
    }
  }

  lemma {:induction false} ReceiveAllConserves(s: State, input: Input, flows: seq<Flow>)
    requires UniqueGoals(input.goals) && Valid(s, input)
    ensures Valid(ReceiveAll(s, input, flows), input)
    ensures TotalCash(ReceiveAll(s, input, flows)) == TotalCash(s) + Amounts(flows)
    decreases |flows|
  {
    if flows != [] {
      var n := |flows| - 1;
      ReceiveAllConserves(s, input, flows[..n]);
      ReceiveConserves(ReceiveAll(s, input, flows[..n]), input, flows[n]);
    }
  }

  lemma {:induction false} PayAllConserves(s: State, input: Input, flows: seq<Flow>)
    requires UniqueGoals(input.goals) && Valid(s, input)
    ensures Valid(PayAll(s, input, flows), input)
    ensures TotalCash(PayAll(s, input, flows)) == TotalCash(s) - Amounts(flows)
    decreases |flows|
  {
    if flows != [] {
      var n := |flows| - 1;
      PayAllConserves(s, input, flows[..n]);
      PayConserves(PayAll(s, input, flows[..n]), input, flows[n]);
    }
  }

  // ---- Savings are neutral and capped ----

  /** A contribution moves money without changing the total, and never lifts a goal past its target. */
  lemma ContributionIsNeutral(s: State, input: Input, g: Goal, month: Month)
    requires UniqueGoals(input.goals) && Valid(s, input) && g in input.goals
    ensures
      var after := Contribute(s, input, g, month);
      && Valid(after, input) && TotalCash(after) == TotalCash(s)
      && ValueOf(after.goalBalances, g.id) <= Max(g.target, ValueOf(s.goalBalances, g.id))
      && (IsVault(input, g.linkedAccount) ==>
           ValueOf(after.goalBalances, g.id) == ValueOf(s.goalBalances, g.id) + Contribution(s, g, month))
  {
    var amount := Contribution(s, g, month);
    if amount > 0 {
      SpendableOnly(s, input, s.spendable - amount);
      ReceiveConserves(s.(spendable := s.spendable - amount), input, Flow(g.linkedAccount, amount));
      assert GoalMatches(s, input, g);
      AdjustedGoal(s.goalBalances, input.goals, g.linkedAccount, amount, g);
    }
  }

  lemma {:induction false} ContributeAllIsNeutral(s: State, input: Input, goals: seq<Goal>, month: Month)
    requires UniqueGoals(input.goals) && Valid(s, input) && forall g :: g in goals ==> g in input.goals
    ensures Valid(ContributeAll(s, input, goals, month), input)
    ensures TotalCash(ContributeAll(s, input, goals, month)) == TotalCash(s)
    decreases |goals|
  {
    if goals != [] {
      var n := |goals| - 1;
      assert goals[n] in goals && forall g :: g in goals[..n] ==> g in goals;
      ContributeAllIsNeutral(s, input, goals[..n], month);
      ContributionIsNeutral(ContributeAll(s, input, goals[..n], month), input, goals[n], month);
    }
  }

  // ---- Events and debts ----

  lemma {:induction false} EventsConserve(s: State, input: Input, events: seq<EventPlan>)
    requires UniqueGoals(input.goals) && Valid(s, input)
    ensures Valid(HoldEvents(s, input, events), input)
    ensures TotalCash(HoldEvents(s, input, events)) == TotalCash(s) - EventAmounts(events)
    decreases |events|
  {
    if events != [] {
      var n := |events| - 1;
      var before := HoldEvents(s, input, events[..n]);
      EventsConserve(s, input, events[..n]);
      PayConserves(before, input, Flow(events[n].account, events[n].amount));
      UsedOnly(Pay(before, input, Flow(events[n].account, events[n].amount)), input, UsedBy(input, events[n]));
    }
  }

  lemma UsedOnly(s: State, input: Input, used: set<Id>)
    requires Valid(s, input)
    ensures Valid(s.(goalUsed := s.goalUsed + used), input)
  {
    forall g | g in input.goals
      ensures GoalMatches(s.(goalUsed := s.goalUsed + used), input, g)
    {
      assert GoalMatches(s, input, g);
    }
  }

  /** A debt falls by exactly its repayment, and never below zero. */
  lemma RepayConserves(s: State, input: Input, debt: Id, month: Month)
    requires Valid(s, input) && debt in input.debts
    ensures
      var after := Repay(s, debt, month);
      && Valid(after, input)
      && TotalCash(after) == TotalCash(s) - Repayment(s, debt, month)
      && after.debtRemaining[debt] == s.debtRemaining[debt] - Repayment(s, debt, month)
      && 0 <= Repayment(s, debt, month) <= s.debtRemaining[debt]
      && forall d :: d != debt && d in s.debtRemaining ==>
        d in after.debtRemaining && after.debtRemaining[d] == s.debtRemaining[d]
  {
    var after := Repay(s, debt, month);
    forall g | g in input.goals ensures GoalMatches(after, input, g) { assert GoalMatches(s, input, g); }
  }

  lemma {:induction false} RepayAllConserves(s: State, input: Input, debts: seq<Id>, month: Month)
    requires Valid(s, input) && forall d :: d in debts ==> d in input.debts
    ensures Valid(RepayAll(s, debts, month), input)
    ensures TotalCash(RepayAll(s, debts, month)) == TotalCash(s) - RepaidIn(s, debts, month)
    decreases |debts|
  {
    if debts != [] {
      var n := |debts| - 1;
      assert debts[n] in debts && forall d :: d in debts[..n] ==> d in debts;
      RepayAllConserves(s, input, debts[..n], month);
      RepayConserves(RepayAll(s, debts[..n], month), input, debts[n], month);
    }
  }

  ghost function OwedOn(s: State, debts: seq<Id>): int {
    if debts == [] then 0 else OwedOn(s, debts[..|debts| - 1]) + ValueOf(s.debtRemaining, debts[|debts| - 1])
  }

  predicate UniqueDebts(debts: seq<Id>) {
    forall i, j :: 0 <= i < j < |debts| ==> debts[i] != debts[j]
  }

  lemma {:induction false} OwedAfterOther(s: State, input: Input, debts: seq<Id>, debt: Id, month: Month)
    requires Valid(s, input) && debt in input.debts && debt !in debts
    ensures OwedOn(Repay(s, debt, month), debts) == OwedOn(s, debts)
    decreases |debts|
  {
    if debts != [] {
      assert debts[|debts| - 1] in debts;
      OwedAfterOther(s, input, debts[..|debts| - 1], debt, month);
    }
  }

  lemma {:induction false} UntouchedDebt(s: State, debts: seq<Id>, month: Month, d: Id)
    requires d !in debts
    ensures ValueOf(RepayAll(s, debts, month).debtRemaining, d) == ValueOf(s.debtRemaining, d)
    decreases |debts|
  {
    if debts != [] {
      assert debts[|debts| - 1] in debts;
      UntouchedDebt(s, debts[..|debts| - 1], month, d);
    }
  }

  /** All debts together fall by exactly what the month repays. */
  lemma {:induction false} OwedFallsByRepaid(s: State, input: Input, debts: seq<Id>, month: Month)
    requires Valid(s, input) && UniqueDebts(debts) && forall d :: d in debts ==> d in input.debts
    ensures OwedOn(RepayAll(s, debts, month), debts) == OwedOn(s, debts) - RepaidIn(s, debts, month)
    decreases |debts|
  {
    if debts != [] {
      var n := |debts| - 1;
      var d := debts[n];
      assert d in debts && (forall x :: x in debts[..n] ==> x in debts) && d !in debts[..n];
      var before := RepayAll(s, debts[..n], month);
      RepayAllConserves(s, input, debts[..n], month);
      OwedFallsByRepaid(s, input, debts[..n], month);
      UntouchedDebt(s, debts[..n], month, d);
      RepayConserves(before, input, d, month);
      OwedAfterOther(before, input, debts[..n], d, month);
    }
  }

  // ---- The month and the horizon ----

  /** A month changes total cash by planned income less planned expenses; savings cancel out. */
  lemma MonthConserves(s: State, input: Input, m: Month)
    requires UniqueGoals(input.goals) && Valid(s, input)
    ensures Valid(AfterMonth(s, input, m), input)
    ensures
      var r := MonthResult(s, input, m);
      && r.totalCash == TotalCash(s) + r.plannedIncome - r.plannedExpenses
      && r.totalCash == TotalCash(AfterMonth(s, input, m))
  {
    ReceiveAllConserves(s, input, m.incomes);
    PayAllConserves(ReceiveAll(s, input, m.incomes), input, m.commitments);
    SpendableOnly(AfterCommitments(s, input, m), input, AfterCommitments(s, input, m).spendable - m.budgets);
    ContributeAllIsNeutral(AfterBudgets(s, input, m), input, input.goals, m);
    EventsConserve(AfterSavings(s, input, m), input, m.events);
    RepayAllConserves(AfterEvents(s, input, m), input, input.debts, m);
  }

  ghost function NetPlanned(s: State, input: Input, months: seq<Month>): int {
    if |months| == 0 then 0
    else
      var n := |months| - 1;
      var r := MonthResult(AfterMonths(s, input, months[..n]), input, months[n]);
      NetPlanned(s, input, months[..n]) + r.plannedIncome - r.plannedExpenses
  }

  /**
   * Over the whole horizon: total cash moves by exactly the planned net, no protected
   * balance goes below zero, every goal equals its account, and no debt goes below zero.
   */
  lemma {:induction false} HorizonConserves(s: State, input: Input, balances: map<Id, int>, months: seq<Month>)
    requires UniqueGoals(input.goals) && StartsFrom(s, input, balances)
    ensures
      var after := AfterMonths(s, input, months);
      && TotalCash(after) == TotalCash(s) + NetPlanned(s, input, months)
      && VaultsValid(after, input) && GoalsMatch(after, input) && DebtsValid(after, input)
    decreases |months|
  {
    StartIsValid(s, input, balances);
    if |months| > 0 {
      var n := |months| - 1;
      HorizonConserves(s, input, balances, months[..n]);
      MonthConserves(AfterMonths(s, input, months[..n]), input, months[n]);
    }
  }

  lemma {:induction false} ContributionsKeepDebts(s: State, input: Input, goals: seq<Goal>, m: Month)
    ensures ContributeAll(s, input, goals, m).debtRemaining == s.debtRemaining
    decreases |goals|
  {
    if goals != [] { ContributionsKeepDebts(s, input, goals[..|goals| - 1], m); }
  }

  lemma {:induction false} FlowsKeepDebts(s: State, input: Input, flows: seq<Flow>)
    ensures ReceiveAll(s, input, flows).debtRemaining == s.debtRemaining
    ensures PayAll(s, input, flows).debtRemaining == s.debtRemaining
    decreases |flows|
  {
    if flows != [] { FlowsKeepDebts(s, input, flows[..|flows| - 1]); }
  }

  lemma {:induction false} EventsKeepDebts(s: State, input: Input, events: seq<EventPlan>)
    ensures HoldEvents(s, input, events).debtRemaining == s.debtRemaining
    decreases |events|
  {
    if events != [] { EventsKeepDebts(s, input, events[..|events| - 1]); }
  }

  lemma {:induction false} SameOwed(s: State, t: State, debts: seq<Id>)
    requires s.debtRemaining == t.debtRemaining
    ensures OwedOn(s, debts) == OwedOn(t, debts)
    decreases |debts|
  {
    if debts != [] { SameOwed(s, t, debts[..|debts| - 1]); }
  }

  lemma DebtsWaitForRepayments(s: State, input: Input, m: Month)
    ensures AfterEvents(s, input, m).debtRemaining == s.debtRemaining
  {
    FlowsKeepDebts(s, input, m.incomes);
    FlowsKeepDebts(ReceiveAll(s, input, m.incomes), input, m.commitments);
    ContributionsKeepDebts(AfterBudgets(s, input, m), input, input.goals, m);
    EventsKeepDebts(AfterSavings(s, input, m), input, m.events);
  }

  /** In every month the debts together fall by exactly the reported repayments. */
  lemma DebtsFallByRepayments(s: State, input: Input, m: Month)
    requires UniqueGoals(input.goals) && Valid(s, input) && UniqueDebts(input.debts)
    ensures OwedOn(AfterMonth(s, input, m), input.debts) == OwedOn(s, input.debts) - MonthResult(s, input, m).repaid
  {
    var ready := AfterEvents(s, input, m);
    DebtsWaitForRepayments(s, input, m);
    SameOwed(s, ready, input.debts);
    ReadyIsValid(s, input, m);
    OwedFallsByRepaid(ready, input, input.debts, m);
  }

  /** A debt is repaid once in a month, wherever it stands in the list. */
  lemma {:induction false} RepaidOnce(s: State, debts: seq<Id>, m: Month, d: Id)
    requires UniqueDebts(debts) && d in debts
    ensures ValueOf(RepayAll(s, debts, m).debtRemaining, d) ==
      Max(0, Max(0, ValueOf(s.debtRemaining, d)) - m.repayment(d))
    decreases |debts|
  {
    var n := |debts| - 1;
    if d == debts[n] {
      UntouchedDebt(s, debts[..n], m, d);
    } else {
      RepaidOnce(s, debts[..n], m, d);
    }
  }

  function LessRepayment(owed: int, repayment: nat): int { Max(0, Max(0, owed) - repayment) }

  lemma MonthOnOneDebt(s: State, input: Input, m: Month, d: Id)
    requires UniqueDebts(input.debts) && d in input.debts
    ensures ValueOf(AfterMonth(s, input, m).debtRemaining, d) ==
      LessRepayment(ValueOf(s.debtRemaining, d), m.repayment(d))
  {
    DebtsWaitForRepayments(s, input, m);
    RepaidOnce(AfterEvents(s, input, m), input.debts, m, d);
  }

  /** What the plans of these months repay on one debt. */
  function PlannedOn(d: Id, months: seq<Month>): nat {
    if |months| == 0 then 0 else PlannedOn(d, months[..|months| - 1]) + months[|months| - 1].repayment(d)
  }

  lemma {:induction false} FallsByItsPlan(s: State, input: Input, months: seq<Month>, d: Id)
    requires UniqueDebts(input.debts) && d in input.debts && ValueOf(s.debtRemaining, d) >= 0
    ensures ValueOf(AfterMonths(s, input, months).debtRemaining, d) ==
      Max(0, ValueOf(s.debtRemaining, d) - PlannedOn(d, months))
    decreases |months|
  {
    if |months| > 0 {
      var n := |months| - 1;
      FallsByItsPlan(s, input, months[..n], d);
      MonthOnOneDebt(AfterMonths(s, input, months[..n]), input, months[n], d);
    }
  }

  /** Each debt by itself: over the horizon it falls by its own planned repayments, until nothing is left. */
  lemma EachDebtFallsByItsPlan(s: State, input: Input, balances: map<Id, int>, months: seq<Month>, d: Id)
    requires UniqueGoals(input.goals) && StartsFrom(s, input, balances) && UniqueDebts(input.debts) && d in input.debts
    ensures
      var after := AfterMonths(s, input, months);
      d in after.debtRemaining && after.debtRemaining[d] == Max(0, s.debtRemaining[d] - PlannedOn(d, months))
  {
    HorizonConserves(s, input, balances, months);
    FallsByItsPlan(s, input, months, d);
  }

  lemma ReadyIsValid(s: State, input: Input, m: Month)
    requires UniqueGoals(input.goals) && Valid(s, input)
    ensures Valid(AfterEvents(s, input, m), input)
  {
    ReceiveAllConserves(s, input, m.incomes);
    PayAllConserves(ReceiveAll(s, input, m.incomes), input, m.commitments);
    SpendableOnly(AfterCommitments(s, input, m), input, AfterCommitments(s, input, m).spendable - m.budgets);
    ContributeAllIsNeutral(AfterBudgets(s, input, m), input, input.goals, m);
    EventsConserve(AfterSavings(s, input, m), input, m.events);
  }
}
