/**
 * Where the money of the forecast comes from and goes to (src/domain/forecast.ts, 124-277), in balances
 * alone: protected cash first, spendable cash for what is missing, each receipt to the account it names.
 */
module ForecastSources {
  import opened Wrappers
  import opened Sums
  import opened Forecast

  // ---- One payment, one receipt ----

  /**
   * A payment from a protected account takes what is there and asks spendable cash for the rest; no other
   * protected balance moves. From any other account it is spendable cash.
   */
  ghost predicate Pays(s: State, input: Input, f: Flow, after: State) {
    && VaultsValid(after, input) && after.vaults.Keys == s.vaults.Keys
    && (forall a :: a in s.vaults ==>
          after.vaults[a] == (if a == f.account then Max(0, s.vaults[a] - f.amount) else s.vaults[a]))
    && after.spendable ==
         s.spendable - (if f.account in s.vaults then Max(0, f.amount - s.vaults[f.account]) else f.amount)
    && after.goalUsed == s.goalUsed && after.debtRemaining == s.debtRemaining
  }

  lemma PayDraws(s: State, input: Input, f: Flow)
    requires VaultsValid(s, input)
    ensures Pays(s, input, f, Pay(s, input, f))
  {}

  /** A receipt goes wholly to the account it names. */
  ghost predicate Receives(s: State, input: Input, f: Flow, after: State) {
    && VaultsValid(after, input) && after.vaults.Keys == s.vaults.Keys
    && (forall a :: a in s.vaults ==> after.vaults[a] == s.vaults[a] + (if a == f.account then f.amount else 0))
    && after.spendable == s.spendable + (if f.account in s.vaults then 0 else f.amount)
    && after.goalUsed == s.goalUsed && after.debtRemaining == s.debtRemaining
  }

  lemma ReceiveFills(s: State, input: Input, f: Flow)
    requires VaultsValid(s, input)
    ensures Receives(s, input, f, Receive(s, input, f))
  {}

  // ---- Lists of flows ----

  /** What a list of flows moves on one account. */
  function On(flows: seq<Flow>, a: Id): nat {
    if flows == [] then 0
    else On(flows[..|flows| - 1], a) + if flows[|flows| - 1].account == a then flows[|flows| - 1].amount else 0
  }

  /** What it moves on accounts that are not active protected ones. */
  function OffVaults(flows: seq<Flow>, input: Input): nat {
    if flows == [] then 0
    else
      var last := flows[|flows| - 1];
      OffVaults(flows[..|flows| - 1], input) + if IsVault(input, last.account) then 0 else last.amount
  }

  /** What is missing on a protected account for its payments. */
  function Missing(flows: seq<Flow>): (Id, int) -> int {
    (a: Id, v: int) => Max(0, On(flows, a) - v)
  }

  ghost function Shortfall(vaults: map<Id, int>, flows: seq<Flow>): int {
    Total(vaults, Missing(flows))
  }

  lemma OnNext(flows: seq<Flow>, f: Flow, a: Id)
    ensures On(flows + [f], a) == On(flows, a) + (if a == f.account then f.amount else 0)
  {
    assert (flows + [f])[..|flows|] == flows;
  }

  lemma MissingNext(v: int, drawn: nat, x: nat)
    requires v >= 0
    ensures Max(0, drawn + x - v) == Max(0, drawn - v) + Max(0, x - Max(0, v - drawn))
  {}

  /** What one more payment asks of spendable cash. */
  function Asked(vaults: map<Id, int>, flows: seq<Flow>, f: Flow): int {
    if f.account in vaults then Max(0, f.amount - Max(0, vaults[f.account] - On(flows, f.account))) else 0
  }

  lemma MissingMore(flows: seq<Flow>, f: Flow, a: Id, v: int)
    requires v >= 0
    ensures Missing(flows + [f])(a, v) == Missing(flows)(a, v) +
      (if a == f.account then Max(0, f.amount - Max(0, v - On(flows, a))) else 0)
  {
    OnNext(flows, f, a);
    if a == f.account { MissingNext(v, On(flows, a), f.amount); }
  }

  lemma ShortfallNext(vaults: map<Id, int>, flows: seq<Flow>, f: Flow)
    requires forall a :: a in vaults ==> vaults[a] >= 0
    ensures Shortfall(vaults, flows + [f]) == Shortfall(vaults, flows) + Asked(vaults, flows, f)
  {
    forall a | a in vaults && a != f.account
      ensures Missing(flows)(a, vaults[a]) == Missing(flows + [f])(a, vaults[a])
    {
      MissingMore(flows, f, a, vaults[a]);
    }
    TotalDiffersAt(vaults, Missing(flows), Missing(flows + [f]), f.account);
    if f.account in vaults { MissingMore(flows, f, f.account, vaults[f.account]); }
  }

  lemma {:induction false} NoShortfall(vaults: map<Id, int>)
    requires forall a :: a in vaults ==> vaults[a] >= 0
    ensures Shortfall(vaults, []) == 0
  {
    TotalOfZero(vaults, Missing([]));
  }

  /** Each protected account has given all it had, up to its payments. */
  ghost predicate VaultsDrawn(s: State, input: Input, flows: seq<Flow>, after: State) {
    && VaultsValid(after, input) && after.vaults.Keys == s.vaults.Keys
    && forall a :: a in s.vaults ==> after.vaults[a] == Max(0, s.vaults[a] - On(flows, a))
  }

  /** What a list of payments has drawn: the rest came from spendable cash. */
  ghost predicate Drawn(s: State, input: Input, flows: seq<Flow>, after: State) {
    && VaultsDrawn(s, input, flows, after)
    && after.spendable == s.spendable - OffVaults(flows, input) - Shortfall(s.vaults, flows)
    && after.goalUsed == s.goalUsed && after.debtRemaining == s.debtRemaining
  }

  lemma OffNext(flows: seq<Flow>, f: Flow, input: Input)
    ensures OffVaults(flows + [f], input) ==
      OffVaults(flows, input) + (if IsVault(input, f.account) then 0 else f.amount)
  {
    assert (flows + [f])[..|flows|] == flows;
  }

  lemma VaultNext(flows: seq<Flow>, f: Flow, a: Id, v: int, mid: int, after: int)
    requires v >= 0 && mid == Max(0, v - On(flows, a))
    requires after == (if a == f.account then Max(0, mid - f.amount) else mid)
    ensures after == Max(0, v - On(flows + [f], a))
  {
    OnNext(flows, f, a);
  }

  lemma OneMoreVaults(s: State, input: Input, flows: seq<Flow>, mid: State, f: Flow, after: State)
    requires VaultsValid(s, input) && VaultsDrawn(s, input, flows, mid) && Pays(mid, input, f, after)
    ensures VaultsDrawn(s, input, flows + [f], after)
  {
    forall a | a in s.vaults ensures after.vaults[a] == Max(0, s.vaults[a] - On(flows + [f], a)) {
      VaultNext(flows, f, a, s.vaults[a], mid.vaults[a], after.vaults[a]);
    }
  }

  lemma OneMoreSpendable(s: State, input: Input, flows: seq<Flow>, mid: State, f: Flow, after: State)
    requires VaultsValid(s, input) && Drawn(s, input, flows, mid) && Pays(mid, input, f, after)
    ensures after.spendable == s.spendable - OffVaults(flows + [f], input) - Shortfall(s.vaults, flows + [f])
  {
    OffNext(flows, f, input);
    ShortfallNext(s.vaults, flows, f);
    assert f.account in mid.vaults <==> f.account in s.vaults;
    assert f.account in s.vaults <==> IsVault(input, f.account);
  }

  /** In whatever order the payments come: each protected account gives all it can, and no more. */
  lemma {:induction false} PayAllDraws(s: State, input: Input, flows: seq<Flow>)
    requires VaultsValid(s, input)
    ensures Drawn(s, input, flows, PayAll(s, input, flows))
    decreases |flows|
  {
    if flows == [] {
      NoShortfall(s.vaults);
    } else {
      var n := |flows| - 1;
      PayAllDraws(s, input, flows[..n]);
      var mid := PayAll(s, input, flows[..n]);
      PayDraws(mid, input, flows[n]);
      OneMoreVaults(s, input, flows[..n], mid, flows[n], Pay(mid, input, flows[n]));
      OneMoreSpendable(s, input, flows[..n], mid, flows[n], Pay(mid, input, flows[n]));
      assert flows == flows[..n] + [flows[n]];
    }
  }

  lemma {:induction false} ReceiveAllFills(s: State, input: Input, flows: seq<Flow>)
    requires VaultsValid(s, input)
    ensures
      var after := ReceiveAll(s, input, flows);
      && VaultsValid(after, input) && after.vaults.Keys == s.vaults.Keys
      && (forall a :: a in s.vaults ==> after.vaults[a] == s.vaults[a] + On(flows, a))
      && after.spendable == s.spendable + OffVaults(flows, input)
      && after.goalUsed == s.goalUsed && after.debtRemaining == s.debtRemaining
    decreases |flows|
  {
    if flows != [] {
      var n := |flows| - 1;
      ReceiveAllFills(s, input, flows[..n]);
      ReceiveFills(ReceiveAll(s, input, flows[..n]), input, flows[n]);
    }
  }

  // ---- Events ----

  function EventFlows(events: seq<EventPlan>): seq<Flow> {
    if events == [] then []
    else EventFlows(events[..|events| - 1]) + [Flow(events[|events| - 1].account, events[|events| - 1].amount)]
  }

  /** What an event draws is what a payment of its amount draws. */
  lemma {:induction false} EventsArePayments(s: State, input: Input, events: seq<EventPlan>)
    ensures HoldEvents(s, input, events) ==
      PayAll(s, input, EventFlows(events)).(goalUsed := HoldEvents(s, input, events).goalUsed)
    decreases |events|
  {
    if events != [] {
      var n := |events| - 1;
      var flows := EventFlows(events);
      EventsArePayments(s, input, events[..n]);
      assert flows[..|flows| - 1] == EventFlows(events[..n]);
    }
  }

  /** An event of a positive amount on a sinking goal's own account, made for that goal. */
  predicate UsesUp(input: Input, e: EventPlan, id: Id) {
    e.amount > 0 && e.linkedGoal == Some(id)
    && exists g :: g in input.goals && g.id == id && g.sinking && g.linkedAccount == e.account
  }

  lemma {:induction false} FoundGoal(goals: seq<Goal>, id: Id)
    ensures FindGoal(goals, id).Some? ==> FindGoal(goals, id).value in goals && FindGoal(goals, id).value.id == id
    ensures FindGoal(goals, id).None? ==> forall g :: g in goals ==> g.id != id
  {
    if goals != [] { FoundGoal(goals[1..], id); }
  }

  lemma UsedByIff(input: Input, e: EventPlan, id: Id)
    requires UniqueGoals(input.goals)
    ensures id in UsedBy(input, e) <==> UsesUp(input, e, id)
  {
    if e.linkedGoal.Some? { FoundGoal(input.goals, e.linkedGoal.value); }
    if UsesUp(input, e, id) {
      var g :| g in input.goals && g.id == id && g.sinking && g.linkedAccount == e.account;
      var found := FindGoal(input.goals, id).value;
      var i, j :| 0 <= i < |input.goals| && 0 <= j < |input.goals| && input.goals[i] == g && input.goals[j] == found;
      assert i == j;
    }
  }

  /** A goal counts as used exactly when it was before, or one of the events uses it up. */
  lemma {:induction false} UsedIff(s: State, input: Input, events: seq<EventPlan>, id: Id)
    requires UniqueGoals(input.goals)
    ensures id in HoldEvents(s, input, events).goalUsed <==>
      id in s.goalUsed || exists e :: e in events && UsesUp(input, e, id)
    decreases |events|
  {
    if events != [] {
      var n := |events| - 1;
      UsedIff(s, input, events[..n], id);
      UsedByIff(input, events[n], id);
      assert events == events[..n] + [events[n]] && events[n] in events;
      var mid := HoldEvents(s, input, events[..n]);
      assert Pay(mid, input, Flow(events[n].account, events[n].amount)).goalUsed == mid.goalUsed;
    }
  }

  // ---- Savings ----

  /** The goal is still being saved for in this month. */
  predicate SavedFor(s: State, g: Goal, m: Month) {
    !g.archived && g.id !in s.goalUsed && m.open(g.id)
  }

  /**
   * A goal that is still saved for gets its month's plan, but no more than takes its balance to the target;
   * a goal that is not gets nothing.
   */
  lemma ContributionIs(s: State, g: Goal, m: Month)
    requires ValueOf(s.goalBalances, g.id) >= 0
    ensures
      var balance := ValueOf(s.goalBalances, g.id);
      Contribution(s, g, m) ==
        if !SavedFor(s, g, m) || g.target <= balance then 0
        else if balance + m.contribution(g.id) <= g.target then m.contribution(g.id) else g.target - balance
  {}

  /** What the goals of one account save in a month, and what all goals of protected accounts do. */
  function SavedOn(s: State, input: Input, goals: seq<Goal>, m: Month, a: Id): nat {
    if goals == [] then 0
    else
      var n := |goals| - 1;
      SavedOn(s, input, goals[..n], m, a)
      + if goals[n].linkedAccount == a then Contribution(ContributeAll(s, input, goals[..n], m), goals[n], m) else 0
  }

  function SavedOnVaults(s: State, input: Input, goals: seq<Goal>, m: Month): nat {
    if goals == [] then 0
    else
      var n := |goals| - 1;
      SavedOnVaults(s, input, goals[..n], m)
      + if IsVault(input, goals[n].linkedAccount)
        then Contribution(ContributeAll(s, input, goals[..n], m), goals[n], m) else 0
  }

  /** A contribution leaves spendable cash and arrives on the goal's account. */
  ghost predicate Contributed(s: State, input: Input, g: Goal, amount: nat, after: State) {
    && VaultsValid(after, input) && after.vaults.Keys == s.vaults.Keys
    && (forall a :: a in s.vaults ==> after.vaults[a] == s.vaults[a] + (if a == g.linkedAccount then amount else 0))
    && after.spendable == s.spendable - (if g.linkedAccount in s.vaults then amount else 0)
    && after.goalUsed == s.goalUsed && after.debtRemaining == s.debtRemaining
  }

  lemma ContributeMoves(s: State, input: Input, g: Goal, m: Month)
    requires VaultsValid(s, input)
    ensures Contributed(s, input, g, Contribution(s, g, m), Contribute(s, input, g, m))
  {
    var amount := Contribution(s, g, m);
    if amount > 0 { ReceiveFills(s.(spendable := s.spendable - amount), input, Flow(g.linkedAccount, amount)); }
  }

  ghost predicate Saved(s: State, input: Input, goals: seq<Goal>, m: Month, after: State) {
    && VaultsValid(after, input) && after.vaults.Keys == s.vaults.Keys
    && (forall a :: a in s.vaults ==> after.vaults[a] == s.vaults[a] + SavedOn(s, input, goals, m, a))
    && after.spendable == s.spendable - SavedOnVaults(s, input, goals, m)
    && after.goalUsed == s.goalUsed && after.debtRemaining == s.debtRemaining
  }

  lemma {:induction false} SavingsMove(s: State, input: Input, goals: seq<Goal>, m: Month)
    requires VaultsValid(s, input)
    ensures Saved(s, input, goals, m, ContributeAll(s, input, goals, m))
    decreases |goals|
  {
    if goals != [] {
      var n := |goals| - 1;
      var mid := ContributeAll(s, input, goals[..n], m);
      SavingsMove(s, input, goals[..n], m);
      ContributeMoves(mid, input, goals[n], m);
      assert goals[n].linkedAccount in s.vaults <==> IsVault(input, goals[n].linkedAccount);
    }
  }

  // ---- A month ----

  lemma {:induction false} RepaymentsAreSpendable(s: State, debts: seq<Id>, m: Month)
    ensures RepayAll(s, debts, m) ==
      s.(spendable := s.spendable - RepaidIn(s, debts, m), debtRemaining := RepayAll(s, debts, m).debtRemaining)
    decreases |debts|
  {
    if debts != [] { RepaymentsAreSpendable(s, debts[..|debts| - 1], m); }
  }

  /** What is on a protected account when the month's commitments are paid, and when its events are held. */
  function AtCommitments(s: State, m: Month, a: Id): int { ValueOf(s.vaults, a) + On(m.incomes, a) }

  function AtEvents(s: State, input: Input, m: Month, a: Id): int {
    Max(0, AtCommitments(s, m, a) - On(m.commitments, a)) + SavedOn(AfterBudgets(s, input, m), input, input.goals, m, a)
  }

  function AtEnd(s: State, input: Input, m: Month, a: Id): int {
    Max(0, AtEvents(s, input, m, a) - On(EventFlows(m.events), a))
  }

  /** What protected accounts that hold `held` cannot pay of these flows. */
  function MissingAt(held: Id -> int, flows: seq<Flow>): (Id, int) -> int {
    (a: Id, v: int) => Max(0, On(flows, a) - held(a))
  }

  lemma ShortfallAt(vaults: map<Id, int>, start: map<Id, int>, held: Id -> int, flows: seq<Flow>)
    requires vaults.Keys == start.Keys && forall a :: a in vaults ==> vaults[a] == held(a)
    ensures Shortfall(vaults, flows) == Total(start, MissingAt(held, flows))
  {
    TotalSameRows(vaults, start, Missing(flows), MissingAt(held, flows));
  }

  function CommitmentBase(s: State, m: Month): Id -> int { (a: Id) => AtCommitments(s, m, a) }

  function EventBase(s: State, input: Input, m: Month): Id -> int { (a: Id) => AtEvents(s, input, m, a) }

  /** The part of spendable cash that covers what protected accounts could not pay in a month. */
  ghost function Covering(s: State, input: Input, m: Month): int {
    Total(s.vaults, MissingAt(CommitmentBase(s, m), m.commitments))
    + Total(s.vaults, MissingAt(EventBase(s, input, m), EventFlows(m.events)))
  }

  /** Payments from accounts that hold `held`. */
  ghost predicate DrawnFrom(s: State, start: State, input: Input, flows: seq<Flow>, held: Id -> int, after: State) {
    && VaultsValid(after, input) && after.vaults.Keys == start.vaults.Keys
    && (forall a :: a in start.vaults ==> after.vaults[a] == Max(0, held(a) - On(flows, a)))
    && after.spendable == s.spendable - OffVaults(flows, input) - Total(start.vaults, MissingAt(held, flows))
  }

  lemma DrawnIsFrom(s: State, start: State, input: Input, flows: seq<Flow>, held: Id -> int, after: State)
    requires Drawn(s, input, flows, after) && s.vaults.Keys == start.vaults.Keys
    requires forall a :: a in s.vaults ==> s.vaults[a] == held(a)
    ensures DrawnFrom(s, start, input, flows, held, after)
  {
    ShortfallAt(s.vaults, start.vaults, held, flows);
    forall a | a in start.vaults ensures after.vaults[a] == Max(0, held(a) - On(flows, a)) {
      assert a in s.vaults;
    }
  }

  lemma UsedAside(s: State, start: State, input: Input, flows: seq<Flow>, held: Id -> int, after: State, used: set<Id>)
    requires DrawnFrom(s, start, input, flows, held, after)
    ensures DrawnFrom(s, start, input, flows, held, after.(goalUsed := used))
  {}

  lemma EventsDraw(s: State, start: State, input: Input, events: seq<EventPlan>, held: Id -> int)
    requires VaultsValid(s, input) && s.vaults.Keys == start.vaults.Keys
    requires forall a :: a in s.vaults ==> s.vaults[a] == held(a)
    ensures DrawnFrom(s, start, input, EventFlows(events), held, HoldEvents(s, input, events))
  {
    var paid := PayAll(s, input, EventFlows(events));
    EventsArePayments(s, input, events);
    PayAllDraws(s, input, EventFlows(events));
    DrawnIsFrom(s, start, input, EventFlows(events), held, paid);
    UsedAside(s, start, input, EventFlows(events), held, paid, HoldEvents(s, input, events).goalUsed);
  }

  lemma CommitmentsDraw(s: State, input: Input, m: Month)
    requires VaultsValid(s, input)
    ensures DrawnFrom(s.(spendable := s.spendable + OffVaults(m.incomes, input)), s, input, m.commitments,
      CommitmentBase(s, m), AfterCommitments(s, input, m))
  {
    var received := ReceiveAll(s, input, m.incomes);
    ReceiveAllFills(s, input, m.incomes);
    PayAllDraws(received, input, m.commitments);
    DrawnIsFrom(received, s, input, m.commitments, CommitmentBase(s, m), AfterCommitments(s, input, m));
  }

  lemma EventsOfMonth(s: State, input: Input, m: Month)
    requires VaultsValid(s, input)
    ensures AfterSavings(s, input, m).spendable ==
      AfterBudgets(s, input, m).spendable - SavedOnVaults(AfterBudgets(s, input, m), input, input.goals, m)
    ensures DrawnFrom(AfterSavings(s, input, m), s, input, EventFlows(m.events), EventBase(s, input, m),
      AfterEvents(s, input, m))
  {
    CommitmentsDraw(s, input, m);
    SavingsMove(AfterBudgets(s, input, m), input, input.goals, m);
    EventsDraw(AfterSavings(s, input, m), s, input, m.events, EventBase(s, input, m));
  }

  /**
   * A month in balances: each protected account takes its receipts and savings and pays what it can of its own
   * commitments and events; spendable cash moves only by what is received and paid outside of them, by budgets
   * and repayments, by the savings that leave it, and by what protected accounts could not pay.
   */
  lemma MonthDraws(s: State, input: Input, m: Month)
    requires VaultsValid(s, input)
    ensures
      var after := AfterMonth(s, input, m);
      && after.vaults.Keys == s.vaults.Keys
      && (forall a :: a in s.vaults ==> after.vaults[a] == AtEnd(s, input, m, a))
      && after.spendable == s.spendable + OffVaults(m.incomes, input) - OffVaults(m.commitments, input)
           - m.budgets - SavedOnVaults(AfterBudgets(s, input, m), input, input.goals, m)
           - OffVaults(EventFlows(m.events), input) - Covering(s, input, m)
           - RepaidIn(AfterEvents(s, input, m), input.debts, m)
  {
    CommitmentsDraw(s, input, m);
    EventsOfMonth(s, input, m);
    RepaymentsAreSpendable(AfterEvents(s, input, m), input.debts, m);
  }

  // ---- The month's report ----

  function OnEach(flows: seq<Flow>): (Id, int) -> int { (a: Id, v: int) => On(flows, a) }

  lemma {:induction false} AmountsSplit(s: State, input: Input, flows: seq<Flow>)
    requires VaultsValid(s, input)
    ensures Amounts(flows) == OffVaults(flows, input) + Total(s.vaults, OnEach(flows))
    decreases |flows|
  {
    if flows == [] {
      TotalOfZero(s.vaults, OnEach(flows));
    } else {
      var n := |flows| - 1;
      var f := flows[n];
      assert flows == flows[..n] + [f];
      AmountsSplit(s, input, flows[..n]);
      forall a | a in s.vaults ensures On(flows, a) == On(flows[..n], a) + (if a == f.account then f.amount else 0) {
        OnNext(flows[..n], f, a);
      }
      TotalDiffersAt(s.vaults, OnEach(flows[..n]), OnEach(flows), f.account);
      assert f.account in s.vaults <==> IsVault(input, f.account);
    }
  }

  lemma {:induction false} EventAmountsAreFlows(events: seq<EventPlan>)
    ensures EventAmounts(events) == Amounts(EventFlows(events))
    decreases |events|
  {
    if events != [] {
      EventAmountsAreFlows(events[..|events| - 1]);
      assert EventFlows(events)[..|EventFlows(events)| - 1] == EventFlows(events[..|events| - 1]);
    }
  }

  /** What a list of flows moves, account by account. */
  ghost function MovedBy(s: State, input: Input, flows: seq<Flow>): int {
    OffVaults(flows, input) + Total(s.vaults, OnEach(flows))
  }

  /**
   * The report adds up: its income is what is received on all accounts, its expenses are what commitments and
   * events take from all accounts, budgets and repayments, and its balances are those the month ends with.
   */
  lemma MonthReportAddsUp(s: State, input: Input, m: Month)
    requires VaultsValid(s, input)
    ensures
      var r := MonthResult(s, input, m);
      var after := AfterMonth(s, input, m);
      && r.plannedIncome == MovedBy(s, input, m.incomes)
      && r.plannedExpenses == MovedBy(s, input, m.commitments) + m.budgets
           + MovedBy(s, input, EventFlows(m.events)) + r.repaid
      && r.planBalance == r.plannedIncome - r.plannedExpenses - r.savings
      && r.spendable == after.spendable && r.protectedBalance == r.totalCash - after.spendable
  {
    AmountsSplit(s, input, m.incomes);
    AmountsSplit(s, input, m.commitments);
    AmountsSplit(s, input, EventFlows(m.events));
    EventAmountsAreFlows(m.events);
  }
}
