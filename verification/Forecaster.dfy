/**
 * The forecast as its loops run it (src/domain/forecast.ts, 87-342): one object holds the
 * running balances, and each method is proved against the month-by-month specification.
 */
module Forecaster {
  import opened Sums
  import opened Forecast

  class CashForecast {
    const input: Input
    var spendable: int
    var vaults: map<Id, int>
    var goalBalances: map<Id, int>
    var goalUsed: set<Id>
    var debtRemaining: map<Id, int>

    ghost function View(): State
      reads this
    {
      State(spendable, vaults, goalBalances, goalUsed, debtRemaining)
    }

    /** The opening balances: protected ones never below zero, a goal at its account's balance. */
    constructor (input: Input, balances: map<Id, int>, used: set<Id>, owed: map<Id, nat>)
      requires UniqueGoals(input.goals) && forall d :: d in input.debts ==> d in owed
      ensures this.input == input && goalUsed == used && debtRemaining == owed
      ensures StartsFrom(View(), input, balances)
    {
      this.input := input;
      spendable, vaults, goalBalances, goalUsed, debtRemaining := 0, map[], map[], used, owed;
      new;
      var left := input.accounts;
      while left.Keys != {}
        invariant left.Keys <= input.accounts.Keys && forall a :: a in left ==> left[a] == input.accounts[a]
        invariant this.input == input && goalUsed == used && debtRemaining == owed && goalBalances == map[]
        invariant spendable == Total(input.accounts, SpendableIn(balances)) - Total(left, SpendableIn(balances))
        invariant forall a :: a in vaults <==> IsVault(input, a) && a !in left
        invariant forall a :: a in vaults ==> vaults[a] == Max(0, ValueOf(balances, a))
        decreases left.Keys
      {
        var a :| a in left.Keys;
        var account := left[a];
        TotalAfterRemove(left, SpendableIn(balances), a);
        left := left - {a};
        if !account.archived {
          if account.isProtected {
            vaults := vaults[a := Max(0, ValueOf(balances, a))];
          } else {
            spendable := spendable + ValueOf(balances, a);
          }
        }
      }
      for i := 0 to |input.goals|
        invariant this.input == input && goalUsed == used && debtRemaining == owed
        invariant spendable == Total(input.accounts, SpendableIn(balances))
        invariant forall a :: a in vaults <==> IsVault(input, a)
        invariant forall a :: a in vaults ==> vaults[a] == Max(0, ValueOf(balances, a))
        invariant forall k :: 0 <= k < i ==>
          && input.goals[k].id in goalBalances
          && goalBalances[input.goals[k].id] == Max(0, ValueOf(balances, input.goals[k].linkedAccount))
      {
        var g := input.goals[i];
        goalBalances := goalBalances[g.id := Max(0, ValueOf(balances, g.linkedAccount))];
      }
    }

    method AdjustGoalBalances(a: Id, amount: int)
      modifies `goalBalances
      ensures View() == old(View()).(goalBalances := AdjustGoals(old(goalBalances), input.goals, a, amount))
    {
      for i := 0 to |input.goals|
        invariant goalBalances == AdjustGoals(old(goalBalances), input.goals[..i], a, amount)
      {
        var goal := input.goals[i];
        assert input.goals[..i + 1][..i] == input.goals[..i];
        if goal.linkedAccount == a {
          goalBalances := goalBalances[goal.id := Max(0, ValueOf(goalBalances, goal.id) + amount)];
        }
      }
      assert input.goals[..|input.goals|] == input.goals;
    }

    method ApplyToAccount(a: Id, amount: int)
      modifies `spendable, `vaults, `goalBalances
      ensures amount >= 0 ==> View() == Receive(old(View()), input, Flow(a, amount))
      ensures amount <= 0 ==> View() == Pay(old(View()), input, Flow(a, -amount))
    {
      if a in input.accounts && !input.accounts[a].archived && input.accounts[a].isProtected {
        if amount >= 0 {
          vaults := vaults[a := Max(0, ValueOf(vaults, a) + amount)];
          AdjustGoalBalances(a, amount);
          return;
        }
        var available := Max(0, ValueOf(vaults, a));
        var fromProtected := Min(-amount, available);
        vaults := vaults[a := available - fromProtected];
        AdjustGoalBalances(a, -fromProtected);
        spendable := spendable - (-amount - fromProtected);
        return;
      }
      spendable := spendable + amount;
    }

    /** The incomes and commitments of a month, each applied to its account. */
    method ApplyFlows(incomes: seq<Flow>, commitments: seq<Flow>) returns (planned: nat, fixed: nat)
      modifies `spendable, `vaults, `goalBalances
      ensures View() == PayAll(ReceiveAll(old(View()), input, incomes), input, commitments)
      ensures planned == Amounts(incomes) && fixed == Amounts(commitments)
    {
      planned, fixed := 0, 0;
      for i := 0 to |incomes|
        invariant View() == ReceiveAll(old(View()), input, incomes[..i]) && planned == Amounts(incomes[..i])
      {
        assert incomes[..i + 1][..i] == incomes[..i];
        planned := planned + incomes[i].amount;
        ApplyToAccount(incomes[i].account, incomes[i].amount);
      }
      assert incomes[..|incomes|] == incomes;
      ghost var received := View();
      for i := 0 to |commitments|
        invariant View() == PayAll(received, input, commitments[..i]) && fixed == Amounts(commitments[..i])
      {
        assert commitments[..i + 1][..i] == commitments[..i];
        fixed := fixed + commitments[i].amount;
        ApplyToAccount(commitments[i].account, 0 - commitments[i].amount);
      }
      assert commitments[..|commitments|] == commitments;
    }

    /** The savings loop: capped contributions of the goals still being saved for. */
    method Save(m: Month) returns (savings: nat)
      modifies `spendable, `vaults, `goalBalances
      ensures View() == ContributeAll(old(View()), input, input.goals, m)
      ensures savings == SavedIn(old(View()), input, input.goals, m)
    {
      savings := 0;
      for i := 0 to |input.goals|
        invariant View() == ContributeAll(old(View()), input, input.goals[..i], m)
        invariant savings == SavedIn(old(View()), input, input.goals[..i], m)
      {
        var goal := input.goals[i];
        assert input.goals[..i + 1][..i] == input.goals[..i];
        if goal.archived || goal.id in goalUsed || !m.open(goal.id) { continue; }
        var contribution := Min(m.contribution(goal.id), Max(0, goal.target - Max(0, ValueOf(goalBalances, goal.id))));
        if contribution <= 0 { continue; }
        savings := savings + contribution;
        spendable := spendable - contribution;
        ApplyToAccount(goal.linkedAccount, contribution);
      }
      assert input.goals[..|input.goals|] == input.goals;
    }

    /** A planned event draws on its account first, then on spendable cash, and may use up its goal. */
    method HoldPlannedEvent(event: EventPlan)
      modifies `spendable, `vaults, `goalBalances, `goalUsed
      ensures View() == HoldEvent(old(View()), input, event)
    {
      if event.account in input.accounts && !input.accounts[event.account].archived
        && input.accounts[event.account].isProtected {
        var available := Max(0, ValueOf(vaults, event.account));
        var fromProtected := Min(event.amount, available);
        vaults := vaults[event.account := available - fromProtected];
        AdjustGoalBalances(event.account, -fromProtected);
        spendable := spendable - (event.amount - fromProtected);
      } else {
        spendable := spendable - event.amount;
      }
      if event.amount > 0 && event.linkedGoal.Some? {
        var found := FindGoal(input.goals, event.linkedGoal.value);
        if found.Some? && found.value.sinking && event.account == found.value.linkedAccount {
          goalUsed := goalUsed + {found.value.id};
        }
      }
    }

    method HoldPlannedEvents(events: seq<EventPlan>) returns (planned: nat)
      modifies `spendable, `vaults, `goalBalances, `goalUsed
      ensures View() == HoldEvents(old(View()), input, events) && planned == EventAmounts(events)
    {
      planned := 0;
      for i := 0 to |events|
        invariant View() == HoldEvents(old(View()), input, events[..i]) && planned == EventAmounts(events[..i])
      {
        assert events[..i + 1][..i] == events[..i];
        planned := planned + events[i].amount;
        HoldPlannedEvent(events[i]);
      }
      assert events[..|events|] == events;
    }

    method RepayDebts(m: Month) returns (repaid: int)
      modifies `spendable, `debtRemaining
      ensures View() == RepayAll(old(View()), input.debts, m) && repaid == RepaidIn(old(View()), input.debts, m)
    {
      repaid := 0;
      for i := 0 to |input.debts|
        invariant View() == RepayAll(old(View()), input.debts[..i], m)
        invariant repaid == RepaidIn(old(View()), input.debts[..i], m)
      {
        var debt := input.debts[i];
        assert input.debts[..i + 1][..i] == input.debts[..i];
        var remaining := Max(0, ValueOf(debtRemaining, debt));
        var payment := Min(m.repayment(debt), remaining);
        repaid := repaid + payment;
        spendable := spendable - payment;
        debtRemaining := debtRemaining[debt := remaining - payment];
      }
      assert input.debts[..|input.debts|] == input.debts;
    }

    method ProtectedBalance() returns (sum: int)
      ensures sum == Total(vaults, BalanceIn())
    {
      sum := 0;
      var left := vaults;
      while left.Keys != {}
        invariant left.Keys <= vaults.Keys && forall a :: a in left ==> left[a] == vaults[a]
        invariant sum == Total(vaults, BalanceIn()) - Total(left, BalanceIn())
        decreases left.Keys
      {
        var a :| a in left.Keys;
        TotalAfterRemove(left, BalanceIn(), a);
        sum := sum + left[a];
        left := left - {a};
      }
    }

    /** One month of the forecast. */
    method SimulateMonth(m: Month) returns (r: MonthReport)
      modifies this
      ensures View() == AfterMonth(old(View()), input, m)
      ensures r == MonthResult(old(View()), input, m)
    {
      ghost var start := View();
      var income, fixed := ApplyFlows(m.incomes, m.commitments);
      spendable := spendable - m.budgets;
      assert View() == AfterBudgets(start, input, m);
      var savings := Save(m);
      assert View() == AfterSavings(start, input, m);
      var events := HoldPlannedEvents(m.events);
      assert View() == AfterEvents(start, input, m);
      var repaid := RepayDebts(m);
      assert View() == AfterMonth(start, input, m);
      var expenses := fixed + m.budgets + events + repaid;
      var vaulted := ProtectedBalance();
      r := MonthReport(income, expenses, savings, repaid, income - expenses - savings, spendable, vaulted,
        spendable + vaulted,
        goalBalances, debtRemaining);
    }

    /** Every month in turn; each reported result is the specified one. */
    method CalculateForecast(months: seq<Month>) returns (results: seq<MonthReport>)
      modifies this
      ensures View() == AfterMonths(old(View()), input, months) && |results| == |months|
      ensures forall i :: 0 <= i < |months| ==>
        results[i] == MonthResult(AfterMonths(old(View()), input, months[..i]), input, months[i])
    {
      results := [];
      for i := 0 to |months|
        invariant View() == AfterMonths(old(View()), input, months[..i]) && |results| == i
        invariant forall k :: 0 <= k < i ==>
          results[k] == MonthResult(AfterMonths(old(View()), input, months[..k]), input, months[k])
      {
        assert months[..i + 1][..i] == months[..i];
        var result := SimulateMonth(months[i]);
        results := results + [result];
      }
      assert months[..|months|] == months;
    }
  }
}
