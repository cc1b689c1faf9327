/** The form handlers' state changes, each a function from the current ledger
    and the submitted values to either the next ledger or the reason the
    submission was refused. A refusal carries no ledger: the stored document
    stays what it was.

    Validation is the application's own: a record with an empty name or a
    zero amount is refused, but a negative amount is accepted. Only a goal
    contribution insists on a positive amount. */
module Mutations {
  import opened LedgerModel
  import opened Totals

  datatype Error =
    | MissingNameOrAmount
    | MissingGoalNameOrTarget
    | InvalidContribution
    | GoalNotFound
    | NegativeThreshold

  datatype Result<T> = Ok(value: T) | Err(error: Error)

  /** An empty date field means today. */
  function DateOrToday(input: Date, today: Date): Date {
    if input == "" then today else input
  }

  // ---------------------------------------------------------------------
  // Expenses
  // ---------------------------------------------------------------------

  /** Record an expense. Refused when the name is empty or the amount is zero. */
  function AddExpense(
    l: Ledger, id: Id, name: string, amount: real, category: string,
    date: Date, today: Date, source: string
  ): (r: Result<Ledger>)
    ensures r.Err? <==> name == "" || amount == 0.0
    ensures r.Err? ==> r.error == MissingNameOrAmount
    ensures r.Ok? ==>
      && r.value.expenses == l.expenses + [Expense(id, name, amount, category, DateOrToday(date, today), source)]
      && r.value.income == l.income
      && r.value.goals == l.goals
      && r.value.settings == l.settings
      && ExpenseTotal(r.value.expenses) == ExpenseTotal(l.expenses) + amount
      && Balance(r.value) == Balance(l) - amount
  {
    if name == "" || amount == 0.0 then Err(MissingNameOrAmount)
    else
      var e := Expense(id, name, amount, category, DateOrToday(date, today), source);
      ExpenseTotalAppend(l.expenses, e);
      Ok(l.(expenses := l.expenses + [e]))
  }

  /** The expenses whose id is not `id`, in their original order. */
  function Without(es: seq<Expense>, id: Id): (r: seq<Expense>)
    ensures |r| <= |es|
    ensures forall i :: 0 <= i < |r| ==> r[i].id != id && r[i] in es
    ensures forall e :: e in es && e.id != id ==> e in r
  {
    if |es| == 0 then []
    else
      var rest := Without(es[..|es| - 1], id);
      var last := es[|es| - 1];
      assert forall e :: e in es ==> e in es[..|es| - 1] || e == last;
      if last.id == id then rest else rest + [last]
  }

  /** Remove every expense carrying `id`; an unknown id is not an error. */
  function DeleteExpense(l: Ledger, id: Id): (r: Ledger)
    ensures r.income == l.income && r.goals == l.goals && r.settings == l.settings
    ensures forall e :: e in r.expenses <==> e in l.expenses && e.id != id
  {
    l.(expenses := Without(l.expenses, id))
  }

  /** Filtering distributes over concatenation, so the expenses that stay keep
      their relative order. */
  lemma {:induction false} WithoutConcat(a: seq<Expense>, b: seq<Expense>, id: Id)
    ensures Without(a + b, id) == Without(a, id) + Without(b, id)
    decreases |b|
  {
    if |b| == 0 {
      assert a + b == a;
    } else {
      var b' := b[..|b| - 1];
      assert (a + b)[..|a + b| - 1] == a + b';
      WithoutConcat(a, b', id);
    }
  }

  /** Deleting an id that no expense carries changes nothing. */
  lemma {:induction false} WithoutAbsent(es: seq<Expense>, id: Id)
    requires forall i :: 0 <= i < |es| ==> es[i].id != id
    ensures Without(es, id) == es
    decreases |es|
  {
    if |es| > 0 {
      var es' := es[..|es| - 1];
      assert forall i :: 0 <= i < |es'| ==> es'[i] == es[i];
      WithoutAbsent(es', id);
      assert es == es' + [es[|es| - 1]];
    }
  }

  lemma DeleteAbsentIsNoOp(l: Ledger, id: Id)
    requires id !in ExpenseIds(l.expenses)
    ensures DeleteExpense(l, id) == l
  {
    forall i | 0 <= i < |l.expenses|
      ensures l.expenses[i].id != id
    {
      assert l.expenses[i].id in ExpenseIds(l.expenses);
    }
    WithoutAbsent(l.expenses, id);
  }

  /** Deleting twice is deleting once. */
  lemma DeleteIdempotent(l: Ledger, id: Id)
    ensures DeleteExpense(DeleteExpense(l, id), id) == DeleteExpense(l, id)
  {
    WithoutAbsent(Without(l.expenses, id), id);
  }

  /** In a ledger whose expense ids are unique, deleting the id of the expense
      at position k removes exactly that record and gives back its amount. */
  lemma DeleteUnique(l: Ledger, k: nat)
    requires UniqueExpenseIds(l.expenses)
    requires k < |l.expenses|
    ensures DeleteExpense(l, l.expenses[k].id).expenses == l.expenses[..k] + l.expenses[k + 1..]
    ensures Balance(DeleteExpense(l, l.expenses[k].id)) == Balance(l) + l.expenses[k].amount
  {
    var es := l.expenses;
    var id := es[k].id;
    var a := es[..k];
    var b := es[k + 1..];
    assert es == a + [es[k]] + b;
    forall i | 0 <= i < |a|
      ensures a[i].id != id
    {
      assert a[i] == es[i];
    }
    forall i | 0 <= i < |b|
      ensures b[i].id != id
    {
      assert b[i] == es[k + 1 + i];
    }
    WithoutConcat(a + [es[k]], b, id);
    WithoutConcat(a, [es[k]], id);
    assert Without([es[k]], id) == [] by {
      assert [es[k]][..0] == [];
    }
    WithoutAbsent(a, id);
    WithoutAbsent(b, id);
    ExpenseTotalConcat(a + [es[k]], b);
    ExpenseTotalConcat(a, b);
    ExpenseTotalAppend(a, es[k]);
  }

  // ---------------------------------------------------------------------
  // Goals
  // ---------------------------------------------------------------------

  /** Open a savings goal with nothing saved yet. Refused when the name is
      empty or the target is zero. */
  function AddGoal(l: Ledger, id: Id, name: string, target: real): (r: Result<Ledger>)
    ensures r.Err? <==> name == "" || target == 0.0
    ensures r.Err? ==> r.error == MissingGoalNameOrTarget
    ensures r.Ok? ==>
      && r.value.goals == l.goals + [Goal(id, name, target, 0.0)]
      && r.value.income == l.income
      && r.value.expenses == l.expenses
      && r.value.settings == l.settings
  {
    if name == "" || target == 0.0 then Err(MissingGoalNameOrTarget)
    else Ok(l.(goals := l.goals + [Goal(id, name, target, 0.0)]))
  }

  /** Position of the first goal with `id`, or |gs| when there is none. */
  function FindGoal(gs: seq<Goal>, id: Id): (k: nat)
    ensures k <= |gs|
    ensures k < |gs| ==> gs[k].id == id
    ensures k == |gs| <==> id !in GoalIds(gs)
    ensures forall j :: 0 <= j < k ==> gs[j].id != id
  {
    if |gs| == 0 then 0
    else if gs[0].id == id then 0
    else
      var k := 1 + FindGoal(gs[1..], id);
      assert GoalIds(gs) == {gs[0].id} + GoalIds(gs[1..]) by {
        forall x | x in GoalIds(gs)
          ensures x in {gs[0].id} + GoalIds(gs[1..])
        {
          var i :| 0 <= i < |gs| && gs[i].id == x;
          if i > 0 {
            assert gs[1..][i - 1].id == x;
          }
        }
        forall x | x in GoalIds(gs[1..])
          ensures x in GoalIds(gs)
        {
          var i :| 0 <= i < |gs[1..]| && gs[1..][i].id == x;
          assert gs[i + 1].id == x;
        }
      }
      k
  }

  /** The expense that records a contribution of `amount` to goal `g`. */
  function ContributionExpense(g: Goal, amount: real, id: Id, today: Date): Expense {
    Expense(id, ContributionName(g.name), amount, ContributionCategory, today, ContributionSource)
  }

  /** Move `amount` into the goal with `goalId`. The goal's saved amount and
      the expense list change together: the goal grows by `amount`, and one
      "Goal Contribution" expense of that amount is appended. Refused when the
      amount is not positive, then when no goal has the id. */
  function Contribute(l: Ledger, goalId: Id, amount: real, expenseId: Id, today: Date): (r: Result<Ledger>)
    ensures r.Err? <==> amount <= 0.0 || goalId !in GoalIds(l.goals)
    ensures r.Err? && amount <= 0.0 ==> r.error == InvalidContribution
    ensures r.Err? && amount > 0.0 ==> r.error == GoalNotFound
    ensures r.Ok? ==>
      var k := FindGoal(l.goals, goalId);
      var g := l.goals[k];
      && |r.value.goals| == |l.goals|
      && r.value.goals[k] == g.(current := g.current + amount)
      && (forall j :: 0 <= j < |l.goals| && j != k ==> r.value.goals[j] == l.goals[j])
      && r.value.expenses == l.expenses + [ContributionExpense(g, amount, expenseId, today)]
      && r.value.income == l.income
      && r.value.settings == l.settings
      && Balance(r.value) == Balance(l) - amount
  {
    if amount <= 0.0 then Err(InvalidContribution)
    else
      var k := FindGoal(l.goals, goalId);
      if k == |l.goals| then Err(GoalNotFound)
      else
        var g := l.goals[k];
        var e := ContributionExpense(g, amount, expenseId, today);
        ExpenseTotalAppend(l.expenses, e);
        Ok(l.(goals := l.goals[k := g.(current := g.current + amount)],
              expenses := l.expenses + [e]))
  }

  /** With unique goal ids the contribution lands on the goal with `goalId`
      and on no other. */
  lemma ContributeTargetsGoal(l: Ledger, goalId: Id, amount: real, expenseId: Id, today: Date)
    requires UniqueGoalIds(l.goals)
    requires Contribute(l, goalId, amount, expenseId, today).Ok?
    ensures var gs := Contribute(l, goalId, amount, expenseId, today).value.goals;
      forall j :: 0 <= j < |l.goals| ==>
        gs[j] == if l.goals[j].id == goalId then l.goals[j].(current := l.goals[j].current + amount) else l.goals[j]
  {
  }

  /** A contribution never takes anything away from a goal, so a completed
      goal stays completed. */
  lemma ContributeKeepsProgress(l: Ledger, goalId: Id, amount: real, expenseId: Id, today: Date)
    requires Contribute(l, goalId, amount, expenseId, today).Ok?
    ensures var gs := Contribute(l, goalId, amount, expenseId, today).value.goals;
      && |gs| == |l.goals|
      && (forall j :: 0 <= j < |gs| ==> gs[j].current >= l.goals[j].current && gs[j].target == l.goals[j].target)
      && (forall j :: 0 <= j < |gs| && IsComplete(l.goals[j]) ==> IsComplete(gs[j]))
  {
  }

  /** The goal a contribution lands on is complete afterwards exactly when
      its new saved amount reaches its target; no other goal's completion
      changes. */
  lemma ContributeCompletes(l: Ledger, goalId: Id, amount: real, expenseId: Id, today: Date)
    requires Contribute(l, goalId, amount, expenseId, today).Ok?
    ensures var k := FindGoal(l.goals, goalId);
      var gs := Contribute(l, goalId, amount, expenseId, today).value.goals;
      && k < |l.goals|
      && (IsComplete(gs[k]) <==> l.goals[k].current + amount >= l.goals[k].target)
      && (forall j :: 0 <= j < |gs| && j != k ==> (IsComplete(gs[j]) <==> IsComplete(l.goals[j])))
  {
  }

  // ---------------------------------------------------------------------
  // Income and settings
  // ---------------------------------------------------------------------

  /** Record income. Refused when the name is empty or the amount is zero. */
  function AddIncome(l: Ledger, id: Id, name: string, amount: real, date: Date, today: Date): (r: Result<Ledger>)
    ensures r.Err? <==> name == "" || amount == 0.0
    ensures r.Err? ==> r.error == MissingNameOrAmount
    ensures r.Ok? ==>
      && r.value.income == l.income + [Income(id, name, amount, DateOrToday(date, today))]
      && r.value.expenses == l.expenses
      && r.value.goals == l.goals
      && r.value.settings == l.settings
      && IncomeTotal(r.value.income) == IncomeTotal(l.income) + amount
      && Balance(r.value) == Balance(l) + amount
  {
    if name == "" || amount == 0.0 then Err(MissingNameOrAmount)
    else
      var i := Income(id, name, amount, DateOrToday(date, today));
      IncomeTotalAppend(l.income, i);
      Ok(l.(income := l.income + [i]))
  }

  /** Change the low-balance threshold. Refused when it is negative. */
  function SetThreshold(l: Ledger, value: real): (r: Result<Ledger>)
    ensures r.Err? <==> value < 0.0
    ensures r.Err? ==> r.error == NegativeThreshold
    ensures r.Ok? ==> r.value == l.(settings := Settings(value)) && Balance(r.value) == Balance(l)
  {
    if value < 0.0 then Err(NegativeThreshold)
    else Ok(l.(settings := Settings(value)))
  }

  // ---------------------------------------------------------------------
  // Unique ids are preserved
  // ---------------------------------------------------------------------

  lemma AddExpenseWellFormed(
    l: Ledger, id: Id, name: string, amount: real, category: string,
    date: Date, today: Date, source: string
  )
    requires WellFormed(l)
    requires id !in ExpenseIds(l.expenses)
    requires AddExpense(l, id, name, amount, category, date, today, source).Ok?
    ensures WellFormed(AddExpense(l, id, name, amount, category, date, today, source).value)
  {
  }

  lemma DeleteWellFormed(l: Ledger, id: Id)
    requires WellFormed(l)
    ensures WellFormed(DeleteExpense(l, id))
  {
    WithoutKeepsUnique(l.expenses, id);
  }

  lemma {:induction false} WithoutKeepsUnique(es: seq<Expense>, id: Id)
    requires UniqueExpenseIds(es)
    ensures UniqueExpenseIds(Without(es, id))
    decreases |es|
  {
    if |es| > 0 {
      var es' := es[..|es| - 1];
      var last := es[|es| - 1];
      WithoutKeepsUnique(es', id);
      var rest := Without(es', id);
      if last.id != id {
        var r := rest + [last];
        forall i, j | 0 <= i < j < |r|
          ensures r[i].id != r[j].id
        {
          if j == |rest| {
            var a :| 0 <= a < |es'| && es'[a] == rest[i];
          }
        }
      }
    }
  }

  lemma AddGoalWellFormed(l: Ledger, id: Id, name: string, target: real)
    requires WellFormed(l)
    requires id !in GoalIds(l.goals)
    requires AddGoal(l, id, name, target).Ok?
    ensures WellFormed(AddGoal(l, id, name, target).value)
  {
  }

  lemma ContributeWellFormed(l: Ledger, goalId: Id, amount: real, expenseId: Id, today: Date)
    requires WellFormed(l)
    requires expenseId !in ExpenseIds(l.expenses)
    requires Contribute(l, goalId, amount, expenseId, today).Ok?
    ensures WellFormed(Contribute(l, goalId, amount, expenseId, today).value)
  {
  }

  lemma AddIncomeWellFormed(l: Ledger, id: Id, name: string, amount: real, date: Date, today: Date)
    requires WellFormed(l)
    requires id !in IncomeIds(l.income)
    requires AddIncome(l, id, name, amount, date, today).Ok?
    ensures WellFormed(AddIncome(l, id, name, amount, date, today).value)
  {
  }
}
