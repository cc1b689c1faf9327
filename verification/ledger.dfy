/** The persisted budget document: income, expenses, savings goals and the
    low-balance alert threshold, read and written as one value.

    Amounts are exact rationals; the ids and dates that the application
    generates from the clock and a random source are opaque strings supplied
    by the caller. */
module LedgerModel {

  type Id = string
  type Date = string

  datatype Income = Income(id: Id, name: string, amount: real, date: Date)

  datatype Expense = Expense(
    id: Id,
    name: string,
    amount: real,
    category: string,
    date: Date,
    source: string
  )

  datatype Goal = Goal(id: Id, name: string, target: real, current: real)

  datatype Settings = Settings(alertThreshold: real)

  datatype Ledger = Ledger(
    income: seq<Income>,
    expenses: seq<Expense>,
    goals: seq<Goal>,
    settings: Settings
  )

  /** The threshold a fresh document starts with. */
  const DefaultThreshold: real := 100.0

  /** The document written on first use and after a reset: no records at all. */
  const EmptyLedger: Ledger := Ledger([], [], [], Settings(DefaultThreshold))

  /** Category and source stamped on the expense that records a goal contribution. */
  const ContributionCategory: string := "Goal Contribution"
  const ContributionSource: string := "Transfer"

  /** Name of the expense that records a contribution to the goal named `goal`. */
  function ContributionName(goal: string): string {
    "Contribution to \"" + goal + "\""
  }

  function IncomeIds(s: seq<Income>): set<Id> {
    set i | 0 <= i < |s| :: s[i].id
  }

  function ExpenseIds(s: seq<Expense>): set<Id> {
    set i | 0 <= i < |s| :: s[i].id
  }

  function GoalIds(s: seq<Goal>): set<Id> {
    set i | 0 <= i < |s| :: s[i].id
  }

  predicate UniqueIncomeIds(s: seq<Income>) {
    forall i, j :: 0 <= i < j < |s| ==> s[i].id != s[j].id
  }

  predicate UniqueExpenseIds(s: seq<Expense>) {
    forall i, j :: 0 <= i < j < |s| ==> s[i].id != s[j].id
  }

  predicate UniqueGoalIds(s: seq<Goal>) {
    forall i, j :: 0 <= i < j < |s| ==> s[i].id != s[j].id
  }

  /** Every id is unique within its collection. */
  predicate WellFormed(l: Ledger) {
    && UniqueIncomeIds(l.income)
    && UniqueExpenseIds(l.expenses)
    && UniqueGoalIds(l.goals)
  }

  /** A goal is complete once what has been saved reaches the target. */
  predicate IsComplete(g: Goal) {
    g.current >= g.target
  }
}
