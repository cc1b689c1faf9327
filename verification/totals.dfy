/** Derived values of a ledger: the three totals of the dashboard and the
    "recent expenses" view. */
module Totals {
  import opened LedgerModel

  /** Sum of the income amounts: the first record's amount plus the sum of
      the rest. */
  function IncomeTotal(s: seq<Income>): real {
    if |s| == 0 then 0.0 else s[0].amount + IncomeTotal(s[1..])
  }

  /** Sum of the expense amounts, defined the same way. */
  function ExpenseTotal(s: seq<Expense>): real {
    if |s| == 0 then 0.0 else s[0].amount + ExpenseTotal(s[1..])
  }

  /** `reduce((sum, item) => sum + item.amount, sum)` over income records:
      a running sum carried from the first record to the last. */
  function IncomeReduce(sum: real, s: seq<Income>): real
    decreases |s|
  {
    if |s| == 0 then sum else IncomeReduce(sum + s[0].amount, s[1..])
  }

  /** The same fold over expense records. */
  function ExpenseReduce(sum: real, s: seq<Expense>): real
    decreases |s|
  {
    if |s| == 0 then sum else ExpenseReduce(sum + s[0].amount, s[1..])
  }

  /** The running sum ends at its start value plus the total of the records. */
  lemma {:induction false} IncomeReduceSum(sum: real, s: seq<Income>)
    ensures IncomeReduce(sum, s) == sum + IncomeTotal(s)
    decreases |s|
  {
    if |s| > 0 {
      IncomeReduceSum(sum + s[0].amount, s[1..]);
    }
  }

  lemma {:induction false} ExpenseReduceSum(sum: real, s: seq<Expense>)
    ensures ExpenseReduce(sum, s) == sum + ExpenseTotal(s)
    decreases |s|
  {
    if |s| > 0 {
      ExpenseReduceSum(sum + s[0].amount, s[1..]);
    }
  }

  datatype Totals = Totals(totalIncome: real, totalExpenses: real, currentBalance: real)

  function Balance(l: Ledger): real {
    IncomeTotal(l.income) - ExpenseTotal(l.expenses)
  }

  /** The dashboard figures, computed with two folds starting at zero: the
      income total, the spending total, and their difference. */
  function GetTotals(l: Ledger): (t: Totals)
    ensures t.totalIncome == IncomeTotal(l.income)
    ensures t.totalExpenses == ExpenseTotal(l.expenses)
    ensures t.currentBalance == t.totalIncome - t.totalExpenses
    ensures t.currentBalance == Balance(l)
  {
    IncomeReduceSum(0.0, l.income);
    ExpenseReduceSum(0.0, l.expenses);
    var income := IncomeReduce(0.0, l.income);
    var spent := ExpenseReduce(0.0, l.expenses);
    Totals(income, spent, income - spent)
  }

  /** Appending one record raises the total by exactly its amount. */
  lemma {:induction false} ExpenseTotalAppend(s: seq<Expense>, e: Expense)
    ensures ExpenseTotal(s + [e]) == ExpenseTotal(s) + e.amount
    decreases |s|
  {
    if |s| == 0 {
      assert s + [e] == [e];
    } else {
      assert (s + [e])[1..] == s[1..] + [e];
      ExpenseTotalAppend(s[1..], e);
    }
  }

  lemma {:induction false} IncomeTotalAppend(s: seq<Income>, r: Income)
    ensures IncomeTotal(s + [r]) == IncomeTotal(s) + r.amount
    decreases |s|
  {
    if |s| == 0 {
      assert s + [r] == [r];
    } else {
      assert (s + [r])[1..] == s[1..] + [r];
      IncomeTotalAppend(s[1..], r);
    }
  }

  /** Summation visits every record once: the total of a concatenation is the
      sum of the totals. */
  lemma {:induction false} ExpenseTotalConcat(a: seq<Expense>, b: seq<Expense>)
    ensures ExpenseTotal(a + b) == ExpenseTotal(a) + ExpenseTotal(b)
    decreases |a|
  {
    if |a| == 0 {
      assert a + b == b;
    } else {
      assert (a + b)[1..] == a[1..] + b;
      ExpenseTotalConcat(a[1..], b);
    }
  }

  lemma {:induction false} IncomeTotalConcat(a: seq<Income>, b: seq<Income>)
    ensures IncomeTotal(a + b) == IncomeTotal(a) + IncomeTotal(b)
    decreases |a|
  {
    if |a| == 0 {
      assert a + b == b;
    } else {
      assert (a + b)[1..] == a[1..] + b;
      IncomeTotalConcat(a[1..], b);
    }
  }

  function Min(a: int, b: int): int {
    if a <= b then a else b
  }

  /** How many expenses the dashboard lists. */
  const RecentCount: nat := 5

  /** The sequence read back to front. */
  function Reverse<T>(s: seq<T>): (r: seq<T>)
    ensures |r| == |s|
    ensures forall i :: 0 <= i < |s| ==> r[i] == s[|s| - 1 - i]
  {
    if |s| == 0 then [] else [s[|s| - 1]] + Reverse(s[..|s| - 1])
  }

  /** The dashboard's "recent expenses": newest first, at most five. */
  function RecentExpenses(s: seq<Expense>): (r: seq<Expense>)
    ensures |r| == Min(RecentCount, |s|)
    ensures forall i :: 0 <= i < |r| ==> r[i] == s[|s| - 1 - i]
    ensures |s| > 0 ==> r[0] == s[|s| - 1]
    ensures forall e :: e in r ==> e in s
  {
    Reverse(s)[..Min(RecentCount, |s|)]
  }

  /** The recent view is the last few expenses, in reverse order. */
  lemma RecentIsReversedTail(s: seq<Expense>)
    ensures RecentExpenses(s) == Reverse(s[|s| - Min(RecentCount, |s|)..])
  {
  }

  /** The record just appended is the first one the dashboard shows, followed
      by what it showed before, minus the oldest when the view was full. */
  lemma RecentAfterAppend(s: seq<Expense>, e: Expense)
    ensures RecentExpenses(s + [e])[0] == e
    ensures RecentExpenses(s + [e])[1..] == RecentExpenses(s)[..Min(RecentCount - 1, |s|)]
  {
  }
}
