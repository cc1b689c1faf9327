# Budget ledger engine, modelled in Dafny

This project models the ledger engine of a browser budget tracker, without its
page rendering and browser storage. The engine covers:

- the stored document: income, expenses, savings goals and the low-balance
  alert threshold;
- the values derived from it: totals and balance, the five most recent
  expenses, goal completion, and spending by category;
- the form handlers that change it: add expense, delete expense, add goal,
  contribute to a goal, add income, set the threshold, reset;
- the low-balance check. Its interruptive notice fires at most once per
  session, latched by a session flag. A reset clears the flag, and the
  dashboard it redirects to notifies again.

Modules, leaf first:

| file | module | contents |
|---|---|---|
| ledger.dfy | `LedgerModel` | records, the empty default document (threshold 100), unique-id invariant, goal completion |
| totals.dfy | `Totals` | income and expense totals, balance, the recent-expenses view |
| categories.dfy | `CategorySummary` | grouping by category, then a stable sort by amount, highest first |
| mutations.dfy | `Mutations` | each handler's change as a function returning `Ok(ledger)` or `Err(error)` |
| alert.dfy | `BalanceAlert` | the balance check and its one-shot session flag |
| app.dfy | `App` | the handlers as a state machine over (ledger, session flag) |
| scenarios.dfy | `Scenarios` | worked examples on concrete values |

Amounts are Dafny `real`, which is exact. The application generates ids
from a random source and dates from the clock; here both are parameters.
The current ledger and the session flag are explicit values passed in and
returned. Nothing is read from or written to storage.

Validation follows the code:

- An expense or income is refused only for an empty name or a zero amount,
  so a negative amount is accepted.
- A goal is refused only for an empty name or a zero target, so a negative
  target is accepted.
- A contribution is refused when its amount is not positive. It is then
  refused with `GoalNotFound` when no goal has the id. The amount is checked
  first.
- A threshold is refused only when negative.

The user-facing text suggests stricter rules than the checks enforce. The
threshold refusal says "Please enter a positive number." (scripts/app.js:487),
yet zero is accepted. The contribution input carries `min="0.01"`
(scripts/app.js:387), but that is a form attribute; the model keeps only the
handler's own test.

A contribution updates the first goal with the given id, as `Array.find` does.
When goal ids are unique, that is the goal with the id (`ContributeTargetsGoal`).
Deletion removes every expense with the id, as `filter` does. When expense ids
are unique, that is exactly one record (`DeleteUnique`).

## Model

| member | source | states |
|---|---|---|
| Totals.GetTotals | scripts/app.js:79-88 | the figures come from two `reduce` folds starting at 0. They equal the income total and the spending total, each summed independently from the first record, and the balance is their difference |
| Totals.IncomeReduceSum | scripts/app.js:81 | the income fold started at any value ends at that value plus the income total |
| Totals.ExpenseReduceSum | scripts/app.js:82-85 | the expense fold started at any value ends at that value plus the spending total |
| Totals.ExpenseTotalAppend | scripts/app.js:82-85 | appending an expense raises the spending total by exactly its amount |
| Totals.IncomeTotalAppend | scripts/app.js:81 | appending income raises the income total by exactly its amount |
| Totals.ExpenseTotalConcat | scripts/app.js:82-85 | summation counts every expense exactly once: the total of a concatenation is the sum of the two totals |
| Totals.IncomeTotalConcat | scripts/app.js:81 | summation counts every income record exactly once: the total of a concatenation is the sum of the two totals |
| Totals.RecentExpenses | scripts/app.js:152 | the recent view has min(5, number of expenses) entries; entry i is the i-th newest expense, so the first is the last one appended, and every entry comes from the expense list |
| Totals.RecentIsReversedTail | scripts/app.js:152 | the recent view equals the last min(5, n) expenses read in reverse |
| Totals.RecentAfterAppend | scripts/app.js:152 | after appending an expense, the view starts with it and continues with the previous view, dropping the oldest entry when the view was full |
| CategorySummary.GroupCategories | scripts/app.js:417-424 | grouping lists every category that occurs among the expenses, and lists each one once |
| CategorySummary.GroupAmounts | scripts/app.js:417-424 | each grouped entry's amount is the sum of the expenses filed under its category |
| CategorySummary.GroupSum | scripts/app.js:417-424 | the grouped amounts add up to the total spending |
| CategorySummary.GroupFirstSeenOrder | scripts/app.js:417-424 | grouped entries appear in the order in which their categories first occur among the expenses |
| CategorySummary.SortSorted | scripts/app.js:427-429 | the sorted list runs from the highest amount down (non-increasing) |
| CategorySummary.SortStable | scripts/app.js:427-429 | the sort is stable: for every amount, the entries with that amount keep their relative order |
| CategorySummary.SortPermutes | scripts/app.js:427-429 | sorting only rearranges: the sorted list holds the same entries, each as many times as before |
| CategorySummary.SortCategories | scripts/app.js:427-429 | sorting neither loses nor duplicates a category |
| CategorySummary.BreakdownCorrect | scripts/app.js:416-429 | the summary lists each category once, with what was spent in it; amounts sum to total spending; it is a rearrangement of the grouped entries, sorted non-increasing, with ties in the grouped order, which is the order in which categories first occur |
| Mutations.AddExpense | scripts/app.js:205-219 | refused exactly when the name is empty or the amount is zero; otherwise the new expense is appended, with an empty date replaced by today; income, goals and settings are unchanged; total spending rises by the amount and the balance drops by it |
| Mutations.DeleteExpense | scripts/app.js:234 | an expense survives exactly when it was present and its id differs from the deleted id; income, goals and settings are unchanged |
| Mutations.WithoutConcat | scripts/app.js:234 | deletion distributes over concatenation, so the remaining expenses keep their relative order |
| Mutations.DeleteAbsentIsNoOp | scripts/app.js:234 | deleting an id that no expense has returns the ledger unchanged |
| Mutations.DeleteIdempotent | scripts/app.js:234 | deleting the same id twice gives the same ledger as deleting it once |
| Mutations.DeleteUnique | scripts/app.js:234 | with unique expense ids, deleting the id at position k removes exactly that record, and the balance rises by its amount |
| Mutations.AddGoal | scripts/app.js:289-301 | refused exactly when the name is empty or the target is zero; otherwise a goal with nothing saved is appended and nothing else changes |
| Mutations.FindGoal | scripts/app.js:327 | returns the position of the first goal with the id, or the length when no goal has it |
| Mutations.Contribute | scripts/app.js:318-344 | refused exactly when the amount is not positive or no goal has the id, with the amount checked first. On success, in one update: the found goal's saved amount grows by the amount; every other goal is unchanged; exactly one expense is appended (the amount, category "Goal Contribution", source "Transfer"); the balance drops by the amount |
| Mutations.ContributeTargetsGoal | scripts/app.js:327-329 | with unique goal ids, a contribution changes the goal with that id and no other |
| Mutations.ContributeKeepsProgress | scripts/app.js:329 | no goal's saved amount or target decreases, so a completed goal (saved ≥ target) stays completed |
| Mutations.ContributeCompletes | scripts/app.js:373 | completion is saved ≥ target: the goal a contribution lands on is complete afterwards exactly when its old saved amount plus the contribution reaches the target, and no other goal's completion changes |
| Mutations.AddIncome | scripts/app.js:457-470 | refused exactly when the name is empty or the amount is zero; otherwise the income is appended, expenses, goals and settings are unchanged, and the balance rises by the amount |
| Mutations.SetThreshold | scripts/app.js:485-491 | refused exactly when the value is negative; otherwise only the threshold changes, and the balance is the same |
| Mutations.AddExpenseWellFormed | scripts/app.js:205-206 | adding an expense with a fresh id keeps ids unique |
| Mutations.DeleteWellFormed | scripts/app.js:234 | deleting keeps ids unique |
| Mutations.AddGoalWellFormed | scripts/app.js:289-290 | adding a goal with a fresh id keeps ids unique |
| Mutations.ContributeWellFormed | scripts/app.js:336-344 | a contribution whose expense id is fresh keeps ids unique |
| Mutations.AddIncomeWellFormed | scripts/app.js:457-458 | adding income with a fresh id keeps ids unique |
| BalanceAlert.CheckBalanceAlert | scripts/app.js:102-119 | the banner shows low exactly when balance < threshold; the notice fires exactly when low and the session flag is clear; afterwards the flag is set exactly when it was set before or the balance is low |
| BalanceAlert.EmptyLedgerIsLow | scripts/app.js:35-47 | the default document has no income, expenses or goals and threshold 100. Its ids are trivially unique, its totals are 0 / 0 / 0, and its balance is below the threshold |
| BalanceAlert.NoticeAtMostOnce | scripts/app.js:110-119 | across any series of checks in one session, the notice fires at most once and never when the flag starts set. It fires exactly once if and only if the flag starts clear and some check finds the balance low |
| App.Step | scripts/app.js:186-510 | the tail of every handler. A refused submission leaves ledger and flag unchanged and runs no balance check; an accepted one stores the new ledger. A check follows every accepted change except adding a goal (lines 224, 237, 349, 474, 494 versus 301-305), and opening the dashboard (line 190). A reset (lines 505-510) empties the ledger, clears the flag and redirects to the dashboard, so its check runs with the flag clear. Each check's banner reflects the new ledger. The notice fires exactly when that check finds the balance low and the flag was clear (for a reset, always when low); afterwards the flag is set exactly when it was set or a notice fired |
| App.OneNoticePerSession | scripts/app.js:110-119 | over any run of commands without a reset, at most one notice fires, none if the flag starts set; once one fires, the flag is still set at the end |
| App.LatchHolds | scripts/app.js:112-118 | once the flag is set, it is still set after any run of commands, resets included, because the dashboard after a reset sets it again |
| App.ResetRearms | scripts/app.js:505-510 | a reset leaves the empty document with threshold 100. Its dashboard check always shows the banner and fires the notice, whatever the flag was before, and leaves the flag set |
| App.NoticesPerReset | scripts/app.js:505-510 | over any run, the number of notices is at most the number of resets, plus one when the flag starts clear |
| App.StepWellFormed | scripts/app.js:69-71 | every handler keeps ids unique, given that the ids it introduces are fresh |
| Scenarios.PaycheckThenRent | scripts/app.js:79-88 | income 1000 then an expense of 400 give totals 1000 / 400 / 600 |
| Scenarios.NegativeExpenseAccepted | scripts/app.js:214 | an expense of −20 is accepted and raises the balance by 20; a zero amount or an empty name is refused |
| Scenarios.HalfwayContribution | scripts/app.js:326-344 | contributing 50 to a goal of 200 brings it to 50, records one "Goal Contribution" expense, and the goal is not complete |
| Scenarios.LowBalanceNotifiesOnce | scripts/app.js:102-119 | with balance 80 and threshold 100, the first dashboard visit shows the banner and notifies; the second shows the banner only |
| Scenarios.ResetNotifiesAgain | scripts/app.js:505-510 | in an already-notified session, reset, then income of 1000, then the dashboard raise exactly one notice (the reset's), and the flag ends set |

## Left out

- Page wiring: routing by `document.body.id`, DOM queries, HTML templates, event listeners, and the `alert`/`confirm` dialogs. A confirmed dialog is a command (`ConfirmDelete`, `ConfirmReset`).
- Storage: `localStorage`/`sessionStorage` and JSON conversion. The document and the session flag are explicit values, so there is no load/save round trip to state.
- Id generation: it uses `Math.random`. Ids are parameters. Uniqueness is a hypothesis of the `...WellFormed` lemmas, since the application does not check it.
- Dates: `new Date()` becomes a `today` parameter. The expense page's sort by parsed date is not modelled.
- Floating point: amounts are exact reals. Left out are rounding in sums, `parseFloat` producing NaN, and `toFixed` formatting. A NaN amount is refused by the application (as `!x`); a NaN threshold passes its `< 0` test; neither value exists here.
- Percentages: goal progress and category share are display-only divisions. They are not modelled, and neither is a zero-total guard.
- CategorySummary.Accumulate: the application accumulates into a plain object `{}`, so a category named after an inherited member is not grouped like the others. The model groups every category name alike. Under "constructor", "toString" or "valueOf", `!acc[cat]` sees the inherited function and the amount becomes a string, which makes the later `toFixed` call throw. Under "__proto__" the assignment goes to the prototype setter, so the entry is lost and the listed amounts no longer add up to the spending total. JavaScript's object semantics are outside this model.
- `Object.entries` ordering: JavaScript lists integer-like keys (for example a category named "2024") before other keys. The model keeps first-seen order for every category.
- Completed goals: the goal list hides the contribution form for them. The contribution handler itself does not check completion, so `Contribute` accepts such contributions.
- Deleting a synthetic "Goal Contribution" expense does not reduce the goal's saved amount. The model reproduces this and states no invariant linking goal amounts to contribution expenses.
- scripts/landing.js: an earlier prototype (async seed fetch, module-level data, modal wiring). Its only arithmetic repeats the expense sum.
