/** Worked examples of the ledger engine on concrete values. */
module Scenarios {
  import opened LedgerModel
  import opened Totals
  import opened Mutations
  import opened BalanceAlert
  import opened App

  /** A paycheck of 1000 then rent of 400 leave a balance of 600. */
  lemma PaycheckThenRent()
    ensures var a := AddIncome(EmptyLedger, "i1", "Paycheck", 1000.0, "", "2024-05-01");
      && a.Ok?
      && var b := AddExpense(a.value, "e1", "Rent", 400.0, "Housing", "", "2024-05-01", "Card");
      && b.Ok?
      && GetTotals(b.value) == Totals(1000.0, 400.0, 600.0)
  {
  }

  /** Validation rejects only an empty name or a zero amount: a negative
      expense is recorded and raises the balance. */
  lemma NegativeExpenseAccepted(l: Ledger)
    ensures var r := AddExpense(l, "e1", "Refund", -20.0, "Misc", "", "2024-05-01", "Card");
      r.Ok? && Balance(r.value) == Balance(l) + 20.0
    ensures AddExpense(l, "e1", "Refund", 0.0, "Misc", "", "2024-05-01", "Card") == Err(MissingNameOrAmount)
    ensures AddExpense(l, "e1", "", 5.0, "Misc", "", "2024-05-01", "Card") == Err(MissingNameOrAmount)
  {
  }

  /** 50 towards a goal of 200 brings it to 50, records one contribution
      expense, and leaves the goal incomplete. */
  lemma HalfwayContribution()
    ensures var l := Ledger([], [], [Goal("g1", "Bike", 200.0, 0.0)], Settings(DefaultThreshold));
      var r := Contribute(l, "g1", 50.0, "e1", "2024-05-01");
      && r.Ok?
      && r.value.goals == [Goal("g1", "Bike", 200.0, 50.0)]
      && r.value.expenses == [Expense("e1", "Contribution to \"Bike\"", 50.0, "Goal Contribution", "2024-05-01", "Transfer")]
      && !IsComplete(r.value.goals[0])
  {
    var gs := [Goal("g1", "Bike", 200.0, 0.0)];
    assert FindGoal(gs, "g1") == 0;
    assert ContributionName("Bike") == "Contribution to \"Bike\"";
  }

  /** A balance of 80 under the default threshold notifies on the first
      dashboard visit only; the banner shows on both. */
  lemma LowBalanceNotifiesOnce()
    ensures var l := Ledger([Income("i1", "Pay", 80.0, "2024-05-01")], [], [], Settings(DefaultThreshold));
      var first := Step(State(l, FreshSession), OpenDashboard);
      var second := Step(first.state, OpenDashboard);
      && first.alert == Some(AlertView(true, true))
      && second.alert == Some(AlertView(true, false))
  {
  }

  /** A reset notifies even in a session that was already notified: the
      dashboard it redirects to finds the emptied ledger low. Income that
      lifts the balance above the threshold then brings no further notice. */
  lemma ResetNotifiesAgain(l: Ledger)
    ensures var cmds := [ConfirmReset, SubmitIncome("i1", "Pay", 1000.0, "", "2024-05-01"), OpenDashboard];
      && Notices(State(l, Session(true)), cmds) == 1
      && Run(State(l, Session(true)), cmds).session.alertShown
  {
  }
}
