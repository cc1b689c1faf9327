/** The application as its event handlers drive it: the stored ledger and the
    session flag, changed one submitted form (or confirmed button) at a time.
    A refused submission changes nothing and skips the balance check; every
    accepted change except adding a goal is followed by a balance check, and
    so is opening the dashboard. A reset clears the session flag and then
    sends the browser to the dashboard, whose check runs on the emptied
    ledger. */
module App {
  import opened LedgerModel
  import opened Mutations
  import opened BalanceAlert

  datatype Option<T> = None | Some(value: T)

  datatype State = State(ledger: Ledger, session: Session)

  /** What the user submits. Generated ids and today's date come with the command. */
  datatype Command =
    | SubmitExpense(id: Id, name: string, amount: real, category: string, date: Date, today: Date, source: string)
    | ConfirmDelete(expenseId: Id)
    | SubmitGoal(id: Id, name: string, target: real)
    | SubmitContribution(goalId: Id, amount: real, newExpenseId: Id, today: Date)
    | SubmitIncome(id: Id, name: string, amount: real, date: Date, today: Date)
    | SubmitThreshold(value: real)
    | ConfirmReset
    | OpenDashboard

  /** The next state, the refusal if any, and what the balance check showed
      if one ran. */
  datatype Outcome = Outcome(state: State, refused: Option<Error>, alert: Option<AlertView>)

  /** The ledger change a command asks for. */
  function Apply(l: Ledger, cmd: Command): Result<Ledger> {
    match cmd
    case SubmitExpense(id, name, amount, category, date, today, source) =>
      AddExpense(l, id, name, amount, category, date, today, source)
    case ConfirmDelete(id) => Ok(DeleteExpense(l, id))
    case SubmitGoal(id, name, target) => AddGoal(l, id, name, target)
    case SubmitContribution(goalId, amount, expenseId, today) => Contribute(l, goalId, amount, expenseId, today)
    case SubmitIncome(id, name, amount, date, today) => AddIncome(l, id, name, amount, date, today)
    case SubmitThreshold(value) => SetThreshold(l, value)
    case ConfirmReset => Ok(EmptyLedger)
    case OpenDashboard => Ok(l)
  }

  /** Handlers that re-check the balance once their change is saved; for a
      reset, the check is the one of the dashboard it redirects to. */
  predicate ChecksBalance(cmd: Command) {
    !cmd.SubmitGoal?
  }

  predicate Notified(o: Outcome) {
    o.alert.Some? && o.alert.value.notify
  }

  /** Handle one command. */
  function Step(st: State, cmd: Command): (o: Outcome)
    ensures o.refused.Some? <==> Apply(st.ledger, cmd).Err?
    ensures o.refused.Some? ==> o.state == st && o.alert.None?
    ensures o.refused.None? ==> o.state.ledger == Apply(st.ledger, cmd).value
    ensures o.alert.Some? <==> o.refused.None? && ChecksBalance(cmd)
    ensures o.alert.Some? ==> o.alert.value.low == IsLow(o.state.ledger)
    ensures cmd.ConfirmReset? ==> o.state.ledger == EmptyLedger
    ensures st.session.alertShown ==> o.state.session.alertShown
    ensures o.state.session.alertShown <==> st.session.alertShown || Notified(o)
    ensures Notified(o) <==> o.alert.Some? && o.alert.value.low && (cmd.ConfirmReset? || !st.session.alertShown)
  {
    match Apply(st.ledger, cmd)
    case Err(e) => Outcome(st, Some(e), None)
    case Ok(l) =>
      var session := if cmd.ConfirmReset? then FreshSession else st.session;
      if ChecksBalance(cmd) then
        var (v, s) := CheckBalanceAlert(l, session);
        Outcome(State(l, s), None, Some(v))
      else Outcome(State(l, session), None, None)
  }

  /** The state after handling the commands in order. */
  function Run(st: State, cmds: seq<Command>): State
    decreases |cmds|
  {
    if |cmds| == 0 then st else Run(Step(st, cmds[0]).state, cmds[1..])
  }

  /** How many interruptive notices the commands raise. */
  function Notices(st: State, cmds: seq<Command>): nat
    decreases |cmds|
  {
    if |cmds| == 0 then 0
    else (if Notified(Step(st, cmds[0])) then 1 else 0) + Notices(Step(st, cmds[0]).state, cmds[1..])
  }

  predicate NoReset(cmds: seq<Command>) {
    forall i :: 0 <= i < |cmds| ==> !cmds[i].ConfirmReset?
  }

  /** Without a reset, the notice fires at most once, and not at all when the
      session has already seen it. */
  lemma {:induction false} OneNoticePerSession(st: State, cmds: seq<Command>)
    requires NoReset(cmds)
    ensures Notices(st, cmds) <= 1
    ensures st.session.alertShown ==> Notices(st, cmds) == 0
    ensures Notices(st, cmds) == 1 ==> Run(st, cmds).session.alertShown
    decreases |cmds|
  {
    if |cmds| > 0 {
      var o := Step(st, cmds[0]);
      assert NoReset(cmds[1..]) by {
        forall i | 0 <= i < |cmds[1..]|
          ensures !cmds[1..][i].ConfirmReset?
        {
          assert cmds[1..][i] == cmds[i + 1];
        }
      }
      OneNoticePerSession(o.state, cmds[1..]);
      if Notified(o) {
        LatchHolds(o.state, cmds[1..]);
      }
    }
  }

  /** The session flag is a latch: once set, it stays set. A reset clears
      it, but the dashboard the reset redirects to sets it again. */
  lemma {:induction false} LatchHolds(st: State, cmds: seq<Command>)
    requires st.session.alertShown
    ensures Run(st, cmds).session.alertShown
    decreases |cmds|
  {
    if |cmds| > 0 {
      LatchHolds(Step(st, cmds[0]).state, cmds[1..]);
    }
  }

  /** A reset empties the ledger and clears the flag. The dashboard it
      redirects to finds the empty ledger's balance of zero below the default
      threshold, so the notice fires again whatever the flag was, and the
      flag ends up set. */
  lemma ResetRearms(st: State)
    ensures Step(st, ConfirmReset).state == State(EmptyLedger, Session(true))
    ensures Step(st, ConfirmReset).alert == Some(AlertView(true, true))
    ensures Notified(Step(st, ConfirmReset))
  {
  }

  /** How many resets the commands contain. */
  function Resets(cmds: seq<Command>): nat
    decreases |cmds|
  {
    if |cmds| == 0 then 0 else (if cmds[0].ConfirmReset? then 1 else 0) + Resets(cmds[1..])
  }

  /** Each reset re-arms the notice once, so a run raises at most one notice
      per reset, plus one if the flag starts clear. */
  lemma {:induction false} NoticesPerReset(st: State, cmds: seq<Command>)
    ensures Notices(st, cmds) <= (if st.session.alertShown then 0 else 1) + Resets(cmds)
    decreases |cmds|
  {
    if |cmds| > 0 {
      NoticesPerReset(Step(st, cmds[0]).state, cmds[1..]);
    }
  }

  /** The ids a command would introduce are new to the ledger. */
  predicate FreshIds(l: Ledger, cmd: Command) {
    match cmd
    case SubmitExpense(id, _, _, _, _, _, _) => id !in ExpenseIds(l.expenses)
    case SubmitGoal(id, _, _) => id !in GoalIds(l.goals)
    case SubmitContribution(_, _, expenseId, _) => expenseId !in ExpenseIds(l.expenses)
    case SubmitIncome(id, _, _, _, _) => id !in IncomeIds(l.income)
    case _ => true
  }

  /** Given fresh ids, every handler keeps ids unique. */
  lemma StepWellFormed(st: State, cmd: Command)
    requires WellFormed(st.ledger)
    requires FreshIds(st.ledger, cmd)
    ensures WellFormed(Step(st, cmd).state.ledger)
  {
    var l := st.ledger;
    if Apply(l, cmd).Ok? {
      match cmd
      case SubmitExpense(id, name, amount, category, date, today, source) =>
        AddExpenseWellFormed(l, id, name, amount, category, date, today, source);
      case ConfirmDelete(id) => DeleteWellFormed(l, id);
      case SubmitGoal(id, name, target) => AddGoalWellFormed(l, id, name, target);
      case SubmitContribution(goalId, amount, expenseId, today) =>
        ContributeWellFormed(l, goalId, amount, expenseId, today);
      case SubmitIncome(id, name, amount, date, today) =>
        AddIncomeWellFormed(l, id, name, amount, date, today);
      case SubmitThreshold(value) =>
      case ConfirmReset =>
      case OpenDashboard =>
    }
  }
}
