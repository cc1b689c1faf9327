/** The low-balance check. The banner always shows whether the balance is
    under the threshold; the interruptive notice fires at most once per
    session, latched by the session flag `alertShown`. */
module BalanceAlert {
  import opened LedgerModel
  import opened Totals

  /** Session-scoped state: whether the notice was already shown. */
  datatype Session = Session(alertShown: bool)

  const FreshSession: Session := Session(false)

  /** What one check displays: the banner, and whether the notice fires. */
  datatype AlertView = AlertView(low: bool, notify: bool)

  predicate IsLow(l: Ledger) {
    Balance(l) < l.settings.alertThreshold
  }

  /** Compare the balance with the threshold; notify only the first time the
      balance is found low in this session. */
  function CheckBalanceAlert(l: Ledger, s: Session): (r: (AlertView, Session))
    ensures r.0.low <==> Balance(l) < l.settings.alertThreshold
    ensures r.0.notify <==> r.0.low && !s.alertShown
    ensures r.1.alertShown <==> s.alertShown || r.0.low
  {
    var low := IsLow(l);
    if low && !s.alertShown then (AlertView(true, true), Session(true))
    else (AlertView(low, false), s)
  }

  /** The default document holds no records, has threshold 100, and so has
      a balance of zero, which is low. */
  lemma EmptyLedgerIsLow()
    ensures EmptyLedger.income == [] && EmptyLedger.expenses == [] && EmptyLedger.goals == []
    ensures EmptyLedger.settings.alertThreshold == 100.0
    ensures WellFormed(EmptyLedger)
    ensures GetTotals(EmptyLedger) == Totals(0.0, 0.0, 0.0)
    ensures IsLow(EmptyLedger)
  {
  }

  /** How many notices a series of checks, one per ledger, raises. */
  function NoticeCount(ls: seq<Ledger>, s: Session): nat {
    if |ls| == 0 then 0
    else
      var (v, s') := CheckBalanceAlert(ls[0], s);
      (if v.notify then 1 else 0) + NoticeCount(ls[1..], s')
  }

  /** Within a session the notice fires at most once: exactly once when the
      flag starts clear and some check finds the balance low, otherwise never. */
  lemma {:induction false} NoticeAtMostOnce(ls: seq<Ledger>, s: Session)
    ensures NoticeCount(ls, s) <= 1
    ensures s.alertShown ==> NoticeCount(ls, s) == 0
    ensures NoticeCount(ls, s) == 1 <==> !s.alertShown && exists i :: 0 <= i < |ls| && IsLow(ls[i])
    decreases |ls|
  {
    if |ls| > 0 {
      var (v, s') := CheckBalanceAlert(ls[0], s);
      NoticeAtMostOnce(ls[1..], s');
      if !IsLow(ls[0]) {
        forall i | 0 <= i < |ls[1..]| && IsLow(ls[1..][i])
          ensures exists j :: 0 <= j < |ls| && IsLow(ls[j])
        {
          assert ls[i + 1] == ls[1..][i];
        }
        forall i | 0 <= i < |ls| && IsLow(ls[i])
          ensures exists j :: 0 <= j < |ls[1..]| && IsLow(ls[1..][j])
        {
          assert ls[1..][i - 1] == ls[i];
        }
      }
    }
  }
}
