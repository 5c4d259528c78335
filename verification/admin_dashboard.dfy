/** The admin dashboard: its own admin check, which flips `isAdmin` on once,
    the render gate behind it and the sign class of the stat cards. */
module AdminDashboard {
  import opened JsValues
  import opened Session
  import Text

  /** What one run of the admin-check effect does besides the state change. */
  datatype EffectOutcome =
    | Waiting                      // status still loading: nothing happens
    | Denied(alert: string, to: string) // alert, then sent home
    | Admitted

  const DENIED_ALERT: string := "🚫 관리자 전용 구역입니다! (접근 거부)"

  /** The page's state: `isAdmin`, false on the first render. */
  class Dashboard {
    var isAdmin: bool

    constructor ()
      ensures !isAdmin
    {
      isAdmin := false;
    }

    /** One run of the effect for the current status and session. */
    method CheckAdmin(status: Status, session: Option<SessionUser>) returns (outcome: EffectOutcome)
      modifies this
      ensures status == Loading ==> outcome == Waiting && isAdmin == old(isAdmin)
      ensures status != Loading && !IsAdminSession(session) ==>
        outcome == Denied(DENIED_ALERT, "/") && isAdmin == old(isAdmin)
      ensures status != Loading && IsAdminSession(session) ==> outcome == Admitted && isAdmin
    {
      if status == Loading {
        return Waiting;
      }
      if session.None? || session.value.role != Some("admin") {
        outcome := Denied(DENIED_ALERT, "/");
      } else {
        isAdmin := true;
        outcome := Admitted;
      }
    }

    /** The render gate: a blank screen until the check has passed. */
    predicate RendersContent()
      reads this
    {
      isAdmin
    }
  }

  /** The effect run once per change of status or session: the dashboard
      shows after the sequence exactly when some run saw an admin session
      with the status settled, and every other settled run sent the visitor
      home. */
  method RunChecks(runs: seq<(Status, Option<SessionUser>)>) returns (shows: bool, sentHome: nat)
    ensures shows <==> exists i :: 0 <= i < |runs| && runs[i].0 != Loading && IsAdminSession(runs[i].1)
    ensures sentHome <= |runs|
    ensures sentHome == 0 <==> forall i :: 0 <= i < |runs| ==> runs[i].0 == Loading || IsAdminSession(runs[i].1)
  {
    var page := new Dashboard();
    sentHome := 0;
    var k := 0;
    while k < |runs|
      invariant 0 <= k <= |runs|
      invariant page.isAdmin <==> exists i :: 0 <= i < k && runs[i].0 != Loading && IsAdminSession(runs[i].1)
      invariant sentHome <= k
      invariant sentHome == 0 <==> forall i :: 0 <= i < k ==> runs[i].0 == Loading || IsAdminSession(runs[i].1)
    {
      var outcome := page.CheckAdmin(runs[k].0, runs[k].1);
      if outcome.Denied? {
        sentHome := sentHome + 1;
      }
      k := k + 1;
    }
    shows := page.RendersContent();
  }

  // -------------------------------------------------------------- stats

  datatype Stat = Stat(name: string, value: string, change: string)

  const STATS: seq<Stat> := [
    Stat("총 회원수", "1,234", "+12"),
    Stat("오늘 방문자", "856", "+5.4%"),
    Stat("새 글", "42", "+8"),
    Stat("신고 접수", "3", "-2")
  ]

  /** The class of a stat's change figure. */
  function StatChangeClass(change: string): (c: string)
    ensures c == "positive" <==> |change| > 0 && change[0] == '+'
    ensures c == "positive" || c == "negative"
  {
    if Text.StartsWith(change, "+") then "positive" else "negative"
  }

  /** The first three stats show as rising and the reports stat as falling. */
  lemma StatClasses()
    ensures forall i :: 0 <= i < 3 ==> StatChangeClass(STATS[i].change) == "positive"
    ensures StatChangeClass(STATS[3].change) == "negative"
  {
    assert StatChangeClass(STATS[0].change) == "positive";
    assert StatChangeClass(STATS[1].change) == "positive";
    assert StatChangeClass(STATS[2].change) == "positive";
  }
}
