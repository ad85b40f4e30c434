/**
 * The request flows that touch session state, with HTTP taken away: the
 * cookie is an optional id, the random draw for a new id is a parameter, and
 * the response is a `Response` value. Each flow resolves the session, gates
 * it where the page is role-bound, changes it in place and saves it.
 */
module Handlers {

  import opened Wrappers
  import opened Records
  import opened Plans
  import opened Access
  import opened Sessions
  import Numeric

  /** The root page, answered from the resolved session. */
  method Home(store: SessionStore, cookie: Option<string>) returns (r: Response)
    ensures r == HomeRoute(store.ResolvedAuth(cookie))
    ensures !store.Known(cookie) ==> r == ShowLogin
  {
    var sess := store.GetSession(cookie);
    r := HomeRoute(sess.AuthState());
  }

  /**
   * A GET of any gated page. A page is shown only to a session that is stored,
   * logged in and of the page's role; a request without a known cookie never
   * sees one.
   */
  method ViewPage(store: SessionStore, cookie: Option<string>, page: Page) returns (r: Response)
    ensures r == Show(page) <==> store.Known(cookie) && Admits(page, store.sessions[cookie.value].AuthState())
    ensures r != Show(page) ==> r == RedirectTo(Root)
  {
    var sess := store.GetSession(cookie);
    r := Gate(page, sess.AuthState());
  }

  /**
   * POST /login: whatever the session was, it is now logged in with the given
   * role and saved. A known cookie keeps its own session object and records; a
   * request without one gets a new seeded session under a new id.
   */
  method LoginPost(store: SessionStore, cookie: Option<string>, role: string, draw: nat)
    returns (id: string, setCookie: Option<string>, r: Response)
    requires store.Valid() && draw <= Numeric.MaxInt64
    modifies store, store.Footprint(cookie)
    ensures store.Valid() && r == RedirectTo(Root)
    ensures id == SessionId(cookie, draw) && setCookie == (if cookie.None? then Some(id) else None)
    ensures store.sessions.Keys == old(store.sessions.Keys) + {id}
    ensures store.sessions[id].AuthState() == Auth(true, role)
    ensures old(store.Known(cookie)) ==>
              store.sessions[id] == old(store.sessions[id]) &&
              store.sessions[id].Records() == old(store.sessions[id].Records()) &&
              store.sessions[id].selectedClinic == old(store.sessions[id].selectedClinic)
    ensures !old(store.Known(cookie)) ==>
              fresh(store.sessions[id]) && store.sessions[id].Records() == SeedRecords &&
              store.sessions[id].selectedClinic == ""
    ensures forall k :: k in store.sessions && k != id ==> k in old(store.sessions) && store.sessions[k] == old(store.sessions[k])
  {
    var sess := store.GetSession(cookie);
    ghost var records, clinic := sess.Records(), sess.selectedClinic;
    sess.Login(role);
    assert sess.Records() == records && sess.selectedClinic == clinic;
    assert forall k :: k in store.sessions && store.sessions[k] == sess ==> cookie == Some(k);
    id, setCookie := store.SaveSession(cookie, sess, draw);
    assert store.sessions[id] == sess;
    r := RedirectTo(Root);
  }

  /** /logout, any method: the session is logged out, its role cleared, and saved. */
  method Logout(store: SessionStore, cookie: Option<string>, draw: nat)
    returns (id: string, setCookie: Option<string>, r: Response)
    requires store.Valid() && draw <= Numeric.MaxInt64
    modifies store, store.Footprint(cookie)
    ensures store.Valid() && r == RedirectTo(Root)
    ensures id == SessionId(cookie, draw) && setCookie == (if cookie.None? then Some(id) else None)
    ensures store.sessions.Keys == old(store.sessions.Keys) + {id}
    ensures store.sessions[id].AuthState() == Anonymous
    ensures old(store.Known(cookie)) ==>
              store.sessions[id] == old(store.sessions[id]) &&
              store.sessions[id].Records() == old(store.sessions[id].Records()) &&
              store.sessions[id].selectedClinic == old(store.sessions[id].selectedClinic)
    ensures !old(store.Known(cookie)) ==>
              fresh(store.sessions[id]) && store.sessions[id].Records() == SeedRecords &&
              store.sessions[id].selectedClinic == ""
    ensures forall k :: k in store.sessions && k != id ==> k in old(store.sessions) && store.sessions[k] == old(store.sessions[k])
  {
    var sess := store.GetSession(cookie);
    ghost var records, clinic := sess.Records(), sess.selectedClinic;
    sess.Logout();
    assert sess.Records() == records && sess.selectedClinic == clinic;
    assert forall k :: k in store.sessions && store.sessions[k] == sess ==> cookie == Some(k);
    id, setCookie := store.SaveSession(cookie, sess, draw);
    assert store.sessions[id] == sess;
    r := RedirectTo(Root);
  }

  /**
   * POST /patient/offers: a logged-in patient's choice of clinic is recorded
   * in the session and the user is sent on to the consultations page; anyone
   * else is sent to the root and nothing changes. Only a stored session can
   * pass the gate, so the map itself never changes here.
   */
  method SelectOffer(store: SessionStore, cookie: Option<string>, clinic: string, draw: nat)
    returns (r: Response)
    requires store.Valid() && draw <= Numeric.MaxInt64
    modifies store, store.Footprint(cookie)
    ensures store.Valid() && store.sessions == old(store.sessions)
    ensures r == RedirectTo(PageAt(PatientConsultations)) <==> old(store.ResolvedAuth(cookie)) == Auth(true, "patient")
    ensures r != RedirectTo(PageAt(PatientConsultations)) ==> r == RedirectTo(Root)
    ensures r == RedirectTo(Root) ==> unchanged(store.Footprint(cookie))
    ensures r != RedirectTo(Root) ==>
              var sess := store.sessions[cookie.value];
              sess.selectedClinic == clinic &&
              sess.AuthState() == old(sess.AuthState()) && sess.Records() == old(sess.Records())
  {
    var sess := store.GetSession(cookie);
    r := Gate(PatientOffers, sess.AuthState());
    if r == RedirectTo(Root) {
      return;
    }
    sess.SelectClinic(clinic);
    var id, setCookie := store.SaveSession(cookie, sess, draw);
    r := RedirectTo(PageAt(PatientConsultations));
  }

  /**
   * POST /clinic/plans: for a logged-in clinic, the plan id text is parsed as
   * Atoi does and the status action is applied to the session's incoming plans;
   * anyone else is sent to the root and nothing changes.
   */
  method UpdatePlan(store: SessionStore, cookie: Option<string>, planIdText: string, action: string, draw: nat)
    returns (r: Response)
    requires store.Valid() && draw <= Numeric.MaxInt64
    modifies store, store.Footprint(cookie)
    ensures store.Valid() && store.sessions == old(store.sessions)
    ensures r == RedirectTo(PageAt(ClinicPlans)) <==> old(store.ResolvedAuth(cookie)) == Auth(true, "clinic")
    ensures r != RedirectTo(PageAt(ClinicPlans)) ==> r == RedirectTo(Root)
    ensures r == RedirectTo(Root) ==> unchanged(store.Footprint(cookie))
    ensures r != RedirectTo(Root) ==>
              var sess := store.sessions[cookie.value];
              sess.Records() == old(sess.Records()).(incomingPlans :=
                PlanAction(old(sess.incomingPlans), Numeric.Atoi(planIdText), action)) &&
              sess.AuthState() == old(sess.AuthState()) && sess.selectedClinic == old(sess.selectedClinic)
  {
    var sess := store.GetSession(cookie);
    r := Gate(ClinicPlans, sess.AuthState());
    if r == RedirectTo(Root) {
      return;
    }
    var planID := Numeric.Atoi(planIdText);
    sess.UpdatePlanStatus(planID, action);
    var id, setCookie := store.SaveSession(cookie, sess, draw);
    r := RedirectTo(PageAt(ClinicPlans));
  }

  /**
   * A first visit, a login and a logout, each request carrying the cookie the
   * previous response set: the root shows the login form, then forwards to
   * the landing page of the chosen role (if the role is one the portal
   * knows), then shows the login form again.
   */
  method LoginLogoutScenario(role: string, draw: nat) returns (before: Response, during: Response, after: Response)
    requires draw <= Numeric.MaxInt64
    ensures before == ShowLogin && after == ShowLogin
    ensures role == "patient" ==> during == RedirectTo(PageAt(PatientScans))
    ensures role == "clinic" ==> during == RedirectTo(PageAt(ClinicDashboard))
    ensures role == "government" ==> during == RedirectTo(PageAt(GovernmentDashboard))
    ensures role != "patient" && role != "clinic" && role != "government" ==> during == ShowLogin
  {
    var store := new SessionStore();
    before := Home(store, None);
    var id, setCookie, r := LoginPost(store, None, role, draw);
    during := Home(store, setCookie);
    id, setCookie, r := Logout(store, setCookie, draw);
    after := Home(store, Some(id));
  }

  /**
   * A clinic logs in, applies `calculate` to the plan named by `planIdText`
   * and reads its plans back: the seeded list with that one status changed;
   * plan 3 becomes `calculated`, and plan 4, which is not seeded, changes nothing.
   */
  method ClinicCalculateScenario(planIdText: string, draw: nat) returns (plans: seq<IncomingPlan>)
    requires draw <= Numeric.MaxInt64
    ensures plans == PlanAction(SeedIncomingPlans, Numeric.Atoi(planIdText), "calculate")
    ensures planIdText == "3" ==> plans == SeedIncomingPlans[2 := SeedIncomingPlans[2].(status := "calculated")]
    ensures planIdText == "4" ==> plans == SeedIncomingPlans
  {
    var store := new SessionStore();
    var id, setCookie, r := LoginPost(store, None, "clinic", draw);
    assert setCookie == Some(id) && store.sessions[id].incomingPlans == SeedIncomingPlans;
    r := UpdatePlan(store, setCookie, planIdText, "calculate", draw);
    plans := store.sessions[id].incomingPlans;
    SeededCalculate();
    if planIdText == "3" {
      Numeric.AtoiFormatRoundTrip(3);
      assert Numeric.FormatDecimal(3) == planIdText;
    } else if planIdText == "4" {
      Numeric.AtoiFormatRoundTrip(4);
      assert Numeric.FormatDecimal(4) == planIdText;
    }
  }
}
