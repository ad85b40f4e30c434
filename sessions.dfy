/**
 * The session store: a process-wide map from session id to a mutable
 * Session object. A lookup hands out the stored object itself, so a handler
 * that changes it changes what every later lookup of that id sees; a lookup
 * that misses hands out a new seeded session that is stored only when it is
 * saved. Nothing is ever removed from the map.
 */
module Sessions {

  import opened Wrappers
  import opened Records
  import opened Plans
  import opened Access
  import Numeric

  /** One user's state, updated in place by the request handlers. */
  class Session {
    var userRole: string
    var loggedIn: bool
    var selectedClinic: string
    var patientScans: seq<Scan>
    var treatmentPlan: TreatmentPlan
    var clinicOffers: seq<ClinicOffer>
    var incomingPlans: seq<IncomingPlan>
    var leads: seq<Lead>

    function AuthState(): Auth
      reads this`loggedIn, this`userRole
    {
      Auth(loggedIn, userRole)
    }

    function Records(): DomainRecords
      reads this`patientScans, this`treatmentPlan, this`clinicOffers, this`incomingPlans, this`leads
    {
      DomainRecords(patientScans, treatmentPlan, clinicOffers, incomingPlans, leads)
    }

    /** The state `initSession` produces. */
    predicate IsSeeded()
      reads this
    {
      AuthState() == Anonymous && selectedClinic == "" && Records() == SeedRecords
    }

    /** initSession: logged out, no role, no clinic chosen, the demo records. */
    constructor Seeded()
      ensures IsSeeded()
    {
      userRole := "";
      loggedIn := false;
      selectedClinic := "";
      patientScans := SeedScans;
      treatmentPlan := SeedTreatmentPlan;
      clinicOffers := SeedClinicOffers;
      incomingPlans := SeedIncomingPlans;
      leads := SeedLeads;
    }

    /** Login: any role string is accepted; no credential is checked. */
    method Login(role: string)
      modifies this`loggedIn, this`userRole
      ensures AuthState() == Auth(true, role)
    {
      loggedIn := true;
      userRole := role;
    }

    method Logout()
      modifies this`loggedIn, this`userRole
      ensures AuthState() == Anonymous
    {
      loggedIn := false;
      userRole := "";
    }

    /** The patient's choice among the clinic offers. */
    method SelectClinic(clinic: string)
      modifies this`selectedClinic
      ensures selectedClinic == clinic
    {
      selectedClinic := clinic;
    }

    /**
     * The status update of the clinic's incoming plans: walk the list, stop at
     * the first plan with the requested id, and set its status for the action.
     */
    method UpdatePlanStatus(planID: int, action: string)
      modifies this`incomingPlans
      ensures incomingPlans == PlanAction(old(incomingPlans), planID, action)
    {
      var i := 0;
      while i < |incomingPlans|
        invariant i <= |incomingPlans|
        invariant incomingPlans == old(incomingPlans)
        invariant forall j :: 0 <= j < i ==> incomingPlans[j].id != planID
      {
        if incomingPlans[i].id == planID {
          if action == "calculate" {
            incomingPlans := incomingPlans[i := incomingPlans[i].(status := "calculated")];
          } else if action == "send" {
            incomingPlans := incomingPlans[i := incomingPlans[i].(status := "offer_sent")];
          }
          break;
        }
        i := i + 1;
      }
    }
  }

  /** The id a save uses: the request's cookie, or else the decimal rendering of a 63-bit random draw. */
  function SessionId(cookie: Option<string>, draw: nat): (id: string)
    requires draw <= Numeric.MaxInt64
    ensures cookie.Some? ==> id == cookie.value
    ensures cookie.None? ==> |id| > 0 && Numeric.AllDigits(id) && Numeric.Atoi(id) == draw
    ensures cookie.None? ==> id == Numeric.FormatDecimal(draw)
  {
    match cookie
    case Some(id) => id
    case None =>
      Numeric.AtoiFormatRoundTrip(draw);
      Numeric.FormatDecimal(draw)
  }

  class SessionStore {
    var sessions: map<string, Session>

    /** No Session object is stored under two ids: each id owns its state. */
    ghost predicate Valid()
      reads this
    {
      forall a, b :: a in sessions && b in sessions && a != b ==> sessions[a] != sessions[b]
    }

    constructor ()
      ensures Valid() && sessions == map[]
    {
      sessions := map[];
    }

    /** The request carries a cookie naming a stored session. */
    predicate Known(cookie: Option<string>)
      reads this
    {
      cookie.Some? && cookie.value in sessions
    }

    /** The stored session a request with this cookie resolves to, if there is one. */
    function Footprint(cookie: Option<string>): set<Session>
      reads this
    {
      if Known(cookie) then {sessions[cookie.value]} else {}
    }

    /** The authentication state a request with this cookie is served under. */
    function ResolvedAuth(cookie: Option<string>): Auth
      reads this, sessions.Values
    {
      if Known(cookie) then sessions[cookie.value].AuthState() else Anonymous
    }

    /** getSession: the stored object for a known id, otherwise a new seeded session that is not stored. */
    method GetSession(cookie: Option<string>) returns (sess: Session)
      ensures Known(cookie) ==> sess == sessions[cookie.value]
      ensures !Known(cookie) ==> fresh(sess) && sess.IsSeeded()
      ensures sess.AuthState() == ResolvedAuth(cookie)
      ensures Valid() ==> forall k :: k in sessions && sessions[k] == sess ==> cookie == Some(k)
    {
      if cookie.Some? && cookie.value in sessions {
        sess := sessions[cookie.value];
      } else {
        sess := new Session.Seeded();
      }
    }

    /**
     * saveSession: store the session under the cookie's id, or under a new id
     * that the response hands back as a cookie. The entry is overwritten, never
     * duplicated, and no other entry changes.
     */
    method SaveSession(cookie: Option<string>, sess: Session, draw: nat) returns (id: string, setCookie: Option<string>)
      requires draw <= Numeric.MaxInt64
      modifies this
      ensures old(Valid()) && (forall k :: k in old(sessions) && old(sessions)[k] == sess ==> k == id) ==> Valid()
      ensures id == SessionId(cookie, draw)
      ensures setCookie == if cookie.None? then Some(id) else None
      ensures sessions == old(sessions)[id := sess]
      ensures id in sessions && sessions[id] == sess
      ensures forall k :: k in sessions && k != id ==> k in old(sessions) && sessions[k] == old(sessions)[k]
      ensures old(sessions).Keys <= sessions.Keys
      ensures |sessions| == if id in old(sessions) then |old(sessions)| else |old(sessions)| + 1
    {
      id := SessionId(cookie, draw);
      setCookie := if cookie.None? then Some(id) else None;
      sessions := sessions[id := sess];
    }
  }
}
