/**
 * Who may see what. Every role page is served only to a logged-in session
 * whose role is that page's role; everyone else is sent back to the root.
 * The root itself shows the login form, or forwards a logged-in user with a
 * known role to that role's landing page.
 */
module Access {

  /** The authentication state of a session: the `LoggedIn` flag and the `UserRole` string. */
  datatype Auth = Auth(loggedIn: bool, role: string)

  /** The state of a new session, and of one after logout. */
  const Anonymous: Auth := Auth(false, "")

  /** The pages behind a role gate, one per gated handler. */
  datatype Page =
    | PatientScans | PatientPlan | PatientCriteria | PatientOffers | PatientConsultations | PatientReviews
    | ClinicDashboard | ClinicPlans | ClinicLeads | ClinicAnalytics | ClinicPricelist
    | GovernmentDashboard | GovernmentAnalytics

  /** Where a redirect points: the root or a gated page. */
  datatype Target = Root | PageAt(page: Page)

  /** What a handler answers, once HTTP is abstracted away. */
  datatype Response = ShowLogin | Show(page: Page) | RedirectTo(target: Target)

  /** The role each gated handler checks before it serves its page. */
  function RequiredRole(p: Page): (role: string)
    ensures role == "patient" || role == "clinic" || role == "government"
    ensures role == "patient" <==> p in {PatientScans, PatientPlan, PatientCriteria, PatientOffers,
                                          PatientConsultations, PatientReviews}
    ensures role == "clinic" <==> p in {ClinicDashboard, ClinicPlans, ClinicLeads, ClinicAnalytics,
                                         ClinicPricelist}
    ensures role == "government" <==> p in {GovernmentDashboard, GovernmentAnalytics}
  {
    match p
    case PatientScans | PatientPlan | PatientCriteria | PatientOffers | PatientConsultations | PatientReviews =>
      "patient"
    case ClinicDashboard | ClinicPlans | ClinicLeads | ClinicAnalytics | ClinicPricelist =>
      "clinic"
    case GovernmentDashboard | GovernmentAnalytics =>
      "government"
  }

  /** The gate condition shared by every role page. */
  predicate Admits(p: Page, auth: Auth) {
    auth.loggedIn && auth.role == RequiredRole(p)
  }

  /** A gated page's answer: the page itself, or a redirect to the root. */
  function Gate(p: Page, auth: Auth): (r: Response)
    ensures r == Show(p) || r == RedirectTo(Root)
    ensures r.Show? <==> Admits(p, auth)
  {
    if !auth.loggedIn || auth.role != RequiredRole(p) then RedirectTo(Root) else Show(p)
  }

  /**
   * The root page. A redirect only ever leads to one of the three landing
   * pages, and one that then admits the user; the login form is shown
   * exactly when no gated page would.
   */
  function HomeRoute(auth: Auth): (r: Response)
    ensures r == ShowLogin || (r.RedirectTo? && r.target.PageAt?)
    ensures r.RedirectTo? ==> r.target.page in {PatientScans, ClinicDashboard, GovernmentDashboard}
    ensures r.RedirectTo? ==> Admits(r.target.page, auth)
    ensures r.ShowLogin? <==> forall p :: !Admits(p, auth)
  {
    if !auth.loggedIn then ShowLogin
    else if auth.role == "patient" then
      assert Admits(PatientScans, auth);
      RedirectTo(PageAt(PatientScans))
    else if auth.role == "clinic" then
      assert Admits(ClinicDashboard, auth);
      RedirectTo(PageAt(ClinicDashboard))
    else if auth.role == "government" then
      assert Admits(GovernmentDashboard, auth);
      RedirectTo(PageAt(GovernmentDashboard))
    else ShowLogin
  }
}
