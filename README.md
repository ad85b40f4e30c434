# Dental portal session store — a verified model

The portal (`main.go`) is a demo web application for patients, clinics and a
government office. Almost all of it renders templates over mock data. What
carries state is the session store and the handlers that change it:

- a process-wide map from session id to a mutable `Session`. `getSession`
  hands out the stored object itself, so changes made through it are visible
  without a save. A missing or unknown id gets a new seeded session, which is
  stored only when it is saved. `saveSession` stores under the request's
  cookie, or under a new id rendered from a random 63-bit draw. Nothing is
  ever removed;
- the authentication state machine: login (no credential check, any role
  string), logout, and the patient's choice of clinic;
- the role gates in front of every role page, and the routing of the root page;
- the clinic's status update of incoming plans. It walks the list, stops at
  the first plan with the requested id, and sets its status for the action
  `calculate` or `send`.

Modules:

- `Numeric`: the two Go library conversions the portal uses. `Atoi` turns
  the `plan_id` form value into a number. It is modelled as `ParseInt(s, 10, 0)`
  on a 64-bit platform, with the digit loop of `ParseUint`. `FormatDecimal`
  is `fmt.Sprintf("%d", n)` for a non-negative `n`.
- `Records`: the domain records, as value datatypes, and the seed values of
  `initSession`.
- `Plans`: the plan-status update as a function of the list, with its
  properties.
- `Access`: pages, role gates and the root page's routing, as pure functions.
- `Sessions`: the `Session` class, whose fields the handlers update in place,
  and the `SessionStore` class, holding `map<string, Session>`.
- `Handlers`: the request flows that read or change sessions. Each one
  resolves the session, gates it, changes it and saves it. Two end-to-end
  scenarios follow the same flows.

Behaviour as the code has it:

- Login accepts any role string and checks no credentials. No error message
  is kept in the session. A role other than `patient`, `clinic` or
  `government` logs the user in, but every gate refuses them and the root
  page shows the login form.
- A request whose cookie names an unknown id gets a new seeded session. If
  that request saves (login, logout), the session is stored under the id the
  client presented.
- The new id is never checked for uniqueness. A draw that renders to an id
  already in the map replaces that client's session with the new one
  (`SaveSession` states this outright). The map stays free of aliasing: no
  session object is ever stored under two ids (`SessionStore.Valid`).
- The seeded incoming plans have ids 1, 2 and 3, so an action on plan 4
  changes nothing.
- A gated POST (clinic selection, plan action) is admitted only for a stored
  session. Its save therefore rewrites an existing entry with the same
  object, and the map itself does not change.

## Model

| member | source | states |
|---|---|---|
| `Numeric.Atoi` | main.go:323 | parsing a plan id always yields a signed 64-bit integer |
| `Numeric.AtoiWellFormed` | main.go:323 | an optional sign followed by digits parses to its value, clamped to the 64-bit range |
| `Numeric.AtoiMalformed` | main.go:323 | any other text parses to 0 or to one of the two 64-bit bounds, never to another number |
| `Numeric.AtoiShortMalformed` | main.go:323 | malformed text of at most 19 characters parses to 0 |
| `Numeric.FormatDecimal` | main.go:164 | a new session id is a non-empty string of digits whose value is the draw; it starts with `0` only when it is `"0"` itself |
| `Numeric.AtoiFormatRoundTrip` | main.go:164 | parsing a session id rendered from a 63-bit draw gives back the draw |
| `Plans.StatusFor` | main.go:327-331 | `calculate` assigns `calculated`, `send` assigns `offer_sent`, and every other action assigns no status |
| `Plans.FirstMatch` | main.go:325-326 | the position found is the first plan with the requested id; there is none exactly when no plan has that id |
| `Plans.PlanAction` | main.go:325-334 | length and order are kept; only the status can change, and only for the first plan with the id; that plan gets `calculated` for `calculate` and `offer_sent` for `send`; with no matching id or another action the list is unchanged |
| `Plans.PlanActionIdempotent` | main.go:327-331 | applying the same action to the same plan id twice gives the same list as applying it once |
| `Plans.MalformedPlanIdLeavesPlansUnchanged` | main.go:323-334 | a plan id that is not a well-formed integer leaves unchanged any plan list with no plan id 0, -2^63 or 2^63-1, whatever the action |
| `Plans.MalformedPlanIdLeavesSeedUnchanged` | main.go:323-334 | a plan id that is not a well-formed integer leaves the seeded plan list unchanged, whatever the action |
| `Plans.SeededCalculate` | main.go:132-136 | on the seeded list, `calculate` on plan 3 changes only that plan's status; plan 4 does not exist, so nothing changes |
| `Access.RequiredRole` | main.go:241-387 | each gated page demands exactly one role: the six patient pages `patient`, the five clinic pages `clinic`, the two government pages `government` |
| `Access.Gate` | main.go:242-247 | a role page is shown exactly when the session is logged in with the page's role; otherwise the user is redirected to the root |
| `Access.HomeRoute` | main.go:202-216 | the root page either shows the login form or redirects. A redirect only goes to one of the three landing pages (patient scans, clinic dashboard, government dashboard), and only to one whose gate admits the user. The login form is shown exactly when no role page would admit the user |
| `Sessions.Session.Seeded` | main.go:84-142 | a new session is logged out, has no role and no chosen clinic, and holds the seeded records |
| `Sessions.Session.Login` | main.go:223-224 | after login the session is logged in with the given role; only those two fields may change |
| `Sessions.Session.Logout` | main.go:234-235 | after logout the session is logged out with an empty role; only those two fields may change |
| `Sessions.Session.SelectClinic` | main.go:277 | the chosen clinic is recorded; no other field may change |
| `Sessions.Session.UpdatePlanStatus` | main.go:325-334 | the in-place loop leaves the incoming plans equal to `PlanAction` of the old list; no other field may change |
| `Sessions.SessionId` | main.go:160-173 | a save uses the request's cookie when there is one; otherwise it uses the `%d` rendering of the draw, a digit string that parses back to the draw |
| `Sessions.SessionStore.constructor` | main.go:74-77 | the store starts empty |
| `Sessions.SessionStore.GetSession` | main.go:144-157 | a known id yields the stored object itself. A missing or unknown id yields a new seeded, logged-out session. The map is not changed |
| `Sessions.SessionStore.SaveSession` | main.go:159-178 | the session is stored under the cookie's id, or under the new id handed back as a cookie. The entry is overwritten, never duplicated. Every other entry is kept, and the key set only grows |
| `Handlers.Home` | main.go:199-217 | the root page is routed from the resolved session's state; a request without a known cookie always gets the login form |
| `Handlers.ViewPage` | main.go:241-387 | a role page is shown only for a stored, logged-in session of that page's role; everything else is redirected to the root |
| `Handlers.LoginPost` | main.go:219-230 | the resolved session ends logged in with the role and is saved under the cookie's id or a new one. A known session keeps its object, records and chosen clinic. An unknown one is a new seeded session. No other entry changes, and the aliasing-free invariant is kept |
| `Handlers.Logout` | main.go:232-238 | the resolved session ends logged out with an empty role and is saved. Its records and chosen clinic are kept. No other entry changes, and the invariant is kept |
| `Handlers.SelectOffer` | main.go:268-284 | only a logged-in patient passes. Their session records the clinic and keeps everything else, and the user goes on to the consultations page. Anyone else goes to the root and nothing changes. The map never changes |
| `Handlers.UpdatePlan` | main.go:314-338 | only a logged-in clinic passes. Their session's plans become `PlanAction` of the old plans at `Atoi` of the id text, and everything else is kept. Anyone else goes to the root and nothing changes. The map never changes |
| `Handlers.LoginLogoutScenario` | main.go:199-238 | first visit, login and logout with the cookie carried along. The root shows the login form, then the patient scans, clinic dashboard or government dashboard for those three roles and the login form for any other role, then the login form again |
| `Handlers.ClinicCalculateScenario` | main.go:314-338 | a clinic that logs in and calculates a plan reads back the seeded list changed by `PlanAction`. Plan 3 becomes `calculated`; plan 4 changes nothing |

## Left out

- HTTP plumbing is abstracted. Requests, response writers and status codes
  are not modelled. A cookie is an optional id, and a response is a
  `Response` value. The cookie's path and one-day lifetime are not modelled.
  The routing table (main.go:400-440) is not modelled, and each gated
  handler is one `Page` constructor.
- Template rendering (main.go:181-196) is file input/output and a foreign
  library. A shown page is `Show(page)`, and template errors are not modelled.
- GET requests of the login form and the GET branches of the offers and plans
  pages only render. They are covered by `Handlers.ViewPage` or not modelled.
- The `sync.RWMutex` is not modelled. The model is sequential, so two
  requests racing on the same live session object are outside it.
- `rand.Seed` and `rand.Int63` become a caller-supplied `draw` in
  `0 .. 2^63-1`.
- `apiCalculateHandler` (main.go:390-398) is a random number encoded as JSON,
  with no session involvement.
- The floating-point `Rating` of a clinic offer is not modelled. The
  free-text seed values (names, phone numbers, diagnoses, procedure kinds,
  urgencies, clinic names, durations, warranties, instalment terms, offer
  details, plan and lead procedure descriptions, lead statuses, genders)
  are empty strings. Seeded ids, scan and plan statuses, dates, ages, costs,
  the scans' AI-processed flags and tooth positions are kept.
- `Numeric.Atoi` follows Go's `strconv.Atoi` as implemented on a 64-bit
  platform: `ParseInt(s, 10, 0)` with `ParseUint`'s digit loop. Where the
  documentation says text with invalid digits gives 0, the code reports an
  overflow that comes before the bad character, and the model does the same
  (`Numeric.AtoiMalformed`). `Numeric.FormatDecimal` is `fmt`'s `%d` verb for
  a non-negative number. Go strings are bytes, and here they are
  characters. This does not change any result, because every non-ASCII
  character is a non-digit.
