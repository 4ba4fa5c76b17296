/**
 * Access gating for pathways (js/pathway-auth.js). Every store read is an
 * input: the fetched row (None when the query errors or finds nothing), the
 * session user reported by the provider, and the assignments table.
 * `authenticated` is the page's `isAuthenticated()`, which reads the auth
 * module's own state and may disagree with the session.
 */
module PathwayAuth {
  import opened Common
  import opened Pathways
  import Auth

  /** The `{ allowed, requiresAuth, error }` object of `canStartPathway`. */
  datatype StartCheck = StartCheck(allowed: bool, requiresAuth: bool, error: Option<string>)

  /**
   * `canStartPathway(pathwayId)`: a pre-check on sign-in only; the pathway is
   * not looked at.
   */
  function CanStartPathway(pathwayId: PathwayId, authenticated: bool): (r: StartCheck)
    ensures (!r.allowed && r.requiresAuth) <==> !authenticated
    ensures r.allowed <==> r.error.None?
    ensures !authenticated ==> r.error == Some("Authentication required to start pathway")
  {
    if !authenticated then StartCheck(false, true, Some("Authentication required to start pathway"))
    else StartCheck(true, false, None)
  }

  /** When signed in, the answer is the same for every pathway. */
  lemma CanStartIgnoresPathway(p: PathwayId, q: PathwayId)
    ensures CanStartPathway(p, true) == CanStartPathway(q, true)
    ensures CanStartPathway(p, true).allowed
  {
  }

  /** The `{ allowed, reason, requiresAuth }` object of `canViewPathway`. */
  datatype ViewDecision = ViewDecision(allowed: bool, reason: Option<string>, requiresAuth: bool)

  function Deny(reason: string): ViewDecision { ViewDecision(false, Some(reason), false) }

  const ALLOW := ViewDecision(true, None, false)

  /**
   * `canViewPathway(pathwayId)`: default deny; an active platform pathway is
   * public, an active practitioner pathway is visible to its assigned user.
   */
  function CanViewPathway(row: Option<PathwayRow>, authenticated: bool, sessionUser: Option<UserId>): (r: ViewDecision)
    ensures row.None? ==> r == Deny("Pathway not found")
    ensures row.Some? && row.value.status != ACTIVE ==> r == Deny("Pathway not active")
    ensures r.allowed <==>
              row.Some? && row.value.status == ACTIVE &&
              (row.value.kind == PLATFORM ||
               (row.value.kind == PRACTITIONER && authenticated &&
                sessionUser.Some? && row.value.assignedUserId == sessionUser))
    ensures r.requiresAuth <==>
              row.Some? && row.value.status == ACTIVE && row.value.kind == PRACTITIONER && !authenticated
    ensures r.allowed <==> r.reason.None?
    ensures row.Some? && row.value.status == ACTIVE && row.value.kind != PLATFORM && row.value.kind != PRACTITIONER
            ==> r == Deny("Unknown pathway type")
  {
    match row
    case None => Deny("Pathway not found")
    case Some(p) =>
      if p.status != ACTIVE then Deny("Pathway not active")
      else if p.kind == PLATFORM then ALLOW
      else if p.kind == PRACTITIONER then
        if !authenticated then ViewDecision(false, Some("Authentication required"), true)
        // `pathway.assigned_user_id !== user?.id`: null and undefined differ, so
        // an unassigned pathway is denied even without a session user.
        else if sessionUser.None? || p.assignedUserId != sessionUser then Deny("Pathway not assigned to user")
        else ALLOW
      else Deny("Unknown pathway type")
  }

  /** An inactive pathway is hidden from everybody, whatever its type. */
  lemma InactiveHiddenFromAll(p: PathwayRow, a1: bool, u1: Option<UserId>, a2: bool, u2: Option<UserId>)
    requires p.status != ACTIVE
    ensures CanViewPathway(Some(p), a1, u1) == CanViewPathway(Some(p), a2, u2) == Deny("Pathway not active")
  {
  }

  /** The outcome of `startPathway`. */
  datatype StartOutcome =
    | LoginRedirect(gate: Auth.Gate)   // `withAuth` sent the page to log in; nothing was called
    | Thrown(message: string)          // the callback threw an `Error` of its own
    | StoreError(message: string)      // the callback rethrew the store's error
    | Created(assignment: Assignment)  // the inserted row

  /**
   * `startPathway(pathwayId, materialsAcknowledged)`. The inputs replace the
   * store: `requirements` is the `acknowledgement_required` flag of the
   * pathway's requirements row (None when the lookup fails), `insertError`
   * the store's refusal of the insert, `newId` the identifier it assigns and
   * `now` the clock.
   */
  function StartPathway(pathwayId: PathwayId, materialsAcknowledged: bool,
                        authenticated: bool, currentPath: string, sessionUser: Option<UserId>,
                        requirements: Option<bool>, insertError: Option<string>,
                        newId: AssignmentId, now: Timestamp): (r: StartOutcome)
    ensures !authenticated ==>
              r == LoginRedirect(Auth.RedirectToLogin(Auth.ROOT_LOGIN_PAGE, "/pathways/" + pathwayId + "/start"))
    ensures authenticated && sessionUser.Some? && !materialsAcknowledged ==>
              r == Thrown("Materials and environment requirements must be acknowledged")
    ensures r.Created? <==>
              authenticated && sessionUser.Some? && materialsAcknowledged &&
              requirements.Some? && insertError.None?
    ensures r.Created? ==>
              r.assignment == Assignment(newId, pathwayId, sessionUser.value, ACTIVE, true, now, now)
    ensures r != Thrown("Materials acknowledgment required")
  {
    var gate := Auth.LoginGate(authenticated, Auth.ROOT_LOGIN_PAGE, "/pathways/" + pathwayId + "/start", currentPath);
    if !gate.Proceed? then LoginRedirect(gate)
    else if sessionUser.None? then Thrown("User not authenticated")
    else if !materialsAcknowledged then Thrown("Materials and environment requirements must be acknowledged")
    else if requirements.None? then Thrown("Pathway requirements not found")
    // Reached only with `materialsAcknowledged` true, so this branch never throws.
    else if requirements.value && !materialsAcknowledged then Thrown("Materials acknowledgment required")
    else if insertError.Some? then StoreError(insertError.value)
    else Created(Assignment(newId, pathwayId, sessionUser.value, ACTIVE, true, now, now))
  }

  /** The `{ data, error }` pair of `getMyPathways`. */
  datatype ListResult = ListResult(data: Option<seq<Assignment>>, error: Option<string>, gate: Auth.Gate)

  /** The assignments of `user` still in progress. */
  function ActiveOf(user: UserId): Assignment -> bool {
    (a: Assignment) => a.userId == user && a.status == ACTIVE
  }

  /**
   * `getMyPathways()`: the signed-in user's active assignments, in the order
   * the store returns them (`table`; the query asks for no order).
   */
  function GetMyPathways(authenticated: bool, currentPath: string, sessionUser: Option<UserId>,
                         table: seq<Assignment>, queryError: Option<string>): (r: ListResult)
    ensures !authenticated ==>
              r == ListResult(None, Some("Authentication required"),
                              Auth.RedirectToLogin(Auth.LOGIN_PAGE, "/my-pathways"))
    ensures authenticated && sessionUser.None? ==> r == ListResult(None, Some("User not authenticated"), Auth.Proceed)
    ensures r.data.Some? <==> authenticated && sessionUser.Some? && queryError.None?
    ensures r.data.Some? ==>
              forall a :: a in r.data.value <==> a in table && a.userId == sessionUser.value && a.status == ACTIVE
  {
    var gate := Auth.LoginGate(authenticated, Auth.LOGIN_PAGE, "/my-pathways", currentPath);
    if !gate.Proceed? then ListResult(None, Some("Authentication required"), gate)
    else if sessionUser.None? then ListResult(None, Some("User not authenticated"), gate)
    else if queryError.Some? then ListResult(None, queryError, gate)
    else ListResult(Some(Filter(table, ActiveOf(sessionUser.value))), None, gate)
  }

  /**
   * As written, every function here reads the session user through
   * `DestructuredUser`, which never yields one: a signed-in visitor can never
   * start a pathway, list their assignments, or view a practitioner pathway.
   */
  lemma SessionAsWrittenLocksOut(resp: Auth.SessionResponse, p: PathwayRow, pathwayId: PathwayId,
                                 currentPath: string, requirements: Option<bool>, insertError: Option<string>,
                                 newId: AssignmentId, now: Timestamp, table: seq<Assignment>, queryError: Option<string>)
    requires p.kind == PRACTITIONER
    ensures !CanViewPathway(Some(p), true, Auth.DestructuredUser(resp)).allowed
    ensures StartPathway(pathwayId, true, true, currentPath, Auth.DestructuredUser(resp),
                         requirements, insertError, newId, now) == Thrown("User not authenticated")
    ensures GetMyPathways(true, currentPath, Auth.DestructuredUser(resp), table, queryError).data.None?
  {
  }

  /**
   * Read as intended, through `Auth.SessionUser`, a signed-in visitor with a
   * session starts the pathway as that session's user, sees the active
   * practitioner pathways assigned to them, and gets a listing.
   */
  lemma SessionAsIntendedAdmits(u: UserId, p: PathwayRow, pathwayId: PathwayId,
                                currentPath: string, newId: AssignmentId, now: Timestamp, table: seq<Assignment>)
    requires p.kind == PRACTITIONER && p.status == ACTIVE && p.assignedUserId == Some(u)
    ensures CanViewPathway(Some(p), true, Auth.SessionUser(Auth.SessionResponse(Some(Auth.Session(u))))).allowed
    ensures StartPathway(pathwayId, true, true, currentPath, Auth.SessionUser(Auth.SessionResponse(Some(Auth.Session(u)))),
                         Some(true), None, newId, now) == Created(Assignment(newId, pathwayId, u, ACTIVE, true, now, now))
    ensures GetMyPathways(true, currentPath, Auth.SessionUser(Auth.SessionResponse(Some(Auth.Session(u)))), table, None).data
            == Some(Filter(table, ActiveOf(u)))
  {
  }
}
