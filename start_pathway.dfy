/**
 * Starting a pathway from its page (js/start-pathway.js). The pure checks are
 * functions over the fetched values; creating the assignment is a method on
 * the assignments table. The requirements row is read once and stands for
 * both reads the page makes of it.
 */
module StartPathway {
  import opened Common
  import opened Pathways
  import Auth

  /**
   * `validatePathwayStart(pathwayId)`: the pathway must exist and be active;
   * a practitioner pathway must be assigned to the session user. Platform
   * pathways skip the user check.
   */
  function ValidatePathwayStart(row: Option<PathwayRow>, sessionUser: Option<UserId>): (r: Result<PathwayRow>)
    ensures row.None? ==> r == Err("Pathway not found")
    ensures row.Some? && row.value.status != ACTIVE ==> r == Err("Pathway is not active")
    ensures r.Ok? <==>
              row.Some? && row.value.status == ACTIVE &&
              (row.value.kind == PRACTITIONER ==> sessionUser.Some? && row.value.assignedUserId == sessionUser)
    ensures r.Ok? ==> r.value == row.value
    ensures row.Some? && row.value.status == ACTIVE && row.value.kind == PRACTITIONER && sessionUser.None? ==>
              r == Err("Authentication required for practitioner pathways")
  {
    match row
    case None => Err("Pathway not found")
    case Some(p) =>
      if p.status != ACTIVE then Err("Pathway is not active")
      else if p.kind == PRACTITIONER && sessionUser.None? then
        Err("Authentication required for practitioner pathways")
      else if p.kind == PRACTITIONER && p.assignedUserId != sessionUser then
        Err("Pathway not assigned to you")
      else Ok(p)
  }

  /** The rows the existing-assignment lookup selects. */
  function MatchesStart(pathwayId: PathwayId, user: UserId): Assignment -> bool {
    (a: Assignment) => a.pathwayId == pathwayId && a.userId == user && a.status == ACTIVE
  }

  /**
   * `checkExistingAssignment(pathwayId)` with `maybeSingle()`: the one active
   * assignment of the user for the pathway. No user, no match, a failed
   * lookup and more than one match (an error of `maybeSingle`, logged and
   * swallowed) all give None.
   */
  function CheckExistingAssignment(table: seq<Assignment>, pathwayId: PathwayId,
                                   sessionUser: Option<UserId>, lookupFails: bool): (r: Option<Assignment>)
    ensures r.Some? <==>
              sessionUser.Some? && !lookupFails && |Filter(table, MatchesStart(pathwayId, sessionUser.value))| == 1
    ensures r.Some? ==>
              r.value in table && r.value.pathwayId == pathwayId &&
              r.value.userId == sessionUser.value && r.value.status == ACTIVE
  {
    if sessionUser.None? || lookupFails then None
    else
      var matches := Filter(table, MatchesStart(pathwayId, sessionUser.value));
      if |matches| == 1 then
        assert matches[0] in matches;
        Some(matches[0])
      else None
  }

  /** No user has two active assignments of the same pathway. */
  ghost predicate AtMostOneActive(table: seq<Assignment>) {
    forall i, j :: (0 <= i < j < |table| && table[i].status == ACTIVE && table[j].status == ACTIVE &&
                    table[i].userId == table[j].userId) ==> table[i].pathwayId != table[j].pathwayId
  }

  /** Under the invariant the lookup never meets more than one row. */
  lemma {:induction false} AtMostOneMatch(table: seq<Assignment>, pathwayId: PathwayId, user: UserId)
    requires AtMostOneActive(table)
    ensures |Filter(table, MatchesStart(pathwayId, user))| <= 1
    decreases |table|
  {
    if table != [] {
      var init := table[..|table| - 1];
      var last := table[|table| - 1];
      assert table == init + [last];
      assert AtMostOneActive(init) by {
        forall i, j | 0 <= i < j < |init| ensures
          !(init[i].status == ACTIVE && init[j].status == ACTIVE && init[i].userId == init[j].userId) ||
          init[i].pathwayId != init[j].pathwayId
        {
          assert init[i] == table[i] && init[j] == table[j];
        }
      }
      AtMostOneMatch(init, pathwayId, user);
      if MatchesStart(pathwayId, user)(last) {
        var m := Filter(init, MatchesStart(pathwayId, user));
        if m != [] {
          FilterNonEmpty(init, MatchesStart(pathwayId, user));
          assert false;
        }
      }
    }
  }

  /**
   * The lookup finds nothing, it did not fail, and the invariant holds: then
   * the user has no active assignment of the pathway at all.
   */
  lemma NoneMeansNotActive(table: seq<Assignment>, pathwayId: PathwayId, user: UserId)
    requires AtMostOneActive(table)
    requires CheckExistingAssignment(table, pathwayId, Some(user), false).None?
    ensures forall a :: a in table ==> !MatchesStart(pathwayId, user)(a)
  {
    AtMostOneMatch(table, pathwayId, user);
    var m := Filter(table, MatchesStart(pathwayId, user));
    assert |m| == 0;
  }

  /**
   * The checks `activatePathway` makes before inserting: a session user,
   * the acknowledgement flag, then the requirements row (None when
   * `fetchPathwayRequirements` fails).
   */
  function ActivationCheck(sessionUser: Option<UserId>, materialsAcknowledged: bool,
                           requirements: Option<Requirements>): (r: Result<UserId>)
    ensures sessionUser.None? ==> r == Err("User not authenticated")
    ensures sessionUser.Some? && !materialsAcknowledged ==> r == Err("Materials acknowledgment required")
    ensures r.Ok? <==> sessionUser.Some? && materialsAcknowledged && requirements.Some?
    ensures r.Ok? ==> r.value == sessionUser.value
    ensures r != Err("Materials and environment acknowledgment is required")
  {
    if sessionUser.None? then Err("User not authenticated")
    else if !materialsAcknowledged then Err("Materials acknowledgment required")
    else if requirements.None? then Err("Failed to load pathway requirements")
    // Reached only with `materialsAcknowledged` true, so this branch never fires.
    else if requirements.value.acknowledgementRequired && !materialsAcknowledged then
      Err("Materials and environment acknowledgment is required")
    else Ok(sessionUser.value)
  }

  /**
   * As written, the start page reads the session user through
   * `Auth.DestructuredUser`, which never yields one: a practitioner pathway
   * fails validation, no existing assignment is found, and activation stops
   * at the user check, so `handleStartPathway` never inserts a row.
   */
  lemma SessionAsWrittenBlocksStart(resp: Auth.SessionResponse, p: PathwayRow, table: seq<Assignment>,
                                    pathwayId: PathwayId, lookupFails: bool, requirements: Option<Requirements>)
    requires p.kind == PRACTITIONER
    ensures ValidatePathwayStart(Some(p), Auth.DestructuredUser(resp)).Err?
    ensures CheckExistingAssignment(table, pathwayId, Auth.DestructuredUser(resp), lookupFails).None?
    ensures ActivationCheck(Auth.DestructuredUser(resp), true, requirements) == Err("User not authenticated")
  {
  }

  /** Read as intended, a session's user passes the checks for a pathway assigned to them. */
  lemma SessionAsIntendedPassesStart(u: UserId, p: PathwayRow, requirements: Requirements)
    requires p.kind == PRACTITIONER && p.status == ACTIVE && p.assignedUserId == Some(u)
    ensures ValidatePathwayStart(Some(p), Auth.SessionUser(Auth.SessionResponse(Some(Auth.Session(u))))) == Ok(p)
    ensures ActivationCheck(Auth.SessionUser(Auth.SessionResponse(Some(Auth.Session(u)))), true, Some(requirements)) == Ok(u)
  {
  }

  /** Everything `handleStartPathway` reads besides the assignments table. */
  datatype StartContext = StartContext(
    authenticated: bool,              // `isAuthenticated()`
    currentPath: string,              // `location.pathname + location.search`
    sessionUser: Option<UserId>,      // the provider's session user
    pathway: Option<PathwayRow>,      // the pathways row (None: not found or query error)
    lookupFails: bool,                // the existing-assignment query errors
    requirements: Option<Requirements>, // the requirements row (None: query error)
    modalAccepted: bool,              // the modal's checkbox was ticked and confirmed
    viewExisting: bool,               // the answer to "would you like to view it?"
    insertError: Option<string>,      // the store refuses the insert
    now: Timestamp)

  /** Where `handleStartPathway` leaves the page. */
  datatype HandleOutcome =
    | GoToLogin(gate: Auth.Gate)          // not signed in: to the login page with a return path
    | AlreadyActive(openMyPathways: bool) // an active assignment exists; go to it if confirmed
    | Cancelled                           // the materials modal was dismissed
    | Started(assignment: Assignment)     // created; the page goes to /my-pathways.html
    | Alerted(message: string)            // a check threw; `alert` shows the message

  const ERROR_PREFIX := "Error starting pathway: "

  /** The pathway_assignments table, with the identifier the store gives the next row. */
  class AssignmentTable {
    var rows: seq<Assignment>
    var nextId: AssignmentId

    /** Identifiers already handed out are below `nextId`, so a new row's is fresh. */
    ghost predicate Valid()
      reads this
    {
      forall i :: 0 <= i < |rows| ==> rows[i].assignmentId < nextId
    }

    constructor(initial: seq<Assignment>, firstFreeId: AssignmentId)
      requires forall i :: 0 <= i < |initial| ==> initial[i].assignmentId < firstFreeId
      ensures Valid() && rows == initial && nextId == firstFreeId
    {
      rows := initial;
      nextId := firstFreeId;
    }

    /**
     * `activatePathway(pathwayId, materialsAcknowledged)`: after the checks,
     * insert one active, acknowledged row for the session user.
     */
    method ActivatePathway(pathwayId: PathwayId, materialsAcknowledged: bool, sessionUser: Option<UserId>,
                           requirements: Option<Requirements>, insertError: Option<string>, now: Timestamp)
      returns (r: Result<Assignment>)
      requires Valid()
      modifies this
      ensures Valid()
      ensures r.Ok? <==> ActivationCheck(sessionUser, materialsAcknowledged, requirements).Ok? && insertError.None?
      ensures r.Ok? ==>
                r.value == Assignment(old(nextId), pathwayId, sessionUser.value, ACTIVE, true, now, now) &&
                rows == old(rows) + [r.value] && nextId == old(nextId) + 1
      ensures r.Err? ==> rows == old(rows) && nextId == old(nextId)
      ensures ActivationCheck(sessionUser, materialsAcknowledged, requirements).Err? ==>
                r == Err(ActivationCheck(sessionUser, materialsAcknowledged, requirements).message)
    {
      var check := ActivationCheck(sessionUser, materialsAcknowledged, requirements);
      if check.Err? {
        return Err(check.message);
      }
      if insertError.Some? {
        return Err(insertError.value);
      }
      var a := Assignment(nextId, pathwayId, check.value, ACTIVE, true, now, now);
      rows := rows + [a];
      nextId := nextId + 1;
      r := Ok(a);
    }

    /**
     * `handleStartPathway(pathwayId)`: sign-in, then validation, then the
     * existing-assignment lookup, then the requirements and the modal, then
     * activation. At most one row is added, and only after every check passed.
     */
    method HandleStartPathway(pathwayId: PathwayId, ctx: StartContext) returns (out: HandleOutcome)
      requires Valid()
      modifies this
      ensures Valid()
      ensures !ctx.authenticated ==> out == GoToLogin(Auth.RedirectToLogin(Auth.ROOT_LOGIN_PAGE, ctx.currentPath))
      ensures out.Started? <==>
                ctx.authenticated && ValidatePathwayStart(ctx.pathway, ctx.sessionUser).Ok? &&
                CheckExistingAssignment(old(rows), pathwayId, ctx.sessionUser, ctx.lookupFails).None? &&
                ctx.requirements.Some? && ctx.modalAccepted && ctx.sessionUser.Some? && ctx.insertError.None?
      ensures out.Started? ==>
                out.assignment == Assignment(old(nextId), pathwayId, ctx.sessionUser.value, ACTIVE, true, ctx.now, ctx.now) &&
                rows == old(rows) + [out.assignment]
      ensures !out.Started? ==> rows == old(rows) && nextId == old(nextId)
      ensures ctx.authenticated && ValidatePathwayStart(ctx.pathway, ctx.sessionUser).Ok? &&
              CheckExistingAssignment(old(rows), pathwayId, ctx.sessionUser, ctx.lookupFails).Some? ==>
                out == AlreadyActive(ctx.viewExisting)
      ensures AtMostOneActive(old(rows)) && !ctx.lookupFails ==> AtMostOneActive(rows)
    {
      var gate := Auth.LoginGate(ctx.authenticated, Auth.ROOT_LOGIN_PAGE, "", ctx.currentPath);
      if !gate.Proceed? {
        return GoToLogin(gate);
      }
      var valid := ValidatePathwayStart(ctx.pathway, ctx.sessionUser);
      if valid.Err? {
        return Alerted(ERROR_PREFIX + valid.message);
      }
      var existing := CheckExistingAssignment(rows, pathwayId, ctx.sessionUser, ctx.lookupFails);
      if existing.Some? {
        return AlreadyActive(ctx.viewExisting);
      }
      if ctx.requirements.None? {
        return Alerted(ERROR_PREFIX + "Failed to load pathway requirements");
      }
      if !ctx.modalAccepted {
        return Cancelled;
      }
      ghost var before := rows;
      var r := ActivatePathway(pathwayId, true, ctx.sessionUser, ctx.requirements, ctx.insertError, ctx.now);
      if r.Err? {
        return Alerted(ERROR_PREFIX + r.message);
      }
      out := Started(r.value);
      if AtMostOneActive(before) && !ctx.lookupFails {
        NoneMeansNotActive(before, pathwayId, ctx.sessionUser.value);
        AppendKeepsAtMostOne(before, r.value);
      }
    }
  }

  /** Appending a row whose (user, pathway) has no active row keeps the invariant. */
  lemma AppendKeepsAtMostOne(table: seq<Assignment>, a: Assignment)
    requires AtMostOneActive(table)
    requires forall b :: b in table ==> !MatchesStart(a.pathwayId, a.userId)(b)
    ensures AtMostOneActive(table + [a])
  {
    var t := table + [a];
    forall i, j | 0 <= i < j < |t| && t[i].status == ACTIVE && t[j].status == ACTIVE && t[i].userId == t[j].userId
      ensures t[i].pathwayId != t[j].pathwayId
    {
      if j < |table| {
        assert t[i] == table[i] && t[j] == table[j];
      } else {
        assert t[i] == table[i] && t[j] == a;
        assert table[i] in table;
      }
    }
  }

  /** `material.required !== false ? ' (Required)' : ' (Optional)'`; entries without `item` are dropped. */
  function StartLine(m: MaterialItem): (r: Option<MaterialLine>)
    ensures m.Label? ==> r == Some(Plain(m.text))
    ensures m.Entry? && m.item != "" ==> r == Some(Marked(m.item, m.required != Bool(false)))
    ensures m.OtherItem? || (m.Entry? && m.item == "") ==> r.None?
  {
    match m
    case Label(t) => Some(Plain(t))
    case Entry(item, flag) => if item != "" then Some(Marked(item, flag != Bool(false))) else None
    case OtherItem => None
  }

  /**
   * `renderMaterialsList(materials)` as the list of lines it shows; [] stands
   * for the empty string (no section).
   */
  function RenderMaterialsList(materials: Materials): (r: seq<MaterialLine>)
    ensures !materials.Items? ==> r == []
    ensures materials.Items? ==> |r| <= |materials.items|
    ensures materials.Items? ==> (r == [] <==> forall i :: 0 <= i < |materials.items| ==> StartLine(materials.items[i]).None?)
    ensures materials.Items? ==>
              forall i :: 0 <= i < |materials.items| && StartLine(materials.items[i]).Some? ==> StartLine(materials.items[i]).value in r
    ensures materials.Items? ==>
              forall j :: 0 <= j < |r| ==> exists i :: 0 <= i < |materials.items| && StartLine(materials.items[i]) == Some(r[j])
  {
    match materials
    case Items(items) => FilterMap(items, StartLine)
    case _ => []
  }

  /** The list shows the lines of its items in their order: those of `a`, then those of `b`. */
  lemma MaterialLinesInOrder(a: seq<MaterialItem>, b: seq<MaterialItem>)
    ensures RenderMaterialsList(Items(a + b)) == RenderMaterialsList(Items(a)) + RenderMaterialsList(Items(b))
  {
    FilterMapAppend(a, b, StartLine);
  }

  /** A single item shows its own line, or nothing when it is dropped. */
  lemma MaterialLineOfOne(m: MaterialItem)
    ensures RenderMaterialsList(Items([m])) == (if StartLine(m).Some? then [StartLine(m).value] else [])
  {
    FilterMapSingle(m, StartLine);
  }

  /** An entry with no `required` field is listed as required. */
  lemma EntryRequiredByDefault(item: string)
    requires item != ""
    ensures RenderMaterialsList(Items([Entry(item, Unset)])) == [Marked(item, true)]
  {
  }

  /** `renderEnvironmentInfo(environment)` as data: nothing, the text as given, or labelled parts. */
  datatype EnvSection = NoSection | Verbatim(text: string) | Parts(parts: seq<EnvPart>)

  /** The fields `renderEnvironmentInfo` reports, in the order it reports them. */
  datatype EnvField = Space | Time | Mobility
  {
    /** The bold label written before the value (`<strong>Space:</strong> ...`). */
    function Label(): string {
      match this
      case Space => "Space"
      case Time => "Time Requirements"
      case Mobility => "Mobility"
    }

    function Rank(): nat {
      match this
      case Space => 0
      case Time => 1
      case Mobility => 2
    }
  }

  /** One labelled paragraph of the environment section. */
  datatype EnvPart = EnvPart(field: EnvField, value: string)

  /** The three optional paragraphs, each given by whether it is shown and its value, in order. */
  function PartsShown(spaceShown: bool, space: string, timeShown: bool, time: string,
                      mobilityShown: bool, mobility: string): (r: seq<EnvPart>)
    ensures forall j, k :: 0 <= j < k < |r| ==> r[j].field.Rank() < r[k].field.Rank()
    ensures EnvPart(Space, space) in r <==> spaceShown
    ensures EnvPart(Time, time) in r <==> timeShown
    ensures EnvPart(Mobility, mobility) in r <==> mobilityShown
    ensures forall p :: p in r ==>
              && (p.field == Space ==> spaceShown && p.value == space)
              && (p.field == Time ==> timeShown && p.value == time)
              && (p.field == Mobility ==> mobilityShown && p.value == mobility)
    ensures r == [] <==> !spaceShown && !timeShown && !mobilityShown
  {
    (if spaceShown then [EnvPart(Space, space)] else []) + LaterParts(timeShown, time, mobilityShown, mobility)
  }

  /** The parts after the space part. */
  function LaterParts(timeShown: bool, time: string, mobilityShown: bool, mobility: string): (r: seq<EnvPart>)
    ensures forall j, k :: 0 <= j < k < |r| ==> r[j].field == Time && r[k].field == Mobility
    ensures forall p :: p in r ==>
              && p.field != Space
              && (p.field == Time ==> timeShown && p.value == time)
              && (p.field == Mobility ==> mobilityShown && p.value == mobility)
    ensures EnvPart(Time, time) in r <==> timeShown
    ensures EnvPart(Mobility, mobility) in r <==> mobilityShown
    ensures |r| <= 2
  {
    (if timeShown then [EnvPart(Time, time)] else []) +
    (if mobilityShown then [EnvPart(Mobility, mobility)] else [])
  }

  /** The `parts.push` steps of `renderEnvironmentInfo` for an object. */
  method CollectParts(space: TextOrList, time: TextOrList, mobility: TextOrList) returns (parts: seq<EnvPart>)
    ensures parts == PartsShown(space.Truthy(), space.Joined(", "), time.Truthy(), time.Joined(", "),
                                mobility.Truthy(), mobility.Joined(","))
  {
    parts := [];
    if space.Truthy() {
      parts := parts + [EnvPart(Space, space.Joined(", "))];
    }
    ghost var first := parts;
    if time.Truthy() {
      parts := parts + [EnvPart(Time, time.Joined(", "))];
    }
    if mobility.Truthy() {
      parts := parts + [EnvPart(Mobility, mobility.Joined(","))];
    }
    assert parts == first + LaterParts(time.Truthy(), time.Joined(", "), mobility.Truthy(), mobility.Joined(","));
  }

  /**
   * `renderEnvironmentInfo(environment)`: a truthy string is shown as is; an
   * object yields one part per truthy field, in the order space, time,
   * mobility, array values joined with ", " (mobility is interpolated, so
   * an array there is joined with ","); no parts, or any other value, shows
   * nothing.
   */
  method RenderEnvironmentInfo(env: Environment) returns (s: EnvSection)
    ensures !env.Truthy() || env.EnvOther? ==> s == NoSection
    ensures env.EnvText? && env.text != "" ==> s == Verbatim(env.text)
    ensures s.Verbatim? ==> env.EnvText?
    ensures env.EnvObject? ==>
              (s == NoSection <==>
                 !env.spaceType.Truthy() && !env.timeBasedNeeds.Truthy() && !env.mobilityConstraints.Truthy())
    ensures s.Parts? ==> env.EnvObject? && s.parts != []
    ensures s.Parts? ==> forall j, k :: 0 <= j < k < |s.parts| ==> s.parts[j].field.Rank() < s.parts[k].field.Rank()
    ensures s.Parts? ==> (EnvPart(Space, env.spaceType.Joined(", ")) in s.parts <==> env.spaceType.Truthy())
    ensures s.Parts? ==> (EnvPart(Time, env.timeBasedNeeds.Joined(", ")) in s.parts <==> env.timeBasedNeeds.Truthy())
    ensures s.Parts? ==> (EnvPart(Mobility, env.mobilityConstraints.Joined(",")) in s.parts <==> env.mobilityConstraints.Truthy())
    ensures s.Parts? ==> forall p :: p in s.parts ==>
              && (p.field == Space ==> env.spaceType.Truthy() && p.value == env.spaceType.Joined(", "))
              && (p.field == Time ==> env.timeBasedNeeds.Truthy() && p.value == env.timeBasedNeeds.Joined(", "))
              && (p.field == Mobility ==> env.mobilityConstraints.Truthy() && p.value == env.mobilityConstraints.Joined(","))
  {
    if !env.Truthy() {
      return NoSection;
    }
    match env {
      case EnvText(t) =>
        s := Verbatim(t);
      case EnvObject(space, time, mobility, _) =>
        var parts := CollectParts(space, time, mobility);
        s := if |parts| > 0 then Parts(parts) else NoSection;
      case _ =>
        s := NoSection;
    }
  }
}
