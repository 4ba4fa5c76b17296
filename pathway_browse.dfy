/**
 * The public pathway listing (js/pathway-browse.js): the query for the
 * listed rows and the values each card derives from a row. Markup is left
 * out; a card is the record of what it shows. The two feature flags of the
 * page are parameters.
 */
module PathwayBrowse {
  import opened Common
  import opened Pathways
  import opened Sorting

  /** The `type = 'platform'` and `status = 'active'` filters of `getPlatformPathways`. */
  predicate Listed(p: PathwayRow) {
    p.kind == PLATFORM && p.status == ACTIVE
  }

  /** The `created_at` descending order: `a` may stay before `b` when it is not older. */
  predicate NewerFirst(a: PathwayRow, b: PathwayRow) {
    a.createdAt >= b.createdAt
  }

  /**
   * `getPlatformPathways()`: the listed rows of the table, newest first. The
   * store's order among rows created at the same instant is not specified;
   * the model keeps their table order.
   */
  function GetPlatformPathways(table: seq<PathwayRow>, queryError: Option<string>): (r: Result<seq<PathwayRow>>)
    ensures queryError.Some? ==> r == Err(queryError.value)
    ensures r.Ok? <==> queryError.None?
    ensures r.Ok? ==> forall p :: p in r.value <==> p in table && Listed(p)
    ensures r.Ok? ==> multiset(r.value) == multiset(Filter(table, Listed))
    ensures r.Ok? ==> forall i, j :: 0 <= i < j < |r.value| ==> r.value[i].createdAt >= r.value[j].createdAt
  {
    if queryError.Some? then Err(queryError.value)
    else
      var listed := Filter(table, Listed);
      var sorted := InsertionSort(listed, NewerFirst);
      InsertionSortPermutation(listed, NewerFirst);
      InsertionSortSorted(listed, NewerFirst);
      assert forall p :: p in sorted <==> p in multiset(listed);
      Ok(sorted)
  }

  /** The listing keeps each listed row exactly as often as the table holds it. */
  lemma ListingCounts(table: seq<PathwayRow>, p: PathwayRow)
    requires Listed(p)
    ensures multiset(GetPlatformPathways(table, None).value)[p] == multiset(table)[p]
  {
    FilterCount(table, p);
  }

  /** Filtering keeps every occurrence of a row that passes. */
  lemma {:induction false} FilterCount(table: seq<PathwayRow>, p: PathwayRow)
    requires Listed(p)
    ensures multiset(Filter(table, Listed))[p] == multiset(table)[p]
    decreases |table|
  {
    if table != [] {
      var init := table[..|table| - 1];
      assert table == init + [table[|table| - 1]];
      FilterCount(init, p);
    }
  }

  /** The sentence shown when a pathway has neither an overview nor a description. */
  const DEFAULT_OVERVIEW := "A structured pathway for exploration and practice."

  /** `overview || description || DEFAULT_OVERVIEW`. */
  function Overview(d: Option<PathwayDetails>): (r: string)
    ensures r != ""
    ensures d.Some? && d.value.overview != "" ==> r == d.value.overview
    ensures d.Some? && d.value.overview == "" && d.value.description != "" ==> r == d.value.description
    ensures (d.None? || (d.value.overview == "" && d.value.description == "")) ==> r == DEFAULT_OVERVIEW
  {
    if d.Some? && d.value.overview != "" then d.value.overview
    else if d.Some? && d.value.description != "" then d.value.description
    else DEFAULT_OVERVIEW
  }

  /** `primary_pillar || primary_goal || ''`. */
  function PrimaryPillar(d: Option<PathwayDetails>): (r: string)
    ensures r != "" <==> d.Some? && (d.value.primaryPillar != "" || d.value.primaryGoal != "")
    ensures r != "" ==> r == d.value.primaryPillar || r == d.value.primaryGoal
  {
    if d.None? then ""
    else if d.value.primaryPillar != "" then d.value.primaryPillar
    else d.value.primaryGoal
  }

  /**
   * `helps_with || secondary_goals || []`, joined with ", " when it is an
   * array and taken as it is otherwise (falling back to '').
   */
  function HelpsWithText(d: Option<PathwayDetails>): (r: string)
    ensures d.None? ==> r == ""
    ensures d.Some? && d.value.helpsWith.Truthy() ==> r == d.value.helpsWith.Joined(", ")
    ensures d.Some? && !d.value.helpsWith.Truthy() ==> r == d.value.secondaryGoals.Joined(", ")
  {
    if d.None? then ""
    else
      var v := if d.value.helpsWith.Truthy() then d.value.helpsWith
               else if d.value.secondaryGoals.Truthy() then d.value.secondaryGoals
               else List([]);
      v.Joined(", ")
  }

  /** An empty `helps_with` array is truthy: it hides the secondary goals and shows nothing. */
  lemma EmptyHelpsWithHidesSecondaryGoals(d: PathwayDetails)
    requires d.helpsWith == List([])
    ensures HelpsWithText(Some(d)) == ""
  {
  }

  /** `first || second || []` over two array fields: the first one present wins, even when empty. */
  function FirstList(first: Option<seq<string>>, second: Option<seq<string>>): (r: seq<string>)
    ensures first.Some? ==> r == first.value
    ensures first.None? && second.Some? ==> r == second.value
    ensures first.None? && second.None? ==> r == []
  {
    if first.Some? then first.value else if second.Some? then second.value else []
  }

  /** `suitable_for || this_pathway_is_for || []`. */
  function SuitableFor(d: Option<PathwayDetails>): seq<string> {
    if d.None? then [] else FirstList(d.value.suitableFor, d.value.thisPathwayIsFor)
  }

  /** `not_suitable_for || this_pathway_is_not_for || []`. */
  function NotSuitableFor(d: Option<PathwayDetails>): seq<string> {
    if d.None? then [] else FirstList(d.value.notSuitableFor, d.value.thisPathwayIsNotFor)
  }

  /** `daily_time_commitment || {}`, read as its `minimum` and `typical` (each '' when missing). */
  function DailyTimes(d: Option<PathwayDetails>): (r: (string, string))
    ensures (d.None? || d.value.dailyTime.None?) ==> r == ("", "")
    ensures d.Some? && d.value.dailyTime.Some? ==> r == (d.value.dailyTime.value.minimum, d.value.dailyTime.value.typical)
  {
    if d.None? || d.value.dailyTime.None? then ("", "")
    else (d.value.dailyTime.value.minimum, d.value.dailyTime.value.typical)
  }

  /**
   * The duration line as the page computes it: `||` binds tighter than
   * `?:`, so the condition is `total_duration || totalDays` and the text is
   * always the day count.
   */
  function DurationAsWritten(totalDuration: string, totalDays: int): (r: string)
    ensures r != "" ==> r == IntToString(totalDays) + " days"
  {
    if totalDuration != "" || totalDays != 0 then IntToString(totalDays) + " days" else ""
  }

  /** As written, the stored `total_duration` never appears; only the day count does. */
  lemma DurationAsWrittenIgnoresText(totalDuration: string, totalDays: int)
    ensures DurationAsWritten(totalDuration, totalDays) == "" ||
            DurationAsWritten(totalDuration, totalDays) == IntToString(totalDays) + " days"
    ensures DurationAsWritten(totalDuration, totalDays) == "" <==> totalDuration == "" && totalDays == 0
  {
    assert |IntToString(totalDays) + " days"| > 0;
  }

  /** A pathway described as lasting three weeks, with no blocks yet, is shown as "0 days". */
  lemma DurationAsWrittenCounterexample()
    ensures DurationAsWritten("3 weeks", 0) == "0 days"
  {
    assert IntToString(0) == "0";
  }

  /**
   * The duration line meant by the code: `total_duration` when present,
   * otherwise the day count when there are days, otherwise nothing.
   */
  function Duration(totalDuration: string, totalDays: int): (r: string)
    ensures totalDuration != "" ==> r == totalDuration
    ensures totalDuration == "" && totalDays != 0 ==> r == IntToString(totalDays) + " days"
    ensures r == "" <==> totalDuration == "" && totalDays == 0
  {
    if totalDuration != "" then totalDuration
    else if totalDays != 0 then IntToString(totalDays) + " days"
    else ""
  }

  /** Corrected or not, the duration line is shown under the same condition. */
  lemma DurationShownAlike(totalDuration: string, totalDays: int)
    ensures (Duration(totalDuration, totalDays) == "") == (DurationAsWritten(totalDuration, totalDays) == "")
  {
    DurationAsWrittenIgnoresText(totalDuration, totalDays);
  }

  /** The two flags of the requirements preview: "Materials needed", "Specific environment". */
  datatype Preview = Preview(materials: bool, environment: bool)

  /** Whether `materials_required` is truthy (an array always is). */
  predicate MaterialsTruthy(m: Materials) {
    !m.NoMaterials?
  }

  /**
   * `pathway_requirements?.[0]`, previewed only when it requires materials
   * or an environment.
   */
  function RequirementsPreview(requirements: seq<Requirements>): (r: Option<Preview>)
    ensures r.Some? <==> |requirements| > 0 &&
                         (MaterialsTruthy(requirements[0].materials) || requirements[0].environment.Truthy())
    ensures r.Some? ==> r.value == Preview(MaterialsTruthy(requirements[0].materials),
                                           requirements[0].environment.Truthy())
    ensures r.Some? ==> r.value.materials || r.value.environment
  {
    if |requirements| == 0 then None
    else
      var q := requirements[0];
      if MaterialsTruthy(q.materials) || q.environment.Truthy() then
        Some(Preview(MaterialsTruthy(q.materials), q.environment.Truthy()))
      else None
  }

  /** Only the first requirements record counts: later ones never change the preview. */
  lemma PreviewUsesFirstRecord(q: Requirements, rest1: seq<Requirements>, rest2: seq<Requirements>)
    ensures RequirementsPreview([q] + rest1) == RequirementsPreview([q] + rest2)
  {
  }

  /** The line of duration, daily time and intensity, shown only with a duration. */
  datatype Meta = Meta(duration: string, daily: Option<string>, intensity: Option<string>)

  /** The call to action: start the pathway, or (without sign-in) read the journey. */
  datatype Action = StartButton(pathwayId: PathwayId) | ReadJourneyButton(pathwayId: PathwayId)

  /** What a pathway card shows, section by section, in page order. */
  datatype Card = Card(
    pathwayId: PathwayId,
    title: string,
    primaryPillar: Option<string>,
    overview: string,
    helpsWith: Option<string>,
    meta: Option<Meta>,
    suitableFor: seq<string>,
    notSuitableFor: seq<string>,
    requirements: Option<Preview>,
    action: Action)

  /** Some(s) for a non-empty text, None for ''. */
  function Shown(s: string): (r: Option<string>)
    ensures r.Some? <==> s != ""
    ensures r.Some? ==> r.value == s
  {
    if s != "" then Some(s) else None
  }

  /** The card `renderPathways` builds for one row. */
  function CardOf(p: PathwayRow, enableAuth: bool): (c: Card)
    ensures c.pathwayId == p.pathwayId && c.title == p.title
    ensures c.overview != ""
    ensures c.meta.Some? <==> (p.details.Some? && p.details.value.totalDuration != "") || TotalDays(p.blocks) != 0
    ensures c.meta.Some? ==> c.meta.value.duration == IntToString(TotalDays(p.blocks)) + " days"
    ensures c.meta.Some? ==> c.meta.value.duration == DurationAsWritten(
              if p.details.Some? then p.details.value.totalDuration else "", TotalDays(p.blocks))
    ensures c.requirements == RequirementsPreview(p.requirements)
    ensures c.action == (if enableAuth then StartButton(p.pathwayId) else ReadJourneyButton(p.pathwayId))
  {
    var d := p.details;
    var totalDays := TotalDays(p.blocks);
    var times := DailyTimes(d);
    var intensity := if d.Some? then d.value.intensityLevel else "";
    var storedDuration := if d.Some? then d.value.totalDuration else "";
    DurationAsWrittenIgnoresText(storedDuration, totalDays);
    var duration := DurationAsWritten(storedDuration, totalDays);
    Card(
      p.pathwayId,
      p.title,
      Shown(PrimaryPillar(d)),
      Overview(d),
      Shown(HelpsWithText(d)),
      if duration != "" then Some(Meta(duration, Shown(times.1), Shown(intensity))) else None,
      SuitableFor(d),
      NotSuitableFor(d),
      RequirementsPreview(p.requirements),
      if enableAuth then StartButton(p.pathwayId) else ReadJourneyButton(p.pathwayId))
  }

  /**
   * A row with no descriptive data and no blocks shows the default overview
   * and none of the optional sections apart from the requirements preview.
   */
  lemma BareRowCard(p: PathwayRow, enableAuth: bool)
    requires p.details.None? && p.blocks == []
    ensures CardOf(p, enableAuth).overview == DEFAULT_OVERVIEW
    ensures CardOf(p, enableAuth).primaryPillar.None? && CardOf(p, enableAuth).helpsWith.None?
    ensures CardOf(p, enableAuth).meta.None?
    ensures CardOf(p, enableAuth).suitableFor == [] && CardOf(p, enableAuth).notSuitableFor == []
  {
  }

  /** What the container shows. */
  datatype BrowseView =
    | Untouched                 // dynamic pathways are switched off
    | ErrorState                // "Error loading pathways. Please try again later."
    | EmptyState                // "No pathways available at this time."
    | Cards(cards: seq<Card>)

  /** `renderPathways(pathways)`: the empty note, or one card per row in order. */
  function RenderPathways(pathways: seq<PathwayRow>, enableAuth: bool): (v: BrowseView)
    ensures pathways == [] <==> v == EmptyState
    ensures pathways != [] ==> v.Cards? && |v.cards| == |pathways|
    ensures pathways != [] ==> forall i :: 0 <= i < |pathways| ==> v.cards[i] == CardOf(pathways[i], enableAuth)
  {
    if pathways == [] then EmptyState
    else Cards(seq(|pathways|, i requires 0 <= i < |pathways| => CardOf(pathways[i], enableAuth)))
  }

  /**
   * `initPathwayBrowse()`: nothing when the feature is off, the error note
   * when the query fails, otherwise the rendered listing.
   */
  function InitPathwayBrowse(enableDynamic: bool, enableAuth: bool,
                             table: seq<PathwayRow>, queryError: Option<string>): (v: BrowseView)
    ensures !enableDynamic ==> v == Untouched
    ensures enableDynamic && queryError.Some? ==> v == ErrorState
    ensures v.Cards? ==> forall i :: 0 <= i < |v.cards| ==>
              exists p :: p in table && Listed(p) && v.cards[i] == CardOf(p, enableAuth)
    ensures enableDynamic && queryError.None? ==>
              (v == EmptyState <==> forall p :: p in table ==> !Listed(p))
    ensures enableDynamic && queryError.None? ==>
              v == RenderPathways(GetPlatformPathways(table, None).value, enableAuth)
  {
    if !enableDynamic then Untouched
    else
      var listing := GetPlatformPathways(table, queryError);
      if listing.Err? then ErrorState
      else
        assert queryError == None;
        ListingEmpty(table);
        var v := RenderPathways(listing.value, enableAuth);
        assert forall i :: 0 <= i < |listing.value| ==> listing.value[i] in listing.value;
        v
  }

  /** The listing is empty exactly when no row of the table is listed. */
  lemma ListingEmpty(table: seq<PathwayRow>)
    ensures GetPlatformPathways(table, None).value == [] <==> forall p :: p in table ==> !Listed(p)
  {
    var listing := GetPlatformPathways(table, None).value;
    if listing != [] {
      assert listing[0] in listing;
    }
  }
}
