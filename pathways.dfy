/**
 * The rows of the pathway tables (pathways, pathway_requirements,
 * pathway_blocks, pathway_assignments) as the client code reads them, and the
 * derivations that more than one page computes from them.
 *
 * JavaScript values that the code only tests for truthiness are modelled with
 * their falsy case made explicit: an empty string stands for a missing text
 * field, `0` for a missing day number and `None` for a missing block order.
 */
module Pathways {
  import opened Common

  type PathwayId = string
  type AssignmentId = nat
  /** A point in time as the store records it; later instants are larger. */
  type Timestamp = int

  /** A JSON field that holds either text or an array of text. */
  datatype TextOrList =
    | Absent                      // missing, null, or any other falsy value
    | Text(text: string)          // a string ("" is falsy)
    | List(items: seq<string>)    // an array (always truthy, even when empty)
  {
    predicate Truthy() {
      match this
      case Absent => false
      case Text(t) => t != ""
      case List(_) => true
    }

    /** `Array.isArray(v) ? v.join(sep) : v` for a truthy value. */
    function Joined(sep: string): string {
      match this
      case Absent => ""
      case Text(t) => t
      case List(items) => Join(items, sep)
    }
  }

  /** The `required` field of a material entry. */
  datatype Flag = Unset | Bool(b: bool)

  /** One element of a `materials_required` array. */
  datatype MaterialItem =
    | Label(text: string)                       // a bare string
    | Entry(item: string, required: Flag)       // an object; `item` is "" when missing
    | OtherItem                                 // a number, null or anything else

  /** The `materials_required` value of a requirements row. */
  datatype Materials =
    | NoMaterials                 // null, missing or otherwise falsy
    | NotAList                    // truthy but not an array
    | Items(items: seq<MaterialItem>)

  /** The `environment_required` value of a requirements row. */
  datatype Environment =
    | NoEnvironment               // null, missing, false or 0
    | EnvText(text: string)       // a string ("" is falsy)
    | EnvObject(spaceType: TextOrList, timeBasedNeeds: TextOrList,
                mobilityConstraints: TextOrList, setupEffortMinutes: int)
    | EnvOther(json: string)      // a truthy number or `true`, with its JSON text
  {
    predicate Truthy() {
      match this
      case NoEnvironment => false
      case EnvText(t) => t != ""
      case _ => true
    }
  }

  /** One rendered line of a materials list: a bare label, or an item marked (Required) or (Optional). */
  datatype MaterialLine = Plain(text: string) | Marked(item: string, required: bool)

  /** A pathway_requirements row. */
  datatype Requirements = Requirements(
    materials: Materials,
    environment: Environment,
    acknowledgementRequired: bool)

  /** A pathway_blocks row, reduced to the fields that order and group blocks. */
  datatype Block = Block(blockId: string, dayNumber: int, blockOrder: Option<int>)

  /** A pathway_assignments row. */
  datatype Assignment = Assignment(
    assignmentId: AssignmentId,
    pathwayId: PathwayId,
    userId: UserId,
    status: string,
    materialsAcknowledged: bool,
    acknowledgedAt: Timestamp,
    startedAt: Timestamp)

  /** The daily time commitment object of a pathway's descriptive data. */
  datatype DailyTime = DailyTime(minimum: string, typical: string)

  /** The free-form `pathway_data` payload, field by field ("" / Absent / None when missing). */
  datatype PathwayDetails = PathwayDetails(
    overview: string,
    description: string,
    primaryPillar: string,
    primaryGoal: string,
    helpsWith: TextOrList,
    secondaryGoals: TextOrList,
    suitableFor: Option<seq<string>>,          // None when missing or falsy; an array is truthy even when empty
    thisPathwayIsFor: Option<seq<string>>,
    notSuitableFor: Option<seq<string>>,
    thisPathwayIsNotFor: Option<seq<string>>,
    dailyTime: Option<DailyTime>,
    intensityLevel: string,
    totalDuration: string)

  /** A pathways row joined with its requirements and blocks. */
  datatype PathwayRow = PathwayRow(
    pathwayId: PathwayId,
    kind: string,                     // the `type` column
    status: string,
    assignedUserId: Option<UserId>,
    title: string,
    createdAt: Timestamp,
    details: Option<PathwayDetails>,  // None when `pathway_data` is null
    requirements: seq<Requirements>,
    blocks: seq<Block>)

  const ACTIVE := "active"
  const PLATFORM := "platform"
  const PRACTITIONER := "practitioner"

  /** `block.day_number || 1`: the day a block belongs to. */
  function DayOf(b: Block): int {
    if b.dayNumber != 0 then b.dayNumber else 1
  }

  /**
   * `blocks.length > 0 ? Math.max(...blocks.map(b => b.day_number || 1)) : 0`,
   * computed the same way by the my-pathways and the browse pages.
   */
  function TotalDays(blocks: seq<Block>): (r: int)
    ensures blocks == [] ==> r == 0
    ensures forall b :: b in blocks ==> DayOf(b) <= r
    ensures blocks != [] ==> exists b :: b in blocks && DayOf(b) == r
    decreases |blocks|
  {
    if blocks == [] then 0
    else if |blocks| == 1 then DayOf(blocks[0])
    else
      var rest := TotalDays(blocks[1..]);
      assert forall b :: b in blocks ==> b == blocks[0] || b in blocks[1..];
      if DayOf(blocks[0]) >= rest then DayOf(blocks[0]) else rest
  }

  /** The total depends only on which blocks there are, not on their order. */
  lemma TotalDaysSameBlocks(s: seq<Block>, t: seq<Block>)
    requires forall b :: b in s <==> b in t
    ensures TotalDays(s) == TotalDays(t)
  {
    if s != [] {
      assert s[0] in t;
    }
  }
}
