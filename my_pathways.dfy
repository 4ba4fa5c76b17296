/**
 * The "my pathways" page (js/my-pathways.js): the signed-in user's active
 * assignments with their completed days, the block order and the progress
 * figures derived from them, the grouping of blocks by day, the materials
 * and environment formatters, and the completed-days table the day
 * checkboxes write to.
 */
module MyPathways {
  import opened Common
  import opened Pathways
  import opened Sorting
  import PathwayAuth
  import StartPathway
  import Auth

  // ---------------------------------------------------------------------
  // Block order

  /** The comparator of `pathway_blocks.sort(...)`: by day number, then block order (missing as 0). */
  function BlockCompare(a: Block, b: Block): int {
    if a.dayNumber != b.dayNumber then a.dayNumber - b.dayNumber
    else a.blockOrder.GetOr(0) - b.blockOrder.GetOr(0)
  }

  /** `a` may stay before `b`. */
  predicate BlockLe(a: Block, b: Block) {
    BlockCompare(a, b) <= 0
  }

  /** The comparator orders blocks lexicographically by (day number, block order). */
  lemma BlockLeByKey(a: Block, b: Block)
    ensures BlockLe(a, b) <==>
              a.dayNumber < b.dayNumber ||
              (a.dayNumber == b.dayNumber && a.blockOrder.GetOr(0) <= b.blockOrder.GetOr(0))
  {
  }

  /** The comparator is consistent, so the sort's result is well defined. */
  lemma BlockLeTotalPreorder()
    ensures TotalPreorder(BlockLe)
  {
    assert forall x, y :: BlockLe(x, y) || BlockLe(y, x);
    forall x, y, z | BlockLe(x, y) && BlockLe(y, z) ensures BlockLe(x, z) {
      BlockLeByKey(x, y);
      BlockLeByKey(y, z);
      BlockLeByKey(x, z);
    }
  }

  /** The blocks in the order the page shows them. */
  function SortedBlocks(blocks: seq<Block>): (r: seq<Block>)
    ensures multiset(r) == multiset(blocks)
    ensures forall i, j :: 0 <= i < j < |r| ==>
              r[i].dayNumber < r[j].dayNumber ||
              (r[i].dayNumber == r[j].dayNumber && r[i].blockOrder.GetOr(0) <= r[j].blockOrder.GetOr(0))
    ensures forall y :: EqualRun(r, y, BlockLe) == EqualRun(blocks, y, BlockLe)
  {
    BlockLeTotalPreorder();
    InsertionSortPermutation(blocks, BlockLe);
    InsertionSortSorted(blocks, BlockLe);
    forall y ensures EqualRun(InsertionSort(blocks, BlockLe), y, BlockLe) == EqualRun(blocks, y, BlockLe) {
      InsertionSortStable(blocks, y, BlockLe);
    }
    var r := InsertionSort(blocks, BlockLe);
    forall i, j | 0 <= i < j < |r|
      ensures r[i].dayNumber < r[j].dayNumber ||
              (r[i].dayNumber == r[j].dayNumber && r[i].blockOrder.GetOr(0) <= r[j].blockOrder.GetOr(0))
    {
      BlockLeByKey(r[i], r[j]);
    }
    r
  }

  /** `(pathway.pathway_blocks || []).sort(...)`: sorts the blocks array in place. */
  method SortBlocks(a: array<Block>)
    modifies a
    ensures a[..] == SortedBlocks(old(a[..]))
  {
    SortInPlace(a, BlockLe);
  }

  // ---------------------------------------------------------------------
  // Progress

  /**
   * `totalDays > 0 ? Math.round((completedCount / totalDays) * 100) : 0`:
   * the whole number nearest to 100·completed/total, halves rounded up.
   * Nothing caps it at 100.
   */
  function CompletionPercent(completedCount: nat, totalDays: int): (r: int)
    ensures totalDays <= 0 ==> r == 0
    ensures totalDays > 0 ==> r * (2 * totalDays) <= 200 * completedCount + totalDays < (r + 1) * (2 * totalDays)
    ensures r >= 0
  {
    if totalDays > 0 then (200 * completedCount + totalDays) / (2 * totalDays) else 0
  }

  lemma MulMonotonic(a: int, b: int, m: int)
    requires a <= b && m > 0
    ensures a * m <= b * m
  {
  }

  /** The rounded value is the only whole number with the rounding bounds. */
  lemma PercentUnique(c: nat, t: int, p: int)
    requires t > 0
    requires p * (2 * t) <= 200 * c + t < (p + 1) * (2 * t)
    ensures CompletionPercent(c, t) == p
  {
    var r := CompletionPercent(c, t);
    var m := 2 * t;
    if r < p {
      MulMonotonic(r + 1, p, m);
    } else if r > p {
      MulMonotonic(p + 1, r, m);
    }
  }

  /** No days done is 0%; all days done is 100%. */
  lemma PercentEnds(t: int)
    requires t > 0
    ensures CompletionPercent(0, t) == 0
    ensures CompletionPercent(t, t) == 100
  {
    PercentUnique(0, t, 0);
    PercentUnique(t, t, 100);
  }

  /** More completed days never lower the percentage. */
  lemma PercentMonotonic(c1: nat, c2: nat, t: int)
    requires c1 <= c2
    ensures CompletionPercent(c1, t) <= CompletionPercent(c2, t)
  {
    if t > 0 {
      var r1 := CompletionPercent(c1, t);
      var r2 := CompletionPercent(c2, t);
      if r2 < r1 {
        MulMonotonic(r2 + 1, r1, 2 * t);
      }
    }
  }

  /** While no more days are completed than there are, the percentage stays within 0..100. */
  lemma PercentAtMost100(c: nat, t: int)
    requires c <= t
    ensures 0 <= CompletionPercent(c, t) <= 100
  {
    if t > 0 {
      PercentMonotonic(c, t, t);
      PercentEnds(t);
    }
  }

  /** Six completed days of a five-day pathway show 120%. */
  lemma PercentCanExceed100()
    ensures CompletionPercent(6, 5) == 120
  {
    PercentUnique(6, 5, 120);
  }

  // ---------------------------------------------------------------------
  // Grouping by day

  /** One day of `renderPathwayBlocks`: its number, its checkbox and its blocks. */
  datatype DayGroup = DayGroup(day: int, checked: bool, blocks: seq<Block>)

  /** The blocks that belong to `day`. */
  function OnDay(day: int): Block -> bool {
    (b: Block) => DayOf(b) == day
  }

  /** `parseInt(a) - parseInt(b)` on the day keys. */
  predicate DayLe(a: int, b: int) {
    a - b <= 0
  }

  /**
   * What the grouping shows: each group holds the blocks of its day in
   * their given order, its checkbox is ticked iff the day was completed,
   * days are strictly increasing, no group is empty, and every block's day
   * has a group.
   */
  ghost predicate IsDayGrouping(blocks: seq<Block>, completedDays: set<int>, groups: seq<DayGroup>) {
    && (forall k :: 0 <= k < |groups| ==> groups[k].blocks == Filter(blocks, OnDay(groups[k].day)))
    && (forall k :: 0 <= k < |groups| ==> groups[k].blocks != [])
    && (forall k :: 0 <= k < |groups| ==> (groups[k].checked <==> groups[k].day in completedDays))
    && (forall j, k :: 0 <= j < k < |groups| ==> groups[j].day < groups[k].day)
    && (forall b :: b in blocks ==> exists k :: 0 <= k < |groups| && groups[k].day == DayOf(b))
  }

  /** In such a grouping every block is in exactly one group, the one of its day. */
  lemma EachBlockInOneGroup(blocks: seq<Block>, completedDays: set<int>, groups: seq<DayGroup>, b: Block)
    requires IsDayGrouping(blocks, completedDays, groups)
    requires b in blocks
    ensures exists k :: 0 <= k < |groups| && b in groups[k].blocks
    ensures forall k, l :: (0 <= k < |groups| && 0 <= l < |groups| &&
                            b in groups[k].blocks && b in groups[l].blocks) ==> k == l
  {
    var k :| 0 <= k < |groups| && groups[k].day == DayOf(b);
    assert b in groups[k].blocks;
    forall k1, l | 0 <= k1 < |groups| && 0 <= l < |groups| && b in groups[k1].blocks && b in groups[l].blocks
      ensures k1 == l
    {
      assert groups[k1].day == DayOf(b) == groups[l].day;
    }
  }

  /**
   * The grouping of `renderPathwayBlocks(blocks, completedDays, ...)`: a
   * `forEach` fills `blocksByDay`, then the day keys are sorted numerically
   * and mapped to groups. No blocks give no groups (the "No blocks" note).
   */
  method GroupBlocksByDay(blocks: seq<Block>, completedDays: set<int>) returns (groups: seq<DayGroup>)
    ensures IsDayGrouping(blocks, completedDays, groups)
    ensures groups == [] <==> blocks == []
  {
    var byDay, keys := CollectByDay(blocks);
    var days := InsertionSort(keys, DayLe);
    SortedDays(keys, days);
    SameMembers(byDay, keys, days);
    groups := seq(|days|, k requires 0 <= k < |days| => DayGroup(days[k], days[k] in completedDays, byDay[days[k]]));
    GroupsFromDays(blocks, completedDays, byDay, days, groups);
  }

  /** The groups built from the sorted keys and the collected map form a day grouping. */
  lemma GroupsFromDays(blocks: seq<Block>, completedDays: set<int>, byDay: map<int, seq<Block>>,
                       days: seq<int>, groups: seq<DayGroup>)
    requires forall d :: d in byDay ==> byDay[d] == Filter(blocks, OnDay(d)) && byDay[d] != []
    requires forall b :: b in blocks ==> DayOf(b) in byDay
    requires forall d :: d in days <==> d in byDay
    requires forall j, k :: 0 <= j < k < |days| ==> days[j] < days[k]
    requires |groups| == |days|
    requires forall k :: 0 <= k < |days| ==>
               days[k] in byDay && groups[k] == DayGroup(days[k], days[k] in completedDays, byDay[days[k]])
    ensures IsDayGrouping(blocks, completedDays, groups)
  {
    forall b | b in blocks ensures exists k :: 0 <= k < |groups| && groups[k].day == DayOf(b) {
      var k :| 0 <= k < |days| && days[k] == DayOf(b);
      assert groups[k].day == DayOf(b);
    }
  }

  /** The numeric sort of distinct day keys is strictly increasing and keeps the same keys. */
  lemma SortedDays(keys: seq<int>, days: seq<int>)
    requires NoDuplicates(keys)
    requires days == InsertionSort(keys, DayLe)
    ensures multiset(days) == multiset(keys)
    ensures forall j, k :: 0 <= j < k < |days| ==> days[j] < days[k]
  {
    InsertionSortPermutation(keys, DayLe);
    InsertionSortSorted(keys, DayLe);
    PermutationNoDuplicates(keys, days);
    forall j, k | 0 <= j < k < |days| ensures days[j] < days[k] {
      assert DayLe(days[j], days[k]) && days[j] != days[k];
    }
  }

  /** A permutation of the key list names exactly the days of the map. */
  lemma SameMembers(byDay: map<int, seq<Block>>, keys: seq<int>, days: seq<int>)
    requires forall d :: d in byDay <==> d in keys
    requires multiset(days) == multiset(keys)
    ensures forall d :: d in days <==> d in byDay
    ensures forall k :: 0 <= k < |days| ==> days[k] in byDay
  {
    forall d ensures d in days <==> d in byDay {
      assert (d in days) == (d in multiset(days));
      assert (d in keys) == (d in multiset(keys));
    }
  }

  /**
   * The `blocks.forEach` loop that fills `blocksByDay`, with the day keys in
   * the order they first appear.
   */
  method CollectByDay(blocks: seq<Block>) returns (byDay: map<int, seq<Block>>, keys: seq<int>)
    ensures forall d :: d in byDay <==> d in keys
    ensures NoDuplicates(keys)
    ensures forall d :: d in byDay ==> byDay[d] == Filter(blocks, OnDay(d)) && byDay[d] != []
    ensures forall b :: b in blocks ==> DayOf(b) in byDay
    ensures keys == [] <==> blocks == []
  {
    byDay := map[];
    keys := [];
    var i := 0;
    while i < |blocks|
      invariant 0 <= i <= |blocks|
      invariant Collected(blocks, i, byDay, keys)
    {
      byDay, keys := AddBlock(blocks, i, byDay, keys);
      i := i + 1;
    }
    AllCollected(blocks, byDay, keys);
  }

  /** Once every block has been seen, the loop's state describes all of them. */
  lemma AllCollected(blocks: seq<Block>, byDay: map<int, seq<Block>>, keys: seq<int>)
    requires Collected(blocks, |blocks|, byDay, keys)
    ensures forall d :: d in byDay ==> byDay[d] == Filter(blocks, OnDay(d)) && byDay[d] != []
    ensures forall b :: b in blocks ==> DayOf(b) in byDay
    ensures keys == [] <==> blocks == []
  {
    assert blocks[..|blocks|] == blocks;
    if keys != [] {
      FilterNonEmpty(blocks, OnDay(keys[0]));
    }
    forall b | b in blocks
      ensures DayOf(b) in byDay
    {
      var j :| 0 <= j < |blocks| && blocks[j] == b;
    }
    if blocks != [] {
      assert DayOf(blocks[0]) in keys;
    }
  }

  /** The state of the loop after the first `n` blocks. */
  ghost predicate Collected(blocks: seq<Block>, n: nat, byDay: map<int, seq<Block>>, keys: seq<int>)
    requires n <= |blocks|
  {
    && (forall d :: d in byDay <==> d in keys)
    && NoDuplicates(keys)
    && (forall d :: d in byDay ==> byDay[d] == Filter(blocks[..n], OnDay(d)) && byDay[d] != [])
    && (forall j :: 0 <= j < n ==> DayOf(blocks[j]) in byDay)
  }

  /** One step of the loop: `blocksByDay[day].push(block)`, creating the day's list first. */
  method AddBlock(blocks: seq<Block>, i: nat, byDay: map<int, seq<Block>>, keys: seq<int>)
    returns (byDay': map<int, seq<Block>>, keys': seq<int>)
    requires i < |blocks|
    requires Collected(blocks, i, byDay, keys)
    ensures Collected(blocks, i + 1, byDay', keys')
  {
    var b := blocks[i];
    var d := DayOf(b);
    if d !in byDay {
      byDay' := byDay[d := [b]];
      keys' := keys + [d];
      NewDay(blocks, i, byDay, keys);
    } else {
      byDay' := byDay[d := byDay[d] + [b]];
      keys' := keys;
      OldDay(blocks, i, byDay, keys);
    }
  }

  /** Pushing onto a day already present keeps the loop's state. */
  lemma OldDay(blocks: seq<Block>, i: nat, byDay: map<int, seq<Block>>, keys: seq<int>)
    requires i < |blocks| && DayOf(blocks[i]) in byDay
    requires Collected(blocks, i, byDay, keys)
    ensures Collected(blocks, i + 1, byDay[DayOf(blocks[i]) := byDay[DayOf(blocks[i])] + [blocks[i]]], keys)
  {
    FilterStep(blocks, i, byDay.Keys);
  }

  /** Appending block `i` extends the filter of its own day and no other. */
  lemma FilterStep(blocks: seq<Block>, i: nat, days: set<int>)
    requires i < |blocks|
    ensures forall e :: e in days ==>
              Filter(blocks[..i + 1], OnDay(e)) ==
              Filter(blocks[..i], OnDay(e)) + (if DayOf(blocks[i]) == e then [blocks[i]] else [])
  {
    forall e | e in days
      ensures Filter(blocks[..i + 1], OnDay(e)) ==
              Filter(blocks[..i], OnDay(e)) + (if DayOf(blocks[i]) == e then [blocks[i]] else [])
    {
      FilterSnoc(blocks, i, OnDay(e));
    }
  }

  /** A day not seen before starts a new list and a new key. */
  lemma NewDay(blocks: seq<Block>, i: nat, byDay: map<int, seq<Block>>, keys: seq<int>)
    requires i < |blocks| && DayOf(blocks[i]) !in byDay
    requires Collected(blocks, i, byDay, keys)
    ensures Collected(blocks, i + 1, byDay[DayOf(blocks[i]) := [blocks[i]]], keys + [DayOf(blocks[i])])
  {
    FilterNone(blocks[..i], OnDay(DayOf(blocks[i])));
    FilterStep(blocks, i, byDay.Keys + {DayOf(blocks[i])});
  }


  // ---------------------------------------------------------------------
  // Requirements formatters

  /** `material.required ? ' (Required)' : ' (Optional)'`; entries without `item` render as ''. */
  function MyLine(m: MaterialItem): (r: Option<MaterialLine>)
    ensures m.Label? ==> r == Some(Plain(m.text))
    ensures m.Entry? && m.item != "" ==> r == Some(Marked(m.item, m.required == Bool(true)))
    ensures m.OtherItem? || (m.Entry? && m.item == "") ==> r.None?
  {
    match m
    case Label(t) => Some(Plain(t))
    case Entry(item, flag) => if item != "" then Some(Marked(item, flag == Bool(true))) else None
    case OtherItem => None
  }

  /** `renderMaterialsList(materials)` of this page, as the lines it shows. */
  function RenderMaterialsList(materials: Materials): (r: seq<MaterialLine>)
    ensures !materials.Items? ==> r == []
    ensures materials.Items? ==> |r| <= |materials.items|
    ensures materials.Items? ==> (r == [] <==> forall i :: 0 <= i < |materials.items| ==> MyLine(materials.items[i]).None?)
    ensures materials.Items? ==>
              forall i :: 0 <= i < |materials.items| && MyLine(materials.items[i]).Some? ==> MyLine(materials.items[i]).value in r
    ensures materials.Items? ==>
              forall j :: 0 <= j < |r| ==> exists i :: 0 <= i < |materials.items| && MyLine(materials.items[i]) == Some(r[j])
  {
    match materials
    case Items(items) => FilterMap(items, MyLine)
    case _ => []
  }

  /** The list shows the lines of its items in their order: those of `a`, then those of `b`. */
  lemma MaterialLinesInOrder(a: seq<MaterialItem>, b: seq<MaterialItem>)
    ensures RenderMaterialsList(Items(a + b)) == RenderMaterialsList(Items(a)) + RenderMaterialsList(Items(b))
  {
    FilterMapAppend(a, b, MyLine);
  }

  /** A single item shows its own line, or nothing when it is dropped. */
  lemma MaterialLineOfOne(m: MaterialItem)
    ensures RenderMaterialsList(Items([m])) == (if MyLine(m).Some? then [MyLine(m).value] else [])
  {
    FilterMapSingle(m, MyLine);
  }

  /**
   * The two pages list materials alike except for entries with no
   * `required` field: start-pathway calls them required, this page optional.
   */
  lemma MaterialListsAgreeWhenFlagged(items: seq<MaterialItem>)
    requires forall i :: 0 <= i < |items| ==> !(items[i].Entry? && items[i].required == Unset)
    ensures RenderMaterialsList(Items(items)) == StartPathway.RenderMaterialsList(Items(items))
  {
    FilterMapAgree(items, MyLine, StartPathway.StartLine);
  }

  /** An unflagged entry: required before starting, optional on this page. */
  lemma MaterialDefaultsDiffer(item: string)
    requires item != ""
    ensures RenderMaterialsList(Items([Entry(item, Unset)])) == [Marked(item, false)]
    ensures StartPathway.RenderMaterialsList(Items([Entry(item, Unset)])) == [Marked(item, true)]
  {
  }

  /** The fields `formatEnvironmentRequirements` reports, in the order it reports them. */
  datatype EnvField = Space | Time | Setup
  {
    /** The label written before the value (`Space: ...`). */
    function Label(): string {
      match this
      case Space => "Space"
      case Time => "Time"
      case Setup => "Setup"
    }

    function Rank(): nat {
      match this
      case Space => 0
      case Time => 1
      case Setup => 2
    }
  }

  /** One labelled part of an environment description. */
  datatype EnvPart = EnvPart(field: EnvField, value: string)

  /**
   * The parts `formatEnvironmentRequirements` builds for an object: one per
   * truthy field, in the order space, time, setup; setup is left out when
   * its minutes are 0.
   */
  function EnvironmentParts(spaceType: TextOrList, timeBasedNeeds: TextOrList, setupMinutes: int): (r: seq<EnvPart>)
    ensures forall j, k :: 0 <= j < k < |r| ==> r[j].field.Rank() < r[k].field.Rank()
    ensures EnvPart(Space, spaceType.Joined(", ")) in r <==> spaceType.Truthy()
    ensures EnvPart(Time, timeBasedNeeds.Joined(", ")) in r <==> timeBasedNeeds.Truthy()
    ensures EnvPart(Setup, IntToString(setupMinutes) + " minutes") in r <==> setupMinutes != 0
    ensures forall p :: p in r ==>
              && (p.field == Space ==> spaceType.Truthy() && p.value == spaceType.Joined(", "))
              && (p.field == Time ==> timeBasedNeeds.Truthy() && p.value == timeBasedNeeds.Joined(", "))
              && (p.field == Setup ==> setupMinutes != 0 && p.value == IntToString(setupMinutes) + " minutes")
    ensures |r| <= 3
  {
    PartsShown(spaceType.Truthy(), spaceType.Joined(", "), timeBasedNeeds.Truthy(), timeBasedNeeds.Joined(", "),
               setupMinutes != 0, IntToString(setupMinutes) + " minutes")
  }

  /** The three optional parts, each given by whether it is shown and its value, in order. */
  function PartsShown(spaceShown: bool, space: string, timeShown: bool, time: string,
                      setupShown: bool, setup: string): (r: seq<EnvPart>)
    ensures forall j, k :: 0 <= j < k < |r| ==> r[j].field.Rank() < r[k].field.Rank()
    ensures EnvPart(Space, space) in r <==> spaceShown
    ensures EnvPart(Time, time) in r <==> timeShown
    ensures EnvPart(Setup, setup) in r <==> setupShown
    ensures forall p :: p in r ==>
              && (p.field == Space ==> spaceShown && p.value == space)
              && (p.field == Time ==> timeShown && p.value == time)
              && (p.field == Setup ==> setupShown && p.value == setup)
    ensures |r| <= 3
  {
    (if spaceShown then [EnvPart(Space, space)] else []) + LaterParts(timeShown, time, setupShown, setup)
  }

  /** The parts after the space part. */
  function LaterParts(timeShown: bool, time: string, setupShown: bool, setup: string): (r: seq<EnvPart>)
    ensures forall j, k :: 0 <= j < k < |r| ==> r[j].field == Time && r[k].field == Setup
    ensures forall p :: p in r ==>
              && p.field != Space
              && (p.field == Time ==> timeShown && p.value == time)
              && (p.field == Setup ==> setupShown && p.value == setup)
    ensures EnvPart(Time, time) in r <==> timeShown
    ensures EnvPart(Setup, setup) in r <==> setupShown
    ensures |r| <= 2
  {
    (if timeShown then [EnvPart(Time, time)] else []) +
    (if setupShown then [EnvPart(Setup, setup)] else [])
  }

  /** `${label}: ${value}` for each part. */
  function PartTexts(parts: seq<EnvPart>): (r: seq<string>)
    ensures |r| == |parts|
    ensures forall k :: 0 <= k < |r| ==> r[k] == parts[k].field.Label() + ": " + parts[k].value
  {
    seq(|parts|, k requires 0 <= k < |parts| => parts[k].field.Label() + ": " + parts[k].value)
  }

  /**
   * `formatEnvironmentRequirements(environment)`, called only with a truthy
   * value: a string as is, an object as its parts joined with " | ", any
   * other value as its JSON text.
   */
  function FormatEnvironment(env: Environment): (r: string)
    requires env.Truthy()
    ensures env.EnvText? ==> r == env.text
    ensures env.EnvOther? ==> r == env.json
    ensures env.EnvObject? ==>
              r == Join(PartTexts(EnvironmentParts(env.spaceType, env.timeBasedNeeds, env.setupEffortMinutes)), " | ")
  {
    match env
    case EnvText(t) => t
    case EnvOther(json) => json
    case EnvObject(space, time, _, setup) =>
      Join(PartTexts(EnvironmentParts(space, time, setup)), " | ")
  }

  /** An object with only setup minutes of 0 and no other truthy field formats as "". */
  lemma EmptyEnvironmentObject(mobility: TextOrList)
    ensures FormatEnvironment(EnvObject(Absent, Text(""), mobility, 0)) == ""
  {
  }

  // ---------------------------------------------------------------------
  // Completed days

  /** The key of the pathway_completed_days table. */
  datatype DayKey = DayKey(assignmentId: AssignmentId, dayNumber: int)

  /** The rest of a completed-days row. */
  datatype Completion = Completion(userId: UserId, completedAt: Timestamp)

  /** The completed days of one assignment: `completedDays.map(cd => cd.day_number)`. */
  function CompletedDaysOf(table: map<DayKey, Completion>, assignmentId: AssignmentId): set<int> {
    set k | k in table && k.assignmentId == assignmentId :: k.dayNumber
  }

  /** The table after a successful upsert (`isComplete`) or delete of one key. */
  function AfterMark(table: map<DayKey, Completion>, key: DayKey, isComplete: bool, user: UserId, now: Timestamp): (r: map<DayKey, Completion>)
    ensures isComplete ==> key in r && r[key] == Completion(user, now)
    ensures !isComplete ==> key !in r
    ensures forall k :: k != key ==> (k in r <==> k in table)
    ensures forall k :: k != key && k in r ==> r[k] == table[k]
  {
    if isComplete then table[key := Completion(user, now)] else table - {key}
  }

  /** Marking a day complete twice leaves the one row of the second time. */
  lemma MarkTwice(table: map<DayKey, Completion>, key: DayKey, user: UserId, t1: Timestamp, t2: Timestamp)
    ensures AfterMark(AfterMark(table, key, true, user, t1), key, true, user, t2) == AfterMark(table, key, true, user, t2)
  {
  }

  /** Unmarking a day that is not marked changes nothing. */
  lemma UnmarkAbsent(table: map<DayKey, Completion>, key: DayKey, user: UserId, now: Timestamp)
    requires key !in table
    ensures AfterMark(table, key, false, user, now) == table
  {
  }

  /** For the assignment's own day set, marking adds the day and unmarking removes it. */
  lemma MarkChangesDaySet(table: map<DayKey, Completion>, assignmentId: AssignmentId, day: int,
                          isComplete: bool, user: UserId, now: Timestamp)
    ensures CompletedDaysOf(AfterMark(table, DayKey(assignmentId, day), isComplete, user, now), assignmentId) ==
            if isComplete then CompletedDaysOf(table, assignmentId) + {day}
            else CompletedDaysOf(table, assignmentId) - {day}
  {
    var after := AfterMark(table, DayKey(assignmentId, day), isComplete, user, now);
    var lhs := CompletedDaysOf(after, assignmentId);
    var rhs := if isComplete then CompletedDaysOf(table, assignmentId) + {day}
               else CompletedDaysOf(table, assignmentId) - {day};
    forall d ensures d in lhs <==> d in rhs {
      if d != day {
        var k := DayKey(assignmentId, d);
        assert d in lhs <==> k in after;
        assert d in CompletedDaysOf(table, assignmentId) <==> k in table;
      } else if isComplete {
        assert DayKey(assignmentId, day) in after;
      }
    }
  }

  /** Marking days of one assignment leaves every other assignment's days as they were. */
  lemma MarkKeepsOtherAssignments(table: map<DayKey, Completion>, key: DayKey, isComplete: bool,
                                  user: UserId, now: Timestamp, other: AssignmentId)
    requires other != key.assignmentId
    ensures CompletedDaysOf(AfterMark(table, key, isComplete, user, now), other) == CompletedDaysOf(table, other)
  {
    var after := AfterMark(table, key, isComplete, user, now);
    forall d ensures d in CompletedDaysOf(after, other) <==> d in CompletedDaysOf(table, other) {
      var k := DayKey(other, d);
      assert d in CompletedDaysOf(after, other) <==> k in after;
      assert d in CompletedDaysOf(table, other) <==> k in table;
    }
  }

  /** What `markDayComplete` did. */
  datatype MarkOutcome =
    | NoUser            // no session: returned without touching the table
    | Done              // the upsert or delete went through
    | Failed(message: string) // the store refused; the error is rethrown

  /** The pathway_completed_days table. */
  class CompletedDaysTable {
    var rows: map<DayKey, Completion>

    constructor(initial: map<DayKey, Completion>)
      ensures rows == initial
    {
      rows := initial;
    }

    /**
     * `markDayComplete(assignmentId, dayNumber, isComplete)`: upsert on the
     * key (assignment_id, day_number) when complete, delete it otherwise; a
     * delete of a missing key is no error.
     */
    method MarkDayComplete(assignmentId: AssignmentId, dayNumber: int, isComplete: bool,
                           sessionUser: Option<UserId>, storeError: Option<string>, now: Timestamp)
      returns (out: MarkOutcome)
      modifies this
      ensures sessionUser.None? ==> out == NoUser && rows == old(rows)
      ensures sessionUser.Some? && storeError.Some? ==> out == Failed(storeError.value) && rows == old(rows)
      ensures sessionUser.Some? && storeError.None? ==>
                out == Done && rows == AfterMark(old(rows), DayKey(assignmentId, dayNumber), isComplete, sessionUser.value, now)
    {
      if sessionUser.None? {
        return NoUser;
      }
      if storeError.Some? {
        return Failed(storeError.value);
      }
      var key := DayKey(assignmentId, dayNumber);
      if isComplete {
        rows := rows[key := Completion(sessionUser.value, now)];
      } else {
        rows := rows - {key};
      }
      out := Done;
    }
  }

  // ---------------------------------------------------------------------
  // Fetching and rendering the page

  /** One assignment with its joined pathway (None when the join is empty) and its completed days. */
  datatype AssignmentView = AssignmentView(assignment: Assignment, pathway: Option<PathwayRow>, completedDays: set<int>)

  /** `order('started_at', { ascending: false })`: later starts first. */
  predicate StartedLater(a: Assignment, b: Assignment) {
    a.startedAt >= b.startedAt
  }

  function AssignmentsOf(views: seq<AssignmentView>): (r: seq<Assignment>)
    ensures |r| == |views|
    ensures forall i :: 0 <= i < |r| ==> r[i] == views[i].assignment
  {
    seq(|views|, i requires 0 <= i < |views| => views[i].assignment)
  }

  /**
   * `fetchMyPathways()`: the session user's active assignments, latest
   * start first, each with its pathway and its completed days. Each
   * assignment's completed-days query runs on its own: `failedDayQueries`
   * names the assignments whose query fails, and those get the empty set.
   */
  function FetchMyPathways(sessionUser: Option<UserId>, table: seq<Assignment>,
                           pathways: map<PathwayId, PathwayRow>, completed: map<DayKey, Completion>,
                           queryError: Option<string>, failedDayQueries: set<AssignmentId>): (r: Result<seq<AssignmentView>>)
    ensures sessionUser.None? ==> r == Err("User not authenticated")
    ensures sessionUser.Some? && queryError.Some? ==> r == Err(queryError.value)
    ensures r.Ok? <==> sessionUser.Some? && queryError.None?
    ensures r.Ok? ==> multiset(AssignmentsOf(r.value)) == multiset(Filter(table, PathwayAuth.ActiveOf(sessionUser.value)))
    ensures r.Ok? ==> Sorted(AssignmentsOf(r.value), StartedLater)
    ensures r.Ok? ==> forall v :: v in r.value ==>
              v.completedDays == (if v.assignment.assignmentId in failedDayQueries then {}
                                  else CompletedDaysOf(completed, v.assignment.assignmentId)) &&
              v.pathway == (if v.assignment.pathwayId in pathways then Some(pathways[v.assignment.pathwayId]) else None)
  {
    if sessionUser.None? then Err("User not authenticated")
    else if queryError.Some? then Err(queryError.value)
    else
      var mine := Filter(table, PathwayAuth.ActiveOf(sessionUser.value));
      assert TotalPreorder(StartedLater);
      InsertionSortPermutation(mine, StartedLater);
      InsertionSortSorted(mine, StartedLater);
      var sorted := InsertionSort(mine, StartedLater);
      var views := seq(|sorted|, i requires 0 <= i < |sorted| =>
        AssignmentView(sorted[i],
                       if sorted[i].pathwayId in pathways then Some(pathways[sorted[i].pathwayId]) else None,
                       if sorted[i].assignmentId in failedDayQueries then {}
                       else CompletedDaysOf(completed, sorted[i].assignmentId)));
      assert AssignmentsOf(views) == sorted;
      Ok(views)
  }

  /**
   * As written, `fetchMyPathways` reads the session user through
   * `Auth.DestructuredUser`, which never yields one, so the page always
   * fails with "User not authenticated"; read as intended it lists the
   * session user's assignments.
   */
  lemma FetchAsWrittenFails(resp: Auth.SessionResponse, u: UserId, table: seq<Assignment>,
                            pathways: map<PathwayId, PathwayRow>, completed: map<DayKey, Completion>,
                            failedDayQueries: set<AssignmentId>)
    ensures FetchMyPathways(Auth.DestructuredUser(resp), table, pathways, completed, None, failedDayQueries)
            == Err("User not authenticated")
    ensures FetchMyPathways(Auth.SessionUser(Auth.SessionResponse(Some(Auth.Session(u)))), table, pathways, completed,
                            None, failedDayQueries).Ok?
  {
  }

  /** The figures and day groups one pathway item of `renderMyPathways` shows. */
  datatype AssignmentCard = AssignmentCard(
    assignmentId: AssignmentId,
    title: string,
    status: string,
    percent: int,
    completedCount: nat,
    totalDays: int,
    groups: seq<DayGroup>)

  /**
   * The body of `renderMyPathways` for one assignment: nothing without a
   * pathway; otherwise the blocks are sorted in place, the progress is
   * derived from the day numbers and the completed days, and the blocks are
   * grouped by day.
   */
  method RenderAssignment(view: AssignmentView) returns (card: Option<AssignmentCard>)
    ensures card.None? <==> view.pathway.None?
    ensures card.Some? ==>
              card.value.totalDays == TotalDays(view.pathway.value.blocks) &&
              card.value.completedCount == |view.completedDays| &&
              card.value.percent == CompletionPercent(|view.completedDays|, TotalDays(view.pathway.value.blocks)) &&
              IsDayGrouping(SortedBlocks(view.pathway.value.blocks), view.completedDays, card.value.groups)
  {
    if view.pathway.None? {
      return None;
    }
    var p := view.pathway.value;
    var a := new Block[|p.blocks|](i requires 0 <= i < |p.blocks| => p.blocks[i]);
    assert a[..] == p.blocks;
    SortBlocks(a);
    var sorted := a[..];
    assert forall b :: b in sorted <==> b in p.blocks by {
      assert forall b :: b in sorted <==> b in multiset(sorted);
      assert forall b :: b in p.blocks <==> b in multiset(p.blocks);
    }
    TotalDaysSameBlocks(sorted, p.blocks);
    var total := TotalDays(sorted);
    var count := |view.completedDays|;
    var groups := GroupBlocksByDay(sorted, view.completedDays);
    card := Some(AssignmentCard(view.assignment.assignmentId, p.title, view.assignment.status,
                                CompletionPercent(count, total), count, total, groups));
  }
}
