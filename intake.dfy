/**
 * The intake-form web app (google-apps-script.js): `doPost` parses the
 * submitted JSON, looks up the target sheet, classifies every header of the
 * sheet's first row into a form field, and appends one row with a cell per
 * header. The spreadsheet service, JSON parsing and the clock are inputs.
 */
module Intake {
  import opened Common

  /** The tab the app writes to. */
  const SHEET_NAME := "Sheet1"

  // ---------------------------------------------------------------------
  // Header normalisation: `header.toString().toLowerCase().trim()`

  /** The lower-case form of an ASCII letter; every other character is kept. */
  function LowerChar(c: char): (d: char)
    ensures 'A' <= c <= 'Z' ==> d as int == c as int + 32
    ensures !('A' <= c <= 'Z') ==> d == c
  {
    if 'A' <= c <= 'Z' then (c as int + 32) as char else c
  }

  /** `toLowerCase()` on the ASCII letters. */
  function ToLower(s: string): (r: string)
    ensures |r| == |s|
    ensures forall i :: 0 <= i < |s| ==> r[i] == LowerChar(s[i])
  {
    seq(|s|, i requires 0 <= i < |s| => LowerChar(s[i]))
  }

  /** The characters `String.prototype.trim` removes (white space and line terminators). */
  predicate IsSpace(c: char) {
    || c == '\t' || c == '\n' || c == '\U{000B}' || c == '\U{000C}' || c == '\r' || c == ' '
    || c == '\U{00A0}' || c == '\U{1680}' || ('\U{2000}' <= c <= '\U{200A}')
    || c == '\U{2028}' || c == '\U{2029}' || c == '\U{202F}' || c == '\U{205F}'
    || c == '\U{3000}' || c == '\U{FEFF}'
  }

  /** Drops the leading white space. */
  function TrimStart(s: string): (r: string)
    ensures |r| <= |s| && r == s[|s| - |r|..]
    ensures forall k :: 0 <= k < |s| - |r| ==> IsSpace(s[k])
    ensures r != [] ==> !IsSpace(r[0])
    decreases |s|
  {
    if s != [] && IsSpace(s[0]) then
      var r := TrimStart(s[1..]);
      assert forall k :: 1 <= k < |s| ==> s[k] == s[1..][k - 1];
      r
    else s
  }

  /** Drops the trailing white space. */
  function TrimEnd(s: string): (r: string)
    ensures |r| <= |s| && r == s[..|r|]
    ensures forall k :: |r| <= k < |s| ==> IsSpace(s[k])
    ensures r != [] ==> !IsSpace(r[|r| - 1])
    decreases |s|
  {
    if s != [] && IsSpace(s[|s| - 1]) then
      var r := TrimEnd(s[..|s| - 1]);
      assert forall k :: 0 <= k < |s| - 1 ==> s[k] == s[..|s| - 1][k];
      r
    else s
  }

  /** The number of white-space characters `trim()` removes at the start. */
  function Leading(s: string): (n: nat)
    ensures n <= |s|
  {
    |s| - |TrimStart(s)|
  }

  /** `trim()`: white space removed at both ends. */
  function Trim(s: string): (r: string)
    ensures Leading(s) + |r| <= |s|
    ensures r == s[Leading(s)..Leading(s) + |r|]
    ensures forall k :: 0 <= k < Leading(s) ==> IsSpace(s[k])
    ensures forall k :: Leading(s) + |r| <= k < |s| ==> IsSpace(s[k])
    ensures r != [] ==> !IsSpace(r[0]) && !IsSpace(r[|r| - 1])
  {
    TrimEnd(TrimStart(s))
  }

  /** The header as the classifier sees it. */
  function Normalize(header: string): string {
    Trim(ToLower(header))
  }

  /** Lower-casing twice is lower-casing once. */
  lemma ToLowerIdempotent(s: string)
    ensures ToLower(ToLower(s)) == ToLower(s)
  {
  }

  /** A string every character of which is already lower-cased is left as it is. */
  lemma ToLowerOfLowered(s: string, t: string, i: int)
    requires 0 <= i <= |s| - |t| && t == ToLower(s)[i..i + |t|]
    ensures ToLower(t) == t
  {
  }

  /** A trimmed string is trimmed. */
  lemma TrimIdempotent(s: string)
    ensures Trim(Trim(s)) == Trim(s)
  {
    var r := Trim(s);
    assert TrimStart(r) == r;
    assert TrimEnd(r) == r;
  }

  /** Normalising a normalised header changes nothing. */
  lemma NormalizeIdempotent(h: string)
    ensures Normalize(Normalize(h)) == Normalize(h)
  {
    var l := ToLower(h);
    var n := Trim(l);
    ToLowerOfLowered(h, n, Leading(l));
    TrimIdempotent(l);
    calc {
      Normalize(n);
      Trim(ToLower(n));
      Trim(n);
      n;
    }
  }

  /** Leading white space never changes the normalised header. */
  lemma NormalizeIgnoresLeadingSpace(c: char, h: string)
    requires IsSpace(c)
    ensures Normalize([c] + h) == Normalize(h)
  {
    var l := ToLower(h);
    assert ToLower([c] + h) == [c] + l;
    assert ([c] + l)[1..] == l;
    assert TrimStart([c] + l) == TrimStart(l);
  }

  /** Trailing white space never changes the normalised header. */
  lemma NormalizeIgnoresTrailingSpace(h: string, c: char)
    requires IsSpace(c)
    ensures Normalize(h + [c]) == Normalize(h)
  {
    var l := ToLower(h);
    assert ToLower(h + [c]) == l + [c];
    var t := TrimStart(l + [c]);
    if TrimStart(l) == [] {
      TrimStartAllSpace(l, c);
    } else {
      TrimStartAppend(l, c);
      assert TrimStart(l + [c]) == TrimStart(l) + [c];
      assert (TrimStart(l) + [c])[..|TrimStart(l)|] == TrimStart(l);
    }
  }

  /** When `s` is all white space, so is `s + [c]` for a white-space `c`. */
  lemma {:induction false} TrimStartAllSpace(s: string, c: char)
    requires IsSpace(c) && TrimStart(s) == []
    ensures TrimStart(s + [c]) == []
    decreases |s|
  {
    if s != [] {
      assert (s + [c])[1..] == s[1..] + [c];
      TrimStartAllSpace(s[1..], c);
    }
  }

  /** Appending after a string that keeps some text appends after its trimmed start. */
  lemma {:induction false} TrimStartAppend(s: string, c: char)
    requires TrimStart(s) != []
    ensures TrimStart(s + [c]) == TrimStart(s) + [c]
    decreases |s|
  {
    if IsSpace(s[0]) {
      assert (s + [c])[1..] == s[1..] + [c];
      TrimStartAppend(s[1..], c);
    }
  }

  // ---------------------------------------------------------------------
  // Substrings

  /** `t` occurs in `s` at position `i`. */
  predicate At(s: string, t: string, i: int) {
    0 <= i <= |s| - |t| && s[i..i + |t|] == t
  }

  /** `s.includes(t)`: `t` starts `s`, or occurs in `s` after its first character. */
  predicate Contains(s: string, t: string)
    decreases |s|
  {
    |t| <= |s| && (s[..|t|] == t || Contains(s[1..], t))
  }

  /** `includes` finds exactly the positions where the pattern occurs. */
  lemma {:induction false} ContainsIffAt(s: string, t: string)
    ensures Contains(s, t) <==> exists i :: 0 <= i <= |s| - |t| && At(s, t, i)
    decreases |s|
  {
    if |t| <= |s| {
      if s[..|t|] == t {
        assert At(s, t, 0);
      } else {
        ContainsIffAt(s[1..], t);
        if Contains(s[1..], t) {
          var i :| 0 <= i <= |s| - 1 - |t| && At(s[1..], t, i);
          assert s[1..][i..i + |t|] == s[i + 1..i + 1 + |t|];
          assert At(s, t, i + 1);
        }
        if exists i :: 0 <= i <= |s| - |t| && At(s, t, i) {
          var i :| 0 <= i <= |s| - |t| && At(s, t, i);
          assert i != 0;
          assert s[1..][i - 1..i - 1 + |t|] == s[i..i + |t|];
          assert At(s[1..], t, i - 1);
        }
      }
    }
  }

  /** A string includes itself: the `=== 'x'` tests add nothing to `includes('x')`. */
  lemma ContainsSelf(s: string)
    ensures Contains(s, s)
  {
    assert s[..|s|] == s;
  }

  /** Inclusion is transitive. */
  lemma ContainsTransitive(s: string, t: string, u: string)
    requires Contains(s, t) && Contains(t, u)
    ensures Contains(s, u)
  {
    ContainsIffAt(s, t);
    ContainsIffAt(t, u);
    ContainsIffAt(s, u);
    var i :| 0 <= i <= |s| - |t| && At(s, t, i);
    var j :| 0 <= j <= |t| - |u| && At(t, u, j);
    forall k | 0 <= k < |u| ensures s[i + j..i + j + |u|][k] == u[k] {
      assert u[k] == t[j + k] == s[i..i + |t|][j + k];
    }
    assert At(s, u, i + j);
  }

  /** A longer pattern that ends with a shorter one is subsumed by it. */
  lemma ContainsSuffix(s: string, long: string, short: string)
    requires |short| <= |long| && long[|long| - |short|..] == short
    requires Contains(s, long)
    ensures Contains(s, short)
  {
    assert At(long, short, |long| - |short|);
    ContainsIffAt(long, short);
    ContainsTransitive(s, long, short);
  }

  /** A longer pattern that starts with a shorter one is subsumed by it. */
  lemma ContainsPrefix(s: string, long: string, short: string)
    requires |short| <= |long| && long[..|short|] == short
    requires Contains(s, long)
    ensures Contains(s, short)
  {
    assert long[..|short|] == short;
    ContainsTransitive(s, long, short);
  }

  // ---------------------------------------------------------------------
  // Classification

  /** The form fields a column can receive. */
  datatype Field =
    | Name | Email | Phone | DateOfBirth | TimeOfBirth | PlaceOfBirth
    | Area | Unclear | SessionType | Duration | Package | Submitted | Unmatched

  /** The if/else-if chain of `doPost`, on a normalised header, with all its tests. */
  function ClassifyAsWritten(n: string): Field {
    if Contains(n, "name") || n == "name" then Name
    else if Contains(n, "email") || n == "email" then Email
    else if Contains(n, "phone") || n == "phone" || Contains(n, "phone number") then Phone
    else if Contains(n, "date of birth") || Contains(n, "dob") || Contains(n, "birth date") then DateOfBirth
    else if Contains(n, "time of birth") || Contains(n, "tob") || Contains(n, "birth time") then TimeOfBirth
    else if Contains(n, "place of birth") || Contains(n, "pob") || Contains(n, "birth place") then PlaceOfBirth
    else if Contains(n, "area") || Contains(n, "primary area") || Contains(n, "guidance") then Area
    else if Contains(n, "unclear") || Contains(n, "what feels") || Contains(n, "question") then Unclear
    else if Contains(n, "session type") || Contains(n, "type") || Contains(n, "audio/video") then SessionType
    else if Contains(n, "duration") || Contains(n, "minutes") then Duration
    else if Contains(n, "package") || Contains(n, "is package") then Package
    else if Contains(n, "timestamp") || Contains(n, "date submitted") || Contains(n, "submitted") then Submitted
    else Unmatched
  }

  /** One rule of the chain: the field a header receives when it includes any of the patterns. */
  datatype Rule = Rule(patterns: seq<string>, field: Field)

  /**
   * The rules in the order the chain tries them, each with only the patterns
   * that are not included in another pattern of the same rule.
   */
  const RULES: seq<Rule> := [
    Rule(["name"], Name),
    Rule(["email"], Email),
    Rule(["phone"], Phone),
    Rule(["date of birth", "dob", "birth date"], DateOfBirth),
    Rule(["time of birth", "tob", "birth time"], TimeOfBirth),
    Rule(["place of birth", "pob", "birth place"], PlaceOfBirth),
    Rule(["area", "guidance"], Area),
    Rule(["unclear", "what feels", "question"], Unclear),
    Rule(["type", "audio/video"], SessionType),
    Rule(["duration", "minutes"], Duration),
    Rule(["package"], Package),
    Rule(["timestamp", "submitted"], Submitted)
  ]

  /** Whether a normalised header includes one of the rule's patterns. */
  predicate Matches(r: Rule, n: string) {
    exists k :: 0 <= k < |r.patterns| && Contains(n, r.patterns[k])
  }

  /** The field of the first rule from `from` on that the header matches. */
  function FirstMatch(rules: seq<Rule>, n: string, from: nat): Field
    requires from <= |rules|
    decreases |rules| - from
  {
    if from == |rules| then Unmatched
    else if Matches(rules[from], n) then rules[from].field
    else FirstMatch(rules, n, from + 1)
  }

  /**
   * First match wins: the result is the field of the first rule the header
   * matches, or Unmatched when it matches none.
   */
  lemma {:induction false} FirstMatchWins(rules: seq<Rule>, n: string, from: nat)
    requires from <= |rules|
    requires forall k :: 0 <= k < |rules| ==> rules[k].field != Unmatched
    ensures FirstMatch(rules, n, from) == Unmatched <==> forall k :: from <= k < |rules| ==> !Matches(rules[k], n)
    ensures FirstMatch(rules, n, from) != Unmatched ==>
              exists k :: from <= k < |rules| && Matches(rules[k], n) &&
                          FirstMatch(rules, n, from) == rules[k].field &&
                          forall j :: from <= j < k ==> !Matches(rules[j], n)
    decreases |rules| - from
  {
    if from == |rules| {
    } else if Matches(rules[from], n) {
      assert FirstMatch(rules, n, from) == rules[from].field;
    } else {
      FirstMatchWins(rules, n, from + 1);
      assert FirstMatch(rules, n, from) == FirstMatch(rules, n, from + 1);
    }
  }

  /** The field a sheet header receives. */
  function Classify(header: string): Field {
    ClassifyAsWritten(Normalize(header))
  }

  /** The chain agrees with the rules table, tried in order with the first match winning. */
  lemma ClassifyIsFirstMatch(n: string)
    ensures ClassifyAsWritten(n) == FirstMatch(RULES, n, 0)
  {
    RedundantTests(n);
    ContactRules(n);
    BirthRules(n);
    TopicRules(n);
    BookingRules(n);
  }

  /** The tests the table leaves out are each implied by a shorter pattern of the same rule. */
  lemma RedundantTests(n: string)
    ensures n == "name" ==> Contains(n, "name")
    ensures n == "email" ==> Contains(n, "email")
    ensures n == "phone" ==> Contains(n, "phone")
    ensures Contains(n, "phone number") ==> Contains(n, "phone")
    ensures Contains(n, "primary area") ==> Contains(n, "area")
    ensures Contains(n, "session type") ==> Contains(n, "type")
    ensures Contains(n, "is package") ==> Contains(n, "package")
    ensures Contains(n, "date submitted") ==> Contains(n, "submitted")
  {
    ContainsSelf(n);
    if Contains(n, "phone number") { ContainsPrefix(n, "phone number", "phone"); }
    if Contains(n, "primary area") { ContainsSuffix(n, "primary area", "area"); }
    if Contains(n, "session type") { ContainsSuffix(n, "session type", "type"); }
    if Contains(n, "is package") { ContainsSuffix(n, "is package", "package"); }
    if Contains(n, "date submitted") { ContainsSuffix(n, "date submitted", "submitted"); }
  }

  /** Rules 0 to 2 of the table: name, email, phone. */
  lemma ContactRules(n: string)
    ensures FirstMatch(RULES, n, 0) ==
            if Contains(n, "name") then Name
            else if Contains(n, "email") then Email
            else if Contains(n, "phone") then Phone
            else FirstMatch(RULES, n, 3)
  {
    Matches1(RULES[0], n, "name");
    Matches1(RULES[1], n, "email");
    Matches1(RULES[2], n, "phone");
  }

  /** Rules 3 to 5 of the table: the birth details. */
  lemma BirthRules(n: string)
    ensures FirstMatch(RULES, n, 3) ==
            if Contains(n, "date of birth") || Contains(n, "dob") || Contains(n, "birth date") then DateOfBirth
            else if Contains(n, "time of birth") || Contains(n, "tob") || Contains(n, "birth time") then TimeOfBirth
            else if Contains(n, "place of birth") || Contains(n, "pob") || Contains(n, "birth place") then PlaceOfBirth
            else FirstMatch(RULES, n, 6)
  {
    Matches3(RULES[3], n, "date of birth", "dob", "birth date");
    Matches3(RULES[4], n, "time of birth", "tob", "birth time");
    Matches3(RULES[5], n, "place of birth", "pob", "birth place");
  }

  /** Rules 6 to 8 of the table: area, unclear, session type. */
  lemma TopicRules(n: string)
    ensures FirstMatch(RULES, n, 6) ==
            if Contains(n, "area") || Contains(n, "guidance") then Area
            else if Contains(n, "unclear") || Contains(n, "what feels") || Contains(n, "question") then Unclear
            else if Contains(n, "type") || Contains(n, "audio/video") then SessionType
            else FirstMatch(RULES, n, 9)
  {
    Matches2(RULES[6], n, "area", "guidance");
    Matches3(RULES[7], n, "unclear", "what feels", "question");
    Matches2(RULES[8], n, "type", "audio/video");
  }

  /** Rules 9 to 11 of the table: duration, package, submission time. */
  lemma BookingRules(n: string)
    ensures FirstMatch(RULES, n, 9) ==
            if Contains(n, "duration") || Contains(n, "minutes") then Duration
            else if Contains(n, "package") then Package
            else if Contains(n, "timestamp") || Contains(n, "submitted") then Submitted
            else Unmatched
  {
    Matches2(RULES[9], n, "duration", "minutes");
    Matches1(RULES[10], n, "package");
    Matches2(RULES[11], n, "timestamp", "submitted");
  }

  lemma Matches1(r: Rule, n: string, a: string)
    requires r.patterns == [a]
    ensures Matches(r, n) <==> Contains(n, a)
  {
    if Contains(n, a) { assert Contains(n, r.patterns[0]); }
  }

  lemma Matches2(r: Rule, n: string, a: string, b: string)
    requires r.patterns == [a, b]
    ensures Matches(r, n) <==> Contains(n, a) || Contains(n, b)
  {
    if Contains(n, a) { assert Contains(n, r.patterns[0]); }
    if Contains(n, b) { assert Contains(n, r.patterns[1]); }
  }

  lemma Matches3(r: Rule, n: string, a: string, b: string, c: string)
    requires r.patterns == [a, b, c]
    ensures Matches(r, n) <==> Contains(n, a) || Contains(n, b) || Contains(n, c)
  {
    if Contains(n, a) { assert Contains(n, r.patterns[0]); }
    if Contains(n, b) { assert Contains(n, r.patterns[1]); }
    if Contains(n, c) { assert Contains(n, r.patterns[2]); }
  }

  /**
   * Whatever surrounds it, a header that includes "name" is a name column:
   * "username" and "session type name" included, as the name rule comes first.
   */
  lemma NameAnywhere(before: string, after: string)
    ensures ClassifyAsWritten(before + "name" + after) == Name
  {
    var n := before + "name" + after;
    assert n[|before|..|before| + 4] == "name";
    assert At(n, "name", |before|);
    ContainsIffAt(n, "name");
  }

  /** Case and surrounding white space never change the classification. */
  lemma ClassifyIgnoresCaseAndSpace(h: string, c: char)
    requires IsSpace(c)
    ensures Classify(ToLower(h)) == Classify(h)
    ensures Classify([c] + h) == Classify(h) && Classify(h + [c]) == Classify(h)
  {
    ToLowerIdempotent(h);
    NormalizeIgnoresLeadingSpace(c, h);
    NormalizeIgnoresTrailingSpace(h, c);
  }

  // ---------------------------------------------------------------------
  // The row

  /** The parsed request body; a missing or falsy field is ''. */
  datatype IntakeData = IntakeData(
    name: string, email: string, phone: string, dob: string, tob: string, pob: string,
    area: string, unclear: string, sessionType: string, duration: string, isPackage: bool)

  /** A cell of the appended row: text, or the submission instant (`new Date()`). */
  datatype Cell = TextCell(text: string) | DateCell(instant: int)

  /** The value written under a column of the given field. */
  function CellFor(f: Field, data: IntakeData, now: int): (c: Cell)
    ensures f == Package ==> c == TextCell(if data.isPackage then "Yes" else "No")
    ensures f == Unmatched ==> c == TextCell("")
    ensures c.DateCell? <==> f == Submitted
    ensures c.DateCell? ==> c.instant == now
  {
    match f
    case Name => TextCell(data.name)
    case Email => TextCell(data.email)
    case Phone => TextCell(data.phone)
    case DateOfBirth => TextCell(data.dob)
    case TimeOfBirth => TextCell(data.tob)
    case PlaceOfBirth => TextCell(data.pob)
    case Area => TextCell(data.area)
    case Unclear => TextCell(data.unclear)
    case SessionType => TextCell(data.sessionType)
    case Duration => TextCell(data.duration)
    case Package => TextCell(if data.isPackage then "Yes" else "No")
    case Submitted => DateCell(now)
    case Unmatched => TextCell("")
  }

  /** `headers.map(...)`: the row in the order of the headers. */
  function BuildRow(headers: seq<string>, data: IntakeData, now: int): (row: seq<Cell>)
    ensures |row| == |headers|
    ensures forall i :: 0 <= i < |headers| ==> row[i] == CellFor(Classify(headers[i]), data, now)
  {
    seq(|headers|, i requires 0 <= i < |headers| => CellFor(Classify(headers[i]), data, now))
  }

  /** A cell depends on its own header only: equal headers anywhere give equal cells. */
  lemma CellDependsOnItsHeader(h1: seq<string>, h2: seq<string>, i: nat, j: nat, data: IntakeData, now: int)
    requires i < |h1| && j < |h2| && h1[i] == h2[j]
    ensures BuildRow(h1, data, now)[i] == BuildRow(h2, data, now)[j]
  {
  }

  /** An unrecognised column stays empty. */
  lemma UnmatchedColumnIsEmpty(headers: seq<string>, i: nat, data: IntakeData, now: int)
    requires i < |headers| && Classify(headers[i]) == Unmatched
    ensures BuildRow(headers, data, now)[i] == TextCell("")
  {
  }

  // ---------------------------------------------------------------------
  // The sheet and the request

  /** A sheet: its first row of headers and the rows appended below it. */
  class Sheet {
    /** The first row, one entry per column up to the last column in use. */
    var headers: seq<string>
    var rows: seq<seq<Cell>>

    constructor(headers: seq<string>)
      ensures this.headers == headers && rows == []
    {
      this.headers := headers;
      rows := [];
    }

    /** `sheet.appendRow(row)`. */
    method AppendRow(row: seq<Cell>)
      modifies this
      ensures rows == old(rows) + [row] && headers == old(headers)
    {
      rows := rows + [row];
    }
  }

  /** Why a request failed. */
  datatype Failure =
    | ParseFailed(error: string)      // `JSON.parse` threw
    | SheetNotFound(name: string)     // "Sheet not found: " + SHEET_NAME
    | NoColumns                       // `getRange` with zero columns throws

  /** The JSON response of `doPost`. */
  datatype Response = Success(message: string) | Error(failure: Failure)

  /**
   * `doPost(e)`: `body` is the outcome of parsing the request, `sheet` the
   * tab `getSheetByName` found (null when there is none) and `now` the clock.
   */
  method DoPost(body: Result<IntakeData>, sheet: Sheet?, now: int) returns (resp: Response)
    modifies sheet
    ensures body.Err? ==> resp == Error(ParseFailed(body.message))
    ensures body.Ok? && sheet == null ==> resp == Error(SheetNotFound(SHEET_NAME))
    ensures resp.Success? <==> body.Ok? && sheet != null && |sheet.headers| > 0
    ensures resp.Success? ==> resp.message == "Data added successfully"
    ensures sheet != null && resp.Success? ==>
              sheet.rows == old(sheet.rows) + [BuildRow(sheet.headers, body.value, now)]
    ensures sheet != null && !resp.Success? ==> sheet.rows == old(sheet.rows)
    ensures sheet != null ==> sheet.headers == old(sheet.headers)
  {
    if body.Err? {
      return Error(ParseFailed(body.message));
    }
    if sheet == null {
      return Error(SheetNotFound(SHEET_NAME));
    }
    if |sheet.headers| == 0 {
      return Error(NoColumns);
    }
    var row := BuildRow(sheet.headers, body.value, now);
    sheet.AppendRow(row);
    resp := Success("Data added successfully");
  }
}
