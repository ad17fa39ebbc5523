/**
  The semantic canonicalizer: a path-sensitive recursive normalizer that sorts the arrays known to be
  sets, trims the strings known to be semantic and drops derived text whose structured source can be
  trusted. Array elements share the path of their array.
 */
module Canonical {
  import opened Json

  datatype Profile = Exact | CourseSemantic | SectionSemantic

  type Path = seq<string>

  // ----- Trimming -----

  /** The Unicode White_Space property. */
  predicate WhiteSpace(c: char) {
    var n := c as int;
    || 0x09 <= n <= 0x0D || n == 0x20 || n == 0x85 || n == 0xA0 || n == 0x1680
    || 0x2000 <= n <= 0x200A || n == 0x2028 || n == 0x2029 || n == 0x202F || n == 0x205F || n == 0x3000
  }

  function TrimStart(s: string): string {
    if s != "" && WhiteSpace(s[0]) then TrimStart(s[1..]) else s
  }

  function TrimEnd(s: string): string {
    if s != "" && WhiteSpace(s[|s| - 1]) then TrimEnd(s[..|s| - 1]) else s
  }

  function Trim(s: string): string {
    TrimEnd(TrimStart(s))
  }

  predicate Blank(s: string) {
    Trim(s) == ""
  }

  // ----- What the profiles know -----

  const COURSE_STRINGS: set<string> := {
    "campusCode", "courseDescription", "courseFee", "courseFeeDescr", "courseNotes", "courseNumber", "courseString",
    "expandedTitle", "level", "mainCampus", "offeringUnitCode", "offeringUnitTitle", "preReqNotes", "subject",
    "subjectDescription", "subjectGroupNotes", "subjectNotes", "supplementCode", "synopsisUrl", "title", "unitNotes"
  }

  const SECTION_STRINGS: set<string> := {
    "campusCode", "commentsText", "crossListedSectionsText", "crossListedSectionType", "examCode", "examCodeText",
        "index",
    "instructorsText", "legendKey", "number", "openStatusText", "openToText", "printed", "sectionCourseType",
    "sectionEligibility", "sectionNotes", "sessionDatePrintIndicator", "sessionDates", "specialPermissionAddCode",
    "specialPermissionAddCodeDescription", "specialPermissionDropCode", "specialPermissionDropCodeDescription",
    "subtitle", "subtopic"
  }

  const COURSE_SETS: set<string> := {"campusLocations", "coreCodes"}

  const SECTION_SETS: set<string> := {
    "comments", "crossListedSections", "honorPrograms", "instructors", "majors", "minors", "sectionCampusLocations",
        "unitMajors"
  }

  predicate KnownSetArray(p: Profile, path: Path) {
    match p
    case Exact => false
    case CourseSemantic => |path| == 1 && path[0] in COURSE_SETS
    case SectionSemantic => |path| == 1 && path[0] in SECTION_SETS
  }

  predicate NestedCode(path: Path, parents: set<string>) {
    |path| == 2 && path[1] == "code" && path[0] in parents
  }

  predicate KnownSemanticString(p: Profile, path: Path) {
    match p
    case Exact => false
    case CourseSemantic =>
      || (|path| == 1 && path[0] in COURSE_STRINGS)
      || NestedCode(path, {"campusLocations", "creditsObject", "school"})
      || path == ["coreCodes"]
    case SectionSemantic =>
      || (|path| == 1 && path[0] in SECTION_STRINGS)
      || path == ["comments"]
      || (|path| == 2 && path[0] == "comments" && (path[1] == "code" || path[1] == "description"))
      || path == ["instructors", "name"]
      || (|path| == 2 && path[0] == "unitMajors" && (path[1] == "unitCode" || path[1] == "majorCode"))
      || path == ["sectionCampusLocations", "description"]
      || NestedCode(path,
          {"crossListedSections", "honorPrograms", "majors", "minors", "sectionCampusLocations", "unitMajors"})
  }

  // ----- Derived text -----

  function Get(es: seq<Entry>, key: string): Value {
    if es == [] then Null else if es[0].key == key then es[0].value else Get(es[1..], key)
  }

  /** The value is an object whose `field` is a string with something in it. */
  predicate HasText(v: Value, field: string) {
    v.Obj? && Get(v.entries, field).Str? && !Blank(Get(v.entries, field).text)
  }

  predicate ValidComment(v: Value) {
    (v.Str? && !Blank(v.text)) || HasText(v, "code") || HasText(v, "description")
  }

  predicate ValidCrossList(v: Value) {
    (v.Str? && !Blank(v.text)) || HasText(v, "code")
  }

  function StructuredSource(key: string): string {
    if key == "commentsText" then "comments"
    else if key == "instructorsText" then "instructors"
    else if key == "crossListedSectionsText" then "crossListedSections"
    else ""
  }

  predicate ValidItem(structured: string, v: Value) {
    if structured == "comments" then ValidComment(v)
    else if structured == "instructors" then HasText(v, "name")
    else ValidCrossList(v)
  }

  /** Derived text may go when its structured array is usable, or both are empty. */
  predicate Trustworthy(es: seq<Entry>, key: string) {
    var structured := StructuredSource(key);
    && structured != "" && Get(es, key).Str? && Get(es, structured).Arr?
    && var items := Get(es, structured).items;
       if items == [] then Blank(Get(es, key).text) else forall v | v in items :: ValidItem(structured, v)
  }

  predicate Dropped(es: seq<Entry>, key: string, p: Profile, path: Path) {
    p == SectionSemantic && path == [] && Trustworthy(es, key)
  }

  function Keep(es: seq<Entry>, keep: Entry -> bool): (r: seq<Entry>)
    ensures forall e | e in r :: e in es && keep(e)
  {
    if es == [] then [] else (if keep(es[0]) then [es[0]] else []) + Keep(es[1..], keep)
  }

  /** The entries of an object that stay. */
  function Kept(all: seq<Entry>, es: seq<Entry>, p: Profile, path: Path): (r: seq<Entry>)
    ensures forall e | e in r :: e in es && !Dropped(all, e.key, p, path)
  {
    Keep(es, (e: Entry) => !Dropped(all, e.key, p, path))
  }

  // ----- Sorting by serialized text -----

  predicate LexLeq(a: string, b: string) {
    a == "" || (b != "" && (a[0] < b[0] || (a[0] == b[0] && LexLeq(a[1..], b[1..]))))
  }

  predicate Leq(v: Value, w: Value) {
    LexLeq(Text(v), Text(w))
  }

  /** Stable insertion: before the first item that is not below it. */
  function Insert(v: Value, sorted: seq<Value>): seq<Value> {
    if sorted == [] then [v]
    else if Leq(v, sorted[0]) then [v] + sorted
    else [sorted[0]] + Insert(v, sorted[1..])
  }

  function Sort(vs: seq<Value>): seq<Value> {
    if vs == [] then [] else Insert(vs[0], Sort(vs[1..]))
  }

  // ----- The canonicalizer -----

  function Canon(v: Value, p: Profile, path: Path): Value
    decreases v
  {
    match v
    case Obj(es) =>
      var kept := Kept(es, es, p, path);
      Obj(seq(|kept|, i requires 0 <= i < |kept| =>
        assert kept[i] in kept;
        Entry(kept[i].key, Canon(kept[i].value, p, path + [kept[i].key]))))
    case Arr(vs) =>
      var items := seq(|vs|, i requires 0 <= i < |vs| => Canon(vs[i], p, path));
      Arr(if KnownSetArray(p, path) then Sort(items) else items)
    case Str(s) => if KnownSemanticString(p, path) then Str(Trim(s)) else v
    case _ => v
  }
}
