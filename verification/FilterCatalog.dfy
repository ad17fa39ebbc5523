/**
  What a Catalog offers each filter field: the (value, label) pairs its records contribute, in record
  order. Unicode lowercasing is a parameter `lower` wherever it is used; ASCII case folding is concrete.
 */
module FilterCatalog {
  import opened Common
  import opened Canonical
  import HashPreimage

  datatype Variant = Variant(courseNumber: Option<string>, level: Option<string>, subjectCode: Option<string>,
                             coreCodes: Option<seq<string>>)

  datatype Section = Section(instructors: Option<seq<string>>, examCode: Option<string>, examCodeText: Option<string>)

  datatype Occurrence = Occurrence(campus: Option<string>, campusName: Option<string>)

  /** `identifiers` are the course strings of its groups, `terms` its full-text vocabulary. */
  datatype Catalog = Catalog(variants: seq<Variant>, sections: seq<Section>, occurrences: seq<Occurrence>,
                             identifiers: seq<string>, terms: seq<string>)

  datatype OptionField = CourseNumberBand | CourseLevel | Instructor | MeetingLocation | ExamCode

  /** One option, or one record's contribution to it; `caption` is its display label. */
  datatype FilterOption = FilterOption(value: string, caption: string)

  // ----- Text helpers -----

  function AsciiUpperChar(c: char): char {
    if 'a' <= c <= 'z' then (c as int - 32) as char else c
  }

  function AsciiLowerChar(c: char): char {
    if 'A' <= c <= 'Z' then (c as int + 32) as char else c
  }

  function AsciiUpper(s: string): (r: string)
    ensures |r| == |s| && forall i | 0 <= i < |s| :: r[i] == AsciiUpperChar(s[i])
  {
    seq(|s|, i requires 0 <= i < |s| => AsciiUpperChar(s[i]))
  }

  function AsciiLower(s: string): (r: string)
    ensures |r| == |s| && forall i | 0 <= i < |s| :: r[i] == AsciiLowerChar(s[i])
  {
    seq(|s|, i requires 0 <= i < |s| => AsciiLowerChar(s[i]))
  }

  /** The length of a string in UTF-8 bytes. */
  function ByteLength(s: string): nat {
    |HashPreimage.Utf8(s)|
  }

  predicate Contains(s: string, part: string) {
    part <= s || (s != "" && Contains(s[1..], part))
  }

  /** Words separated by single spaces, however they were separated before. */
  function JoinWords(s: string): string
    decreases |s|
  {
    var t := TrimStart(s);
    var word := Word(t);
    if word == "" then ""
    else
      TrimStartShorter(s);
      var rest := JoinWords(t[|word|..]);
      if rest == "" then word else word + [' '] + rest
  }

  /** The characters up to the first whitespace. */
  function Word(s: string): (w: string)
    ensures |w| <= |s|
  {
    if s == "" || WhiteSpace(s[0]) then "" else [s[0]] + Word(s[1..])
  }

  lemma TrimStartShorter(s: string)
    ensures |TrimStart(s)| <= |s|
  {
  }

  function Decimal(n: nat): string {
    if n < 10 then [('0' as int + n) as char] else Decimal(n / 10) + [('0' as int + n % 10) as char]
  }

  function Pad3(n: nat): string {
    var d := Decimal(n);
    if |d| == 1 then "00" + d else if |d| == 2 then "0" + d else d
  }

  function ParseDigits(s: string): nat {
    if s == "" then 0
    else
      var c := s[|s| - 1];
      ParseDigits(s[..|s| - 1]) * 10 + if '0' <= c <= '9' then c as int - '0' as int else 0
  }

  /** The hundred a course number falls in; none unless it is all digits and fits. */
  function Band(s: string): Option<nat> {
    if s == "" || exists c | c in s :: !('0' <= c <= '9') then None
    else
      var n := ParseDigits(s);
      if n > U32_MAX || n / 100 * 100 > U32_MAX - 99 then None else Some(n / 100 * 100)
  }

  // ----- Contributions -----

  function BandOptions(v: Variant): seq<FilterOption> {
    match v.courseNumber
    case None => []
    case Some(s) =>
      match Band(s)
      case None => []
      case Some(band) => [FilterOption(Decimal(band), Pad3(band) + "-" + Pad3(band + 99))]
  }

  function LevelOptions(v: Variant): seq<FilterOption> {
    match v.level
    case None => []
    case Some(s) =>
      var value := AsciiUpper(Trim(s));
      if value == "" then []
      else
        var caption := if value == "U" then "U · Undergraduate" else if value == "G" then "G · Graduate" else value;
        [FilterOption(value, caption)]
  }

  function NameOptions(names: seq<string>): (r: seq<FilterOption>)
    ensures forall o | o in r :: o.caption == o.value
  {
    if names == [] then []
    else
      var name := JoinWords(names[0]);
      (if name == "" then [] else [FilterOption(name, name)]) + NameOptions(names[1..])
  }

  function InstructorOptions(s: Section): (r: seq<FilterOption>)
    ensures forall o | o in r :: o.caption == o.value
  {
    match s.instructors case None => [] case Some(names) => NameOptions(names)
  }

  /** A code labelled with its description, or whichever of the two there is. */
  function CodedOptions(code: Option<string>, text: Option<string>): seq<FilterOption> {
    var c := if code.Some? then AsciiUpper(Trim(code.value)) else "";
    var t := if text.Some? then Trim(text.value) else "";
    if c != "" && t != "" then [FilterOption(c, c + " · " + t)]
    else if c != "" then [FilterOption(c, c)]
    else if t != "" then [FilterOption(AsciiUpper(t), t)]
    else []
  }

  function FromVariants(vs: seq<Variant>, field: OptionField): seq<FilterOption> {
    if vs == [] then []
    else (if field == CourseNumberBand then BandOptions(vs[0]) else LevelOptions(vs[0])) + FromVariants(vs[1..], field)
  }

  function FromSections(ss: seq<Section>, field: OptionField): (r: seq<FilterOption>)
    ensures field == Instructor ==> forall o | o in r :: o.caption == o.value
  {
    if ss == [] then []
    else (if field == Instructor then InstructorOptions(ss[0]) else CodedOptions(ss[0].examCode, ss[0].examCodeText))
         + FromSections(ss[1..], field)
  }

  function FromOccurrences(os: seq<Occurrence>): seq<FilterOption> {
    if os == [] then [] else CodedOptions(os[0].campus, os[0].campusName) + FromOccurrences(os[1..])
  }

  /** Everything a Catalog contributes to a field, in order. */
  function Contributions(c: Catalog, field: OptionField): (r: seq<FilterOption>)
    ensures field == Instructor ==> forall o | o in r :: o.caption == o.value
  {
    match field
    case CourseNumberBand => FromVariants(c.variants, field)
    case CourseLevel => FromVariants(c.variants, field)
    case Instructor => FromSections(c.sections, field)
    case MeetingLocation => FromOccurrences(c.occurrences)
    case ExamCode => FromSections(c.sections, field)
  }
}
