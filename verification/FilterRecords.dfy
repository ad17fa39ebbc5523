/**
  The options of a field told from the records of the Catalogs alone: which keys there are, which record
  gives each its value and which its label. The collected option map is proved to be exactly that.
 */
module FilterRecords {
  import opened Common
  import opened Canonical
  import opened FilterCatalog
  import opened FilterText
  import opened FilterSummary
  import opened FilterOptions

  /** What a field is read from: a course variant, a name of a section, a section, or a meeting. */
  datatype Record = OfVariant(variant: Variant) | OfName(name: string) | OfSection(section: Section)
                  | OfOccurrence(occurrence: Occurrence)

  // ----- What a record offers -----

  /** A known text without the whitespace around it; nothing is as good as blank. */
  ghost predicate Cleaned(raw: Option<string>, t: string) {
    match raw
    case None => t == ""
    case Some(s) => Trimmed(s, t)
  }

  /** A code in upper case, labelled with its description; without a code the description is the value. */
  ghost predicate OffersCoded(code: Option<string>, text: Option<string>, o: FilterOption) {
    exists c, t | Cleaned(code, c) && Cleaned(text, t) ::
      if c != "" then Uppercased(c, o.value) && o.caption == o.value + if t == "" then "" else " · " + t
      else t != "" && Uppercased(t, o.value) && o.caption == t
  }

  /** The number falls in the hundred that begins with `band`. */
  ghost predicate FallsIn(number: string, band: nat) {
    band % 100 == 0 && exists n: nat | Numeral(number, n) :: band <= n <= band + 99
  }

  /** The hundred that a number falls in, from its first to its last, if both fit 32 bits. */
  ghost predicate OffersBand(number: Option<string>, o: FilterOption) {
    && number.Some?
    && exists band: nat, low, high |
         FallsIn(number.value, band) && ThreeDigits(low, band) && ThreeDigits(high, band + 99) ::
         band + 99 <= U32_MAX && o == FilterOption(Decimal(band), low + "-" + high)
  }

  ghost predicate OffersLevel(level: Option<string>, o: FilterOption) {
    && level.Some?
    && (exists t | Trimmed(level.value, t) && t != "" :: Uppercased(t, o.value))
    && o.caption == match o.value
                    case "U" => "U · Undergraduate"
                    case "G" => "G · Graduate"
                    case _ => o.value
  }

  /** The words of the name; a query must occur in them, whatever the case. */
  ghost predicate OffersName(name: string, query: Option<string>, lower: string -> string, o: FilterOption) {
    && Collapses(name, o.value) && o.value != "" && o.caption == o.value
    && (query.Some? ==> Occurs(lower(query.value), lower(o.value)))
  }

  ghost predicate Offers(r: Record, field: OptionField, query: Option<string>, lower: string -> string,
                         o: FilterOption)
  {
    match field
    case CourseNumberBand => r.OfVariant? && OffersBand(r.variant.courseNumber, o)
    case CourseLevel => r.OfVariant? && OffersLevel(r.variant.level, o)
    case Instructor => r.OfName? && OffersName(r.name, query, lower, o)
    case MeetingLocation => r.OfOccurrence? && OffersCoded(r.occurrence.campus, r.occurrence.campusName, o)
    case ExamCode => r.OfSection? && OffersCoded(r.section.examCode, r.section.examCodeText, o)
  }

  // ----- The records of a field -----

  predicate Fits(r: Record, field: OptionField) {
    match field
    case CourseNumberBand => r.OfVariant?
    case CourseLevel => r.OfVariant?
    case Instructor => r.OfName?
    case MeetingLocation => r.OfOccurrence?
    case ExamCode => r.OfSection?
  }

  function Variants(vs: seq<Variant>): (rs: seq<Record>)
    ensures forall r | r in rs :: r.OfVariant?
  {
    if vs == [] then [] else [OfVariant(vs[0])] + Variants(vs[1..])
  }

  function Names(names: seq<string>): (rs: seq<Record>)
    ensures forall r | r in rs :: r.OfName?
  {
    if names == [] then [] else [OfName(names[0])] + Names(names[1..])
  }

  function Taught(ss: seq<Section>): (rs: seq<Record>)
    ensures forall r | r in rs :: r.OfName?
  {
    if ss == [] then []
    else (if ss[0].instructors.Some? then Names(ss[0].instructors.value) else []) + Taught(ss[1..])
  }

  function Sections(ss: seq<Section>): (rs: seq<Record>)
    ensures forall r | r in rs :: r.OfSection?
  {
    if ss == [] then [] else [OfSection(ss[0])] + Sections(ss[1..])
  }

  function Occurrences(os: seq<Occurrence>): (rs: seq<Record>)
    ensures forall r | r in rs :: r.OfOccurrence?
  {
    if os == [] then [] else [OfOccurrence(os[0])] + Occurrences(os[1..])
  }

  function RecordsOf(c: Catalog, field: OptionField): (rs: seq<Record>)
    ensures forall r | r in rs :: Fits(r, field)
  {
    match field
    case CourseNumberBand => Variants(c.variants)
    case CourseLevel => Variants(c.variants)
    case Instructor => Taught(c.sections)
    case MeetingLocation => Occurrences(c.occurrences)
    case ExamCode => Sections(c.sections)
  }

  /** Catalog after Catalog, record after record, name after name. */
  function Records(catalogs: seq<Catalog>, field: OptionField): (rs: seq<Record>)
    ensures forall r | r in rs :: Fits(r, field)
  {
    if catalogs == [] then []
    else Records(catalogs[..|catalogs| - 1], field) + RecordsOf(catalogs[|catalogs| - 1], field)
  }

  // ----- The options of some records -----

  /** What records of a field offer, as a relation. */
  ghost function Offering(field: OptionField, query: Option<string>, lower: string -> string)
    : (Record, FilterOption) -> bool
  {
    (r: Record, o: FilterOption) => Offers(r, field, query, lower, o)
  }

  /** The record at `i` offers `o`, which folds to `key`. */
  ghost predicate Carries(rs: seq<Record>, offers: (Record, FilterOption) -> bool, lower: string -> string,
                          key: string, i: nat, o: FilterOption)
  {
    i < |rs| && offers(rs[i], o) && lower(o.value) == key
  }

  /** The value of the first record that carries the key. */
  ghost predicate FirstValue(rs: seq<Record>, offers: (Record, FilterOption) -> bool, lower: string -> string,
                             key: string, value: string)
  {
    exists i, o | Carries(rs, offers, lower, key, i, o) ::
      o.value == value && forall j, p | Carries(rs, offers, lower, key, j, p) :: i <= j
  }

  /** The longest label of a record that carries the key, the first of them if there are several. */
  ghost predicate FirstLongest(rs: seq<Record>, offers: (Record, FilterOption) -> bool, lower: string -> string,
                               key: string, caption: string)
  {
    exists i, o | Carries(rs, offers, lower, key, i, o) ::
      && o.caption == caption
      && forall j, p | Carries(rs, offers, lower, key, j, p) ::
           ByteLength(p.caption) <= ByteLength(caption) && (j < i ==> ByteLength(p.caption) < ByteLength(caption))
  }

  /** A key is there if and only if some record carries it, with the first value and the longest label. */
  ghost predicate Describes(m: OptionMap, rs: seq<Record>, offers: (Record, FilterOption) -> bool,
                            lower: string -> string)
  {
    && (forall key :: key in m <==> exists i, o :: Carries(rs, offers, lower, key, i, o))
    && (forall key | key in m :: FirstValue(rs, offers, lower, key, m[key].value))
    && (forall key | key in m :: FirstLongest(rs, offers, lower, key, m[key].caption))
  }

  // ----- What the code makes of a record is what it offers -----

  function Clean(raw: Option<string>): string {
    if raw.Some? then Trim(raw.value) else ""
  }

  lemma CleanedMeans(raw: Option<string>, t: string)
    ensures Cleaned(raw, t) <==> t == Clean(raw)
  {
    if raw.Some? {
      TrimmedMeans(raw.value, t);
    }
  }

  lemma CodedMeans(code: Option<string>, text: Option<string>, o: FilterOption)
    ensures |CodedOptions(code, text)| <= 1 && (OffersCoded(code, text, o) <==> CodedOptions(code, text) == [o])
  {
    var c, t := Clean(code), Clean(text);
    forall x ensures Cleaned(code, x) <==> x == c {
      CleanedMeans(code, x);
    }
    forall x ensures Cleaned(text, x) <==> x == t {
      CleanedMeans(text, x);
    }
    UppercasedMeans(c, o.value);
    UppercasedMeans(t, o.value);
    assert o.value + "" == o.value;
    assert o.value + (" · " + t) == o.value + " · " + t;
  }

  lemma HundredUnique(n: nat, band: nat)
    ensures band % 100 == 0 && band <= n <= band + 99 <==> band == n / 100 * 100
  {
  }

  lemma BandOfNumeral(s: string, n: nat)
    requires Numeral(s, n)
    ensures Band(s) == if n / 100 * 100 + 99 <= U32_MAX then Some(n / 100 * 100) else None
  {
    NumeralMeans(s, n);
    HundredUnique(n, n / 100 * 100);
  }

  lemma BandHasNumeral(s: string)
    requires Band(s).Some?
    ensures Numeral(s, ParseDigits(s))
  {
    assert forall i | 0 <= i < |s| :: s[i] in s;
    NumeralMeans(s, ParseDigits(s));
  }

  lemma FallsInMeans(s: string, band: nat)
    ensures FallsIn(s, band) && band + 99 <= U32_MAX <==> Band(s) == Some(band)
  {
    if FallsIn(s, band) {
      var n: nat :| Numeral(s, n) && band <= n <= band + 99;
      BandOfNumeral(s, n);
      HundredUnique(n, band);
    }
    if Band(s) == Some(band) {
      BandHasNumeral(s);
      BandOfNumeral(s, ParseDigits(s));
      HundredUnique(ParseDigits(s), band);
    }
  }

  lemma BandMeans(v: Variant, o: FilterOption)
    ensures OffersBand(v.courseNumber, o) <==> BandOptions(v) == [o]
  {
    if BandOptions(v) != [] {
      var band := Band(v.courseNumber.value).value;
      FallsInMeans(v.courseNumber.value, band);
      PaddedIsThreeDigits(band);
      PaddedIsThreeDigits(band + 99);
      assert OffersBand(v.courseNumber, FilterOption(Decimal(band), Pad3(band) + "-" + Pad3(band + 99)));
    }
    if OffersBand(v.courseNumber, o) {
      var band: nat, low, high :|
        && FallsIn(v.courseNumber.value, band) && ThreeDigits(low, band) && ThreeDigits(high, band + 99)
        && band + 99 <= U32_MAX && o == FilterOption(Decimal(band), low + "-" + high);
      FallsInMeans(v.courseNumber.value, band);
      ThreeDigitsMeans(low, band);
      ThreeDigitsMeans(high, band + 99);
    }
  }

  lemma TrimmedUpper(s: string, value: string)
    ensures (exists t | Trimmed(s, t) && t != "" :: Uppercased(t, value)) <==>
              Trim(s) != "" && value == AsciiUpper(Trim(s))
  {
    forall t ensures Trimmed(s, t) <==> t == Trim(s) {
      TrimmedMeans(s, t);
    }
    UppercasedMeans(Trim(s), value);
  }

  lemma LevelMeans(v: Variant, o: FilterOption)
    ensures OffersLevel(v.level, o) <==> LevelOptions(v) == [o]
  {
    if v.level.Some? {
      TrimmedUpper(v.level.value, o.value);
    }
  }

  lemma NameMeans(name: string, query: Option<string>, lower: string -> string, o: FilterOption)
    ensures OffersName(name, query, lower, o) <==> NameOptions([name]) == [o] && Matches(Instructor, query, lower, o)
    ensures |NameOptions([name])| <= 1
  {
    var joined := JoinWords(name);
    assert NameOptions([name]) == if joined == "" then [] else [FilterOption(joined, joined)];
    CollapsesMeans(name, o.value);
    if query.Some? {
      ContainsMeans(lower(o.value), lower(query.value));
    }
  }

  /** The option the code makes of a record, if any. */
  function Made(r: Record, field: OptionField): seq<FilterOption> {
    match r
    case OfVariant(v) => if field == CourseNumberBand then BandOptions(v) else LevelOptions(v)
    case OfName(name) => NameOptions([name])
    case OfSection(s) => CodedOptions(s.examCode, s.examCodeText)
    case OfOccurrence(o) => CodedOptions(o.campus, o.campusName)
  }

  /** The same, kept only if it matches the query. */
  function Maker(field: OptionField, query: Option<string>, lower: string -> string): Record -> seq<FilterOption> {
    r => Filter(Made(r, field), o => Matches(field, query, lower, o))
  }

  lemma FilterOne(os: seq<FilterOption>, pass: FilterOption -> bool)
    requires |os| <= 1
    ensures Filter(os, pass) == if os != [] && pass(os[0]) then os else []
  {
  }

  lemma MadeMeans(r: Record, field: OptionField, o: FilterOption)
    requires Fits(r, field) && field != Instructor
    ensures |Made(r, field)| <= 1 && forall query, lower :: Offers(r, field, query, lower, o) <==> Made(r, field) == [o]
  {
    match r
    case OfVariant(v) =>
      BandMeans(v, o);
      LevelMeans(v, o);
    case OfSection(s) => CodedMeans(s.examCode, s.examCodeText, o);
    case OfOccurrence(x) => CodedMeans(x.campus, x.campusName, o);
  }

  /** A record offers one option, the one made of it, or it offers none. */
  ghost predicate Makes(made: seq<FilterOption>, r: Record, offers: (Record, FilterOption) -> bool) {
    && |made| <= 1
    && forall o :: offers(r, o) <==> made == [o]
  }

  lemma RecordMakes(r: Record, field: OptionField, query: Option<string>, lower: string -> string)
    requires Fits(r, field)
    ensures Makes(Maker(field, query, lower)(r), r, Offering(field, query, lower))
  {
    var made := Made(r, field);
    forall o
      ensures |made| <= 1
      ensures Offers(r, field, query, lower, o) <==> made == [o] && Matches(field, query, lower, o)
    {
      if field == Instructor {
        NameMeans(r.name, query, lower, o);
      } else {
        MadeMeans(r, field, o);
      }
    }
    FilterOne(made, o => Matches(field, query, lower, o));
    assert made != [] ==> made == [made[0]];
  }
}
