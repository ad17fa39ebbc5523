/**
  Validation of selected dynamic filter values: the reference path against whole Catalogs, the prepared
  path against the sets kept per target. The lists of invalid values they return are compared exactly.
 */
module DynamicFilters {
  import opened Common
  import opened Canonical
  import opened CanonicalOrder
  import opened FilterCatalog
  import opened FilterSummary
  import opened FilterOptions
  import opened FilterText
  import opened FilterRecords
  import opened FilterAnswers
  import opened FilterService
  import opened SortedLists

  datatype DynamicField =
    | KeywordField | SubjectField | LevelField | BandField | CoreField | InstructorField | LocationField | ExamField

  /** One selected value, or one reported invalid. */
  datatype Selected = Selected(field: DynamicField, value: string)

  /** The option field behind a filter field that is looked up by folded key. */
  function OptionFieldOf(f: DynamicField): Option<OptionField> {
    match f
    case LevelField => Some(CourseLevel)
    case BandField => Some(CourseNumberBand)
    case InstructorField => Some(Instructor)
    case LocationField => Some(MeetingLocation)
    case ExamField => Some(ExamCode)
    case _ => None
  }

  // ----- What is offered -----

  predicate OffersSubject(c: Catalog, value: string) {
    exists v | v in c.variants :: v.subjectCode == Some(value)
  }

  predicate OffersCore(c: Catalog, upper: string) {
    exists v | v in c.variants
      && v.coreCodes.Some? :: exists code | code in v.coreCodes.value :: AsciiUpper(code) == upper
  }

  /** Course identifiers and full-text terms compare without regard to ASCII case. */
  predicate OffersKeyword(c: Catalog, folded: string) {
    || (exists id | id in c.identifiers :: AsciiLower(id) == folded)
    || (exists term | term in c.terms :: AsciiLower(term) == folded)
  }

  predicate Holds(os: seq<FilterOption>, lower: string -> string, key: string) {
    exists o | o in os :: lower(o.value) == key
  }

  predicate OffersOption(c: Catalog, field: OptionField, lower: string -> string, key: string) {
    Holds(Contributions(c, field), lower, key)
  }

  /** What the reference path accepts: the value as selected, except that keywords and option keys are folded. */
  ghost predicate ReferenceFinds(catalogs: seq<Catalog>, s: Selected, lower: string -> string) {
    match s.field
    case KeywordField => exists c | c in catalogs :: OffersKeyword(c, AsciiLower(s.value))
    case SubjectField => exists c | c in catalogs :: OffersSubject(c, s.value)
    case CoreField => exists c | c in catalogs :: OffersCore(c, s.value)
    case _ => lower(s.value) in Summary(ReferencePile(catalogs, OptionFieldOf(s.field).value, None, lower), lower)
  }

  // ----- Prepared dictionaries -----

  function Normalize(s: Selected, lower: string -> string): string {
    match s.field
    case SubjectField => s.value
    case CoreField => AsciiUpper(s.value)
    case KeywordField => AsciiLower(s.value)
    case _ => lower(s.value)
  }

  /** The normalized values a target's dictionary keeps for a field. */
  ghost function DynamicValues(c: Catalog, f: DynamicField, lower: string -> string): set<string> {
    match f
    case SubjectField => set v | v in c.variants && v.subjectCode.Some? :: v.subjectCode.value
    case CoreField => set v, code | v in c.variants && v.coreCodes.Some?
      && code in v.coreCodes.value :: AsciiUpper(code)
    case KeywordField => (set x | x in c.terms :: AsciiLower(x)) + (set x | x in c.identifiers :: AsciiLower(x))
    case _ => set o | o in DictionaryList(c, OptionFieldOf(f).value, lower) :: lower(o.value)
  }

  ghost predicate PreparedFinds(catalogs: seq<Catalog>, s: Selected, lower: string -> string) {
    exists c | c in catalogs :: Normalize(s, lower) in DynamicValues(c, s.field, lower)
  }

  // ----- Field by field -----

  lemma HoldsConcat(a: seq<FilterOption>, b: seq<FilterOption>, lower: string -> string, key: string)
    ensures Holds(a + b, lower, key) <==> Holds(a, lower, key) || Holds(b, lower, key)
  {
    if o: FilterOption :| o in a && lower(o.value) == key {
      assert o in a + b;
    } else if o: FilterOption :| o in b && lower(o.value) == key {
      assert o in a + b;
    }
  }

  ghost predicate AnyOffers(catalogs: seq<Catalog>, field: OptionField, lower: string -> string, key: string) {
    exists c | c in catalogs :: OffersOption(c, field, lower, key)
  }

  lemma AnyOffersAppend(catalogs: seq<Catalog>, c: Catalog, field: OptionField, lower: string -> string, key: string)
    ensures AnyOffers(catalogs + [c], field, lower, key) <==>
              AnyOffers(catalogs, field, lower, key) || OffersOption(c, field, lower, key)
  {
    if OffersOption(c, field, lower, key) {
      assert c in catalogs + [c];
    } else if d :| d in catalogs && OffersOption(d, field, lower, key) {
      assert d in catalogs + [c];
    }
  }

  /** The pile of the whole list holds a key exactly when some Catalog of it offers the key. */
  lemma {:induction false} PileOffers(catalogs: seq<Catalog>, field: OptionField, lower: string -> string, key: string)
    ensures Holds(ReferencePile(catalogs, field, None, lower), lower, key) <==> AnyOffers(catalogs, field, lower, key)
  {
    if catalogs != [] {
      var n := |catalogs| - 1;
      var last := Contributions(catalogs[n], field);
      PileOffers(catalogs[..n], field, lower, key);
      KeepsEverything(last, field, lower);
      HoldsConcat(ReferencePile(catalogs[..n], field, None, lower), last, lower, key);
      AnyOffersAppend(catalogs[..n], catalogs[n], field, lower, key);
      assert catalogs == catalogs[..n] + [catalogs[n]];
    }
  }

  lemma {:induction false} KeepsEverything(os: seq<FilterOption>, field: OptionField, lower: string -> string)
    ensures Filter(os, o => Matches(field, None, lower, o)) == os
  {
    if os != [] {
      KeepsEverything(os[1..], field, lower);
      assert os == [os[0]] + os[1..];
    }
  }

  /** A dictionary keeps exactly the folded keys its Catalog offers. */
  lemma DictionaryKeys(c: Catalog, field: OptionField, lower: string -> string, key: string)
    ensures Holds(DictionaryList(c, field, lower), lower, key) <==> OffersOption(c, field, lower, key)
  {
    var os, list := Contributions(c, field), DictionaryList(c, field, lower);
    var m := Summary(os, lower);
    SummarySummarises(os, lower);
    SummaryKeys(m, os, lower);
    ListingGroups(m, field, lower, key);
    GroupPresent(list, lower, key);
  }

  lemma OptionFieldsAgree(catalogs: seq<Catalog>, s: Selected, lower: string -> string)
    requires OptionFieldOf(s.field).Some?
    ensures ReferenceFinds(catalogs, s, lower) <==> PreparedFinds(catalogs, s, lower)
  {
    var field, key := OptionFieldOf(s.field).value, lower(s.value);
    var pile := ReferencePile(catalogs, field, None, lower);
    SummarySummarises(pile, lower);
    SummaryKeys(Summary(pile, lower), pile, lower);
    PileOffers(catalogs, field, lower, key);
    forall c ensures Normalize(s, lower) in DynamicValues(c, s.field, lower) <==> OffersOption(c, field, lower, key) {
      DictionaryKeys(c, field, lower, key);
    }
  }

  lemma SubjectsAgree(catalogs: seq<Catalog>, s: Selected, lower: string -> string)
    requires s.field == SubjectField
    ensures ReferenceFinds(catalogs, s, lower) <==> PreparedFinds(catalogs, s, lower)
  {
    forall c ensures Normalize(s, lower) in DynamicValues(c, s.field, lower) <==> OffersSubject(c, s.value) {
      if v :| v in c.variants && v.subjectCode == Some(s.value) {
        assert v.subjectCode.value in DynamicValues(c, s.field, lower);
      }
    }
  }

  lemma KeywordsAgree(catalogs: seq<Catalog>, s: Selected, lower: string -> string)
    requires s.field == KeywordField
    ensures ReferenceFinds(catalogs, s, lower) <==> PreparedFinds(catalogs, s, lower)
  {
    forall c ensures Normalize(s, lower) in DynamicValues(c, s.field, lower) <==>
        OffersKeyword(c, AsciiLower(s.value)) {
      if x :| x in c.terms && AsciiLower(x) == AsciiLower(s.value) {
        assert AsciiLower(x) in set x | x in c.terms :: AsciiLower(x);
      }
      if x :| x in c.identifiers && AsciiLower(x) == AsciiLower(s.value) {
        assert AsciiLower(x) in set x | x in c.identifiers :: AsciiLower(x);
      }
    }
  }

  lemma CoreOffered(catalogs: seq<Catalog>, s: Selected, lower: string -> string)
    requires s.field == CoreField
    ensures PreparedFinds(catalogs, s, lower) <==> exists c | c in catalogs :: OffersCore(c, AsciiUpper(s.value))
  {
    forall c ensures Normalize(s, lower) in DynamicValues(c, s.field, lower) <==> OffersCore(c, AsciiUpper(s.value)) {
      if v, code :| v in c.variants && v.coreCodes.Some? && code in v.coreCodes.value &&
                    AsciiUpper(code) == AsciiUpper(s.value) {
        assert AsciiUpper(code) in DynamicValues(c, s.field, lower);
      }
    }
  }

  lemma UpperTwice(s: string)
    ensures AsciiUpper(AsciiUpper(s)) == AsciiUpper(s)
  {
  }

  /**
    The two paths differ on one selected value exactly when it is a core code that is not in ASCII
    uppercase while its uppercase is offered: the reference compares the code as selected.
   */
  lemma FindsAgree(catalogs: seq<Catalog>, s: Selected, lower: string -> string)
    ensures (ReferenceFinds(catalogs, s, lower) <==> PreparedFinds(catalogs, s, lower)) <==>
            !(s.field == CoreField && AsciiUpper(s.value) != s.value
              && exists c | c in catalogs :: OffersCore(c, AsciiUpper(s.value)))
  {
    match s.field
    case SubjectField => SubjectsAgree(catalogs, s, lower);
    case KeywordField => KeywordsAgree(catalogs, s, lower);
    case CoreField =>
      CoreOffered(catalogs, s, lower);
      forall c | OffersCore(c, s.value) ensures AsciiUpper(s.value) == s.value {
        var v :| v in c.variants && v.coreCodes.Some?
          && exists code | code in v.coreCodes.value :: AsciiUpper(code) == s.value;
        var code :| code in v.coreCodes.value && AsciiUpper(code) == s.value;
        UpperTwice(code);
      }
    case _ => OptionFieldsAgree(catalogs, s, lower);
  }

  // ----- Sorted lists without repetition -----

  function FieldRank(f: DynamicField): nat {
    match f
    case SubjectField => 0
    case KeywordField => 1
    case BandField => 2
    case LevelField => 3
    case CoreField => 4
    case InstructorField => 5
    case LocationField => 6
    case ExamField => 7
  }

  predicate Before(a: Selected, b: Selected) {
    FieldRank(a.field) < FieldRank(b.field) || (a.field == b.field && a.value != b.value && LexLeq(a.value, b.value))
  }

  lemma BeforeTotal(a: Selected, b: Selected)
    ensures a == b || Before(a, b) || Before(b, a)
    ensures !(Before(a, b) && Before(b, a))
  {
    LexTotal(a.value, b.value);
    if a.field == b.field && LexLeq(a.value, b.value) && LexLeq(b.value, a.value) {
      LexAntisymmetric(a.value, b.value);
    }
  }

  lemma BeforeTransitive(a: Selected, b: Selected, c: Selected)
    requires Before(a, b) && Before(b, c)
    ensures Before(a, c)
  {
    if a.field == b.field == c.field {
      LexTransitive(a.value, b.value, c.value);
      if a.value == c.value {
        LexAntisymmetric(a.value, b.value);
      }
    }
  }

  lemma BeforeIsStrict()
    ensures StrictOrder(Before)
  {
    forall a, b ensures a == b || Before(a, b) || Before(b, a) {
      BeforeTotal(a, b);
    }
    forall a, b | Before(a, b) ensures a != b && !Before(b, a) {
      BeforeTotal(a, b);
    }
    forall a, b, c | Before(a, b) && Before(b, c) ensures Before(a, c) {
      BeforeTransitive(a, b, c);
    }
  }

  // ----- The two lists -----

  /** The selected values by field. Requests carry them normalized, see `FilterValues`. */
  datatype Filters = Filters(keywords: seq<string>, subjects: seq<string>, levels: seq<string>, bands: seq<nat>,
                             cores: seq<string>, instructors: seq<string>, locations: seq<string>, exams: seq<string>)

  function SelectField(f: DynamicField, values: seq<string>): (r: seq<Selected>)
    ensures forall s :: s in r <==> s.field == f && s.value in values
  {
    if values == [] then [] else [Selected(f, values[0])] + SelectField(f, values[1..])
  }

  function Decimals(bands: seq<nat>): seq<string> {
    seq(|bands|, i requires 0 <= i < |bands| => Decimal(bands[i]))
  }

  /** Every selected value, in the order both paths visit them. */
  function Selections(fs: Filters): seq<Selected> {
    SelectField(KeywordField, fs.keywords) + SelectField(SubjectField, fs.subjects) + SelectField(LevelField, fs.levels)
    + SelectField(BandField, Decimals(fs.bands)) + SelectField(CoreField, fs.cores)
      + SelectField(InstructorField, fs.instructors)
    + SelectField(LocationField, fs.locations) + SelectField(ExamField, fs.exams)
  }

  function Missing(ss: seq<Selected>, finds: Selected -> bool): seq<Selected> {
    if ss == [] then []
    else
      var n := |ss| - 1;
      if finds(ss[n]) then Missing(ss[..n], finds) else Missing(ss[..n], finds) + [ss[n]]
  }

  lemma {:induction false} MissingMembers(ss: seq<Selected>, finds: Selected -> bool, s: Selected)
    ensures s in Missing(ss, finds) <==> s in ss && !finds(s)
  {
    if ss != [] {
      var n := |ss| - 1;
      MissingMembers(ss[..n], finds, s);
      assert ss == ss[..n] + [ss[n]];
    }
  }

  ghost function ReferenceInvalid(catalogs: seq<Catalog>, fs: Filters, lower: string -> string): seq<Selected> {
    SortDedup(Missing(Selections(fs), s => ReferenceFinds(catalogs, s, lower)), Before)
  }

  ghost function PreparedInvalid(catalogs: seq<Catalog>, fs: Filters, lower: string -> string): seq<Selected> {
    SortDedup(Missing(Selections(fs), s => PreparedFinds(catalogs, s, lower)), Before)
  }

  /** A core code the reference path misses and the prepared path finds. */
  ghost predicate MisspelledCore(catalogs: seq<Catalog>, code: string) {
    AsciiUpper(code) != code && exists c | c in catalogs :: OffersCore(c, AsciiUpper(code))
  }

  lemma MembersAgree(catalogs: seq<Catalog>, fs: Filters, lower: string -> string, s: Selected)
    requires s in Selections(fs)
    ensures (s in ReferenceInvalid(catalogs, fs, lower) <==> s in PreparedInvalid(catalogs, fs, lower))
            <==> !(s.field == CoreField && MisspelledCore(catalogs, s.value))
  {
    FindsAgree(catalogs, s, lower);
    MissingMembers(Selections(fs), x => ReferenceFinds(catalogs, x, lower), s);
    MissingMembers(Selections(fs), x => PreparedFinds(catalogs, x, lower), s);
  }

  lemma SpelledListsAgree(catalogs: seq<Catalog>, fs: Filters, lower: string -> string)
    requires forall code | code in fs.cores :: !MisspelledCore(catalogs, code)
    ensures ReferenceInvalid(catalogs, fs, lower) == PreparedInvalid(catalogs, fs, lower)
  {
    var ss, a, b := Selections(fs), ReferenceInvalid(catalogs, fs, lower), PreparedInvalid(catalogs, fs, lower);
    forall x ensures x in a <==> x in b {
      MissingMembers(ss, s => ReferenceFinds(catalogs, s, lower), x);
      MissingMembers(ss, s => PreparedFinds(catalogs, s, lower), x);
      if x in ss {
        MembersAgree(catalogs, fs, lower, x);
        if x.field == CoreField {
          SelectionMembers(fs, x);
        }
      }
    }
    BeforeIsStrict();
    SortDedupOrdered(Missing(ss, s => ReferenceFinds(catalogs, s, lower)), Before);
    SortDedupOrdered(Missing(ss, s => PreparedFinds(catalogs, s, lower)), Before);
    OrderedUnique(a, b, Before);
  }

  /**
    The two lists are equal exactly when no selected core code differs from an offered one by ASCII case
    alone, which is what normalizing a request rules out.
   */
  lemma ValidationAgrees(catalogs: seq<Catalog>, fs: Filters, lower: string -> string)
    ensures ReferenceInvalid(catalogs, fs, lower) == PreparedInvalid(catalogs, fs, lower)
            <==> forall code | code in fs.cores :: !MisspelledCore(catalogs, code)
  {
    forall code | code in fs.cores && MisspelledCore(catalogs, code)
      ensures ReferenceInvalid(catalogs, fs, lower) != PreparedInvalid(catalogs, fs, lower)
    {
      SelectionMembers(fs, Selected(CoreField, code));
      MembersAgree(catalogs, fs, lower, Selected(CoreField, code));
    }
    if forall code | code in fs.cores :: !MisspelledCore(catalogs, code) {
      SpelledListsAgree(catalogs, fs, lower);
    }
  }

  // ----- What is reported, told from the records -----

  /** Some record of the Catalogs carries the value under its folded key. */
  ghost predicate Carried(catalogs: seq<Catalog>, field: OptionField, value: string, lower: string -> string) {
    exists i, o :: Carries(Records(catalogs, field), Offering(field, None, lower), lower, lower(value), i, o)
  }

  /** The value is one that some selected Catalog has. */
  ghost predicate Known(catalogs: seq<Catalog>, s: Selected, lower: string -> string) {
    match s.field
    case SubjectField => exists c, v | c in catalogs && v in c.variants :: v.subjectCode == Some(s.value)
    case CoreField =>
      exists c, v, code | c in catalogs && v in c.variants && v.coreCodes.Some? && code in v.coreCodes.value ::
        Uppercased(code, s.value)
    case KeywordField =>
      exists c, word, folded | c in catalogs && (word in c.identifiers || word in c.terms) ::
        Lowercased(word, folded) && Lowercased(s.value, folded)
    case BandField => Carried(catalogs, CourseNumberBand, s.value, lower)
    case LevelField => Carried(catalogs, CourseLevel, s.value, lower)
    case InstructorField => Carried(catalogs, Instructor, s.value, lower)
    case LocationField => Carried(catalogs, MeetingLocation, s.value, lower)
    case ExamField => Carried(catalogs, ExamCode, s.value, lower)
  }

  /** The request selects the value. */
  ghost predicate Chosen(fs: Filters, s: Selected) {
    match s.field
    case KeywordField => s.value in fs.keywords
    case SubjectField => s.value in fs.subjects
    case LevelField => s.value in fs.levels
    case BandField => exists band | band in fs.bands :: s.value == Decimal(band)
    case CoreField => s.value in fs.cores
    case InstructorField => s.value in fs.instructors
    case LocationField => s.value in fs.locations
    case ExamField => s.value in fs.exams
  }

  lemma BandChosen(bands: seq<nat>, value: string)
    ensures value in Decimals(bands) <==> exists band | band in bands :: value == Decimal(band)
  {
    var ds := Decimals(bands);
    if band :| band in bands && value == Decimal(band) {
      var i :| 0 <= i < |bands| && bands[i] == band;
      assert ds[i] == value;
    }
    if value in ds {
      var i :| 0 <= i < |ds| && ds[i] == value;
      assert bands[i] in bands;
    }
  }

  lemma SelectionMembers(fs: Filters, s: Selected)
    ensures s in Selections(fs) <==>
              match s.field
              case KeywordField => s.value in fs.keywords
              case SubjectField => s.value in fs.subjects
              case LevelField => s.value in fs.levels
              case BandField => s.value in Decimals(fs.bands)
              case CoreField => s.value in fs.cores
              case InstructorField => s.value in fs.instructors
              case LocationField => s.value in fs.locations
              case ExamField => s.value in fs.exams
  {
  }

  lemma ChosenMeans(fs: Filters, s: Selected)
    ensures s in Selections(fs) <==> Chosen(fs, s)
  {
    SelectionMembers(fs, s);
    BandChosen(fs.bands, s.value);
  }

  lemma CarriedMeans(catalogs: seq<Catalog>, field: OptionField, value: string, lower: string -> string)
    ensures lower(value) in Summary(ReferencePile(catalogs, field, None, lower), lower) <==>
              Carried(catalogs, field, value, lower)
  {
    CollectedDescribes(catalogs, field, None, lower);
  }

  lemma CoreMeans(catalogs: seq<Catalog>, s: Selected, lower: string -> string)
    requires s.field == CoreField
    ensures ReferenceFinds(catalogs, s, lower) <==> Known(catalogs, s, lower)
  {
    forall code ensures Uppercased(code, s.value) <==> AsciiUpper(code) == s.value {
      UppercasedMeans(code, s.value);
    }
    if c :| c in catalogs && OffersCore(c, s.value) {
      var v :| v in c.variants && v.coreCodes.Some?
        && exists code | code in v.coreCodes.value :: AsciiUpper(code) == s.value;
      var code :| code in v.coreCodes.value && AsciiUpper(code) == s.value;
      assert Uppercased(code, s.value);
    }
    if Known(catalogs, s, lower) {
      var c, v, code :| c in catalogs && v in c.variants && v.coreCodes.Some? && code in v.coreCodes.value
        && Uppercased(code, s.value);
      assert OffersCore(c, s.value);
    }
  }

  lemma KeywordMeans(catalogs: seq<Catalog>, s: Selected, lower: string -> string)
    requires s.field == KeywordField
    ensures ReferenceFinds(catalogs, s, lower) <==> Known(catalogs, s, lower)
  {
    var folded := AsciiLower(s.value);
    forall word, t ensures Lowercased(word, t) <==> t == AsciiLower(word) {
      LowercasedMeans(word, t);
    }
    if c :| c in catalogs && OffersKeyword(c, folded) {
      var word :| (word in c.identifiers || word in c.terms) && AsciiLower(word) == folded;
      assert Lowercased(word, folded) && Lowercased(s.value, folded);
    }
    if Known(catalogs, s, lower) {
      var c, word, t :| c in catalogs && (word in c.identifiers || word in c.terms) && Lowercased(word, t)
        && Lowercased(s.value, t);
      assert OffersKeyword(c, folded);
    }
  }

  lemma KnownMeans(catalogs: seq<Catalog>, s: Selected, lower: string -> string)
    ensures ReferenceFinds(catalogs, s, lower) <==> Known(catalogs, s, lower)
  {
    match s.field
    case SubjectField =>
      if c, v :| c in catalogs && v in c.variants && v.subjectCode == Some(s.value) {
        assert OffersSubject(c, s.value);
      }
    case CoreField => CoreMeans(catalogs, s, lower);
    case KeywordField => KeywordMeans(catalogs, s, lower);
    case _ => CarriedMeans(catalogs, OptionFieldOf(s.field).value, s.value, lower);
  }

  /** The fields in the order of their stable identifiers. */
  const FIELDS_IN_ORDER: seq<DynamicField> :=
    [SubjectField, KeywordField, BandField, LevelField, CoreField, InstructorField, LocationField, ExamField]

  /** Field by field, and within a field by value; nothing twice. */
  ghost predicate Ascends(list: seq<Selected>) {
    forall i, j | 0 <= i < j < |list| ::
      || (list[i].field == list[j].field && list[i].value != list[j].value && LexLeq(list[i].value, list[j].value))
      || exists a, b | 0 <= a < b < |FIELDS_IN_ORDER| ::
           list[i].field == FIELDS_IN_ORDER[a] && list[j].field == FIELDS_IN_ORDER[b]
  }

  lemma {:induction false} OrderedAscends(list: seq<Selected>)
    requires Ordered(list, Before)
    ensures Ascends(list)
  {
    if list != [] {
      var rest := list[1..];
      OrderedAscends(rest);
      forall i, j | 0 <= i < j < |list|
        ensures || (list[i].field == list[j].field && list[i].value != list[j].value
                    && LexLeq(list[i].value, list[j].value))
                || exists a, b | 0 <= a < b < |FIELDS_IN_ORDER| ::
                     list[i].field == FIELDS_IN_ORDER[a] && list[j].field == FIELDS_IN_ORDER[b]
      {
        assert list[j] == rest[j - 1];
        if i == 0 {
          assert rest[j - 1] in rest && Before(list[0], list[j]);
          RankIsPlace(list[0].field);
          RankIsPlace(list[j].field);
        } else {
          assert list[i] == rest[i - 1];
        }
      }
    }
  }

  lemma RankIsPlace(f: DynamicField)
    ensures FieldRank(f) < |FIELDS_IN_ORDER| && FIELDS_IN_ORDER[FieldRank(f)] == f
  {
  }

  /** Exactly the chosen values that no selected Catalog has are reported, in order. */
  lemma InvalidMeans(catalogs: seq<Catalog>, fs: Filters, lower: string -> string)
    ensures var invalid := ReferenceInvalid(catalogs, fs, lower);
            && Ascends(invalid)
            && forall s :: s in invalid <==> Chosen(fs, s) && !Known(catalogs, s, lower)
  {
    var ss, invalid := Selections(fs), ReferenceInvalid(catalogs, fs, lower);
    BeforeIsStrict();
    SortDedupOrdered(Missing(ss, s => ReferenceFinds(catalogs, s, lower)), Before);
    OrderedAscends(invalid);
    forall s ensures s in invalid <==> Chosen(fs, s) && !Known(catalogs, s, lower) {
      MissingMembers(ss, x => ReferenceFinds(catalogs, x, lower), s);
      ChosenMeans(fs, s);
      KnownMeans(catalogs, s, lower);
    }
  }

  // ----- As they run -----

  /** Looks one value up the reference way. */
  method LookUp(catalogs: seq<Catalog>, s: Selected, lower: string -> string) returns (found: bool)
    ensures found == ReferenceFinds(catalogs, s, lower) == Known(catalogs, s, lower)
  {
    KnownMeans(catalogs, s, lower);
    if OptionFieldOf(s.field).Some? {
      var m := CollectCatalogOptions(catalogs, OptionFieldOf(s.field).value, None, lower);
      return lower(s.value) in m;
    }
    found := false;
    for i := 0 to |catalogs|
      invariant !found
      invariant forall c | c in catalogs[..i] ::
                  && (s.field == KeywordField ==> !OffersKeyword(c, AsciiLower(s.value)))
                  && (s.field == SubjectField ==> !OffersSubject(c, s.value))
                  && (s.field == CoreField ==> !OffersCore(c, s.value))
    {
      var c := catalogs[i];
      assert c in catalogs;
      if (s.field == KeywordField && OffersKeyword(c, AsciiLower(s.value)))
         || (s.field == SubjectField && OffersSubject(c, s.value))
         || (s.field == CoreField && OffersCore(c, s.value)) {
        return true;
      }
    }
    assert catalogs[..|catalogs|] == catalogs;
  }

  type DynamicDictionary = map<DynamicField, set<string>>

  predicate InDictionaries(ds: seq<DynamicDictionary>, s: Selected, lower: string -> string) {
    exists d | d in ds :: s.field in d && Normalize(s, lower) in d[s.field]
  }

  /** Looks one value up in the sets kept per target. */
  method LookUpPrepared(ds: seq<DynamicDictionary>, s: Selected, lower: string -> string) returns (found: bool)
    ensures found == InDictionaries(ds, s, lower)
  {
    var normalized := Normalize(s, lower);
    found := false;
    for i := 0 to |ds|
      invariant !found && forall k | 0 <= k < i :: !(s.field in ds[k] && normalized in ds[k][s.field])
    {
      if s.field in ds[i] && normalized in ds[i][s.field] {
        assert ds[i] in ds;
        return true;
      }
    }
  }

  /** Dictionaries built from the Catalogs find what the prepared path is said to find. */
  lemma DictionariesFind(ds: seq<DynamicDictionary>, catalogs: seq<Catalog>, s: Selected, lower: string -> string)
    requires |ds| == |catalogs|
    requires forall i | 0 <= i < |ds| ::
               s.field in ds[i] && ds[i][s.field] == DynamicValues(catalogs[i], s.field, lower)
    ensures InDictionaries(ds, s, lower) <==> PreparedFinds(catalogs, s, lower)
  {
    var normalized := Normalize(s, lower);
    if d :| d in ds && s.field in d && normalized in d[s.field] {
      var i :| 0 <= i < |ds| && ds[i] == d;
      assert catalogs[i] in catalogs;
    }
    if c :| c in catalogs && normalized in DynamicValues(c, s.field, lower) {
      var i :| 0 <= i < |ds| && catalogs[i] == c;
      assert ds[i] in ds;
    }
  }

  lemma {:induction false} MissingSame(ss: seq<Selected>, f: Selected -> bool, g: Selected -> bool)
    requires forall s | s in ss :: f(s) == g(s)
    ensures Missing(ss, f) == Missing(ss, g)
  {
    if ss != [] {
      var n := |ss| - 1;
      assert ss[n] in ss;
      MissingSame(ss[..n], f, g);
    }
  }

  method CollectMissing(catalogs: seq<Catalog>, ss: seq<Selected>, lower: string -> string)
    returns (missing: seq<Selected>)
    ensures missing == Missing(ss, s => ReferenceFinds(catalogs, s, lower))
  {
    missing := [];
    for i := 0 to |ss|
      invariant missing == Missing(ss[..i], s => ReferenceFinds(catalogs, s, lower))
    {
      assert ss[..i + 1][..i] == ss[..i];
      var found := LookUp(catalogs, ss[i], lower);
      if !found {
        missing := missing + [ss[i]];
      }
    }
    assert ss[..|ss|] == ss;
  }

  method CollectInvalid(catalogs: seq<Catalog>, fs: Filters, lower: string -> string) returns (invalid: seq<Selected>)
    ensures invalid == ReferenceInvalid(catalogs, fs, lower) && Ascends(invalid)
    ensures forall s :: s in invalid <==> Chosen(fs, s) && !Known(catalogs, s, lower)
  {
    InvalidMeans(catalogs, fs, lower);
    invalid := CollectMissing(catalogs, Selections(fs), lower);
    invalid := SortDedup(invalid, Before);
  }

  method CollectMissingPrepared(ds: seq<DynamicDictionary>, ss: seq<Selected>, lower: string -> string)
    returns (missing: seq<Selected>)
    ensures missing == Missing(ss, s => InDictionaries(ds, s, lower))
  {
    missing := [];
    for i := 0 to |ss|
      invariant missing == Missing(ss[..i], s => InDictionaries(ds, s, lower))
    {
      assert ss[..i + 1][..i] == ss[..i];
      var found := LookUpPrepared(ds, ss[i], lower);
      if !found {
        missing := missing + [ss[i]];
      }
    }
    assert ss[..|ss|] == ss;
  }

  lemma PreparedInvalidMeans(ds: seq<DynamicDictionary>, fs: Filters, lower: string -> string)
    ensures var invalid := SortDedup(Missing(Selections(fs), s => InDictionaries(ds, s, lower)), Before);
            && Ascends(invalid)
            && forall s :: s in invalid <==> Chosen(fs, s) && !InDictionaries(ds, s, lower)
  {
    var ss := Selections(fs);
    var invalid := SortDedup(Missing(ss, s => InDictionaries(ds, s, lower)), Before);
    BeforeIsStrict();
    SortDedupOrdered(Missing(ss, s => InDictionaries(ds, s, lower)), Before);
    OrderedAscends(invalid);
    forall s ensures s in invalid <==> Chosen(fs, s) && !InDictionaries(ds, s, lower) {
      MissingMembers(ss, x => InDictionaries(ds, x, lower), s);
      ChosenMeans(fs, s);
    }
  }

  method CollectInvalidPrepared(ds: seq<DynamicDictionary>, fs: Filters, lower: string -> string)
    returns (invalid: seq<Selected>)
    ensures invalid == SortDedup(Missing(Selections(fs), s => InDictionaries(ds, s, lower)), Before)
    ensures Ascends(invalid) && forall s :: s in invalid <==> Chosen(fs, s) && !InDictionaries(ds, s, lower)
  {
    PreparedInvalidMeans(ds, fs, lower);
    invalid := CollectMissingPrepared(ds, Selections(fs), lower);
    invalid := SortDedup(invalid, Before);
  }

  /** With dictionaries built from the Catalogs, the list collected is the reference path's own, under that one
      condition. */
  lemma CollectedListsAgree(ds: seq<DynamicDictionary>, catalogs: seq<Catalog>, fs: Filters, lower: string -> string)
    requires |ds| == |catalogs|
    requires forall i, f | 0 <= i < |ds| :: f in ds[i] && ds[i][f] == DynamicValues(catalogs[i], f, lower)
    ensures SortDedup(Missing(Selections(fs), s => InDictionaries(ds, s, lower)), Before)
            == ReferenceInvalid(catalogs, fs, lower)
            <==> forall code | code in fs.cores :: !MisspelledCore(catalogs, code)
  {
    forall s ensures InDictionaries(ds, s, lower) == PreparedFinds(catalogs, s, lower) {
      DictionariesFind(ds, catalogs, s, lower);
    }
    MissingSame(Selections(fs), s => InDictionaries(ds, s, lower), s => PreparedFinds(catalogs, s, lower));
    ValidationAgrees(catalogs, fs, lower);
  }
}
