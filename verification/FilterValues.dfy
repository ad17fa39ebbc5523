/**
  Normalizing the filter values of a request: tokens upper-cased or their whitespace collapsed, every
  list sorted and deduplicated, sizes and bands checked. Only normalized values reach either validator.
 */
module FilterValues {
  import opened Common
  import opened Canonical
  import opened CanonicalOrder
  import opened FilterCatalog
  import opened FilterText
  import opened SortedLists
  import opened DynamicFilters

  const MAX_FILTER_VALUES_PER_FIELD: nat := 100
  const MAX_AVAILABILITY_WINDOWS: nat := 64
  const MAX_TOTAL_FILTER_VALUES: nat := 512

  datatype FilterValueError = TooManyFieldValues | InvalidCourseNumberBand | TooManyTotalValues

  /** The sizes of the fields that are not looked up in any dictionary, after deduplication. */
  datatype OtherSizes = OtherSizes(fields: seq<nat>, availability: nat)

  predicate Lexically(a: string, b: string) {
    a != b && LexLeq(a, b)
  }

  predicate Below(a: nat, b: nat) {
    a < b
  }

  lemma LexicallyIsStrict()
    ensures StrictOrder(Lexically)
  {
    forall a, b ensures a == b || Lexically(a, b) || Lexically(b, a) {
      LexTotal(a, b);
    }
    forall a, b | Lexically(a, b) ensures !Lexically(b, a) {
      if LexLeq(b, a) {
        LexAntisymmetric(a, b);
      }
    }
    forall a, b, c | Lexically(a, b) && Lexically(b, c) ensures Lexically(a, c) {
      LexTransitive(a, b, c);
      if a == c {
        LexAntisymmetric(a, b);
      }
    }
  }

  function UppercaseTokens(values: seq<string>): (r: seq<string>)
    ensures |r| == |values| && forall i | 0 <= i < |r| :: r[i] == AsciiUpper(values[i])
  {
    seq(|values|, i requires 0 <= i < |values| => AsciiUpper(values[i]))
  }

  function CollapseWhitespace(values: seq<string>): (r: seq<string>)
    ensures |r| == |values| && forall i | 0 <= i < |r| :: r[i] == JoinWords(values[i])
  {
    seq(|values|, i requires 0 <= i < |values| => JoinWords(values[i]))
  }

  function Canonicalize(values: seq<string>): seq<string> {
    SortDedup(values, Lexically)
  }

  function Normalized(input: Filters): Filters {
    input.(subjects := Canonicalize(input.subjects),
           levels := Canonicalize(UppercaseTokens(input.levels)),
           bands := SortDedup(input.bands, Below),
           cores := Canonicalize(UppercaseTokens(input.cores)),
           instructors := Canonicalize(CollapseWhitespace(input.instructors)),
           locations := Canonicalize(UppercaseTokens(input.locations)),
           exams := Canonicalize(UppercaseTokens(input.exams)))
  }

  function Sizes(fs: Filters): seq<nat> {
    [|fs.subjects|, |fs.bands|, |fs.levels|, |fs.cores|, |fs.instructors|, |fs.locations|, |fs.exams|]
  }

  function Sum(sizes: seq<nat>): nat {
    if sizes == [] then 0 else sizes[0] + Sum(sizes[1..])
  }

  // ----- What normalizing is for -----

  function Uppers(values: seq<string>): set<string> {
    set v | v in values :: AsciiUpper(v)
  }

  function Collapsed(values: seq<string>): set<string> {
    set v | v in values :: JoinWords(v)
  }

  function Members<T(==)>(values: seq<T>): set<T> {
    set v | v in values
  }

  /** The values in order, each once. */
  predicate Lists(list: seq<string>, values: set<string>) {
    Ordered(list, Lexically) && Members(list) == values
  }

  /** The lists hold the distinct values of the input: codes in uppercase, names without stray whitespace. */
  predicate Normal(input: Filters, fs: Filters) {
    && fs.keywords == input.keywords && Lists(fs.subjects, Members(input.subjects))
    && Ordered(fs.bands, Below) && Members(fs.bands) == Members(input.bands)
    && Lists(fs.levels, Uppers(input.levels)) && Lists(fs.cores, Uppers(input.cores))
    && Lists(fs.instructors, Collapsed(input.instructors))
    && Lists(fs.locations, Uppers(input.locations)) && Lists(fs.exams, Uppers(input.exams))
  }

  /** How many distinct values each field selects. */
  function Counts(input: Filters): seq<nat> {
    [|Members(input.subjects)|, |Members(input.bands)|, |Uppers(input.levels)|, |Uppers(input.cores)|,
     |Collapsed(input.instructors)|, |Uppers(input.locations)|, |Uppers(input.exams)|]
  }

  predicate FieldsFit(input: Filters, others: OtherSizes) {
    && (forall n | n in Counts(input) + others.fields :: n <= MAX_FILTER_VALUES_PER_FIELD)
    && others.availability <= MAX_AVAILABILITY_WINDOWS
  }

  predicate BandsFit(input: Filters) {
    forall band | band in input.bands :: band % 100 == 0 && band <= U32_MAX - 99
  }

  predicate TotalFits(input: Filters, others: OtherSizes) {
    Sum(Counts(input) + others.fields) + others.availability <= MAX_TOTAL_FILTER_VALUES
  }

  lemma CanonicalLists(values: seq<string>)
    ensures Lists(Canonicalize(values), Members(values)) && |Canonicalize(values)| == |Members(values)|
  {
    LexicallyIsStrict();
    SortDedupOrdered(values, Lexically);
    OrderedSize(Canonicalize(values), Lexically);
    assert Members(Canonicalize(values)) == Members(values);
  }

  lemma UpperLists(values: seq<string>)
    ensures var list := Canonicalize(UppercaseTokens(values)); Lists(list, Uppers(values)) && |list| == |Uppers(values)|
  {
    CanonicalLists(UppercaseTokens(values));
    assert Members(UppercaseTokens(values)) == Uppers(values);
  }

  lemma CollapsedLists(values: seq<string>)
    ensures var list := Canonicalize(CollapseWhitespace(values));
            Lists(list, Collapsed(values)) && |list| == |Collapsed(values)|
  {
    CanonicalLists(CollapseWhitespace(values));
    assert Members(CollapseWhitespace(values)) == Collapsed(values);
  }

  lemma BandLists(bands: seq<nat>)
    ensures var list := SortDedup(bands, Below);
            Ordered(list, Below) && Members(list) == Members(bands) && |list| == |Members(bands)|
  {
    assert StrictOrder(Below);
    SortDedupOrdered(bands, Below);
    OrderedSize(SortDedup(bands, Below), Below);
    assert Members(SortDedup(bands, Below)) == Members(bands);
  }

  lemma NormalizedIsNormal(input: Filters)
    ensures Normal(input, Normalized(input)) && Sizes(Normalized(input)) == Counts(input)
  {
    CanonicalLists(input.subjects);
    BandLists(input.bands);
    UpperLists(input.levels);
    UpperLists(input.cores);
    CollapsedLists(input.instructors);
    UpperLists(input.locations);
    UpperLists(input.exams);
  }

  /** Only one value is normal for an input. */
  lemma NormalUnique(input: Filters, a: Filters, b: Filters)
    requires Normal(input, a) && Normal(input, b)
    ensures a == b
  {
    LexicallyIsStrict();
    SameLists(a.subjects, b.subjects);
    SameLists(a.levels, b.levels);
    SameLists(a.cores, b.cores);
    SameLists(a.instructors, b.instructors);
    SameLists(a.locations, b.locations);
    SameLists(a.exams, b.exams);
    assert forall x :: x in a.bands <==> x in Members(a.bands);
    assert forall x :: x in b.bands <==> x in Members(b.bands);
    OrderedUnique(a.bands, b.bands, Below);
  }

  lemma SameLists(a: seq<string>, b: seq<string>)
    requires StrictOrder(Lexically) && Ordered(a, Lexically) && Ordered(b, Lexically) && Members(a) == Members(b)
    ensures a == b
  {
    assert forall x :: x in a <==> x in Members(a);
    assert forall x :: x in b <==> x in Members(b);
    OrderedUnique(a, b, Lexically);
  }

  /** The one normal form of the input, or the first limit it breaks. */
  function TryNew(input: Filters, others: OtherSizes): (r: Result<Filters, FilterValueError>)
    ensures r.Ok? ==> Normal(input, r.value)
    ensures r == Err(TooManyFieldValues) <==> !FieldsFit(input, others)
    ensures r == Err(InvalidCourseNumberBand) <==> FieldsFit(input, others) && !BandsFit(input)
    ensures r == Err(TooManyTotalValues) <==>
              FieldsFit(input, others) && BandsFit(input) && !TotalFits(input, others)
  {
    NormalizedIsNormal(input);
    var fs := Normalized(input);
    var sizes := Sizes(fs) + others.fields;
    if (exists n | n in sizes :: n > MAX_FILTER_VALUES_PER_FIELD) || others.availability > MAX_AVAILABILITY_WINDOWS
    then Err(TooManyFieldValues)
    else if exists band | band in fs.bands :: band % 100 != 0 || band > U32_MAX - 99 then Err(InvalidCourseNumberBand)
    else if Sum(sizes) + others.availability > MAX_TOTAL_FILTER_VALUES then Err(TooManyTotalValues)
    else Ok(fs)
  }

  // ----- Normalizing again changes nothing -----

  lemma {:induction false} JoinWordsTwice(s: string)
    ensures JoinWords(JoinWords(s)) == JoinWords(s)
    ensures JoinWords(s) != "" ==> !WhiteSpace(JoinWords(s)[0])
    decreases |s|
  {
    var t := TrimStart(s);
    var word := Word(t);
    if word != "" {
      TrimStartShorter(s);
      WordHasNoSpace(t);
      JoinWordsTwice(t[|word|..]);
      var rest := JoinWords(t[|word|..]);
      var tail := if rest == "" then "" else [' '] + rest;
      WordThenSpace(word, tail);
      assert (word + tail)[|word|..] == tail;
      SpaceFirst(rest);
      assert JoinWords(s) == word + tail;
    }
  }

  lemma SpaceFirst(rest: string)
    requires rest != "" ==> !WhiteSpace(rest[0])
    ensures JoinWords([' '] + rest) == JoinWords(rest)
  {
    assert ([' '] + rest)[1..] == rest;
    assert TrimStart([' '] + rest) == TrimStart(rest);
  }

  lemma UpperTokensTwice(values: seq<string>)
    requires forall v | v in values :: AsciiUpper(v) == v
    ensures UppercaseTokens(values) == values
  {
  }

  lemma UpperListTwice(values: seq<string>)
    ensures var once := Canonicalize(UppercaseTokens(values)); Canonicalize(UppercaseTokens(once)) == once
    ensures forall v | v in Canonicalize(UppercaseTokens(values)) :: AsciiUpper(v) == v
  {
    LexicallyIsStrict();
    var once := Canonicalize(UppercaseTokens(values));
    forall v | v in once ensures AsciiUpper(v) == v {
      var i :| 0 <= i < |values| && v == AsciiUpper(values[i]);
      UpperTwice(values[i]);
    }
    UpperTokensTwice(once);
    SortDedupTwice(UppercaseTokens(values), Lexically);
  }

  lemma CollapsedListTwice(values: seq<string>)
    ensures var once := Canonicalize(CollapseWhitespace(values)); Canonicalize(CollapseWhitespace(once)) == once
  {
    LexicallyIsStrict();
    var once := Canonicalize(CollapseWhitespace(values));
    forall v | v in once ensures JoinWords(v) == v {
      var i :| 0 <= i < |values| && v == JoinWords(values[i]);
      JoinWordsTwice(values[i]);
    }
    assert CollapseWhitespace(once) == once;
    SortDedupTwice(CollapseWhitespace(values), Lexically);
  }

  /** A normalized value read back is accepted as it is. */
  lemma NormalizedTwice(input: Filters, others: OtherSizes)
    requires TryNew(input, others).Ok?
    ensures TryNew(TryNew(input, others).value, others) == TryNew(input, others)
  {
    LexicallyIsStrict();
    assert StrictOrder(Below);
    SortDedupTwice(input.subjects, Lexically);
    SortDedupTwice(input.bands, Below);
    UpperListTwice(input.levels);
    UpperListTwice(input.cores);
    UpperListTwice(input.locations);
    UpperListTwice(input.exams);
    CollapsedListTwice(input.instructors);
    assert Normalized(Normalized(input)) == Normalized(input);
  }

  // ----- Both validators agree on every request -----

  /** Core codes reach the validators in uppercase, so their lists of invalid values are the same. */
  lemma NormalizedListsAgree(catalogs: seq<Catalog>, input: Filters, others: OtherSizes, lower: string -> string)
    requires TryNew(input, others).Ok?
    ensures var fs := TryNew(input, others).value;
            ReferenceInvalid(catalogs, fs, lower) == PreparedInvalid(catalogs, fs, lower)
  {
    var fs := TryNew(input, others).value;
    UpperListTwice(input.cores);
    assert forall code | code in fs.cores :: AsciiUpper(code) == code;
    ValidationAgrees(catalogs, fs, lower);
  }

  /** The same for the list the prepared path reads off the dictionaries of those Catalogs. */
  lemma NormalizedDictionariesAgree(ds: seq<DynamicDictionary>, catalogs: seq<Catalog>, input: Filters,
                                    others: OtherSizes, lower: string -> string)
    requires TryNew(input, others).Ok? && |ds| == |catalogs|
    requires forall i, f | 0 <= i < |ds| :: f in ds[i] && ds[i][f] == DynamicValues(catalogs[i], f, lower)
    ensures var fs := TryNew(input, others).value;
            SortDedup(Missing(Selections(fs), s => InDictionaries(ds, s, lower)), Before)
              == ReferenceInvalid(catalogs, fs, lower)
  {
    var fs := TryNew(input, others).value;
    UpperListTwice(input.cores);
    assert forall code | code in fs.cores :: AsciiUpper(code) == code;
    CollectedListsAgree(ds, catalogs, fs, lower);
  }

  /** Without normalization they would not: a lower-case code of an offered core course. */
  lemma UnnormalizedListsDiffer(lower: string -> string) returns (catalogs: seq<Catalog>, fs: Filters)
    ensures ReferenceInvalid(catalogs, fs, lower) != PreparedInvalid(catalogs, fs, lower)
  {
    var variant := Variant(None, None, None, Some(["QQ"]));
    catalogs := [Catalog([variant], [], [], [], [])];
    fs := Filters([], [], [], [], ["qq"], [], [], []);
    assert AsciiUpper("qq") == "QQ" && AsciiUpper("QQ") == "QQ";
    assert variant in catalogs[0].variants && "QQ" in variant.coreCodes.value;
    assert OffersCore(catalogs[0], "QQ") && catalogs[0] in catalogs;
    assert "qq" in fs.cores && MisspelledCore(catalogs, "qq");
    ValidationAgrees(catalogs, fs, lower);
  }
}
