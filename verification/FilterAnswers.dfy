/**
  The answer to a filter-option request against the records of its Catalogs: collecting is one pass over
  the records, and what is collected, listed and cut is exactly what the records offer.
 */
module FilterAnswers {
  import opened Common
  import opened Canonical
  import opened FilterCatalog
  import opened FilterText
  import opened FilterSummary
  import opened FilterOptions
  import opened FilterRecords

  // ----- The pass over the Catalogs is a pass over the records -----

  /** What is made of the records, in order. */
  function Pile(rs: seq<Record>, make: Record -> seq<FilterOption>): seq<FilterOption> {
    if rs == [] then [] else make(rs[0]) + Pile(rs[1..], make)
  }

  lemma {:induction false} PileConcat(a: seq<Record>, b: seq<Record>, make: Record -> seq<FilterOption>)
    ensures Pile(a + b, make) == Pile(a, make) + Pile(b, make)
  {
    if a == [] {
      assert a + b == b;
    } else {
      assert (a + b)[1..] == a[1..] + b;
      PileConcat(a[1..], b, make);
    }
  }

  lemma {:induction false} FilterConcat(a: seq<FilterOption>, b: seq<FilterOption>, pass: FilterOption -> bool)
    ensures Filter(a + b, pass) == Filter(a, pass) + Filter(b, pass)
  {
    if a == [] {
      assert a + b == b;
    } else {
      assert (a + b)[1..] == a[1..] + b;
      FilterConcat(a[1..], b, pass);
    }
  }

  /** Filtering the options of some records gives their pile. */
  ghost predicate Piles(os: seq<FilterOption>, rs: seq<Record>, field: OptionField, query: Option<string>,
                        lower: string -> string)
  {
    Filter(os, o => Matches(field, query, lower, o)) == Pile(rs, Maker(field, query, lower))
  }

  /** One record in front of others. */
  lemma PileCons(r: Record, made: seq<FilterOption>, rs: seq<Record>, os: seq<FilterOption>, field: OptionField,
                 query: Option<string>, lower: string -> string)
    requires made == Made(r, field) && Piles(os, rs, field, query, lower)
    ensures Piles(made + os, [r] + rs, field, query, lower)
  {
    FilterConcat(made, os, o => Matches(field, query, lower, o));
    assert ([r] + rs)[1..] == rs;
  }

  lemma {:induction false} VariantsPile(vs: seq<Variant>, field: OptionField, query: Option<string>,
                                        lower: string -> string)
    ensures Piles(FromVariants(vs, field), Variants(vs), field, query, lower)
  {
    if vs != [] {
      VariantsPile(vs[1..], field, query, lower);
      PileCons(OfVariant(vs[0]), if field == CourseNumberBand then BandOptions(vs[0]) else LevelOptions(vs[0]),
               Variants(vs[1..]), FromVariants(vs[1..], field), field, query, lower);
    }
  }

  lemma {:induction false} NamesPile(names: seq<string>, field: OptionField, query: Option<string>,
                                     lower: string -> string)
    ensures Piles(NameOptions(names), Names(names), field, query, lower)
  {
    if names != [] {
      NamesPile(names[1..], field, query, lower);
      PileCons(OfName(names[0]), NameOptions([names[0]]), Names(names[1..]), NameOptions(names[1..]), field, query,
               lower);
      assert NameOptions(names) == NameOptions([names[0]]) + NameOptions(names[1..]);
    }
  }

  lemma {:induction false} TaughtPile(ss: seq<Section>, query: Option<string>, lower: string -> string)
    ensures Piles(FromSections(ss, Instructor), Taught(ss), Instructor, query, lower)
  {
    if ss != [] {
      TaughtPile(ss[1..], query, lower);
      var names := if ss[0].instructors.Some? then ss[0].instructors.value else [];
      NamesPile(names, Instructor, query, lower);
      FilterConcat(NameOptions(names), FromSections(ss[1..], Instructor), o => Matches(Instructor, query, lower, o));
      PileConcat(Names(names), Taught(ss[1..]), Maker(Instructor, query, lower));
    }
  }

  lemma {:induction false} SectionsPile(ss: seq<Section>, query: Option<string>, lower: string -> string)
    ensures Piles(FromSections(ss, ExamCode), Sections(ss), ExamCode, query, lower)
  {
    if ss != [] {
      SectionsPile(ss[1..], query, lower);
      PileCons(OfSection(ss[0]), CodedOptions(ss[0].examCode, ss[0].examCodeText), Sections(ss[1..]),
               FromSections(ss[1..], ExamCode), ExamCode, query, lower);
    }
  }

  lemma {:induction false} OccurrencesPile(os: seq<Occurrence>, query: Option<string>, lower: string -> string)
    ensures Piles(FromOccurrences(os), Occurrences(os), MeetingLocation, query, lower)
  {
    if os != [] {
      OccurrencesPile(os[1..], query, lower);
      PileCons(OfOccurrence(os[0]), CodedOptions(os[0].campus, os[0].campusName), Occurrences(os[1..]),
               FromOccurrences(os[1..]), MeetingLocation, query, lower);
    }
  }

  lemma CatalogPile(c: Catalog, field: OptionField, query: Option<string>, lower: string -> string)
    ensures Piles(Contributions(c, field), RecordsOf(c, field), field, query, lower)
  {
    match field
    case CourseNumberBand => VariantsPile(c.variants, field, query, lower);
    case CourseLevel => VariantsPile(c.variants, field, query, lower);
    case Instructor => TaughtPile(c.sections, query, lower);
    case MeetingLocation => OccurrencesPile(c.occurrences, query, lower);
    case ExamCode => SectionsPile(c.sections, query, lower);
  }

  lemma {:induction false} ReferencePileIs(catalogs: seq<Catalog>, field: OptionField, query: Option<string>,
                                           lower: string -> string)
    ensures ReferencePile(catalogs, field, query, lower) == Pile(Records(catalogs, field), Maker(field, query, lower))
  {
    if catalogs != [] {
      var n := |catalogs| - 1;
      ReferencePileIs(catalogs[..n], field, query, lower);
      CatalogPile(catalogs[n], field, query, lower);
      PileConcat(Records(catalogs[..n], field), RecordsOf(catalogs[n], field), Maker(field, query, lower));
    }
  }

  // ----- The map describes the records -----

  /** What is found under a key is what the records that carry it say. */
  ghost predicate Told(found: Option<FilterOption>, rs: seq<Record>, offers: (Record, FilterOption) -> bool,
                       lower: string -> string, key: string)
  {
    match found
    case None => forall i: nat, o :: !Carries(rs, offers, lower, key, i, o)
    case Some(x) => FirstValue(rs, offers, lower, key, x.value) && FirstLongest(rs, offers, lower, key, x.caption)
  }

  /** A record that offers nothing under a key changes nothing there. */
  lemma ToldStays(found: Option<FilterOption>, rs: seq<Record>, r: Record, offers: (Record, FilterOption) -> bool,
                  lower: string -> string, key: string)
    requires Told(found, rs, offers, lower, key) && forall o | offers(r, o) :: lower(o.value) != key
    ensures Told(found, rs + [r], offers, lower, key)
  {
    forall i: nat, o
      ensures Carries(rs + [r], offers, lower, key, i, o) <==> Carries(rs, offers, lower, key, i, o)
    {
    }
  }

  /** Under the key there is one record more, the last. */
  ghost predicate OneMore(rs: seq<Record>, r: Record, offers: (Record, FilterOption) -> bool, lower: string -> string,
                          key: string, o: FilterOption)
  {
    forall j: nat, p :: Carries(rs + [r], offers, lower, key, j, p) <==>
                          Carries(rs, offers, lower, key, j, p) || (j == |rs| && p == o)
  }

  lemma FirstStays(rs: seq<Record>, r: Record, offers: (Record, FilterOption) -> bool, lower: string -> string,
                   key: string, o: FilterOption, value: string)
    requires FirstValue(rs, offers, lower, key, value) && OneMore(rs, r, offers, lower, key, o)
    ensures FirstValue(rs + [r], offers, lower, key, value)
  {
    var i, w :| && Carries(rs, offers, lower, key, i, w) && w.value == value
                && forall j, p | Carries(rs, offers, lower, key, j, p) :: i <= j;
    assert Carries(rs + [r], offers, lower, key, i, w);
  }

  lemma LongestGrows(rs: seq<Record>, r: Record, offers: (Record, FilterOption) -> bool, lower: string -> string,
                     key: string, o: FilterOption, caption: string)
    requires FirstLongest(rs, offers, lower, key, caption) && OneMore(rs, r, offers, lower, key, o)
    ensures FirstLongest(rs + [r], offers, lower, key, Longer(caption, o.caption))
  {
    var i, w :| && Carries(rs, offers, lower, key, i, w) && w.caption == caption
                && forall j, p | Carries(rs, offers, lower, key, j, p) ::
                     && ByteLength(p.caption) <= ByteLength(caption)
                     && (j < i ==> ByteLength(p.caption) < ByteLength(caption));
    assert Carries(rs + [r], offers, lower, key, i, w) && Carries(rs + [r], offers, lower, key, |rs|, o);
  }

  /** One more record under a key: its value counts if it is the first, its label if it is the longest so far. */
  lemma ToldMore(m: OptionMap, rs: seq<Record>, r: Record, offers: (Record, FilterOption) -> bool,
                 lower: string -> string, o: FilterOption)
    requires Told(At(m, lower(o.value)), rs, offers, lower, lower(o.value))
    requires OneMore(rs, r, offers, lower, lower(o.value), o)
    ensures Told(At(InsertOption(m, o, lower), lower(o.value)), rs + [r], offers, lower, lower(o.value))
  {
    var key := lower(o.value);
    if key in m {
      FirstStays(rs, r, offers, lower, key, o, m[key].value);
      LongestGrows(rs, r, offers, lower, key, o, m[key].caption);
    } else {
      assert Carries(rs + [r], offers, lower, key, |rs|, o);
    }
  }

  lemma ToldStep(m: OptionMap, rs: seq<Record>, r: Record, offers: (Record, FilterOption) -> bool,
                 lower: string -> string, o: FilterOption, key: string)
    requires Told(At(m, key), rs, offers, lower, key) && Makes([o], r, offers)
    ensures Told(At(InsertOption(m, o, lower), key), rs + [r], offers, lower, key)
  {
    forall p | offers(r, p) ensures p == o {
      assert [o] == [p];
      assert [o][0] == [p][0];
    }
    if lower(o.value) != key {
      ToldStays(At(m, key), rs, r, offers, lower, key);
    } else {
      assert offers(r, o);
      assert OneMore(rs, r, offers, lower, key, o);
      ToldMore(m, rs, r, offers, lower, o);
    }
  }

  lemma {:induction false} SummaryTells(rs: seq<Record>, make: Record -> seq<FilterOption>,
                                        offers: (Record, FilterOption) -> bool, lower: string -> string, key: string)
    requires forall r | r in rs :: Makes(make(r), r, offers)
    ensures Told(At(Summary(Pile(rs, make), lower), key), rs, offers, lower, key)
  {
    if rs != [] {
      var n := |rs| - 1;
      var before, r := rs[..n], rs[n];
      var pile, made := Pile(before, make), make(r);
      SummaryTells(before, make, offers, lower, key);
      assert rs == before + [r];
      PileConcat(before, [r], make);
      assert Pile([r], make) == made;
      assert Makes(made, r, offers);
      if made == [] {
        assert pile + made == pile;
        ToldStays(At(Summary(pile, lower), key), before, r, offers, lower, key);
      } else {
        assert made == [made[0]];
        SummaryAppend(pile, made[0], lower);
        ToldStep(Summary(pile, lower), before, r, offers, lower, made[0], key);
      }
    }
  }

  lemma ToldDescribes(m: OptionMap, rs: seq<Record>, offers: (Record, FilterOption) -> bool, lower: string -> string)
    requires forall key :: Told(At(m, key), rs, offers, lower, key)
    ensures Describes(m, rs, offers, lower)
  {
    forall key
      ensures key in m <==> exists i, o :: Carries(rs, offers, lower, key, i, o)
      ensures key in m ==> && FirstValue(rs, offers, lower, key, m[key].value)
                           && FirstLongest(rs, offers, lower, key, m[key].caption)
    {
      assert Told(At(m, key), rs, offers, lower, key);
    }
  }

  /** The map collected in one pass over the Catalogs says exactly what their records say. */
  lemma CollectedDescribes(catalogs: seq<Catalog>, field: OptionField, query: Option<string>, lower: string -> string)
    ensures Describes(Summary(ReferencePile(catalogs, field, query, lower), lower), Records(catalogs, field),
                      Offering(field, query, lower), lower)
  {
    var m, rs := Summary(ReferencePile(catalogs, field, query, lower), lower), Records(catalogs, field);
    var make, offers := Maker(field, query, lower), Offering(field, query, lower);
    ReferencePileIs(catalogs, field, query, lower);
    forall r | r in rs ensures Makes(make(r), r, offers) {
      RecordMakes(r, field, query, lower);
    }
    forall key ensures Told(At(m, key), rs, offers, lower, key) {
      SummaryTells(rs, make, offers, lower, key);
    }
    ToldDescribes(m, rs, offers, lower);
  }

  // ----- The answer -----

  /** Every option of the map once; bands in the order of their numbers, others by folded label, then by value. */
  ghost predicate Lists(list: seq<FilterOption>, m: OptionMap, field: OptionField, lower: string -> string) {
    && (forall o | o in list :: lower(o.value) in m && m[lower(o.value)] == o)
    && (forall key | key in m :: m[key] in list)
    && forall i, j | 0 <= i < j < |list| ::
         var a, b := list[i], list[j];
         && lower(a.value) != lower(b.value)
         && if field == CourseNumberBand then ParseDigits(a.value) <= ParseDigits(b.value)
            else if lower(a.caption) == lower(b.caption) then LexLeq(a.value, b.value)
            else LexLeq(lower(a.caption), lower(b.caption))
  }

  /** The options the records offer, listed and cut at the limit; bands are not cut. */
  ghost predicate Answers(r: Response, catalogs: seq<Catalog>, field: OptionField, query: Option<string>, limit: nat,
                          lower: string -> string)
  {
    exists m, list |
      Describes(m, Records(catalogs, field), Offering(field, query, lower), lower) && Lists(list, m, field, lower) ::
      && r.options <= list
      && (r.truncated <==> |list| > if field == CourseNumberBand then USIZE_MAX else limit)
      && (!r.truncated ==> r.options == list)
      && (r.truncated ==> |r.options| == if field == CourseNumberBand then USIZE_MAX else limit)
  }

  lemma TwiceCounts(os: seq<FilterOption>, i: nat, j: nat)
    requires i < j < |os| && os[i] == os[j]
    ensures multiset(os)[os[i]] >= 2
  {
    assert os == os[..j] + [os[j]] + os[j + 1..];
    assert os[..j][i] in multiset(os[..j]);
  }

  /** A listing holds the options of the map, each at one place. */
  lemma ListingOnce(m: OptionMap, field: OptionField, lower: string -> string)
    requires forall key | key in m :: lower(m[key].value) == key
    ensures var list := Listing(m, field, lower);
            && (forall o | o in list :: lower(o.value) in m && m[lower(o.value)] == o)
            && (forall key | key in m :: m[key] in list)
            && forall i, j | 0 <= i < j < |list| :: lower(list[i].value) != lower(list[j].value)
  {
    var list := Listing(m, field, lower);
    forall o | o in list ensures lower(o.value) in m && m[lower(o.value)] == o {
      ListingGroups(m, field, lower, lower(o.value));
      InGroup(list, lower, lower(o.value), o);
    }
    forall key | key in m ensures m[key] in list {
      ListingGroups(m, field, lower, key);
      assert m[key] in Group(list, lower, key);
    }
    forall i, j | 0 <= i < j < |list| ensures lower(list[i].value) != lower(list[j].value) {
      if lower(list[i].value) == lower(list[j].value) {
        assert list[i] in list && list[j] in list;
        var key := lower(list[i].value);
        TwiceCounts(list, i, j);
        GroupCounts(list, lower, key, list[i]);
        ListingGroups(m, field, lower, key);
      }
    }
  }

  lemma FirstCarrier(m: OptionMap, rs: seq<Record>, offers: (Record, FilterOption) -> bool, lower: string -> string,
                     key: string)
    returns (i: nat, o: FilterOption)
    requires Describes(m, rs, offers, lower) && key in m
    ensures Carries(rs, offers, lower, key, i, o) && o.value == m[key].value
  {
    assert FirstValue(rs, offers, lower, key, m[key].value);
    i, o :| Carries(rs, offers, lower, key, i, o) && o.value == m[key].value;
  }

  /** A band's value is read as the number it is written for. */
  lemma BandReads(number: Option<string>, o: FilterOption)
    requires OffersBand(number, o)
    ensures BandKey(o.value) == ParseDigits(o.value)
  {
    var band: nat, low, high :|
      && FallsIn(number.value, band) && ThreeDigits(low, band) && ThreeDigits(high, band + 99)
      && band + 99 <= U32_MAX && o == FilterOption(Decimal(band), low + "-" + high);
    DecimalReads(band);
  }

  lemma BandValue(m: OptionMap, rs: seq<Record>, query: Option<string>, lower: string -> string, key: string)
    requires Describes(m, rs, Offering(CourseNumberBand, query, lower), lower) && key in m
    ensures BandKey(m[key].value) == ParseDigits(m[key].value)
  {
    var i, o := FirstCarrier(m, rs, Offering(CourseNumberBand, query, lower), lower, key);
    assert Offers(rs[i], CourseNumberBand, query, lower, o);
    BandReads(rs[i].variant.courseNumber, o);
  }

  lemma KeysFold(m: OptionMap, rs: seq<Record>, offers: (Record, FilterOption) -> bool, lower: string -> string)
    requires Describes(m, rs, offers, lower)
    ensures forall key | key in m :: lower(m[key].value) == key
  {
    forall key | key in m ensures lower(m[key].value) == key {
      var i, o := FirstCarrier(m, rs, offers, lower, key);
    }
  }

  lemma OrderedMeans(field: OptionField, lower: string -> string, a: FilterOption, b: FilterOption)
    requires OptionLeq(field, lower, a, b)
    requires field == CourseNumberBand ==>
               BandKey(a.value) == ParseDigits(a.value) && BandKey(b.value) == ParseDigits(b.value)
    ensures if field == CourseNumberBand then ParseDigits(a.value) <= ParseDigits(b.value)
            else if lower(a.caption) == lower(b.caption) then LexLeq(a.value, b.value)
            else LexLeq(lower(a.caption), lower(b.caption))
  {
  }

  lemma ListingLists(m: OptionMap, rs: seq<Record>, field: OptionField, query: Option<string>,
                     lower: string -> string)
    requires Describes(m, rs, Offering(field, query, lower), lower)
    ensures Lists(Listing(m, field, lower), m, field, lower)
  {
    var list := Listing(m, field, lower);
    KeysFold(m, rs, Offering(field, query, lower), lower);
    ListingOnce(m, field, lower);
    SortInOrder(InKeyOrder(m, m.Keys), field, lower);
    forall i, j | 0 <= i < j < |list|
      ensures var a, b := list[i], list[j];
              if field == CourseNumberBand then ParseDigits(a.value) <= ParseDigits(b.value)
              else if lower(a.caption) == lower(b.caption) then LexLeq(a.value, b.value)
              else LexLeq(lower(a.caption), lower(b.caption))
    {
      assert list[i] in list && list[j] in list;
      if field == CourseNumberBand {
        BandValue(m, rs, query, lower, lower(list[i].value));
        BandValue(m, rs, query, lower, lower(list[j].value));
      }
      OrderedMeans(field, lower, list[i], list[j]);
    }
  }

  /** The answer to a request is what the records of its Catalogs offer. */
  lemma AnswerAnswers(catalogs: seq<Catalog>, field: OptionField, query: Option<string>, limit: nat,
                      lower: string -> string)
    ensures Answers(Answer(Summary(ReferencePile(catalogs, field, query, lower), lower), field, limit, lower),
                    catalogs, field, query, limit, lower)
  {
    var m := Summary(ReferencePile(catalogs, field, query, lower), lower);
    CollectedDescribes(catalogs, field, query, lower);
    ListingLists(m, Records(catalogs, field), field, query, lower);
    assert Lists(Listing(m, field, lower), m, field, lower);
  }
}
