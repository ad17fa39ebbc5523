/**
  What the canonicalizer does to each kind of value, said without its own tables and tests: which
  members of an object survive, where the order of an array counts and where whitespace counts.
 */
module CanonicalMeaning {
  import opened Json
  import opened Canonical
  import opened CanonicalOrder
  import opened CanonicalTheorems

  // ----- Looking up a member -----

  /** The first member under `key` is `v`. */
  ghost predicate First(es: seq<Entry>, key: string, v: Value) {
    exists i | 0 <= i < |es| :: es[i] == Entry(key, v) && forall j | 0 <= j < i :: es[j].key != key
  }

  lemma {:induction false} GetMeans(es: seq<Entry>, key: string, v: Value)
    requires v != Null
    ensures Get(es, key) == v <==> First(es, key, v)
  {
    if es != [] && es[0].key != key {
      var rest := es[1..];
      GetMeans(rest, key, v);
      if First(rest, key, v) {
        var i :| 0 <= i < |rest| && rest[i] == Entry(key, v) && forall j | 0 <= j < i :: rest[j].key != key;
        assert es[i + 1] == Entry(key, v);
        forall j | 0 <= j < i + 1 ensures es[j].key != key {
          assert j > 0 ==> es[j] == rest[j - 1];
        }
      }
      if First(es, key, v) {
        var i :| 0 <= i < |es| && es[i] == Entry(key, v) && forall j | 0 <= j < i :: es[j].key != key;
        assert rest[i - 1] == Entry(key, v);
        forall j | 0 <= j < i - 1 ensures rest[j].key != key {
          assert es[j + 1] == rest[j];
        }
      }
    } else if es != [] {
      assert es[0].key == key;
    }
  }

  // ----- Derived text -----

  /** An object that has words under `field`. */
  ghost predicate Says(v: Value, field: string) {
    v.Obj? && exists text :: First(v.entries, field, Str(text)) && !White(text)
  }

  /** An item of the structured array carries what the derived text was made of. */
  ghost predicate Informs(source: string, v: Value) {
    match source
    case "comments" => (v.Str? && !White(v.text)) || Says(v, "code") || Says(v, "description")
    case "instructors" => Says(v, "name")
    case _ => (v.Str? && !White(v.text)) || Says(v, "code")
  }

  /** The text says nothing that the array beside it does not. */
  ghost predicate Redundant(es: seq<Entry>, text: string, source: string) {
    exists words, items ::
      && First(es, text, Str(words)) && First(es, source, Arr(items))
      && (items == [] ==> White(words)) && forall v | v in items :: Informs(source, v)
  }

  lemma SaysMeans(v: Value, field: string)
    ensures HasText(v, field) <==> Says(v, field)
  {
    if v.Obj? {
      var found := Get(v.entries, field);
      if found.Str? {
        GetMeans(v.entries, field, found);
        BlankIsWhite(found.text);
      }
      forall text ensures First(v.entries, field, Str(text)) <==> found == Str(text) {
        GetMeans(v.entries, field, Str(text));
      }
    }
  }

  lemma InformsMeans(source: string, v: Value)
    ensures ValidItem(source, v) <==> Informs(source, v)
  {
    SaysMeans(v, "code");
    SaysMeans(v, "description");
    SaysMeans(v, "name");
    if v.Str? {
      BlankIsWhite(v.text);
    }
  }

  lemma RedundantMeans(es: seq<Entry>, text: string, source: string)
    requires StructuredSource(text) == source != ""
    ensures Trustworthy(es, text) <==> Redundant(es, text, source)
  {
    var t, a := Get(es, text), Get(es, source);
    forall v ensures ValidItem(source, v) <==> Informs(source, v) {
      InformsMeans(source, v);
    }
    if t.Str? && a.Arr? {
      GetMeans(es, text, t);
      GetMeans(es, source, a);
      BlankIsWhite(t.text);
    }
    if Redundant(es, text, source) {
      var words, items :| && First(es, text, Str(words)) && First(es, source, Arr(items))
                          && (items == [] ==> White(words)) && forall v | v in items :: Informs(source, v);
      GetMeans(es, text, Str(words));
      GetMeans(es, source, Arr(items));
    }
  }

  /** A section's own derived text that its structured array makes redundant. */
  ghost predicate Superfluous(es: seq<Entry>, key: string, p: Profile, path: Path) {
    && p == SectionSemantic && path == []
    && match key
       case "commentsText" => Redundant(es, key, "comments")
       case "instructorsText" => Redundant(es, key, "instructors")
       case "crossListedSectionsText" => Redundant(es, key, "crossListedSections")
       case _ => false
  }

  lemma SuperfluousMeans(es: seq<Entry>, key: string, p: Profile, path: Path)
    ensures Dropped(es, key, p, path) <==> Superfluous(es, key, p, path)
  {
    if StructuredSource(key) != "" {
      RedundantMeans(es, key, StructuredSource(key));
    }
  }

  // ----- Objects -----

  lemma {:induction false} KeepPositions(es: seq<Entry>, keep: Entry -> bool) returns (at: seq<nat>)
    ensures |at| == |Keep(es, keep)|
    ensures forall i | 0 <= i < |at| :: at[i] < |es| && Keep(es, keep)[i] == es[at[i]]
    ensures forall i, j | 0 <= i < j < |at| :: at[i] < at[j]
    ensures forall j: nat | j < |es| :: j in at <==> keep(es[j])
  {
    at := [];
    if es != [] {
      var n := |es| - 1;
      at := KeepPositions(es[..n], keep);
      assert es == es[..n] + [es[n]];
      KeepAppend(es[..n], es[n], keep);
      if keep(es[n]) {
        at := at + [n];
      }
    }
  }

  /** An object keeps its members in order, all but superfluous text, each made canonical under its key. */
  lemma ObjectMeans(es: seq<Entry>, p: Profile, path: Path) returns (at: seq<nat>)
    ensures var c := Canon(Obj(es), p, path); c.Obj? && |c.entries| == |at|
    ensures forall i, j | 0 <= i < j < |at| :: at[i] < at[j]
    ensures forall j: nat | j < |es| :: j in at <==> !Superfluous(es, es[j].key, p, path)
    ensures forall i | 0 <= i < |at| ::
              at[i] < |es| && var e := es[at[i]];
              Canon(Obj(es), p, path).entries[i] == Entry(e.key, Canon(e.value, p, path + [e.key]))
  {
    at := KeepPositions(es, (e: Entry) => !Dropped(es, e.key, p, path));
    CanonObj(es, p, path);
    forall j: nat | j < |es| ensures Dropped(es, es[j].key, p, path) <==> Superfluous(es, es[j].key, p, path) {
      SuperfluousMeans(es, es[j].key, p, path);
    }
  }

  // ----- Arrays -----

  lemma SwapMatters(x: Value, y: Value, p: Profile, path: Path)
    requires Printable(x) && Printable(y) && Canon(x, p, path) != Canon(y, p, path)
    ensures Canon(Arr([x, y]), p, path) == Canon(Arr([y, x]), p, path) <==> KnownSetArray(p, path)
  {
    var c, d := Canon(x, p, path), Canon(y, p, path);
    CanonArr([x, y], p, path);
    CanonArr([y, x], p, path);
    assert CanonItems([x, y], p, path) == [c, d] && CanonItems([y, x], p, path) == [d, c];
    if KnownSetArray(p, path) {
      CanonPrintable(x, p, path);
      CanonPrintable(y, p, path);
      SortForgetsOrder([c, d], [d, c]);
    } else {
      assert [c, d][0] != [d, c][0];
    }
  }

  /** Swapping two items that differ goes unnoticed in the known sets and nowhere else. */
  lemma OrderMatters(x: Value, y: Value, p: Profile, path: Path)
    requires Printable(x) && Printable(y) && Canon(x, p, path) != Canon(y, p, path)
    ensures Canon(Arr([x, y]), p, path) == Canon(Arr([y, x]), p, path) <==>
            match p
            case Exact => false
            case CourseSemantic => path in {["campusLocations"], ["coreCodes"]}
            case SectionSemantic =>
              path in {["comments"], ["crossListedSections"], ["honorPrograms"], ["instructors"], ["majors"],
                       ["minors"], ["sectionCampusLocations"], ["unitMajors"]}
  {
    SwapMatters(x, y, p, path);
    SetFields(p, path);
  }

  lemma SetFields(p: Profile, path: Path)
    ensures KnownSetArray(p, path) <==>
            match p
            case Exact => false
            case CourseSemantic => path in {["campusLocations"], ["coreCodes"]}
            case SectionSemantic =>
              path in {["comments"], ["crossListedSections"], ["honorPrograms"], ["instructors"], ["majors"],
                       ["minors"], ["sectionCampusLocations"], ["unitMajors"]}
  {
    assert |path| == 1 ==> path == [path[0]];
  }

  // ----- Strings -----

  /** Whitespace around a text goes unnoticed in the known strings and nowhere else. */
  lemma WhitespaceMatters(a: string, s: string, b: string, p: Profile, path: Path)
    requires White(a) && White(b) && a + b != ""
    ensures Canon(Str(a + s + b), p, path) == Canon(Str(s), p, path) <==>
            match p
            case Exact => false
            case CourseSemantic =>
              || (|path| == 1 && path[0] in COURSE_STRINGS)
              || path in {["coreCodes"], ["campusLocations", "code"], ["creditsObject", "code"], ["school", "code"]}
            case SectionSemantic =>
              || (|path| == 1 && path[0] in SECTION_STRINGS)
              || path in {["comments"], ["comments", "code"], ["comments", "description"], ["instructors", "name"],
                          ["crossListedSections", "code"], ["honorPrograms", "code"], ["majors", "code"],
                          ["minors", "code"], ["sectionCampusLocations", "code"],
                          ["sectionCampusLocations", "description"], ["unitMajors", "code"],
                          ["unitMajors", "unitCode"], ["unitMajors", "majorCode"]}
  {
    TrimIgnores(a, s, b);
    assert |a + s + b| > |s|;
    assert |path| == 2 ==> path == [path[0], path[1]];
  }
}
