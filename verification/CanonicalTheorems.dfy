/**
  What canonicalization promises: it is idempotent, and two values get the same canonical form exactly
  when they differ only by the order of known sets, outer whitespace of known strings, and derived text
  whose structured source can be trusted.
 */
module CanonicalTheorems {
  import opened Json
  import opened Canonical
  import opened CanonicalOrder

  /** The items of a canonical array before any sorting. */
  function CanonItems(vs: seq<Value>, p: Profile, path: Path): (r: seq<Value>)
    ensures |r| == |vs| && forall i | 0 <= i < |vs| :: r[i] == Canon(vs[i], p, path)
  {
    seq(|vs|, i requires 0 <= i < |vs| => Canon(vs[i], p, path))
  }

  lemma CanonArr(vs: seq<Value>, p: Profile, path: Path)
    ensures var items := CanonItems(vs, p, path);
            Canon(Arr(vs), p, path) == Arr(if KnownSetArray(p, path) then Sort(items) else items)
  {
    assert CanonItems(vs, p, path) == seq(|vs|, i requires 0 <= i < |vs| => Canon(vs[i], p, path));
  }

  lemma CanonObj(es: seq<Entry>, p: Profile, path: Path)
    ensures var kept, c := Kept(es, es, p, path), Canon(Obj(es), p, path);
            && c.Obj? && |c.entries| == |kept|
            && forall i | 0 <= i < |kept| ::
                 c.entries[i] == Entry(kept[i].key, Canon(kept[i].value, p, path + [kept[i].key]))
  {
  }

  lemma CanonKeepsKind(v: Value, p: Profile, path: Path)
    ensures var c := Canon(v, p, path); c.Str? == v.Str? && c.Arr? == v.Arr? && c.Obj? == v.Obj?
    ensures v.Str? ==> Blank(Canon(v, p, path).text) == Blank(v.text)
  {
    if v.Str? {
      TrimTwice(v.text);
    }
  }

  lemma {:induction false} CanonPrintable(v: Value, p: Profile, path: Path)
    requires Printable(v)
    ensures Printable(Canon(v, p, path))
  {
    match v
    case Arr(vs) =>
      CanonArr(vs, p, path);
      var items := CanonItems(vs, p, path);
      forall i | 0 <= i < |vs| ensures Printable(items[i]) {
        assert vs[i] in vs;
        CanonPrintable(vs[i], p, path);
      }
      SortIsSorted(items);
      forall x | x in Sort(items) ensures Printable(x) {
        SameItems(Sort(items), items, x);
      }
    case Obj(es) =>
      CanonObj(es, p, path);
      var kept := Kept(es, es, p, path);
      forall i | 0 <= i < |kept| ensures Printable(Canon(v, p, path).entries[i].value) {
        assert kept[i] in kept;
        CanonPrintable(kept[i].value, p, path + [kept[i].key]);
      }
    case _ =>
  }

  // ----- Lookups survive canonicalization -----

  lemma {:induction false} GetKeep(es: seq<Entry>, keep: Entry -> bool, key: string)
    requires forall e | e in es && e.key == key :: keep(e)
    ensures Get(Keep(es, keep), key) == Get(es, key)
  {
    if es != [] {
      var rest := Keep(es[1..], keep);
      GetKeep(es[1..], keep, key);
      if keep(es[0]) {
        assert ([es[0]] + rest)[1..] == rest;
      } else {
        assert [] + rest == rest;
      }
    }
  }

  lemma GetKept(es: seq<Entry>, p: Profile, path: Path, key: string)
    requires !Dropped(es, key, p, path)
    ensures Get(Kept(es, es, p, path), key) == Get(es, key)
  {
    GetKeep(es, (e: Entry) => !Dropped(es, e.key, p, path), key);
  }

  lemma {:induction false} GetMapped(a: seq<Entry>, b: seq<Entry>, p: Profile, path: Path, key: string)
    requires |a| == |b|
    requires forall i | 0 <= i < |a| :: b[i] == Entry(a[i].key, Canon(a[i].value, p, path + [a[i].key]))
    ensures Get(b, key) == Canon(Get(a, key), p, path + [key])
  {
    if a != [] {
      GetMapped(a[1..], b[1..], p, path, key);
    }
  }

  /** Looking up a key that is not dropped commutes with canonicalizing. */
  lemma GetCanon(es: seq<Entry>, p: Profile, path: Path, key: string)
    requires !Dropped(es, key, p, path)
    ensures Get(Canon(Obj(es), p, path).entries, key) == Canon(Get(es, key), p, path + [key])
  {
    CanonObj(es, p, path);
    GetKept(es, p, path, key);
    GetMapped(Kept(es, es, p, path), Canon(Obj(es), p, path).entries, p, path, key);
  }

  // ----- Trust survives canonicalization -----

  lemma HasTextStable(v: Value, p: Profile, path: Path, field: string)
    requires path != []
    ensures HasText(Canon(v, p, path), field) <==> HasText(v, field)
  {
    CanonKeepsKind(v, p, path);
    if v.Obj? {
      GetCanon(v.entries, p, path, field);
      CanonKeepsKind(Get(v.entries, field), p, path + [field]);
    }
  }

  lemma ValidItemStable(structured: string, v: Value, p: Profile, path: Path)
    requires path != []
    ensures ValidItem(structured, Canon(v, p, path)) <==> ValidItem(structured, v)
  {
    CanonKeepsKind(v, p, path);
    HasTextStable(v, p, path, "code");
    HasTextStable(v, p, path, "description");
    HasTextStable(v, p, path, "name");
  }

  /** Which items an array has, once canonical, does not depend on whether it was sorted. */
  lemma CanonArrItems(vs: seq<Value>, p: Profile, path: Path)
    ensures var c := Canon(Arr(vs), p, path);
            && c.Arr? && multiset(c.items) == multiset(CanonItems(vs, p, path))
            && (c.items == [] <==> vs == [])
  {
    CanonArr(vs, p, path);
    var items := CanonItems(vs, p, path);
    SortIsSorted(items);
    assert |multiset(Sort(items))| == |Sort(items)| && |multiset(items)| == |items|;
  }

  lemma AllValidStable(structured: string, vs: seq<Value>, p: Profile, path: Path)
    requires path != []
    ensures (forall x | x in Canon(Arr(vs), p, path).items :: ValidItem(structured, x)) <==>
              (forall x | x in vs :: ValidItem(structured, x))
  {
    CanonArrItems(vs, p, path);
    var c, items := Canon(Arr(vs), p, path).items, CanonItems(vs, p, path);
    forall x | x in vs ensures exists y | y in c :: ValidItem(structured, y) == ValidItem(structured, x) {
      var i :| 0 <= i < |vs| && vs[i] == x;
      SameItems(c, items, items[i]);
      ValidItemStable(structured, x, p, path);
    }
    forall y | y in c ensures exists x | x in vs :: ValidItem(structured, x) == ValidItem(structured, y) {
      SameItems(c, items, y);
      var i :| 0 <= i < |items| && items[i] == y;
      ValidItemStable(structured, vs[i], p, path);
    }
  }

  /** Derived text that stays is no more trustworthy beside its canonical source than beside the original. */
  lemma TrustStable(es: seq<Entry>, p: Profile, path: Path, key: string)
    requires !Dropped(es, key, p, path)
    ensures Trustworthy(Canon(Obj(es), p, path).entries, key) <==> Trustworthy(es, key)
  {
    var structured := StructuredSource(key);
    if structured != "" {
      GetCanon(es, p, path, key);
      CanonKeepsKind(Get(es, key), p, path + [key]);
      assert StructuredSource(structured) == "";
      GetCanon(es, p, path, structured);
      CanonKeepsKind(Get(es, structured), p, path + [structured]);
      if Get(es, structured).Arr? {
        CanonArrItems(Get(es, structured).items, p, path + [structured]);
        AllValidStable(structured, Get(es, structured).items, p, path + [structured]);
      }
    }
  }

  // ----- Idempotence -----

  lemma {:induction false} KeepAll(es: seq<Entry>, keep: Entry -> bool)
    requires forall e | e in es :: keep(e)
    ensures Keep(es, keep) == es
  {
    if es != [] {
      KeepAll(es[1..], keep);
      assert es == [es[0]] + es[1..];
    }
  }

  lemma {:induction false} KeepAppend(es: seq<Entry>, e: Entry, keep: Entry -> bool)
    ensures Keep(es + [e], keep) == Keep(es, keep) + if keep(e) then [e] else []
  {
    if es == [] {
      assert es + [e] == [e] && [e][1..] == [];
    } else {
      assert (es + [e])[1..] == es[1..] + [e];
      KeepAppend(es[1..], e, keep);
    }
  }

  lemma KeepsAll(es: seq<Entry>, p: Profile, path: Path)
    requires forall e | e in es :: !Dropped(es, e.key, p, path)
    ensures Kept(es, es, p, path) == es
  {
    KeepAll(es, (e: Entry) => !Dropped(es, e.key, p, path));
  }

  /** Nothing is left to drop from a canonical object. */
  lemma CanonKeepsAll(es: seq<Entry>, p: Profile, path: Path)
    ensures var c := Canon(Obj(es), p, path); Kept(c.entries, c.entries, p, path) == c.entries
  {
    CanonObj(es, p, path);
    var c, kept := Canon(Obj(es), p, path).entries, Kept(es, es, p, path);
    forall e | e in c ensures !Dropped(c, e.key, p, path) {
      var i :| 0 <= i < |c| && c[i] == e;
      assert kept[i] in kept;
      TrustStable(es, p, path, e.key);
    }
    KeepsAll(c, p, path);
  }

  lemma ItemsFixed(vs: seq<Value>, c: seq<Value>, p: Profile, path: Path)
    requires multiset(c) == multiset(CanonItems(vs, p, path))
    requires forall i | 0 <= i < |vs| :: Canon(Canon(vs[i], p, path), p, path) == Canon(vs[i], p, path)
    ensures CanonItems(c, p, path) == c
  {
    var items := CanonItems(vs, p, path);
    forall j | 0 <= j < |c| ensures Canon(c[j], p, path) == c[j] {
      SameItems(c, items, c[j]);
      var i :| 0 <= i < |items| && items[i] == c[j];
    }
  }

  lemma ArrIdempotent(vs: seq<Value>, p: Profile, path: Path)
    requires Printable(Arr(vs))
    requires forall i | 0 <= i < |vs| :: Canon(Canon(vs[i], p, path), p, path) == Canon(vs[i], p, path)
    ensures Canon(Canon(Arr(vs), p, path), p, path) == Canon(Arr(vs), p, path)
  {
    var c := Canon(Arr(vs), p, path).items;
    CanonArr(vs, p, path);
    CanonArrItems(vs, p, path);
    ItemsFixed(vs, c, p, path);
    CanonArr(c, p, path);
    if KnownSetArray(p, path) {
      SortIsSorted(CanonItems(vs, p, path));
      CanonPrintable(Arr(vs), p, path);
      SortOfSorted(c);
    }
  }

  lemma ObjIdempotent(es: seq<Entry>, p: Profile, path: Path)
    requires var kept := Kept(es, es, p, path);
             forall i | 0 <= i < |kept| ::
               var q := path + [kept[i].key]; Canon(Canon(kept[i].value, p, q), p, q) == Canon(kept[i].value, p, q)
    ensures Canon(Canon(Obj(es), p, path), p, path) == Canon(Obj(es), p, path)
  {
    var c := Canon(Obj(es), p, path);
    CanonObj(es, p, path);
    CanonKeepsAll(es, p, path);
    CanonObj(c.entries, p, path);
    var d := Canon(c, p, path);
    assert d.entries == c.entries;
  }

  /** Canonicalizing twice is canonicalizing once, for all three profiles and at every path. */
  lemma {:induction false} CanonIdempotent(v: Value, p: Profile, path: Path)
    requires Printable(v)
    ensures Canon(Canon(v, p, path), p, path) == Canon(v, p, path)
  {
    match v
    case Arr(vs) =>
      forall i | 0 <= i < |vs| ensures Canon(Canon(vs[i], p, path), p, path) == Canon(vs[i], p, path) {
        assert vs[i] in vs;
        CanonIdempotent(vs[i], p, path);
      }
      ArrIdempotent(vs, p, path);
    case Obj(es) =>
      var kept := Kept(es, es, p, path);
      forall i | 0 <= i < |kept|
        ensures var q := path + [kept[i].key]; Canon(Canon(kept[i].value, p, q), p, q) == Canon(kept[i].value, p, q)
      {
        assert kept[i] in kept;
        CanonIdempotent(kept[i].value, p, path + [kept[i].key]);
      }
      ObjIdempotent(es, p, path);
    case Str(t) => TrimTwice(t);
    case _ =>
  }

  // ----- Canonical equivalence -----

  /** A rearrangement of `n` positions. */
  ghost predicate Rearranges(order: seq<nat>, n: nat) {
    |order| == n && (forall i | 0 <= i < n :: order[i] < n) && forall i, j | 0 <= i < j < n :: order[i] != order[j]
  }

  /**
    Equal up to the order of known sets, outer whitespace of known strings, and derived text with a
    trustworthy source; order, whitespace and text are compared as they are everywhere else.
   */
  ghost predicate Equivalent(v: Value, w: Value, p: Profile, path: Path)
    decreases v
  {
    match v
    case Obj(es) =>
      && w.Obj?
      && var a, b := Kept(es, es, p, path), Kept(w.entries, w.entries, p, path);
         && |a| == |b|
         && forall i | 0 <= i < |a| ::
              assert a[i] in a; a[i].key == b[i].key && Equivalent(a[i].value, b[i].value, p, path + [a[i].key])
    case Arr(vs) =>
      && w.Arr? && |vs| == |w.items|
      && if KnownSetArray(p, path)
         then exists order: seq<nat> ::
                Rearranges(order, |vs|) && forall i | 0 <= i < |vs| :: Equivalent(vs[i], w.items[order[i]], p, path)
         else forall i | 0 <= i < |vs| :: Equivalent(vs[i], w.items[i], p, path)
    case Str(s) => w.Str? && if KnownSemanticString(p, path) then SameCore(s, w.text) else s == w.text
    case _ => v == w
  }

  // ----- Rearrangements and multisets -----

  function Without<T>(b: seq<T>, j: nat): (r: seq<T>)
    requires j < |b|
    ensures |r| == |b| - 1 && forall i | 0 <= i < |r| :: r[i] == if i < j then b[i] else b[i + 1]
  {
    b[..j] + b[j + 1..]
  }

  lemma WithoutItems<T>(b: seq<T>, j: nat)
    requires j < |b|
    ensures multiset(b) == multiset(Without(b, j)) + multiset{b[j]}
  {
    assert b == b[..j] + [b[j]] + b[j + 1..];
  }

  ghost predicate Matches(a: seq<Value>, b: seq<Value>, order: seq<nat>) {
    |a| == |b| && Rearranges(order, |a|) && forall i | 0 <= i < |a| :: a[i] == b[order[i]]
  }

  lemma {:induction false} MatchingIsSame(a: seq<Value>, b: seq<Value>, order: seq<nat>)
    requires Matches(a, b, order)
    ensures multiset(a) == multiset(b)
    decreases |a|
  {
    if a != [] {
      var n := |a| - 1;
      var j := order[n];
      var order' := seq(n, i requires 0 <= i < n => if order[i] < j then order[i] else order[i] - 1);
      assert Matches(a[..n], Without(b, j), order');
      MatchingIsSame(a[..n], Without(b, j), order');
      WithoutItems(b, j);
      assert a == a[..n] + [a[n]];
    }
  }

  lemma LiftMatching(a: seq<Value>, b: seq<Value>, j: nat, order: seq<nat>) returns (lifted: seq<nat>)
    requires a != [] && j < |b| && b[j] == a[|a| - 1] && Matches(a[..|a| - 1], Without(b, j), order)
    ensures Matches(a, b, lifted)
  {
    var n := |a| - 1;
    lifted := seq(n, i requires 0 <= i < n => if order[i] < j then order[i] else order[i] + 1) + [j];
    forall i | 0 <= i < n ensures a[i] == b[lifted[i]] && lifted[i] != j {
      assert a[..n][i] == Without(b, j)[order[i]];
    }
  }

  lemma {:induction false} SameIsMatching(a: seq<Value>, b: seq<Value>) returns (order: seq<nat>)
    requires multiset(a) == multiset(b)
    ensures Matches(a, b, order)
    decreases |a|
  {
    assert |multiset(a)| == |a| && |multiset(b)| == |b|;
    if a == [] {
      order := [];
    } else {
      var n := |a| - 1;
      SameItems(a, b, a[n]);
      var j :| 0 <= j < |b| && b[j] == a[n];
      DropsSame(a, b, j);
      order := SameIsMatching(a[..n], Without(b, j));
      order := LiftMatching(a, b, j, order);
    }
  }

  lemma DropsSame(a: seq<Value>, b: seq<Value>, j: nat)
    requires a != [] && j < |b| && b[j] == a[|a| - 1] && multiset(a) == multiset(b)
    ensures multiset(a[..|a| - 1]) == multiset(Without(b, j))
  {
    var n := |a| - 1;
    assert a == a[..n] + [a[n]];
    WithoutItems(b, j);
    assert multiset(a[..n]) == multiset(a) - multiset{a[n]};
    assert multiset(Without(b, j)) == multiset(b) - multiset{b[j]};
  }

  // ----- The characterization -----

  /** For items compared one by one the two notions already agree. */
  ghost predicate AgreeOn(a: seq<Value>, b: seq<Value>, p: Profile, path: Path) {
    forall i, j | 0 <= i < |a|
      && 0 <= j < |b| :: (Canon(a[i], p, path) == Canon(b[j], p, path)) == Equivalent(a[i], b[j], p, path)
  }

  lemma SetsCharacterized(a: seq<Value>, b: seq<Value>, p: Profile, path: Path)
    requires KnownSetArray(p, path) && AgreeOn(a, b, p, path)
    ensures multiset(CanonItems(a, p, path)) == multiset(CanonItems(b, p, path)) <==>
              Equivalent(Arr(a), Arr(b), p, path)
  {
    var x, y := CanonItems(a, p, path), CanonItems(b, p, path);
    if multiset(x) == multiset(y) {
      var order := SameIsMatching(x, y);
      forall i | 0 <= i < |a| ensures Equivalent(a[i], b[order[i]], p, path) {
        assert x[i] == y[order[i]];
      }
    }
    if Equivalent(Arr(a), Arr(b), p, path) {
      var order: seq<nat> :| Rearranges(order, |a|)
        && forall i | 0 <= i < |a| :: Equivalent(a[i], b[order[i]], p, path);
      forall i | 0 <= i < |x| ensures x[i] == y[order[i]] {
        assert Equivalent(a[i], b[order[i]], p, path);
      }
      assert Matches(x, y, order);
      MatchingIsSame(x, y, order);
    }
  }

  lemma ArraysCharacterized(a: seq<Value>, b: seq<Value>, p: Profile, path: Path)
    requires Printable(Arr(a)) && Printable(Arr(b)) && AgreeOn(a, b, p, path)
    ensures Canon(Arr(a), p, path) == Canon(Arr(b), p, path) <==> Equivalent(Arr(a), Arr(b), p, path)
  {
    var x, y := CanonItems(a, p, path), CanonItems(b, p, path);
    CanonArr(a, p, path);
    CanonArr(b, p, path);
    if KnownSetArray(p, path) {
      ItemsPrintable(a, p, path);
      ItemsPrintable(b, p, path);
      SortForgetsOrder(x, y);
      SetsCharacterized(a, b, p, path);
    } else if Canon(Arr(a), p, path) == Canon(Arr(b), p, path) {
      forall i | 0 <= i < |a| ensures Equivalent(a[i], b[i], p, path) {
        assert x[i] == y[i];
      }
    } else if |a| == |b| {
      var i :| 0 <= i < |a| && x[i] != y[i];
      assert !Equivalent(a[i], b[i], p, path);
    }
  }

  lemma ItemsPrintable(a: seq<Value>, p: Profile, path: Path)
    requires Printable(Arr(a))
    ensures AllPrintable(CanonItems(a, p, path))
  {
    forall i | 0 <= i < |a| ensures Printable(Canon(a[i], p, path)) {
      assert a[i] in a;
      CanonPrintable(a[i], p, path);
    }
  }

  ghost predicate EntriesAgree(a: seq<Entry>, b: seq<Entry>, p: Profile, path: Path) {
    forall i | 0 <= i < |a| && i < |b| ::
      var q := path + [a[i].key];
      (Canon(a[i].value, p, q) == Canon(b[i].value, p, q)) == Equivalent(a[i].value, b[i].value, p, q)
  }

  lemma SameObjects(es: seq<Entry>, fs: seq<Entry>, p: Profile, path: Path)
    requires EntriesAgree(Kept(es, es, p, path), Kept(fs, fs, p, path), p, path)
    requires Canon(Obj(es), p, path) == Canon(Obj(fs), p, path)
    ensures Equivalent(Obj(es), Obj(fs), p, path)
  {
    var a, b := Kept(es, es, p, path), Kept(fs, fs, p, path);
    CanonObj(es, p, path);
    CanonObj(fs, p, path);
    forall i | 0 <= i < |a| ensures a[i].key == b[i].key && Equivalent(a[i].value, b[i].value, p, path + [a[i].key]) {
      assert Canon(Obj(es), p, path).entries[i] == Canon(Obj(fs), p, path).entries[i];
    }
  }

  lemma EquivalentObjects(es: seq<Entry>, fs: seq<Entry>, p: Profile, path: Path)
    requires EntriesAgree(Kept(es, es, p, path), Kept(fs, fs, p, path), p, path)
    requires Equivalent(Obj(es), Obj(fs), p, path)
    ensures Canon(Obj(es), p, path) == Canon(Obj(fs), p, path)
  {
    var a, b := Kept(es, es, p, path), Kept(fs, fs, p, path);
    CanonObj(es, p, path);
    CanonObj(fs, p, path);
    var x, y := Canon(Obj(es), p, path).entries, Canon(Obj(fs), p, path).entries;
    forall i | 0 <= i < |a| ensures x[i] == y[i] {
      assert a[i].key == b[i].key && Equivalent(a[i].value, b[i].value, p, path + [a[i].key]);
    }
    assert x == y;
  }

  /** Two values have the same canonical form if and only if they are equivalent. */
  lemma {:induction false} CanonCharacterized(v: Value, w: Value, p: Profile, path: Path)
    requires Printable(v) && Printable(w)
    ensures Canon(v, p, path) == Canon(w, p, path) <==> Equivalent(v, w, p, path)
  {
    CanonKeepsKind(v, p, path);
    CanonKeepsKind(w, p, path);
    if v.Arr? && w.Arr? {
      var a, b := v.items, w.items;
      forall i, j | 0 <= i < |a| && 0 <= j < |b|
        ensures (Canon(a[i], p, path) == Canon(b[j], p, path)) == Equivalent(a[i], b[j], p, path)
      {
        assert a[i] in a && b[j] in b;
        CanonCharacterized(a[i], b[j], p, path);
      }
      ArraysCharacterized(a, b, p, path);
    } else if v.Obj? && w.Obj? {
      var a, b := Kept(v.entries, v.entries, p, path), Kept(w.entries, w.entries, p, path);
      forall i | 0 <= i < |a| && i < |b|
        ensures var q := path + [a[i].key];
                (Canon(a[i].value, p, q) == Canon(b[i].value, p, q)) == Equivalent(a[i].value, b[i].value, p, q)
      {
        assert a[i] in a && b[i] in b;
        CanonCharacterized(a[i].value, b[i].value, p, path + [a[i].key]);
      }
      if Canon(v, p, path) == Canon(w, p, path) {
        SameObjects(v.entries, w.entries, p, path);
      }
      if Equivalent(v, w, p, path) {
        EquivalentObjects(v.entries, w.entries, p, path);
      }
    } else if v.Str? && w.Str? {
      TrimCharacterized(v.text, w.text);
    }
  }
}
