/**
  The canonicalizer as it runs: one mutable path that is pushed before each member is visited and
  popped after it, result maps and vectors filled in loops; and the hashes built from its results.
 */
module Canonicalizer {
  import opened Json
  import opened Canonical
  import opened CanonicalTheorems
  import opened HashPreimage

  class PathStack {
    var items: Path

    constructor ()
      ensures items == []
    {
      items := [];
    }

    method Push(key: string)
      modifies this
      ensures items == old(items) + [key]
    {
      items := items + [key];
    }

    method Pop()
      requires items != []
      modifies this
      ensures items == old(items)[..|old(items)| - 1]
    {
      items := items[..|items| - 1];
    }
  }

  /** Visits a value, leaving the path as it found it. */
  method Canonicalize(value: Value, profile: Profile, path: PathStack) returns (c: Value)
    modifies path
    ensures path.items == old(path.items)
    ensures c == Canon(value, profile, path.items)
    decreases value, 1
  {
    match value
    case Obj(es) =>
      var entries := CanonicalizeEntries(es, profile, path, value);
      c := Obj(entries);
      CanonObj(es, profile, path.items);
      assert c.entries == Canon(value, profile, path.items).entries;
    case Arr(vs) =>
      var items := CanonicalizeItems(vs, profile, path, value);
      CanonArr(vs, profile, path.items);
      assert items == CanonItems(vs, profile, path.items);
      c := Arr(if KnownSetArray(profile, path.items) then Sort(items) else items);
    case Str(s) =>
      c := if KnownSemanticString(profile, path.items) then Str(Trim(s)) else value;
    case _ =>
      c := value;
  }

  /** The members of an object that stay, each visited under its own key. */
  method CanonicalizeEntries(es: seq<Entry>, profile: Profile, path: PathStack, ghost value: Value)
    returns (result: seq<Entry>)
    requires value == Obj(es)
    modifies path
    ensures path.items == old(path.items)
    ensures var kept := Kept(es, es, profile, path.items);
            && |result| == |kept|
            && forall k | 0 <= k < |kept| ::
                 result[k] == Entry(kept[k].key, Canon(kept[k].value, profile, path.items + [kept[k].key]))
    decreases value, 0
  {
    result := [];
    ghost var kept: seq<Entry> := [];
    for i := 0 to |es|
      invariant path.items == old(path.items) && kept == Kept(es, es[..i], profile, path.items) && |result| == |kept|
      invariant forall k | 0 <= k < |kept| ::
                  result[k] == Entry(kept[k].key, Canon(kept[k].value, profile, path.items + [kept[k].key]))
    {
      KeptStep(es, i, profile, path.items);
      if !Dropped(es, es[i].key, profile, path.items) {
        path.Push(es[i].key);
        var member := Canonicalize(es[i].value, profile, path);
        path.Pop();
        result, kept := result + [Entry(es[i].key, member)], kept + [es[i]];
      }
    }
    assert es[..|es|] == es;
  }

  lemma KeptStep(es: seq<Entry>, i: nat, p: Profile, path: Path)
    requires i < |es|
    ensures Kept(es, es[..i + 1], p, path)
            == Kept(es, es[..i], p, path) + if Dropped(es, es[i].key, p, path) then [] else [es[i]]
  {
    assert es[..i + 1] == es[..i] + [es[i]];
    KeepAppend(es[..i], es[i], (e: Entry) => !Dropped(es, e.key, p, path));
  }

  method CanonicalizeItems(vs: seq<Value>, profile: Profile, path: PathStack, ghost value: Value)
    returns (result: seq<Value>)
    requires value == Arr(vs)
    modifies path
    ensures path.items == old(path.items)
    ensures |result| == |vs| && forall k | 0 <= k < |vs| :: result[k] == Canon(vs[k], profile, path.items)
    decreases value, 0
  {
    result := [];
    for i := 0 to |vs|
      invariant path.items == old(path.items) && |result| == i
      invariant forall k | 0 <= k < i :: result[k] == Canon(vs[k], profile, path.items)
    {
      var item := Canonicalize(vs[i], profile, path);
      result := result + [item];
    }
  }

  // ----- Hash inputs -----

  /** The profile each hash domain canonicalizes with. */
  function ProfileOf(d: Domain): Profile {
    if d == Domain.SectionSemantic then Profile.SectionSemantic else Exact
  }

  /** What the digest is taken of. */
  function HashInput(d: Domain, v: Value): seq<byte> {
    Preimage(d, Canon(v, ProfileOf(d), []))
  }

  /** The exact profile changes nothing. */
  lemma {:induction false} ExactIsIdentity(v: Value, path: Path)
    ensures Canon(v, Exact, path) == v
  {
    match v
    case Arr(vs) =>
      CanonArr(vs, Exact, path);
      forall i | 0 <= i < |vs| ensures Canon(vs[i], Exact, path) == vs[i] {
        ExactIsIdentity(vs[i], path);
      }
      assert CanonItems(vs, Exact, path) == vs;
    case Obj(es) =>
      KeepsAll(es, Exact, path);
      CanonObj(es, Exact, path);
      forall i | 0 <= i < |es| ensures Canon(es[i].value, Exact, path + [es[i].key]) == es[i].value {
        ExactIsIdentity(es[i].value, path + [es[i].key]);
      }
      assert Canon(v, Exact, path).entries == es;
    case _ =>
  }

  /**
    Two hash inputs are equal exactly when they are of one domain and of values that domain's profile
    identifies: equivalent sections for the section domain, identical values for the other five.
   */
  lemma HashInputsCharacterized(d: Domain, v: Value, e: Domain, w: Value)
    requires Printable(v) && Printable(w)
    ensures HashInput(d, v) == HashInput(e, w) <==>
            d == e && if d == Domain.SectionSemantic then Equivalent(v, w, Profile.SectionSemantic, []) else v == w
  {
    CanonPrintable(v, ProfileOf(d), []);
    CanonPrintable(w, ProfileOf(e), []);
    PreimageInjective(d, Canon(v, ProfileOf(d), []), e, Canon(w, ProfileOf(e), []));
    CanonCharacterized(v, w, Profile.SectionSemantic, []);
    ExactIsIdentity(v, []);
    ExactIsIdentity(w, []);
  }
}
