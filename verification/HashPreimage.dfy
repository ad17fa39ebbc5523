/**
  Tagged hash preimages: a NUL-terminated domain tag, then the UTF-8 bytes of a value's JSON text. The
  digest itself stays outside; what is proved is that no two (domain, value) pairs share a preimage.
 */
module HashPreimage {
  import opened Json
  import opened JsonReader

  type byte = n: int | 0 <= n < 256

  datatype Domain = RawCourse | RawSection | SectionSemantic | Occurrence | CourseVariant | TargetContent

  function Name(d: Domain): string {
    match d
    case RawCourse => "bcsp-catalog/raw-course/v1"
    case RawSection => "bcsp-catalog/raw-section/v1"
    case SectionSemantic => "bcsp-catalog/section-semantic/v1"
    case Occurrence => "bcsp-catalog/occurrence/v1"
    case CourseVariant => "bcsp-catalog/course-variant/v1"
    case TargetContent => "bcsp-catalog/target-content/v1"
  }

  function Tag(d: Domain): string {
    Name(d) + ['\0']
  }

  // ----- UTF-8 -----

  function Utf8Char(c: char): seq<byte> {
    var n := c as int;
    if n < 0x80 then [n]
    else if n < 0x800 then [0xC0 + n / 64, 0x80 + n % 64]
    else if n < 0x1_0000 then [0xE0 + n / 64 / 64, 0x80 + n / 64 % 64, 0x80 + n % 64]
    else [0xF0 + n / 64 / 64 / 64, 0x80 + n / 64 / 64 % 64, 0x80 + n / 64 % 64, 0x80 + n % 64]
  }

  function Utf8(s: string): seq<byte> {
    if s == "" then [] else Utf8Char(s[0]) + Utf8(s[1..])
  }

  /** The value of a lead byte's payload bits and the continuation bytes after it. */
  function Decode(payload: int, rest: seq<byte>): int
    decreases |rest|
  {
    if rest == [] then payload else Decode(payload, rest[..|rest| - 1]) * 64 + (rest[|rest| - 1] as int - 0x80)
  }

  /** How many bytes a lead byte announces, and the bits it contributes. */
  function Width(lead: byte): nat {
    if lead < 0x80 then 1 else if lead < 0xE0 then 2 else if lead < 0xF0 then 3 else 4
  }

  function Payload(lead: byte): int {
    if lead < 0x80 then lead else if lead < 0xE0 then lead - 0xC0 else if lead < 0xF0 then lead - 0xE0 else lead - 0xF0
  }

  lemma Utf8CharDecodes(c: char)
    ensures var b := Utf8Char(c); b != [] && |b| == Width(b[0]) && Decode(Payload(b[0]), b[1..]) == c as int
  {
    var b, n := Utf8Char(c), c as int;
    if |b| == 2 {
      assert b[1..][..0] == [];
    } else if |b| == 3 {
      assert b[1..][..1] == [b[1]] && [b[1]][..0] == [];
      assert Decode(Payload(b[0]), [b[1]]) == n / 64;
    } else if |b| == 4 {
      assert b[1..][..2] == [b[1], b[2]] && [b[1], b[2]][..1] == [b[1]] && [b[1]][..0] == [];
      assert Decode(Payload(b[0]), [b[1]]) == n / 64 / 64;
      assert Decode(Payload(b[0]), [b[1], b[2]]) == n / 64;
    }
  }

  lemma Utf8CharReads(c: char, d: char, r: seq<byte>, r': seq<byte>)
    requires Utf8Char(c) + r == Utf8Char(d) + r'
    ensures c == d && r == r'
  {
    var x, y := Utf8Char(c) + r, Utf8Char(d) + r';
    Utf8CharDecodes(c);
    Utf8CharDecodes(d);
    assert x[0] == Utf8Char(c)[0] && y[0] == Utf8Char(d)[0];
    var n := Width(x[0]);
    assert x[..n] == Utf8Char(c) && y[..n] == Utf8Char(d) && x[n..] == r && y[n..] == r';
  }

  lemma {:induction false} Utf8Injective(s: string, t: string)
    requires Utf8(s) == Utf8(t)
    ensures s == t
  {
    if s != "" {
      Utf8CharDecodes(s[0]);
    }
    if t != "" {
      Utf8CharDecodes(t[0]);
    }
    if s != "" && t != "" {
      Utf8CharReads(s[0], t[0], Utf8(s[1..]), Utf8(t[1..]));
      Utf8Injective(s[1..], t[1..]);
      assert s == [s[0]] + s[1..] && t == [t[0]] + t[1..];
    }
  }

  lemma {:induction false} Utf8Append(s: string, t: string)
    ensures Utf8(s + t) == Utf8(s) + Utf8(t)
  {
    if s == "" {
      assert s + t == t;
    } else {
      assert (s + t)[1..] == s[1..] + t;
      Utf8Append(s[1..], t);
    }
  }

  // ----- The text of a value has no control characters -----

  predicate Visible(s: string) {
    forall c | c in s :: c as int >= 0x20
  }

  lemma {:induction false} EscapeVisible(s: string)
    ensures Visible(Escape(s))
  {
    if s != "" {
      EscapeCharStarts(s[0]);
      EscapeVisible(s[1..]);
    }
  }

  lemma QuoteVisible(s: string)
    ensures Visible(Quote(s))
  {
    EscapeVisible(s);
  }

  lemma {:induction false} TextVisible(v: Value)
    requires Printable(v)
    ensures Visible(Text(v))
    decreases v, 1
  {
    match v
    case Number(d) =>
    case Str(s) => QuoteVisible(s);
    case Arr(vs) =>
      if vs != [] {
        assert vs[0] in vs;
        TextVisible(vs[0]);
        RestOfItemsVisible(v, 1);
      }
    case Obj(es) =>
      if es != [] {
        assert es[0] in es;
        QuoteVisible(es[0].key);
        TextVisible(es[0].value);
        RestOfEntriesVisible(v, 1);
        EntryVisible(['{'], Quote(es[0].key), Text(es[0].value), RestOfEntries(v, 1));
      }
    case _ =>
  }

  lemma {:induction false} RestOfItemsVisible(v: Value, i: nat)
    requires v.Arr? && Printable(v) && i <= |v.items|
    ensures Visible(RestOfItems(v, i))
    decreases v, 0, |v.items| - i
  {
    if i < |v.items| {
      assert v.items[i] in v.items;
      TextVisible(v.items[i]);
      RestOfItemsVisible(v, i + 1);
    }
  }

  lemma VisibleConcat(a: string, b: string)
    requires Visible(a) && Visible(b)
    ensures Visible(a + b)
  {
  }

  lemma EntryVisible(a: string, key: string, value: string, rest: string)
    requires Visible(a) && Visible(key) && Visible(value) && Visible(rest)
    ensures Visible(a + key + [':'] + value + rest)
  {
    VisibleConcat(a, key);
    VisibleConcat(a + key, [':']);
    VisibleConcat(a + key + [':'], value);
    VisibleConcat(a + key + [':'] + value, rest);
  }

  lemma {:induction false} RestOfEntriesVisible(v: Value, i: nat)
    requires v.Obj? && Printable(v) && i <= |v.entries|
    ensures Visible(RestOfEntries(v, i))
    decreases v, 0, |v.entries| - i
  {
    if i < |v.entries| {
      assert v.entries[i] in v.entries;
      QuoteVisible(v.entries[i].key);
      TextVisible(v.entries[i].value);
      RestOfEntriesVisible(v, i + 1);
      EntryVisible([','], Quote(v.entries[i].key), Text(v.entries[i].value), RestOfEntries(v, i + 1));
    }
  }

  // ----- Preimages -----

  function Preimage(d: Domain, v: Value): seq<byte> {
    Utf8(Tag(d)) + Utf8(Text(v))
  }

  /** The characters before the first NUL. */
  function BeforeNul(s: string): string {
    if s == "" || s[0] == '\0' then "" else [s[0]] + BeforeNul(s[1..])
  }

  lemma {:induction false} BeforeNulIs(name: string, r: string)
    requires '\0' !in name
    ensures BeforeNul(name + ['\0'] + r) == name
  {
    var s := name + ['\0'] + r;
    if name != "" {
      assert s[1..] == name[1..] + ['\0'] + r;
      BeforeNulIs(name[1..], r);
      assert name == [name[0]] + name[1..];
    }
  }

  lemma NameInjective(d: Domain, e: Domain)
    requires Name(d) == Name(e)
    ensures d == e
  {
    assert Name(d)[13..16] == Name(e)[13..16];
    assert |Name(d)| == |Name(e)|;
  }

  lemma NameHasNoNul(d: Domain)
    ensures '\0' !in Name(d)
  {
  }

  /** Two preimages are equal exactly when both the domain and the value are: no two domains ever share one. */
  lemma PreimageInjective(d: Domain, v: Value, e: Domain, w: Value)
    requires Printable(v) && Printable(w)
    ensures Preimage(d, v) == Preimage(e, w) <==> d == e && v == w
  {
    if Preimage(d, v) == Preimage(e, w) {
      Utf8Append(Tag(d), Text(v));
      Utf8Append(Tag(e), Text(w));
      Utf8Injective(Tag(d) + Text(v), Tag(e) + Text(w));
      NameHasNoNul(d);
      NameHasNoNul(e);
      BeforeNulIs(Name(d), Text(v));
      BeforeNulIs(Name(e), Text(w));
      NameInjective(d, e);
      assert Text(v) == (Tag(d) + Text(v))[|Tag(d)|..] && Text(w) == (Tag(d) + Text(w))[|Tag(d)|..];
      TextInjective(v, w);
    }
  }

  /** No other domain or value has these bytes. */
  ghost predicate Identifies(bytes: seq<byte>, d: Domain, v: Value) {
    forall e, w | Printable(w) :: Preimage(e, w) == bytes <==> e == d && w == v
  }

  lemma PreimageIdentifies(d: Domain, v: Value)
    requires Printable(v)
    ensures Identifies(Preimage(d, v), d, v)
  {
    forall e, w | Printable(w) ensures Preimage(e, w) == Preimage(d, v) <==> e == d && w == v {
      PreimageInjective(e, w, d, v);
    }
  }

  /** The bytes the hasher is fed, tag first and text after it, are fed for no other domain and value. */
  method BuildPreimage(d: Domain, v: Value) returns (bytes: seq<byte>)
    requires Printable(v)
    ensures Identifies(bytes, d, v)
  {
    bytes := Utf8(Tag(d));
    bytes := bytes + Utf8(Text(v));
    PreimageIdentifies(d, v);
  }

  lemma TextHasNoNul(v: Value)
    requires Printable(v)
    ensures '\0' !in Text(v)
  {
    TextVisible(v);
  }

  lemma {:induction false} Utf8HasNoNul(s: string)
    requires '\0' !in s
    ensures 0 !in Utf8(s)
  {
    if s != "" {
      assert s[0] != '\0' && 0 !in Utf8Char(s[0]);
      Utf8HasNoNul(s[1..]);
    }
  }

  lemma PreimageParts(d: Domain, v: Value)
    ensures Utf8(Tag(d)) == Utf8(Name(d)) + [0] && Preimage(d, v) == Utf8(Name(d)) + [0] + Utf8(Text(v))
  {
    Utf8Append(Name(d), ['\0']);
    assert Utf8(['\0']) == [0];
  }

  lemma NulBetween(a: seq<byte>, b: seq<byte>, i: nat)
    requires 0 !in a && 0 !in b && i < |a + [0] + b|
    ensures (a + [0] + b)[i] == 0 <==> i == |a|
  {
    assert i < |a| ==> (a + [0] + b)[i] in a;
    assert i > |a| ==> (a + [0] + b)[i] in b;
  }

  /** A preimage shows where its tag ends: it holds one NUL byte, and that is the tag's last. */
  lemma OnlyNulEndsTag(d: Domain, v: Value, i: nat)
    requires Printable(v) && i < |Preimage(d, v)|
    ensures Preimage(d, v)[i] == 0 <==> i == |Utf8(Tag(d))| - 1
  {
    var name, text := Utf8(Name(d)), Utf8(Text(v));
    PreimageParts(d, v);
    NameHasNoNul(d);
    Utf8HasNoNul(Name(d));
    TextHasNoNul(v);
    Utf8HasNoNul(Text(v));
    NulBetween(name, text, i);
  }
}
