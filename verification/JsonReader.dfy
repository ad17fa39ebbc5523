/**
  A reader of compact JSON text, after sections 2 to 7 of RFC 8259. Reading what was printed gives the
  value back, so two values with the same text are the same value, which is what hashing relies on.
 */
module JsonReader {
  import opened Common
  import opened Json

  // ----- A reader -----

  /** What was read and the text after it; nothing if the text is not of that form. */
  datatype Reading<T> = Failed | Found(value: T, rest: string)

  function HexValue(c: char): Option<nat> {
    if '0' <= c <= '9' then Some(c as int - '0' as int)
    else if 'a' <= c <= 'f' then Some(c as int - 'a' as int + 10)
    else if 'A' <= c <= 'F' then Some(c as int - 'A' as int + 10)
    else None
  }

  /** Four hexadecimal digits; surrogates, which stand for no character of their own, are not read. */
  function ReadHex(s: string): (r: Reading<char>)
    ensures r.Found? ==> |r.rest| < |s|
  {
    if |s| < 4 then Failed
    else match (HexValue(s[0]), HexValue(s[1]), HexValue(s[2]), HexValue(s[3]))
      case (Some(a), Some(b), Some(c), Some(d)) =>
        var n := ((a * 16 + b) * 16 + c) * 16 + d;
        if n < 0xD800 then Found(n as char, s[4..]) else Failed
      case _ => Failed
  }

  /** What stands after a backslash. */
  function ReadEscape(s: string): (r: Reading<char>)
    ensures r.Found? ==> |r.rest| < |s|
  {
    if s == "" then Failed
    else match s[0]
      case '"' => Found('"', s[1..])
      case '\\' => Found('\\', s[1..])
      case '/' => Found('/', s[1..])
      case 'b' => Found(8 as char, s[1..])
      case 'f' => Found(12 as char, s[1..])
      case 'n' => Found('\n', s[1..])
      case 'r' => Found('\r', s[1..])
      case 't' => Found('\t', s[1..])
      case 'u' => ReadHex(s[1..])
      case _ => Failed
  }

  /** The characters up to the closing quote. */
  function ReadString(s: string): (r: Reading<string>)
    ensures r.Found? ==> |r.rest| < |s|
    decreases |s|
  {
    if s == "" then Failed
    else if s[0] == '"' then Found("", s[1..])
    else if s[0] as int < 0x20 then Failed
    else
      var first := if s[0] == '\\' then ReadEscape(s[1..]) else Found(s[0], s[1..]);
      if first.Failed? then Failed
      else
        match ReadString(first.rest)
        case Failed => Failed
        case Found(t, rest) => Found([first.value] + t, rest)
  }

  /** The number token a text begins with. */
  function Token(s: string): (t: string)
    ensures t <= s
  {
    if s == "" || !NumberChar(s[0]) then "" else [s[0]] + Token(s[1..])
  }

  /** One of the three words of the grammar. */
  function ReadWord(s: string, word: string, v: Value): (r: Reading<Value>)
    requires word != ""
    ensures r.Found? ==> |r.rest| < |s|
  {
    if word <= s then Found(v, s[|word|..]) else Failed
  }

  /** A value from the front of a text without insignificant whitespace. */
  function Read(s: string): (r: Reading<Value>)
    ensures r.Found? ==> |r.rest| < |s|
    decreases |s|, 1
  {
    if s == "" then Failed
    else if s[0] == 'n' then ReadWord(s, "null", Null)
    else if s[0] == 't' then ReadWord(s, "true", Bool(true))
    else if s[0] == 'f' then ReadWord(s, "false", Bool(false))
    else if s[0] == '"' then
      match ReadString(s[1..])
      case Failed => Failed
      case Found(t, rest) => Found(Str(t), rest)
    else if s[0] == '[' then
      if |s| > 1 && s[1] == ']' then Found(Arr([]), s[2..])
      else
        match ReadItems(s[1..])
        case Failed => Failed
        case Found(vs, rest) => Found(Arr(vs), rest)
    else if s[0] == '{' then
      if |s| > 1 && s[1] == '}' then Found(Obj([]), s[2..])
      else
        match ReadEntries(s[1..])
        case Failed => Failed
        case Found(es, rest) => Found(Obj(es), rest)
    else if NumberChar(s[0]) then Found(Number(Token(s)), s[|Token(s)|..])
    else Failed
  }

  /** Values with commas between them, up to the closing bracket. */
  function ReadItems(s: string): (r: Reading<seq<Value>>)
    ensures r.Found? ==> |r.rest| < |s|
    decreases |s|, 2
  {
    match Read(s)
    case Failed => Failed
    case Found(v, rest) =>
      if rest != "" && rest[0] == ']' then Found([v], rest[1..])
      else if rest != "" && rest[0] == ',' then
        match ReadItems(rest[1..])
        case Failed => Failed
        case Found(vs, after) => Found([v] + vs, after)
      else Failed
  }

  /** Members with commas between them, up to the closing brace. */
  function ReadEntries(s: string): (r: Reading<seq<Entry>>)
    ensures r.Found? ==> |r.rest| < |s|
    decreases |s|, 2
  {
    match ReadEntry(s)
    case Failed => Failed
    case Found(e, rest) =>
      if rest != "" && rest[0] == '}' then Found([e], rest[1..])
      else if rest != "" && rest[0] == ',' then
        match ReadEntries(rest[1..])
        case Failed => Failed
        case Found(es, after) => Found([e] + es, after)
      else Failed
  }

  function ReadEntry(s: string): (r: Reading<Entry>)
    ensures r.Found? ==> |r.rest| < |s|
    decreases |s|, 1
  {
    if s == "" || s[0] != '"' then Failed
    else
      match ReadString(s[1..])
      case Failed => Failed
      case Found(key, rest) =>
        if rest == "" || rest[0] != ':' then Failed
        else
          match Read(rest[1..])
          case Failed => Failed
          case Found(v, after) => Found(Entry(key, v), after)
  }

  // ----- Strings are read back -----

  lemma EscapeCharStarts(c: char)
    ensures EscapeChar(c) != [] && EscapeChar(c)[0] != '"'
    ensures EscapeChar(c) == [c] || (EscapeChar(c)[0] == '\\' && |EscapeChar(c)| >= 2)
    ensures forall x | x in EscapeChar(c) :: x as int >= 0x20
  {
  }

  lemma HexReads(n: nat)
    requires n < 16
    ensures HexValue(HexDigit(n)) == Some(n)
  {
  }

  /** Reading an escaped character gives it back. */
  lemma EscapeReads(c: char, r: string)
    requires EscapeChar(c)[0] == '\\'
    ensures ReadEscape((EscapeChar(c) + r)[1..]) == Found(c, r)
  {
    var e := EscapeChar(c);
    assert (e + r)[1..] == e[1..] + r;
    if e[1] == 'u' {
      HexReads(0);
      HexReads(c as int / 16);
      HexReads(c as int % 16);
      var s := e[2..] + r;
      assert (e[1..] + r)[1..] == s;
      assert s[0] == '0' && s[1] == '0' && s[2] == HexDigit(c as int / 16) && s[3] == HexDigit(c as int % 16);
      assert s[4..] == r;
    } else {
      assert (e[1..] + r)[1..] == r;
    }
  }

  /** What follows the opening quote of a string with text `r` behind it. */
  function AfterQuote(s: string, r: string): string {
    if s == "" then ['"'] + r else EscapeChar(s[0]) + AfterQuote(s[1..], r)
  }

  lemma {:induction false} QuoteThen(s: string, r: string)
    ensures Escape(s) + ['"'] + r == AfterQuote(s, r)
    ensures Quote(s) + r == ['"'] + AfterQuote(s, r)
  {
    if s != "" {
      QuoteThen(s[1..], r);
      assert Escape(s) + ['"'] + r == EscapeChar(s[0]) + (Escape(s[1..]) + ['"'] + r);
    }
    assert Quote(s) + r == ['"'] + (Escape(s) + ['"'] + r);
  }

  lemma {:induction false} StringReads(s: string, r: string)
    ensures ReadString(AfterQuote(s, r)) == Found(s, r)
  {
    if s == "" {
      assert (['"'] + r)[1..] == r;
    } else {
      var e, more := EscapeChar(s[0]), AfterQuote(s[1..], r);
      EscapeCharStarts(s[0]);
      StringReads(s[1..], r);
      assert (e + more)[0] == e[0];
      if e[0] == '\\' {
        EscapeReads(s[0], more);
      } else {
        assert (e + more)[1..] == more;
      }
      assert s == [s[0]] + s[1..];
    }
  }

  // ----- Values are read back -----

  /** Text that can follow a value: nothing, a comma or a closing bracket. */
  predicate Ends(r: string) {
    r == "" || r[0] == ',' || r[0] == ']' || r[0] == '}'
  }

  /** How a value's text begins, by its kind. */
  predicate Starts(v: Value, c: char) {
    match v
    case Null => c == 'n'
    case Bool(b) => c == if b then 't' else 'f'
    case Number(_) => NumberChar(c)
    case Str(_) => c == '"'
    case Arr(_) => c == '['
    case Obj(_) => c == '{'
  }

  lemma TextStarts(v: Value)
    requires Printable(v)
    ensures Text(v) != [] && Starts(v, Text(v)[0])
  {
  }

  lemma {:induction false} TokenIs(d: string, r: string)
    requires (forall c | c in d :: NumberChar(c)) && Ends(r)
    ensures Token(d + r) == d
  {
    if d == "" {
      assert d + r == r;
    } else {
      assert (d + r)[1..] == d[1..] + r;
      TokenIs(d[1..], r);
    }
  }

  /** The text after an array's opening bracket, with `r` behind the array. */
  function AfterBracket(v: Value, i: nat, r: string): string
    requires v.Arr? && i <= |v.items|
    decreases |v.items| - i
  {
    if i == |v.items| then [']'] + r
    else if i == 0 then Text(v.items[0]) + AfterBracket(v, 1, r)
    else [','] + (Text(v.items[i]) + AfterBracket(v, i + 1, r))
  }

  lemma {:induction false} RestThen(v: Value, i: nat, r: string)
    requires v.Arr? && 0 < i <= |v.items|
    ensures RestOfItems(v, i) + r == AfterBracket(v, i, r)
    decreases |v.items| - i
  {
    if i < |v.items| {
      RestThen(v, i + 1, r);
      assert RestOfItems(v, i) + r == [','] + (Text(v.items[i]) + (RestOfItems(v, i + 1) + r));
    }
  }

  lemma BracketThen(v: Value, r: string)
    requires v.Arr?
    ensures Text(v) + r == ['['] + AfterBracket(v, 0, r)
  {
    if v.items == [] {
      assert "[]" + r == ['['] + ([']'] + r);
    } else {
      RestThen(v, 1, r);
      assert Text(v) + r == ['['] + (Text(v.items[0]) + (RestOfItems(v, 1) + r));
    }
  }

  lemma AfterBracketEnds(v: Value, i: nat, r: string)
    requires v.Arr? && Printable(v) && i <= |v.items|
    ensures AfterBracket(v, i, r) != [] && (AfterBracket(v, i, r)[0] == ']' <==> i == |v.items|)
    ensures i > 0 ==> Ends(AfterBracket(v, i, r))
  {
    if i == 0 && v.items != [] {
      assert v.items[0] in v.items;
      TextStarts(v.items[0]);
    }
  }

  /** The text after an object's opening brace, with `r` behind the object. */
  function AfterBrace(v: Value, i: nat, r: string): string
    requires v.Obj? && i <= |v.entries|
    decreases |v.entries| - i
  {
    if i == |v.entries| then ['}'] + r
    else
      var entry := EntryThen(v.entries[i], AfterBrace(v, i + 1, r));
      if i == 0 then entry else [','] + entry
  }

  function EntryThen(e: Entry, r: string): string {
    Quote(e.key) + ([':'] + (Text(e.value) + r))
  }

  lemma Regroup(a: string, key: string, value: string, rest: string, r: string)
    ensures a + key + [':'] + value + rest + r == a + (key + ([':'] + (value + (rest + r))))
  {
  }

  lemma {:induction false} EntriesThen(v: Value, i: nat, r: string)
    requires v.Obj? && 0 < i <= |v.entries|
    ensures RestOfEntries(v, i) + r == AfterBrace(v, i, r)
    decreases |v.entries| - i
  {
    if i < |v.entries| {
      EntriesThen(v, i + 1, r);
      var e := v.entries[i];
      Regroup([','], Quote(e.key), Text(e.value), RestOfEntries(v, i + 1), r);
    }
  }

  lemma BraceThen(v: Value, r: string)
    requires v.Obj?
    ensures Text(v) + r == ['{'] + AfterBrace(v, 0, r)
  {
    if v.entries == [] {
      assert "{}" + r == ['{'] + (['}'] + r);
    } else {
      EntriesThen(v, 1, r);
      var e := v.entries[0];
      Regroup(['{'], Quote(e.key), Text(e.value), RestOfEntries(v, 1), r);
    }
  }

  lemma AfterBraceEnds(v: Value, i: nat, r: string)
    requires v.Obj? && i <= |v.entries|
    ensures AfterBrace(v, i, r) != [] && (AfterBrace(v, i, r)[0] == '}' <==> i == |v.entries|)
    ensures i > 0 ==> Ends(AfterBrace(v, i, r))
  {
  }

  lemma QuoteReads(s: string, r: string)
    ensures Quote(s) + r != "" && (Quote(s) + r)[0] == '"' && ReadString((Quote(s) + r)[1..]) == Found(s, r)
  {
    QuoteThen(s, r);
    assert (['"'] + AfterQuote(s, r))[1..] == AfterQuote(s, r);
    StringReads(s, r);
  }

  /** Reading the text of a value, with more behind it, gives the value and leaves the rest. */
  lemma {:induction false} ReadsBack(v: Value, r: string)
    requires Printable(v) && Ends(r)
    ensures Read(Text(v) + r) == Found(v, r)
    decreases v, 3
  {
    var s := Text(v) + r;
    TextStarts(v);
    assert s[0] == Text(v)[0];
    match v
    case Null => assert s[4..] == r;
    case Bool(b) => assert s[|Text(v)|..] == r;
    case Number(d) =>
      TokenIs(d, r);
      assert s[|d|..] == r;
    case Str(t) => QuoteReads(t, r);
    case Arr(_) => ArrayReads(v, r);
    case Obj(_) => ObjectReads(v, r);
  }

  lemma ReadsArray(s: string, after: string, vs: seq<Value>, r: string)
    requires s == ['['] + after && after != ""
    requires if vs == [] then after == [']'] + r else after[0] != ']' && ReadItems(after) == Found(vs, r)
    ensures Read(s) == Found(Arr(vs), r)
  {
    assert s[0] == '[' && s[1] == after[0] && s[1..] == after;
    if vs == [] {
      assert s[2..] == r;
    }
  }

  lemma ArrayReads(v: Value, r: string)
    requires v.Arr? && Printable(v) && Ends(r)
    ensures Read(Text(v) + r) == Found(v, r)
    decreases v, 2
  {
    BracketThen(v, r);
    AfterBracketEnds(v, 0, r);
    if v.items != [] {
      ItemsRead(v, 0, r);
      assert v.items[0..] == v.items;
    }
    ReadsArray(Text(v) + r, AfterBracket(v, 0, r), v.items, r);
  }

  lemma ReadsMoreItems(s: string, v: Value, rest: string, vs: seq<Value>, r: string)
    requires Read(s) == Found(v, rest) && rest != ""
    requires || (rest[0] == ']' && vs == [] && rest[1..] == r)
             || (rest[0] == ',' && ReadItems(rest[1..]) == Found(vs, r))
    ensures ReadItems(s) == Found([v] + vs, r)
  {
    assert vs == [] ==> [v] + vs == [v];
  }

  lemma BracketContinues(v: Value, i: nat, r: string)
    requires v.Arr? && 0 < i <= |v.items|
    ensures var after := AfterBracket(v, i, r);
            && after != ""
            && (i == |v.items| ==> after[0] == ']' && after[1..] == r)
            && (i < |v.items| ==> after[0] == ',' && after[1..] == Text(v.items[i]) + AfterBracket(v, i + 1, r))
  {
  }

  /** One item read, and those after it if there are any. */
  lemma OneItemMore(v: Value, i: nat, r: string)
    requires v.Arr? && i < |v.items|
    requires var rest := AfterBracket(v, i + 1, r); Read(Text(v.items[i]) + rest) == Found(v.items[i], rest)
    requires i + 1 < |v.items| ==>
               ReadItems(Text(v.items[i + 1]) + AfterBracket(v, i + 2, r)) == Found(v.items[i + 1..], r)
    ensures ReadItems(Text(v.items[i]) + AfterBracket(v, i + 1, r)) == Found(v.items[i..], r)
  {
    var rest := AfterBracket(v, i + 1, r);
    BracketContinues(v, i + 1, r);
    ReadsMoreItems(Text(v.items[i]) + rest, v.items[i], rest, v.items[i + 1..], r);
    assert v.items[i..] == [v.items[i]] + v.items[i + 1..];
  }

  lemma {:induction false} ItemsRead(v: Value, i: nat, r: string)
    requires v.Arr? && Printable(v) && i < |v.items| && Ends(r)
    ensures ReadItems(Text(v.items[i]) + AfterBracket(v, i + 1, r)) == Found(v.items[i..], r)
    decreases v, 1, |v.items| - i
  {
    assert v.items[i] in v.items;
    AfterBracketEnds(v, i + 1, r);
    ReadsBack(v.items[i], AfterBracket(v, i + 1, r));
    if i + 1 < |v.items| {
      ItemsRead(v, i + 1, r);
    }
    OneItemMore(v, i, r);
  }

  lemma ReadsObject(s: string, after: string, es: seq<Entry>, r: string)
    requires s == ['{'] + after && after != ""
    requires if es == [] then after == ['}'] + r else after[0] != '}' && ReadEntries(after) == Found(es, r)
    ensures Read(s) == Found(Obj(es), r)
  {
    assert s[0] == '{' && s[1] == after[0] && s[1..] == after;
    if es == [] {
      assert s[2..] == r;
    }
  }

  lemma ObjectReads(v: Value, r: string)
    requires v.Obj? && Printable(v) && Ends(r)
    ensures Read(Text(v) + r) == Found(v, r)
    decreases v, 2
  {
    var after := AfterBrace(v, 0, r);
    BraceThen(v, r);
    AfterBraceEnds(v, 0, r);
    if v.entries != [] {
      FirstEntryRead(v, r);
    }
    ReadsObject(Text(v) + r, after, v.entries, r);
  }

  lemma FirstEntryRead(v: Value, r: string)
    requires v.Obj? && Printable(v) && v.entries != [] && Ends(r)
    ensures ReadEntries(AfterBrace(v, 0, r)) == Found(v.entries, r)
    decreases v, 1, |v.entries| + 1
  {
    EntriesRead(v, 0, r);
    assert v.entries[0..] == v.entries;
  }

  lemma EntryReads(e: Entry, r: string)
    requires Printable(e.value) && Ends(r)
    ensures ReadEntry(EntryThen(e, r)) == Found(e, r)
    decreases e.value, 4
  {
    var after := [':'] + (Text(e.value) + r);
    QuoteReads(e.key, after);
    assert after[1..] == Text(e.value) + r;
    ReadsBack(e.value, r);
  }

  lemma ReadsMore(s: string, e: Entry, rest: string, es: seq<Entry>, r: string)
    requires ReadEntry(s) == Found(e, rest) && rest != ""
    requires || (rest[0] == '}' && es == [] && rest[1..] == r)
             || (rest[0] == ',' && ReadEntries(rest[1..]) == Found(es, r))
    ensures ReadEntries(s) == Found([e] + es, r)
  {
    assert es == [] ==> [e] + es == [e];
  }

  /** One member read, and those after it if there are any. */
  lemma MembersRead(es: seq<Entry>, i: nat, s: string, rest: string, next: string, r: string)
    requires i < |es| && ReadEntry(s) == Found(es[i], rest) && rest != ""
    requires i + 1 == |es| ==> rest[0] == '}' && rest[1..] == r
    requires i + 1 < |es| ==> rest[0] == ',' && rest[1..] == next && ReadEntries(next) == Found(es[i + 1..], r)
    ensures ReadEntries(s) == Found(es[i..], r)
  {
    ReadsMore(s, es[i], rest, es[i + 1..], r);
    assert es[i..] == [es[i]] + es[i + 1..];
  }

  lemma {:induction false} EntriesRead(v: Value, i: nat, r: string)
    requires v.Obj? && Printable(v) && i < |v.entries| && Ends(r)
    ensures ReadEntries(EntryThen(v.entries[i], AfterBrace(v, i + 1, r))) == Found(v.entries[i..], r)
    decreases v, 1, |v.entries| - i
  {
    var rest, next := AfterBrace(v, i + 1, r), "";
    assert v.entries[i] in v.entries;
    AfterBraceEnds(v, i + 1, r);
    EntryReads(v.entries[i], rest);
    BraceContinues(v, i + 1, r);
    if i + 1 < |v.entries| {
      next := EntryThen(v.entries[i + 1], AfterBrace(v, i + 2, r));
      EntriesRead(v, i + 1, r);
    }
    MembersRead(v.entries, i, EntryThen(v.entries[i], rest), rest, next, r);
  }

  lemma BraceContinues(v: Value, i: nat, r: string)
    requires v.Obj? && 0 < i <= |v.entries|
    ensures var after := AfterBrace(v, i, r);
            && after != ""
            && (i == |v.entries| ==> after[0] == '}' && after[1..] == r)
            && (i < |v.entries| ==> after[0] == ',' && after[1..] == EntryThen(v.entries[i], AfterBrace(v, i + 1, r)))
  {
  }

  /** A value is read back from its text, to the end. */
  lemma RoundTrip(v: Value)
    requires Printable(v)
    ensures Read(Text(v)) == Found(v, "")
  {
    assert Text(v) + "" == Text(v);
    ReadsBack(v, "");
  }

  /** Values with the same text are the same value. */
  lemma TextInjective(v: Value, w: Value)
    requires Printable(v) && Printable(w) && Text(v) == Text(w)
    ensures v == w
  {
    RoundTrip(v);
    RoundTrip(w);
  }
}
