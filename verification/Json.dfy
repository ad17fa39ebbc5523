/** JSON values and the compact text they are printed as. */
module Json {

  /** An object is its entries in key order; a number is the text it is printed as. */
  datatype Value =
    | Null
    | Bool(truth: bool)
    | Number(digits: string)
    | Str(text: string)
    | Arr(items: seq<Value>)
    | Obj(entries: seq<Entry>)

  datatype Entry = Entry(key: string, value: Value)

  predicate NumberChar(c: char) {
    '0' <= c <= '9' || c == '-' || c == '+' || c == '.' || c == 'e' || c == 'E'
  }

  /** Every number in the value is printed as a number token. */
  predicate Printable(v: Value) {
    match v
    case Number(d) => d != "" && forall c | c in d :: NumberChar(c)
    case Arr(vs) => forall x | x in vs :: Printable(x)
    case Obj(es) => forall e | e in es :: Printable(e.value)
    case _ => true
  }

  // ----- Strings -----

  function HexDigit(n: nat): char
    requires n < 16
  {
    if n < 10 then ('0' as int + n) as char else ('a' as int + (n - 10)) as char
  }

  /** Section 7 of RFC 8259: quotes, backslashes and control characters are escaped, nothing else. */
  function EscapeChar(c: char): string {
    if c == '"' then "\\\""
    else if c == '\\' then "\\\\"
    else if c as int == 8 then "\\b"
    else if c as int == 12 then "\\f"
    else if c == '\n' then "\\n"
    else if c == '\r' then "\\r"
    else if c == '\t' then "\\t"
    else if c as int < 0x20 then ['\\', 'u', '0', '0', HexDigit(c as int / 16), HexDigit(c as int % 16)]
    else [c]
  }

  function Escape(s: string): string {
    if s == "" then "" else EscapeChar(s[0]) + Escape(s[1..])
  }

  function Quote(s: string): string {
    ['"'] + Escape(s) + ['"']
  }

  // ----- Values -----

  function Text(v: Value): string
    decreases v, 1
  {
    match v
    case Null => "null"
    case Bool(b) => if b then "true" else "false"
    case Number(d) => d
    case Str(s) => Quote(s)
    case Arr(vs) => if vs == [] then "[]" else ['['] + Text(vs[0]) + RestOfItems(v, 1)
    case Obj(es) =>
      if es == [] then "{}" else ['{'] + Quote(es[0].key) + [':'] + Text(es[0].value) + RestOfEntries(v, 1)
  }

  /** The items of an array from index `i` on, each after a comma, and the closing bracket. */
  function RestOfItems(v: Value, i: nat): string
    requires v.Arr? && i <= |v.items|
    decreases v, 0, |v.items| - i
  {
    if i == |v.items| then [']'] else [','] + Text(v.items[i]) + RestOfItems(v, i + 1)
  }

  function RestOfEntries(v: Value, i: nat): string
    requires v.Obj? && i <= |v.entries|
    decreases v, 0, |v.entries| - i
  {
    if i == |v.entries| then ['}']
    else [','] + Quote(v.entries[i].key) + [':'] + Text(v.entries[i].value) + RestOfEntries(v, i + 1)
  }
}
