/**
  What the text helpers of the filter fields mean, as relations between a raw text and the text made of
  it: trimmed, in upper case, its words, its number. Each helper is proved to compute its relation.
 */
module FilterText {
  import opened Common
  import opened Canonical
  import opened CanonicalOrder
  import opened FilterCatalog

  // ----- Trimmed and in upper case -----

  /** `t` is `s` without the whitespace around it. */
  ghost predicate Trimmed(s: string, t: string) {
    Padded(t, s) && (t == "" || (!WhiteSpace(t[0]) && !WhiteSpace(t[|t| - 1])))
  }

  lemma TrimmedMeans(s: string, t: string)
    ensures Trimmed(s, t) <==> t == Trim(s)
  {
    var a, b := TrimCuts(s);
    if Trimmed(s, t) {
      PaddedTrims(t, s);
    }
  }

  /** `t` is `s` with its ASCII letters in upper case. */
  ghost predicate Uppercased(s: string, t: string) {
    && |t| == |s|
    && forall i | 0 <= i < |s| :: t[i] as int == if 'a' <= s[i] <= 'z' then s[i] as int - 32 else s[i] as int
  }

  lemma UppercasedMeans(s: string, t: string)
    ensures Uppercased(s, t) <==> t == AsciiUpper(s)
  {
  }

  /** `t` is `s` with its ASCII letters in lower case. */
  ghost predicate Lowercased(s: string, t: string) {
    && |t| == |s|
    && forall i | 0 <= i < |s| :: t[i] as int == if 'A' <= s[i] <= 'Z' then s[i] as int + 32 else s[i] as int
  }

  lemma LowercasedMeans(s: string, t: string)
    ensures Lowercased(s, t) <==> t == AsciiLower(s)
  {
  }

  // ----- Parts and words -----

  /** `part` occurs somewhere in `s`. */
  ghost predicate Occurs(part: string, s: string) {
    exists k | 0 <= k <= |s| :: part <= s[k..]
  }

  lemma {:induction false} ContainsMeans(s: string, part: string)
    ensures Contains(s, part) <==> Occurs(part, s)
  {
    assert s[0..] == s;
    if s != "" && !(part <= s) {
      var t := s[1..];
      ContainsMeans(t, part);
      if k :| 0 <= k <= |t| && part <= t[k..] {
        assert t[k..] == s[k + 1..];
      }
      if k :| 0 <= k <= |s| && part <= s[k..] {
        assert k > 0 && t[k - 1..] == s[k..];
      }
    }
  }

  lemma WordThenSpace(w: string, rest: string)
    requires w != "" && (forall c | c in w :: !WhiteSpace(c)) && (rest == "" || WhiteSpace(rest[0]))
    ensures Word(w + rest) == w && TrimStart(w + rest) == w + rest
  {
    assert (w + rest)[1..] == w[1..] + rest;
    if |w| > 1 {
      WordThenSpace(w[1..], rest);
    } else {
      assert w[1..] + rest == rest;
      assert w == [w[0]];
    }
  }

  lemma WordHasNoSpace(s: string)
    ensures forall c | c in Word(s) :: !WhiteSpace(c)
  {
  }

  /** The words of `s` in order: runs without whitespace, whitespace between them and anywhere around. */
  ghost predicate Words(s: string, ws: seq<string>)
    decreases |ws|
  {
    if ws == [] then White(s)
    else
      exists a, rest ::
        && White(a) && s == a + ws[0] + rest && (rest == "" || WhiteSpace(rest[0])) && Words(rest, ws[1..])
        && ws[0] != "" && forall c | c in ws[0] :: !WhiteSpace(c)
  }

  /** Words with single spaces between them. */
  function Joined(ws: seq<string>): string {
    if ws == [] then "" else if |ws| == 1 then ws[0] else ws[0] + " " + Joined(ws[1..])
  }

  /** Joining starts with the first word and goes on after it. */
  lemma JoinsFirst(a: string, w: string, rest: string)
    requires White(a) && w != "" && (forall c | c in w :: !WhiteSpace(c)) && (rest == "" || WhiteSpace(rest[0]))
    ensures JoinWords(a + w + rest) == if JoinWords(rest) == "" then w else w + [' '] + JoinWords(rest)
  {
    WordThenSpace(w, rest);
    assert a + w + rest == a + (w + rest);
    TrimStartSkips(a, w + rest);
    assert (w + rest)[|w|..] == rest;
  }

  lemma {:induction false} JoinsItsWords(s: string, ws: seq<string>)
    requires Words(s, ws)
    ensures JoinWords(s) == Joined(ws) && (ws != [] ==> Joined(ws) != "")
    decreases |ws|
  {
    if ws == [] {
      WhiteVanishes(s);
    } else {
      var a, rest :| && White(a) && s == a + ws[0] + rest && (rest == "" || WhiteSpace(rest[0]))
                     && Words(rest, ws[1..]) && ws[0] != "" && forall c | c in ws[0] :: !WhiteSpace(c);
      JoinsFirst(a, ws[0], rest);
      JoinsItsWords(rest, ws[1..]);
    }
  }

  lemma OneWordMore(a: string, w: string, rest: string, ws: seq<string>)
    requires White(a) && w != "" && (forall c | c in w :: !WhiteSpace(c)) && (rest == "" || WhiteSpace(rest[0]))
    requires Words(rest, ws)
    ensures Words(a + w + rest, [w] + ws)
  {
    assert ([w] + ws)[1..] == ws;
  }

  lemma {:induction false} HasWords(s: string) returns (ws: seq<string>)
    ensures Words(s, ws)
    decreases |s|
  {
    var a := TrimStartCuts(s);
    var t := TrimStart(s);
    if t == "" {
      ws := [];
    } else {
      var w := Word(t);
      WordHasNoSpace(t);
      WordStops(t);
      var more := HasWords(t[|w|..]);
      ws := [w] + more;
      assert s == a + w + t[|w|..];
      OneWordMore(a, w, t[|w|..], more);
    }
  }

  lemma {:induction false} WordStops(s: string)
    ensures var w := Word(s); w <= s && (s[|w|..] == "" || WhiteSpace(s[|w|]))
  {
    if s != "" && !WhiteSpace(s[0]) {
      WordStops(s[1..]);
    }
  }

  /** `t` is the words of `s` joined by single spaces. */
  ghost predicate Collapses(s: string, t: string) {
    exists ws :: Words(s, ws) && t == Joined(ws)
  }

  lemma CollapsesMeans(s: string, t: string)
    ensures Collapses(s, t) <==> t == JoinWords(s)
  {
    var ws := HasWords(s);
    JoinsItsWords(s, ws);
    if Collapses(s, t) {
      var us :| Words(s, us) && t == Joined(us);
      JoinsItsWords(s, us);
    }
  }

  // ----- Numbers -----

  ghost predicate Digits(s: string) {
    forall i | 0 <= i < |s| :: '0' <= s[i] <= '9'
  }

  ghost predicate Zeros(s: string) {
    forall i | 0 <= i < |s| :: s[i] == '0'
  }

  /** Printing a number and reading it give it back; what is printed has no zero to spare. */
  lemma {:induction false} DecimalReads(n: nat)
    ensures ParseDigits(Decimal(n)) == n
    ensures Decimal(n) != "" && Digits(Decimal(n)) && (n > 0 ==> Decimal(n)[0] != '0')
  {
    if n >= 10 {
      DecimalReads(n / 10);
      var d := Decimal(n / 10);
      assert (d + [Decimal(n)[|d|]])[..|d|] == d;
    } else {
      assert Decimal(n)[..0] == "";
    }
  }

  /** `s` is a decimal numeral of `n`, leading zeros allowed. */
  ghost predicate Numeral(s: string, n: nat) {
    exists zeros | Zeros(zeros) :: s == zeros + Decimal(n)
  }

  lemma MakesNumeral(zeros: string, n: nat)
    requires Zeros(zeros)
    ensures Numeral(zeros + Decimal(n), n)
  {
  }

  lemma DecimalExtends(n: nat, d: nat)
    requires n > 0 && d < 10
    ensures Decimal(10 * n + d) == Decimal(n) + [('0' as int + d) as char]
  {
  }

  /** A digit behind a numeral makes the numeral of ten times the number and the digit. */
  lemma NumeralExtends(s: string, n: nat, c: char)
    requires Numeral(s, n) && '0' <= c <= '9'
    ensures Numeral(s + [c], 10 * n + (c as int - '0' as int))
  {
    var d := c as int - '0' as int;
    var zeros :| Zeros(zeros) && s == zeros + Decimal(n);
    if n == 0 {
      MakesNumeral(zeros + "0", d);
      assert s + [c] == (zeros + "0") + Decimal(d);
    } else {
      DecimalExtends(n, d);
      MakesNumeral(zeros, 10 * n + d);
      assert s + [c] == zeros + Decimal(10 * n + d);
    }
  }

  lemma {:induction false} DigitsAreNumeral(s: string)
    requires s != "" && Digits(s)
    ensures Numeral(s, ParseDigits(s))
  {
    var m := |s| - 1;
    assert ParseDigits(s) == ParseDigits(s[..m]) * 10 + (s[m] as int - '0' as int);
    if m == 0 {
      MakesNumeral("", s[0] as int - '0' as int);
      assert s == "" + [s[0]] && s[..m] == "";
    } else {
      DigitsAreNumeral(s[..m]);
      NumeralExtends(s[..m], ParseDigits(s[..m]), s[m]);
      assert s == s[..m] + [s[m]];
    }
  }

  lemma {:induction false} ZerosDoNotCount(zeros: string, s: string)
    requires Zeros(zeros)
    ensures ParseDigits(zeros + s) == ParseDigits(s)
  {
    if s == "" {
      assert zeros + s == zeros;
      if zeros != "" {
        ZerosDoNotCount(zeros[..|zeros| - 1], "");
        assert zeros[..|zeros| - 1] + "" == zeros[..|zeros| - 1];
      }
    } else {
      assert (zeros + s)[..|zeros + s| - 1] == zeros + s[..|s| - 1];
      ZerosDoNotCount(zeros, s[..|s| - 1]);
    }
  }

  lemma NumeralReads(s: string, n: nat)
    requires Numeral(s, n)
    ensures s != "" && Digits(s) && ParseDigits(s) == n
  {
    var zeros :| Zeros(zeros) && s == zeros + Decimal(n);
    DecimalReads(n);
    ZerosDoNotCount(zeros, Decimal(n));
  }

  lemma NumeralMeans(s: string, n: nat)
    ensures Numeral(s, n) <==> s != "" && Digits(s) && ParseDigits(s) == n
  {
    if Numeral(s, n) {
      NumeralReads(s, n);
    }
    if s != "" && Digits(s) {
      DigitsAreNumeral(s);
    }
  }

  /** `s` is the number with as many zeros in front as make it three digits long. */
  ghost predicate ThreeDigits(s: string, n: nat) {
    Numeral(s, n) && |s| >= 3 && (|s| > 3 ==> s == Decimal(n))
  }

  lemma PaddedIsThreeDigits(n: nat)
    ensures ThreeDigits(Pad3(n), n)
  {
    var d := Decimal(n);
    DecimalReads(n);
    MakesNumeral("00", n);
    MakesNumeral("0", n);
    MakesNumeral("", n);
    assert "" + d == d;
  }

  lemma ThreeDigitsMeans(s: string, n: nat)
    ensures ThreeDigits(s, n) <==> s == Pad3(n)
  {
    PaddedIsThreeDigits(n);
    if ThreeDigits(s, n) {
      ThreeDigitsUnique(s, Pad3(n), n);
    }
  }

  lemma ThreeDigitsUnique(s: string, t: string, n: nat)
    requires ThreeDigits(s, n) && ThreeDigits(t, n)
    ensures s == t
  {
    var y :| Zeros(y) && s == y + Decimal(n);
    var z :| Zeros(z) && t == z + Decimal(n);
    assert |Decimal(n)| <= |s| && |Decimal(n)| <= |t|;
    if |s| == |t| {
      assert y == z;
    }
  }
}
