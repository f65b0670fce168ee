/** Rendering values as text that can be read back: numbers, quoted strings, and the
    lemmas that split a concatenation into the pieces it was built from. */
module Text {

  // ---- tokens ----

  ghost predicate Over(s: string, alphabet: char -> bool) {
    forall i :: 0 <= i < |s| ==> alphabet(s[i])
  }

  ghost predicate Stops(s: string, alphabet: char -> bool) {
    s == "" || !alphabet(s[0])
  }

  /** Pieces of one length split alike. */
  lemma EqualLengthsSplit(a: string, s: string, b: string, t: string)
    requires a + s == b + t && |a| == |b|
    ensures a == b && s == t
  {
    assert a == (a + s)[..|a|] == (b + t)[..|b|] == b;
    assert s == (a + s)[|a|..] == (b + t)[|b|..] == t;
  }

  lemma Associates(a: string, b: string, c: string)
    ensures a + b + c == a + (b + c)
  {
  }

  /** A token over an alphabet ends where its follower leaves the alphabet. */
  lemma TokenSplits(a: string, s: string, b: string, t: string, alphabet: char -> bool)
    requires a + s == b + t
    requires Over(a, alphabet) && Over(b, alphabet) && Stops(s, alphabet) && Stops(t, alphabet)
    ensures a == b && s == t
  {
    assert s != "" ==> (a + s)[|a|] == s[0];
    assert t != "" ==> (b + t)[|b|] == t[0];
    assert forall i :: 0 <= i < |a| ==> (b + t)[i] == a[i];
    assert forall i :: 0 <= i < |b| ==> (a + s)[i] == b[i];
    EqualLengthsSplit(a, s, b, t);
  }

  // ---- numbers ----

  function DigitChar(d: nat): (c: char)
    requires d < 16
    ensures Hexadecimal(c) && (d < 10 ==> Decimal(c))
  {
    if d < 10 then ('0' as int + d) as char else ('a' as int + d - 10) as char
  }

  /** Digits of n in base ten or sixteen, most significant first, without padding. */
  function Digits(n: nat, base: nat): (r: string)
    requires base == 10 || base == 16
    ensures r != "" && Over(r, Hexadecimal) && (base == 10 ==> Over(r, Decimal))
  {
    if n < base then [DigitChar(n)] else Digits(n / base, base) + [DigitChar(n % base)]
  }

  predicate Decimal(c: char) {
    '0' <= c <= '9'
  }

  predicate Hexadecimal(c: char) {
    Decimal(c) || 'a' <= c <= 'f'
  }

  /** Everything a number, a boolean or an instant is written with. */
  predicate Plain(c: char) {
    Decimal(c) || 'a' <= c <= 'z' || 'A' <= c <= 'Z' || c == '-' || c == '+' || c == '.' || c == ':'
  }

  lemma DigitCharIsInjective(d: nat, e: nat)
    requires d < 16 && e < 16 && DigitChar(d) == DigitChar(e)
    ensures d == e
  {
  }

  lemma LastDigit(n: nat, base: nat)
    requires base == 10 || base == 16
    ensures var s := Digits(n, base);
            && s[|s| - 1] == DigitChar(n % base)
            && (|s| > 1 <==> n >= base)
            && (n >= base ==> s[..|s| - 1] == Digits(n / base, base))
  {
  }

  lemma {:induction false} DigitsAreInjective(a: nat, b: nat, base: nat)
    requires base == 10 || base == 16
    requires Digits(a, base) == Digits(b, base)
    ensures a == b
  {
    LastDigit(a, base);
    LastDigit(b, base);
    DigitCharIsInjective(a % base, b % base);
    if a >= base { DigitsAreInjective(a / base, b / base, base); }
  }

  function FormatInt(n: int): (r: string)
    ensures Over(r, Plain)
  {
    if n < 0 then "-" + Digits(-n, 10) else Digits(n, 10)
  }

  lemma FormatIntIsInjective(a: int, b: int)
    requires FormatInt(a) == FormatInt(b)
    ensures a == b
  {
    assert a < 0 <==> FormatInt(a)[0] == '-';
    assert b < 0 <==> FormatInt(b)[0] == '-';
    if a < 0 {
      assert Digits(-a, 10) == FormatInt(a)[1..] == FormatInt(b)[1..] == Digits(-b, 10);
      DigitsAreInjective(-a, -b, 10);
    } else {
      DigitsAreInjective(a, b, 10);
    }
  }

  /** A number written in a fixed count of hexadecimal digits. */
  function Padded(n: nat, width: nat): (r: string)
    ensures |r| == width
  {
    if width == 0 then "" else Padded(n / 16, width - 1) + [DigitChar(n % 16)]
  }

  function Pow16(width: nat): nat {
    if width == 0 then 1 else 16 * Pow16(width - 1)
  }

  lemma {:induction false} PaddedIsInjective(a: nat, b: nat, width: nat)
    requires a < Pow16(width) && b < Pow16(width) && Padded(a, width) == Padded(b, width)
    ensures a == b
  {
    if width > 0 {
      var s, t := Padded(a, width), Padded(b, width);
      assert s[width - 1] == DigitChar(a % 16) && t[width - 1] == DigitChar(b % 16);
      assert Padded(a / 16, width - 1) == s[..width - 1] == t[..width - 1] == Padded(b / 16, width - 1);
      PaddedIsInjective(a / 16, b / 16, width - 1);
    }
  }

  // ---- quoted strings ----

  /** strconv.Quote on one rune; which runes are printable is the library's table. */
  function Escaped(c: char, printable: char -> bool): (r: string)
    ensures r != "" && r[0] != '"' && (r[0] == '\\' <==> |r| > 1)
  {
    if c == '"' || c == '\\' then ['\\', c]
    else if printable(c) then [c]
    else if c == '\U{0007}' then "\\a"
    else if c == '\U{0008}' then "\\b"
    else if c == '\U{000C}' then "\\f"
    else if c == '\n' then "\\n"
    else if c == '\r' then "\\r"
    else if c == '\t' then "\\t"
    else if c == '\U{000B}' then "\\v"
    else if c < ' ' || c == '\U{007F}' then "\\x" + Padded(c as int, 2)
    else if c as int < 0x1_0000 then "\\u" + Padded(c as int, 4)
    else "\\U" + Padded(c as int, 8)
  }

  lemma EscapeSplits(c: char, s: string, d: char, t: string, printable: char -> bool)
    requires Escaped(c, printable) + s == Escaped(d, printable) + t
    ensures c == d && s == t
  {
    var x, y := Escaped(c, printable), Escaped(d, printable);
    assert x[0] == (x + s)[0] == (y + t)[0] == y[0];
    if |x| > 1 {
      assert x[1] == (x + s)[1] == (y + t)[1] == y[1];
      assert |x| == |y|;
    }
    EqualLengthsSplit(x, s, y, t);
    if |x| == 4 { assert Padded(c as int, 2) == x[2..] == y[2..] == Padded(d as int, 2); PaddedIsInjective(c as int, d as int, 2); }
    if |x| == 6 { assert Padded(c as int, 4) == x[2..] == y[2..] == Padded(d as int, 4); PaddedIsInjective(c as int, d as int, 4); }
    if |x| == 10 { assert Padded(c as int, 8) == x[2..] == y[2..] == Padded(d as int, 8); PaddedIsInjective(c as int, d as int, 8); }
  }

  /** The characters of a quoted string after its opening quote. */
  function Unopened(s: string, printable: char -> bool): (r: string)
    ensures r != "" && (r[0] == '"' <==> s == "")
  {
    if s == "" then "\"" else Escaped(s[0], printable) + Unopened(s[1..], printable)
  }

  function Quote(s: string, printable: char -> bool): string {
    "\"" + Unopened(s, printable)
  }

  lemma {:induction false} UnopenedSplits(x: string, s: string, y: string, t: string, printable: char -> bool)
    requires Unopened(x, printable) + s == Unopened(y, printable) + t
    ensures x == y && s == t
  {
    var a, b := Unopened(x, printable), Unopened(y, printable);
    assert a[0] == (a + s)[0] == (b + t)[0] == b[0];
    if x == "" {
      EqualLengthsSplit(a, s, b, t);
    } else {
      var u, v := Unopened(x[1..], printable), Unopened(y[1..], printable);
      var c, d := Escaped(x[0], printable), Escaped(y[0], printable);
      Associates(c, u, s);
      Associates(d, v, t);
      EscapeSplits(x[0], u + s, y[0], v + t, printable);
      UnopenedSplits(x[1..], s, y[1..], t, printable);
      assert x == [x[0]] + x[1..] && y == [y[0]] + y[1..];
    }
  }

  /** A quoted string ends at its own closing quote, whatever the string holds. */
  lemma QuoteSplits(x: string, s: string, y: string, t: string, printable: char -> bool)
    requires Quote(x, printable) + s == Quote(y, printable) + t
    ensures x == y && s == t
  {
    var u, v := Unopened(x, printable), Unopened(y, printable);
    Associates("\"", u, s);
    Associates("\"", v, t);
    EqualLengthsSplit("\"", u + s, "\"", v + t);
    UnopenedSplits(x, s, y, t, printable);
  }
}
