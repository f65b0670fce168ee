/** How a fact source call is named: the lookup key inside one evaluation and the
    readable name inside a frozen snapshot. Both name one call each. */
module CallKeys {
  import opened Basics
  import opened Text
  import opened Policy

  /** One invocation of a declared source, its arguments reduced to values. */
  datatype Call = Call(name: string, args: seq<Value>)

  /** The formatting library: shortest decimal of a double, RFC 3339 form of an
      instant with its parser, the duration parser, and the table of printable
      characters. */
  datatype Library = Library(
    double: Float -> string, stamp: Instant -> string, parse: string -> Option<Instant>,
    span: string -> Option<int>, printable: char -> bool)

  /** What the engine relies on the library for. */
  ghost predicate Faithful(lib: Library) {
    && (forall x :: Over(lib.double(x), Plain))
    && (forall x, y :: lib.double(x) == lib.double(y) ==> x == y)
    && (forall t :: Over(lib.stamp(t), Plain) && lib.parse(lib.stamp(t)) == Some(t))
  }

  function Tag(v: Value): char {
    match v
    case VBool(_) => 'b'
    case VInt(_) => 'i'
    case VDouble(_) => 'd'
    case VString(_) => 's'
    case VTime(_) => 't'
    case VDuration(_) => 'u'
    case VList(_) => 'l'
  }

  function Body(v: Value, lib: Library): string
    decreases v, 1
  {
    match v
    case VBool(b) => if b then "true" else "false"
    case VInt(i) => FormatInt(i)
    case VDouble(f) => lib.double(f)
    case VString(s) => Quote(s, lib.printable)
    case VTime(at) => lib.stamp(at)
    case VDuration(d) => FormatInt(d)
    case VList(items) => "[" + Items(items, ",", "]", lib)
  }

  /** canonical: unique per type and value. */
  function Canonical(v: Value, lib: Library): string
    decreases v, 2
  {
    [Tag(v), ':'] + Body(v, lib)
  }

  /** A joined list of values and what follows it. */
  function Items(items: seq<Value>, sep: string, tail: string, lib: Library): string
    decreases items, 1
  {
    if items == [] then tail else Canonical(items[0], lib) + More(items[1..], sep, tail, lib)
  }

  function More(items: seq<Value>, sep: string, tail: string, lib: Library): string
    decreases items, 0
  {
    if items == [] then tail else sep + (Canonical(items[0], lib) + More(items[1..], sep, tail, lib))
  }

  /** The lookup key: every argument behind a unit separator. */
  function Key(c: Call, lib: Library): string {
    c.name + More(c.args, "\U{001F}", "", lib)
  }

  /** The snapshot key: the call as a person would write it. */
  function Name(c: Call, lib: Library): string {
    c.name + "(" + Items(c.args, ", ", ")", lib)
  }

  // ---- both are injective ----

  /** A tail that neither a value nor a separator can be mistaken for. */
  ghost predicate Ends(tail: string, sep: string)
    requires sep != ""
  {
    Stops(tail, Plain) && (tail == "" || tail[0] != sep[0])
  }

  ghost predicate Separator(sep: string) {
    sep != "" && !Plain(sep[0])
  }

  lemma {:induction false} MoreThen(items: seq<Value>, sep: string, tail: string, s: string, lib: Library)
    ensures More(items, sep, tail, lib) + s == More(items, sep, tail + s, lib)
  {
    if items != [] {
      MoreThen(items[1..], sep, tail, s, lib);
      var c, m := Canonical(items[0], lib), More(items[1..], sep, tail, lib);
      Associates(sep, c + m, s);
      Associates(c, m, s);
    }
  }

  lemma ItemsThen(items: seq<Value>, sep: string, tail: string, s: string, lib: Library)
    ensures Items(items, sep, tail, lib) + s == Items(items, sep, tail + s, lib)
  {
    if items != [] {
      MoreThen(items[1..], sep, tail, s, lib);
      Associates(Canonical(items[0], lib), More(items[1..], sep, tail, lib), s);
    }
  }

  lemma PlainSplits(a: string, s: string, b: string, t: string)
    requires a + s == b + t && Over(a, Plain) && Over(b, Plain) && Stops(s, Plain) && Stops(t, Plain)
    ensures a == b && s == t
  {
    TokenSplits(a, s, b, t, Plain);
  }

  lemma ScalarSplits(v: Value, s: string, w: Value, t: string, lib: Library)
    requires Faithful(lib) && Stops(s, Plain) && Stops(t, Plain)
    requires Tag(v) == Tag(w) && !v.VList? && Body(v, lib) + s == Body(w, lib) + t
    ensures v == w && s == t
  {
    if v.VString? {
      QuoteSplits(v.s, s, w.s, t, lib.printable);
    } else {
      PlainSplits(Body(v, lib), s, Body(w, lib), t);
      match v
      case VBool(b) => assert b <==> Body(v, lib)[0] == 't'; assert w.b <==> Body(w, lib)[0] == 't';
      case VInt(i) => FormatIntIsInjective(i, w.i);
      case VTime(at) => assert lib.parse(lib.stamp(at)) == lib.parse(lib.stamp(w.at));
      case VDuration(d) => FormatIntIsInjective(d, w.d);
      case VDouble(_) =>
      case VString(_) =>
    }
  }

  /** A value's text determines the value and where the text ends. */
  lemma {:induction false} CanonicalSplits(v: Value, s: string, w: Value, t: string, lib: Library)
    requires Faithful(lib) && Stops(s, Plain) && Stops(t, Plain)
    requires Canonical(v, lib) + s == Canonical(w, lib) + t
    ensures v == w && s == t
    decreases v, 2
  {
    Associates([Tag(v), ':'], Body(v, lib), s);
    Associates([Tag(w), ':'], Body(w, lib), t);
    EqualLengthsSplit([Tag(v), ':'], Body(v, lib) + s, [Tag(w), ':'], Body(w, lib) + t);
    if v.VList? {
      ItemsThen(v.items, ",", "]", s, lib);
      ItemsThen(w.items, ",", "]", t, lib);
      Associates("[", Items(v.items, ",", "]", lib), s);
      Associates("[", Items(w.items, ",", "]", lib), t);
      EqualLengthsSplit("[", Items(v.items, ",", "]" + s, lib), "[", Items(w.items, ",", "]" + t, lib));
      ItemsSplit(v.items, "]" + s, w.items, "]" + t, ",", lib);
      EqualLengthsSplit("]", s, "]", t);
    } else {
      ScalarSplits(v, s, w, t, lib);
    }
  }

  lemma {:induction false} ItemsSplit(v: seq<Value>, s: string, w: seq<Value>, t: string, sep: string, lib: Library)
    requires Faithful(lib) && Separator(sep) && Ends(s, sep) && Ends(t, sep)
    requires s != "" && t != "" && Items(v, sep, s, lib) == Items(w, sep, t, lib)
    ensures v == w && s == t
    decreases v, 1
  {
    assert v == [] <==> !Plain(Items(v, sep, s, lib)[0]);
    assert w == [] <==> !Plain(Items(w, sep, t, lib)[0]);
    if v != [] {
      MoreStops(v[1..], sep, s, lib);
      MoreStops(w[1..], sep, t, lib);
      CanonicalSplits(v[0], More(v[1..], sep, s, lib), w[0], More(w[1..], sep, t, lib), lib);
      MoreSplits(v[1..], s, w[1..], t, sep, lib);
      assert v == [v[0]] + v[1..] && w == [w[0]] + w[1..];
    }
  }

  lemma MoreStops(items: seq<Value>, sep: string, tail: string, lib: Library)
    requires Separator(sep) && Ends(tail, sep)
    ensures Stops(More(items, sep, tail, lib), Plain)
    ensures items == [] <==> More(items, sep, tail, lib) == "" || More(items, sep, tail, lib)[0] != sep[0]
  {
  }

  lemma {:induction false} MoreSplits(v: seq<Value>, s: string, w: seq<Value>, t: string, sep: string, lib: Library)
    requires Faithful(lib) && Separator(sep) && Ends(s, sep) && Ends(t, sep)
    requires More(v, sep, s, lib) == More(w, sep, t, lib)
    ensures v == w && s == t
    decreases v, 0
  {
    MoreStops(v, sep, s, lib);
    MoreStops(w, sep, t, lib);
    if v != [] {
      var x, y := More(v[1..], sep, s, lib), More(w[1..], sep, t, lib);
      EqualLengthsSplit(sep, Canonical(v[0], lib) + x, sep, Canonical(w[0], lib) + y);
      MoreStops(v[1..], sep, s, lib);
      MoreStops(w[1..], sep, t, lib);
      CanonicalSplits(v[0], x, w[0], y, lib);
      MoreSplits(v[1..], s, w[1..], t, sep, lib);
      assert v == [v[0]] + v[1..] && w == [w[0]] + w[1..];
    }
  }

  /** Declared source names hold neither of the characters that end them. */
  predicate NameChar(c: char) {
    c != '(' && c != '\U{001F}'
  }

  /** The lookup key names one call, whatever its string arguments hold. */
  lemma KeyIsInjective(c: Call, d: Call, lib: Library)
    requires Faithful(lib) && Over(c.name, NameChar) && Over(d.name, NameChar)
    ensures Key(c, lib) == Key(d, lib) <==> c == d
  {
    if Key(c, lib) == Key(d, lib) {
      TokenSplits(c.name, More(c.args, "\U{001F}", "", lib), d.name, More(d.args, "\U{001F}", "", lib), NameChar);
      MoreSplits(c.args, "", d.args, "", "\U{001F}", lib);
    }
  }

  /** The snapshot key names one call, so a frozen value answers only its own call. */
  lemma NameIsInjective(c: Call, d: Call, lib: Library)
    requires Faithful(lib) && Over(c.name, NameChar) && Over(d.name, NameChar)
    ensures Name(c, lib) == Name(d, lib) <==> c == d
  {
    if Name(c, lib) == Name(d, lib) {
      var x, y := Items(c.args, ", ", ")", lib), Items(d.args, ", ", ")", lib);
      Associates(c.name, "(", x);
      Associates(d.name, "(", y);
      TokenSplits(c.name, "(" + x, d.name, "(" + y, NameChar);
      EqualLengthsSplit("(", x, "(", y);
      ItemsSplit(c.args, ")", d.args, ")", ", ", lib);
    }
  }

  // ---- such a library can be written ----

  ghost function ReadInt(s: string): Option<int> {
    if exists n :: FormatInt(n) == s then var n :| FormatInt(n) == s; Some(n) else None
  }

  predicate Signed(c: char) {
    Decimal(c) || c == '-'
  }

  /** One way to write a double that can be told apart from every other. */
  function WritePoint(x: Float): string {
    if x.NegativeZero? then "-0" else FormatInt(x.mantissa) + ("." + Digits(x.scale, 10))
  }

  lemma PointSplits(x: Float, y: Float)
    requires WritePoint(x) == WritePoint(y)
    ensures x == y
  {
    assert x.NegativeZero? <==> '.' !in WritePoint(x) by { PointHasPoint(x); }
    assert y.NegativeZero? <==> '.' !in WritePoint(y) by { PointHasPoint(y); }
    if !x.NegativeZero? { DecimalsSplit(x, y); }
  }

  lemma PointHasPoint(x: Float)
    ensures !x.NegativeZero? ==> '.' in WritePoint(x)
  {
    if !x.NegativeZero? { assert WritePoint(x)[|FormatInt(x.mantissa)|] == '.'; }
  }

  lemma DecimalsSplit(x: Float, y: Float)
    requires !x.NegativeZero? && !y.NegativeZero? && WritePoint(x) == WritePoint(y)
    ensures x == y
  {
    assert Over(FormatInt(x.mantissa), Signed) && Over(FormatInt(y.mantissa), Signed);
    TokenSplits(FormatInt(x.mantissa), "." + Digits(x.scale, 10), FormatInt(y.mantissa), "." + Digits(y.scale, 10), Signed);
    EqualLengthsSplit(".", Digits(x.scale, 10), ".", Digits(y.scale, 10));
    FormatIntIsInjective(x.mantissa, y.mantissa);
    DigitsAreInjective(x.scale, y.scale, 10);
  }

  lemma FaithfulIsPossible()
    ensures exists lib: Library :: Faithful(lib)
  {
    var lib := Library(
      (f: Float) => WritePoint(f), (t: Instant) => FormatInt(t), s => ReadInt(s), _ => None, _ => false);
    forall x, y | lib.double(x) == lib.double(y) ensures x == y { PointSplits(x, y); }
    forall t ensures lib.parse(lib.stamp(t)) == Some(t) { FormatIntIsInjective(t, ReadInt(FormatInt(t)).value); }
    forall x: Float ensures Over(lib.double(x), Plain) { if !x.NegativeZero? { assert Over(Digits(x.scale, 10), Decimal); } }
    assert Faithful(lib);
  }
}
