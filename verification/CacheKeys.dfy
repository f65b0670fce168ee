/** The fact cache's key: a byte encoding of a source name and its typed arguments
    that two lookups share exactly when they ask for the same thing. Characters stand
    for bytes. */
module CacheKeys {
  import opened Basics
  import opened Text
  import opened Policy
  import opened CallKeys

  // ---- arguments ----

  const NEGATIVE_ZERO: nat := 0x8000_0000_0000_0000

  /** One scalar as the fact plane holds it: a double by its IEEE 754 bits, a time by
      its instant and the zone it is spelled in. */
  datatype Scalar =
    | Flag(b: bool)
    | Whole(i: int)
    | Bits(bits: nat)
    | Chars(s: string)
    | Moment(at: Instant, zone: int)
    | Span(d: int)

  datatype Data = One(item: Scalar) | Many(items: seq<Scalar>)

  datatype Arg = Arg(t: Type, data: Data)

  /** scalarMatches. */
  predicate Matches(t: Type, s: Scalar) {
    match t
    case TBool => s.Flag?
    case TInt => s.Whole?
    case TDouble => s.Bits?
    case TString => s.Chars?
    case TTimestamp => s.Moment?
    case TDuration => s.Span?
    case ListOf(_) => false
  }

  /** CheckType of an argument against the type it says it has. */
  predicate WellTyped(a: Arg) {
    if a.t.ListOf? then a.data.Many? && forall i :: 0 <= i < |a.data.items| ==> Matches(a.t.elem, a.data.items[i])
    else a.data.One? && Matches(a.t, a.data.item)
  }

  predicate AllWellTyped(args: seq<Arg>) {
    forall i :: 0 <= i < |args| ==> WellTyped(args[i])
  }

  // ---- normal forms ----

  /** Two spellings of an instant are one argument, and so are the two zeros. */
  function Norm(s: Scalar): Scalar {
    match s
    case Moment(at, _) => Moment(at, 0)
    case Bits(bits) => if bits == NEGATIVE_ZERO then Bits(0) else s
    case _ => s
  }

  function NormAll(items: seq<Scalar>): (r: seq<Scalar>)
    ensures |r| == |items|
  {
    if items == [] then [] else [Norm(items[0])] + NormAll(items[1..])
  }

  function NormArg(a: Arg): Arg {
    Arg(a.t, match a.data case One(s) => One(Norm(s)) case Many(items) => Many(NormAll(items)))
  }

  function NormArgs(args: seq<Arg>): (r: seq<Arg>)
    ensures |r| == |args|
  {
    if args == [] then [] else [NormArg(args[0])] + NormArgs(args[1..])
  }

  // ---- the encoding ----

  const FIELD := '\U{001F}'
  const VALUE := '\U{001E}'

  function TypeText(t: Type): string {
    match t
    case TBool => "bool"
    case TInt => "int"
    case TDouble => "double"
    case TString => "string"
    case TTimestamp => "timestamp"
    case TDuration => "duration"
    case ListOf(e) => "list<" + (TypeText(e) + ">")
  }

  function Encode(s: Scalar, lib: Library): string {
    match s
    case Flag(b) => if b then "true" else "false"
    case Whole(i) => FormatInt(i)
    case Bits(bits) => Digits(if bits == NEGATIVE_ZERO then 0 else bits, 16)
    case Chars(c) => Digits(|c|, 10) + (":" + c)
    case Moment(at, _) => lib.stamp(at)
    case Span(d) => FormatInt(d)
  }

  function ItemsThen(items: seq<Scalar>, tail: string, lib: Library): string {
    if items == [] then tail else [VALUE] + (Encode(items[0], lib) + ItemsThen(items[1..], tail, lib))
  }

  function DataThen(data: Data, tail: string, lib: Library): string {
    match data
    case One(s) => Encode(s, lib) + tail
    case Many(items) => Digits(|items|, 10) + ItemsThen(items, tail, lib)
  }

  function ArgsThen(args: seq<Arg>, lib: Library): string {
    if args == [] then ""
    else [FIELD] + (TypeText(args[0].t) + ([VALUE] + DataThen(args[0].data, ArgsThen(args[1..], lib), lib)))
  }

  /** cacheKey. */
  function CacheKey(name: string, args: seq<Arg>, lib: Library): string {
    Digits(|name|, 10) + (":" + (name + ArgsThen(args, lib)))
  }

  // ---- reading it back ----

  ghost predicate Ended(s: string) {
    s == "" || s[0] == FIELD || s[0] == VALUE
  }

  predicate TypeChar(c: char) {
    c != VALUE
  }

  lemma {:induction false} TypeTextIsPlain(t: Type)
    ensures TypeText(t) != "" && Over(TypeText(t), TypeChar)
  {
    if t.ListOf? { TypeTextIsPlain(t.elem); }
  }

  lemma {:induction false} TypeTextIsInjective(t: Type, u: Type)
    requires TypeText(t) == TypeText(u)
    ensures t == u
  {
    if t.ListOf? || u.ListOf? {
      var a, b := TypeText(t), TypeText(u);
      assert t.ListOf? <==> a[0] == 'l';
      assert u.ListOf? <==> b[0] == 'l';
      assert a == "list<" + (TypeText(t.elem) + ">") && b == "list<" + (TypeText(u.elem) + ">");
      EqualLengthsSplit("list<", TypeText(t.elem) + ">", "list<", TypeText(u.elem) + ">");
      assert |TypeText(t.elem)| == |TypeText(u.elem)|;
      EqualLengthsSplit(TypeText(t.elem), ">", TypeText(u.elem), ">");
      TypeTextIsInjective(t.elem, u.elem);
    }
  }

  /** A length-prefixed string ends by its length, whatever bytes it holds. */
  lemma PrefixedSplits(x: string, s: string, y: string, t: string)
    requires Digits(|x|, 10) + (":" + (x + s)) == Digits(|y|, 10) + (":" + (y + t))
    ensures x == y && s == t
  {
    TokenSplits(Digits(|x|, 10), ":" + (x + s), Digits(|y|, 10), ":" + (y + t), Decimal);
    DigitsAreInjective(|x|, |y|, 10);
    EqualLengthsSplit(":", x + s, ":", y + t);
    EqualLengthsSplit(x, s, y, t);
  }

  lemma CharsSplit(x: string, s: string, y: string, t: string)
    requires Digits(|x|, 10) + (":" + x) + s == Digits(|y|, 10) + (":" + y) + t
    ensures x == y && s == t
  {
    Associates(Digits(|x|, 10), ":" + x, s);
    Associates(Digits(|y|, 10), ":" + y, t);
    Associates(":", x, s);
    Associates(":", y, t);
    PrefixedSplits(x, s, y, t);
  }

  lemma HexIsPlain(n: nat)
    ensures Over(Digits(n, 16), Plain)
  {
    assert Over(Digits(n, 16), Hexadecimal);
  }

  lemma PlainScalar(s: Scalar, lib: Library)
    requires Faithful(lib) && !s.Chars?
    ensures Over(Encode(s, lib), Plain)
  {
    if s.Bits? { HexIsPlain(if s.bits == NEGATIVE_ZERO then 0 else s.bits); }
  }

  lemma ScalarIsInjective(t: Type, a: Scalar, b: Scalar, lib: Library)
    requires Faithful(lib) && Matches(t, a) && Matches(t, b) && !a.Chars? && Encode(a, lib) == Encode(b, lib)
    ensures Norm(a) == Norm(b)
  {
    match t
    case TBool => assert Encode(a, lib)[0] == if a.b then 't' else 'f'; assert Encode(b, lib)[0] == if b.b then 't' else 'f';
    case TInt => FormatIntIsInjective(a.i, b.i);
    case TDouble => DigitsAreInjective(if a.bits == NEGATIVE_ZERO then 0 else a.bits, if b.bits == NEGATIVE_ZERO then 0 else b.bits, 16);
    case TTimestamp => assert lib.parse(lib.stamp(a.at)) == Some(a.at); assert lib.parse(lib.stamp(b.at)) == Some(b.at);
    case TDuration => FormatIntIsInjective(a.d, b.d);
    case _ =>
  }

  lemma ScalarSplits(t: Type, a: Scalar, s: string, b: Scalar, u: string, lib: Library)
    requires Faithful(lib) && Matches(t, a) && Matches(t, b) && Ended(s) && Ended(u)
    requires Encode(a, lib) + s == Encode(b, lib) + u
    ensures Norm(a) == Norm(b) && s == u
  {
    if t == TString {
      CharsSplit(a.s, s, b.s, u);
    } else {
      PlainScalar(a, lib);
      PlainScalar(b, lib);
      TokenSplits(Encode(a, lib), s, Encode(b, lib), u, Plain);
      ScalarIsInjective(t, a, b, lib);
    }
  }

  lemma ItemsEnd(items: seq<Scalar>, tail: string, lib: Library)
    requires Ended(tail)
    ensures Ended(ItemsThen(items, tail, lib)) && Stops(ItemsThen(items, tail, lib), Decimal)
  {
  }

  lemma {:induction false} ItemsSplit(t: Type, xs: seq<Scalar>, s: string, ys: seq<Scalar>, u: string, lib: Library)
    requires Faithful(lib) && |xs| == |ys| && Ended(s) && Ended(u)
    requires forall i :: 0 <= i < |xs| ==> Matches(t, xs[i]) && Matches(t, ys[i])
    requires ItemsThen(xs, s, lib) == ItemsThen(ys, u, lib)
    ensures NormAll(xs) == NormAll(ys) && s == u
  {
    if xs != [] {
      var x, y := ItemsThen(xs[1..], s, lib), ItemsThen(ys[1..], u, lib);
      EqualLengthsSplit([VALUE], Encode(xs[0], lib) + x, [VALUE], Encode(ys[0], lib) + y);
      ItemsEnd(xs[1..], s, lib);
      ItemsEnd(ys[1..], u, lib);
      ScalarSplits(t, xs[0], x, ys[0], y, lib);
      ItemsSplit(t, xs[1..], s, ys[1..], u, lib);
    }
  }

  lemma DataSplits(a: Arg, s: string, b: Arg, u: string, lib: Library)
    requires Faithful(lib) && WellTyped(a) && WellTyped(b) && a.t == b.t && Ended(s) && Ended(u)
    requires DataThen(a.data, s, lib) == DataThen(b.data, u, lib)
    ensures NormArg(a) == NormArg(b) && s == u
  {
    if a.t.ListOf? {
      var xs, ys := a.data.items, b.data.items;
      ItemsEnd(xs, s, lib);
      ItemsEnd(ys, u, lib);
      TokenSplits(Digits(|xs|, 10), ItemsThen(xs, s, lib), Digits(|ys|, 10), ItemsThen(ys, u, lib), Decimal);
      DigitsAreInjective(|xs|, |ys|, 10);
      ItemsSplit(a.t.elem, xs, s, ys, u, lib);
    } else {
      ScalarSplits(a.t, a.data.item, s, b.data.item, u, lib);
    }
  }

  lemma {:induction false} ArgsSplit(a: seq<Arg>, b: seq<Arg>, lib: Library)
    requires Faithful(lib) && AllWellTyped(a) && AllWellTyped(b) && ArgsThen(a, lib) == ArgsThen(b, lib)
    ensures NormArgs(a) == NormArgs(b)
  {
    if a != [] && b != [] {
      var x, y := ArgsThen(a[1..], lib), ArgsThen(b[1..], lib);
      var p, q := DataThen(a[0].data, x, lib), DataThen(b[0].data, y, lib);
      EqualLengthsSplit([FIELD], TypeText(a[0].t) + ([VALUE] + p), [FIELD], TypeText(b[0].t) + ([VALUE] + q));
      TypeTextIsPlain(a[0].t);
      TypeTextIsPlain(b[0].t);
      TokenSplits(TypeText(a[0].t), [VALUE] + p, TypeText(b[0].t), [VALUE] + q, TypeChar);
      TypeTextIsInjective(a[0].t, b[0].t);
      EqualLengthsSplit([VALUE], p, [VALUE], q);
      DataSplits(a[0], x, b[0], y, lib);
      ArgsSplit(a[1..], b[1..], lib);
    }
  }

  // ---- and that the encoding sees only the normal form ----

  lemma NormEncodesAlike(a: Scalar, b: Scalar, lib: Library)
    requires Norm(a) == Norm(b)
    ensures Encode(a, lib) == Encode(b, lib)
  {
  }

  lemma {:induction false} NormItemsAlike(xs: seq<Scalar>, ys: seq<Scalar>, tail: string, lib: Library)
    requires NormAll(xs) == NormAll(ys)
    ensures ItemsThen(xs, tail, lib) == ItemsThen(ys, tail, lib)
  {
    if xs != [] {
      assert Norm(xs[0]) == NormAll(xs)[0] == NormAll(ys)[0] == Norm(ys[0]);
      assert NormAll(xs[1..]) == NormAll(xs)[1..] == NormAll(ys)[1..] == NormAll(ys[1..]);
      NormEncodesAlike(xs[0], ys[0], lib);
      NormItemsAlike(xs[1..], ys[1..], tail, lib);
    }
  }

  lemma {:induction false} NormArgsAlike(a: seq<Arg>, b: seq<Arg>, lib: Library)
    requires NormArgs(a) == NormArgs(b)
    ensures ArgsThen(a, lib) == ArgsThen(b, lib)
  {
    if a != [] {
      assert NormArg(a[0]) == NormArgs(a)[0] == NormArgs(b)[0] == NormArg(b[0]);
      assert NormArgs(a[1..]) == NormArgs(a)[1..] == NormArgs(b)[1..] == NormArgs(b[1..]);
      NormArgsAlike(a[1..], b[1..], lib);
      var tail := ArgsThen(a[1..], lib);
      if a[0].data.Many? {
        NormItemsAlike(a[0].data.items, b[0].data.items, tail, lib);
      } else {
        NormEncodesAlike(a[0].data.item, b[0].data.item, lib);
      }
    }
  }

  /** Two lookups share a key exactly when the names are equal and the arguments are
      equal up to the spelling of an instant and the sign of zero, even where strings
      hold the separators. */
  lemma CacheKeyIsInjective(name: string, a: seq<Arg>, other: string, b: seq<Arg>, lib: Library)
    requires Faithful(lib) && AllWellTyped(a) && AllWellTyped(b)
    ensures CacheKey(name, a, lib) == CacheKey(other, b, lib) <==> name == other && NormArgs(a) == NormArgs(b)
  {
    if CacheKey(name, a, lib) == CacheKey(other, b, lib) {
      PrefixedSplits(name, ArgsThen(a, lib), other, ArgsThen(b, lib));
      ArgsSplit(a, b, lib);
    }
    if NormArgs(a) == NormArgs(b) { NormArgsAlike(a, b, lib); }
  }
}
