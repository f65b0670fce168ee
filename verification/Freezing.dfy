/** What freezing a request and its facts onto a decision row keeps: every value
    goes through JSON, where every number is a double, and is read back by its
    declared type. */
module Freezing {
  import opened Basics
  import opened Policy
  import opened CallKeys
  import opened Engine

  // ---- integers through a double ----

  const TWO_53: int := 0x20_0000_0000_0000

  /** The spacing of doubles at a magnitude, from 1 up. */
  function Unit(n: nat): (u: nat)
    ensures u >= 1
  {
    if n < TWO_53 then 1 else 2 * Unit(n / 2)
  }

  /** Round to nearest, ties to the even significand. */
  function RoundNat(n: nat): int {
    var u := Unit(n);
    var q, r := n / u, n % u;
    if 2 * r < u || (2 * r == u && q % 2 == 0) then q * u else (q + 1) * u
  }

  function Rounded(n: int): int {
    if n >= 0 then RoundNat(n) else -RoundNat(-n)
  }

  predicate Representable(n: int) {
    var m := if n >= 0 then n else -n;
    m % Unit(m) == 0
  }

  lemma RoundNatIsExact(n: nat)
    ensures RoundNat(n) == n <==> n % Unit(n) == 0
  {
    var u := Unit(n);
    var q, r := n / u, n % u;
    assert n == q * u + r;
    assert (q + 1) * u == q * u + u;
  }

  /** An integer survives the double exactly when it is a multiple of the spacing at
      its magnitude, which every integer up to 2^53 is. */
  lemma IntegersThatSurvive(n: int)
    ensures Rounded(n) == n <==> Representable(n)
    ensures -TWO_53 <= n <= TWO_53 ==> Representable(n)
  {
    RoundNatIsExact(if n >= 0 then n else -n);
    if n == TWO_53 || n == -TWO_53 { assert Unit(TWO_53) == 2 * Unit(TWO_53 / 2) == 2; }
  }

  /** The smallest that does not. */
  lemma AnIntegerThatDoesNot()
    ensures Rounded(TWO_53 + 1) == TWO_53
  {
    assert Unit(TWO_53 + 1) == 2 * Unit((TWO_53 + 1) / 2) == 2;
  }

  // ---- values ----

  function Freeze(v: Value, lib: Library): Json
    decreases v, 1
  {
    match v
    case VBool(b) => JBool(b)
    case VInt(i) => JNumber(Number(Rounded(i), 0))
    case VDouble(f) => JNumber(f)
    case VString(s) => JText(s)
    case VTime(at) => JText(lib.stamp(at))
    case VDuration(d) => JNumber(Number(Rounded(d), 0))
    case VList(items) => JList(FreezeAll(items, lib))
  }

  function FreezeAll(vs: seq<Value>, lib: Library): (r: seq<Json>)
    ensures |r| == |vs|
    decreases vs, 0
  {
    if vs == [] then [] else [Freeze(vs[0], lib)] + FreezeAll(vs[1..], lib)
  }

  /** A JSON value taken as it came. */
  function Carry(j: Json): Value
    decreases j, 1
  {
    match j
    case JBool(b) => VBool(b)
    case JNumber(f) => VDouble(f)
    case JText(s) => VString(s)
    case JList(items) => VList(CarryAll(items))
  }

  function CarryAll(js: seq<Json>): seq<Value>
    decreases js, 0
  {
    if js == [] then [] else [Carry(js[0])] + CarryAll(js[1..])
  }

  function Truncated(f: Float): int {
    var n := Numerator(f);
    if n >= 0 then n / Pow2(Scale(f)) else -(-n / Pow2(Scale(f)))
  }

  /** restoreValue: back to the representation of a declared type. */
  function Restore(t: Type, j: Json, lib: Library): Result<Value>
    decreases t, 1, 0
  {
    match t
    case ListOf(e) =>
      if !j.JList? then Err(Fault.Broken)
      else
        var items :- RestoreAll(e, j.items, lib);
        Ok(VList(items))
    case TInt =>
      if !j.JNumber? then Ok(Carry(j)) else if Scale(j.f) != 0 then Err(Fault.Broken) else Ok(VInt(Numerator(j.f)))
    case TTimestamp =>
      if j.JText? && lib.parse(j.s).Some? then Ok(VTime(lib.parse(j.s).value)) else Err(Fault.Broken)
    case TDuration =>
      if j.JNumber? then Ok(VDuration(Truncated(j.f)))
      else if j.JText? && lib.span(j.s).Some? then Ok(VDuration(lib.span(j.s).value))
      else Err(Fault.Broken)
    case _ => Ok(Carry(j))
  }

  function RestoreAll(t: Type, js: seq<Json>, lib: Library): Result<seq<Value>>
    decreases t, 2, |js|
  {
    if js == [] then Ok([])
    else
      var first :- Restore(t, js[0], lib);
      var rest :- RestoreAll(t, js[1..], lib);
      Ok([first] + rest)
  }

  /** Nothing in the value is lost on the way: no integer to a double, no sign of zero
      to the column. */
  predicate Exact(v: Value) {
    match v
    case VDouble(f) => !f.NegativeZero?
    case VInt(i) => Representable(i)
    case VDuration(d) => Representable(d)
    case VList(items) => forall i :: 0 <= i < |items| ==> Exact(items[i])
    case _ => true
  }

  lemma ExactFromFirst(vs: seq<Value>)
    requires vs != []
    ensures (forall i :: 0 <= i < |vs| ==> Exact(vs[i])) <==> Exact(vs[0]) && forall i :: 0 <= i < |vs[1..]| ==> Exact(vs[1..][i])
  {
    assert forall i :: 0 < i < |vs| ==> vs[i] == vs[1..][i - 1];
  }

  /** A typed value always comes back with its type, and as itself exactly when its
      integers survive the double and it holds no negative zero. */
  lemma {:induction false} RestoreInvertsFreeze(t: Type, v: Value, lib: Library)
    requires Faithful(lib) && HasType(v, t)
    ensures var r := Restore(t, Stored(Freeze(v, lib)), lib); r.Ok? && HasType(r.value, t) && (r.value == v <==> Exact(v))
    decreases t, 1, 0
  {
    match t
    case TInt => IntegersThatSurvive(v.i);
    case TDuration =>
      IntegersThatSurvive(v.d);
      assert Pow2(0) == 1;
      assert Truncated(Number(Rounded(v.d), 0)) == Rounded(v.d);
    case ListOf(e) => RestoreAllInvertsFreezeAll(e, v.items, lib);
    case _ =>
  }

  lemma StoredFromFirst(vs: seq<Value>, lib: Library)
    requires vs != []
    ensures var js := StoredAll(FreezeAll(vs, lib)); js[0] == Stored(Freeze(vs[0], lib)) && js[1..] == StoredAll(FreezeAll(vs[1..], lib))
  {
    assert FreezeAll(vs, lib)[1..] == FreezeAll(vs[1..], lib);
  }

  lemma {:induction false} RestoreAllInvertsFreezeAll(t: Type, vs: seq<Value>, lib: Library)
    requires Faithful(lib) && forall i :: 0 <= i < |vs| ==> HasType(vs[i], t)
    ensures var r := RestoreAll(t, StoredAll(FreezeAll(vs, lib)), lib);
            && r.Ok? && |r.value| == |vs| && (forall i :: 0 <= i < |vs| ==> HasType(r.value[i], t))
            && (r.value == vs <==> forall i :: 0 <= i < |vs| ==> Exact(vs[i]))
    decreases t, 2, |vs|
  {
    if vs != [] {
      RestoreInvertsFreeze(t, vs[0], lib);
      RestoreAllInvertsFreezeAll(t, vs[1..], lib);
      StoredFromFirst(vs, lib);
      assert vs == [vs[0]] + vs[1..];
      ExactFromFirst(vs);
    }
  }

  // ---- requests ----

  function FreezeEntity(e: Entity, lib: Library): FrozenEntity {
    FrozenEntity(e.kind, e.id, map a | a in e.attributes :: Freeze(e.attributes[a], lib))
  }

  function FreezeInput(input: Input, lib: Library): FrozenInput {
    FrozenInput(input.action, FreezeEntity(input.subject, lib), FreezeEntity(input.resource, lib), FreezeEntity(input.context, lib))
  }

  /** restoreEntity: an attribute the schema no longer declares is carried through as
      it was frozen. */
  function RestoreEntity(schema: Schema, f: FrozenEntity, lib: Library): Result<Entity> {
    if f.attributes == map[] || f.kind == "" then Ok(Entity(f.kind, f.id, map[]))
    else if f.kind !in schema.entities then Err(Fault.Broken)
    else
      var declared := schema.entities[f.kind];
      if forall a :: a in f.attributes && a in declared ==> Restore(declared[a], f.attributes[a], lib).Ok? then
        Ok(Entity(f.kind, f.id, map a | a in f.attributes ::
          if a in declared then Restore(declared[a], f.attributes[a], lib).value else Carry(f.attributes[a])))
      else Err(Fault.Broken)
  }

  function RestoreInput(schema: Schema, f: FrozenInput, lib: Library): Result<Input> {
    var s :- RestoreEntity(schema, f.subject, lib);
    var r :- RestoreEntity(schema, f.resource, lib);
    var c :- RestoreEntity(schema, f.context, lib);
    Ok(Input(f.action, s, r, c))
  }

  ghost predicate ExactEntity(e: Entity) {
    e.kind != "" ==> forall a :: a in e.attributes ==> Exact(e.attributes[a])
  }

  /** One attribute's way through the row and back. */
  ghost predicate ComesBack(t: Type, v: Value, r: Result<Value>) {
    r.Ok? && HasType(r.value, t) && (r.value == v <==> Exact(v))
  }

  lemma AttributesRoundTrip(declared: map<string, Type>, attributes: map<string, Value>, lib: Library)
    requires Faithful(lib) && forall a :: a in attributes ==> a in declared && HasType(attributes[a], declared[a])
    ensures forall a :: a in attributes ==> ComesBack(declared[a], attributes[a], Restore(declared[a], Stored(Freeze(attributes[a], lib)), lib))
  {
    forall a | a in attributes ensures ComesBack(declared[a], attributes[a], Restore(declared[a], Stored(Freeze(attributes[a], lib)), lib)) {
      RestoreInvertsFreeze(declared[a], attributes[a], lib);
    }
  }

  lemma EntityRestores(schema: Schema, e: Entity, lib: Library)
    requires Faithful(lib) && e.kind != "" && BindEntity(schema, e).Ok?
    ensures var r := RestoreEntity(schema, StoredEntity(FreezeEntity(e, lib)), lib);
            && r.Ok? && r.value.kind == e.kind && r.value.attributes.Keys == e.attributes.Keys
            && forall a :: a in e.attributes ==> ComesBack(schema.entities[e.kind][a], e.attributes[a], Ok(r.value.attributes[a]))
  {
    AttributesRoundTrip(schema.entities[e.kind], e.attributes, lib);
    var f := StoredEntity(FreezeEntity(e, lib));
    assert f.attributes.Keys == e.attributes.Keys;
    assert forall a :: a in e.attributes ==> f.attributes[a] == Stored(Freeze(e.attributes[a], lib));
  }

  lemma AttributesBind(declared: map<string, Type>, attributes: map<string, Value>, back: map<string, Value>)
    requires attributes.Keys == back.Keys && forall a :: a in attributes ==> a in declared && ComesBack(declared[a], attributes[a], Ok(back[a]))
    ensures forall a :: a in back ==> a in declared && HasType(back[a], declared[a])
    ensures back == attributes <==> forall a :: a in attributes ==> Exact(attributes[a])
  {
    if forall a :: a in attributes ==> Exact(attributes[a]) { assert back == attributes; }
    if back == attributes {
      forall a | a in attributes ensures Exact(attributes[a]) { assert ComesBack(declared[a], attributes[a], Ok(back[a])); }
    }
  }

  /** A frozen entity always restores under its own schema, and binds as it did
      exactly when nothing in it was lost. */
  lemma EntityRoundTrips(schema: Schema, e: Entity, lib: Library)
    requires Faithful(lib) && BindEntity(schema, e).Ok?
    ensures var r := RestoreEntity(schema, StoredEntity(FreezeEntity(e, lib)), lib);
            && r.Ok? && r.value.kind == e.kind && BindEntity(schema, r.value).Ok?
            && BindEntity(schema, r.value).value.Keys == BindEntity(schema, e).value.Keys
            && (BindEntity(schema, r.value) == BindEntity(schema, e) <==> ExactEntity(e))
  {
    if e.kind != "" {
      EntityRestores(schema, e, lib);
      AttributesBind(schema.entities[e.kind], e.attributes, RestoreEntity(schema, StoredEntity(FreezeEntity(e, lib)), lib).value.attributes);
    }
  }

  ghost predicate ExactInput(input: Input) {
    ExactEntity(input.subject) && ExactEntity(input.resource) && ExactEntity(input.context)
  }

  ghost predicate SameNames(a: Binding, b: Binding) {
    a.subject.Keys == b.subject.Keys && a.resource.Keys == b.resource.Keys && a.context.Keys == b.context.Keys
  }

  lemma InputRoundTrips(schema: Schema, input: Input, lib: Library)
    requires Faithful(lib) && Bind(schema, input).Ok?
    ensures var r := RestoreInput(schema, StoredInput(FreezeInput(input, lib)), lib);
            && r.Ok? && r.value.action == input.action && r.value.subject.kind == input.subject.kind
            && r.value.resource.kind == input.resource.kind && r.value.context.kind == input.context.kind
            && Bind(schema, r.value).Ok? && SameNames(Bind(schema, r.value).value, Bind(schema, input).value)
            && (Bind(schema, r.value) == Bind(schema, input) <==> ExactInput(input))
  {
    EntityRoundTrips(schema, input.subject, lib);
    EntityRoundTrips(schema, input.resource, lib);
    EntityRoundTrips(schema, input.context, lib);
  }
}
