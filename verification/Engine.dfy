/** Conditions: binding a request's attributes, evaluating a condition over a table of
    facts, and collecting every fact call it can reach before any condition runs. */
module Engine {
  import opened Basics
  import opened Approvers
  import opened Policy
  import opened CallKeys

  // ---- three-valued conditions ----

  datatype Tri = True | False | Error

  function Both(a: Tri, b: Tri): Tri {
    if a == False || b == False then False else if a == Error || b == Error then Error else True
  }

  function Either(a: Tri, b: Tri): Tri {
    if a == True || b == True then True else if a == Error || b == Error then Error else False
  }

  function Negated(a: Tri): Tri {
    match a case True => False case False => True case Error => Error
  }

  /** celBuilder.fold: a balanced tree over two or more operands. */
  function Fold(op: LogicOp, xs: seq<Tri>): Tri
    requires xs != []
  {
    if |xs| == 1 then xs[0]
    else
      var mid := |xs| / 2;
      var l, r := Fold(op, xs[..mid]), Fold(op, xs[mid..]);
      if op == All then Both(l, r) else Either(l, r)
  }

  /** What a conjunction or disjunction means, independent of any tree: one deciding
      operand decides, otherwise one error is an error. */
  ghost function Meaning(op: LogicOp, xs: seq<Tri>): Tri {
    if op == All then if False in xs then False else if Error in xs then Error else True
    else if True in xs then True else if Error in xs then Error else False
  }

  lemma {:induction false} FoldMeansItsOperands(op: LogicOp, xs: seq<Tri>)
    requires xs != []
    ensures Fold(op, xs) == Meaning(op, xs)
  {
    if |xs| > 1 {
      var mid := |xs| / 2;
      FoldMeansItsOperands(op, xs[..mid]);
      FoldMeansItsOperands(op, xs[mid..]);
      assert xs == xs[..mid] + xs[mid..];
    }
  }

  // ---- binding ----

  /** The attribute values a request binds, by role. */
  datatype Binding = Binding(subject: map<string, Value>, resource: map<string, Value>, context: map<string, Value>)

  function Bound(b: Binding, role: Role): map<string, Value> {
    match role
    case SubjectRole => b.subject
    case ResourceRole => b.resource
    case ContextRole => b.context
  }

  /** One entity's attributes: every one declared, every one of its declared type. */
  function BindEntity(schema: Schema, e: Entity): (r: Result<map<string, Value>>)
    ensures r.Ok? && e.kind != "" ==> r.value == e.attributes
  {
    if e.kind == "" then Ok(map[])
    else if e.kind !in schema.entities then Err(Fault.Broken)
    else
      var declared := schema.entities[e.kind];
      if forall a :: a in e.attributes ==> a in declared && HasType(e.attributes[a], declared[a])
      then Ok(e.attributes) else Err(Fault.Broken)
  }

  function Bind(schema: Schema, input: Input): Result<Binding> {
    var s :- BindEntity(schema, input.subject);
    var r :- BindEntity(schema, input.resource);
    var c :- BindEntity(schema, input.context);
    Ok(Binding(s, r, c))
  }

  // ---- evaluating conditions over a fact table ----

  /** Resolved facts, by lookup key. */
  type Table = map<string, Value>

  function Pow2(n: nat): (r: nat)
    ensures r >= 1
  {
    if n == 0 then 1 else 2 * Pow2(n - 1)
  }

  predicate Below(x: Value, y: Value) {
    match (x, y)
    case (VInt(a), VInt(b)) => a < b
    case (VDouble(a), VDouble(b)) => Numerator(a) * Pow2(Scale(b)) < Numerator(b) * Pow2(Scale(a))
    case (VString(a), VString(b)) => Less(a, b)
    case (VTime(a), VTime(b)) => a < b
    case (VDuration(a), VDuration(b)) => a < b
    case _ => false
  }

  predicate Ordered(x: Value, y: Value) {
    (x.VInt? && y.VInt?) || (x.VDouble? && y.VDouble?) || (x.VString? && y.VString?) || (x.VTime? && y.VTime?) || (x.VDuration? && y.VDuration?)
  }

  function Truth(b: bool): Tri {
    if b then True else False
  }

  /** Equality of values: the two zeros are one number. */
  predicate Equal(x: Value, y: Value)
    decreases x, 1
  {
    match (x, y)
    case (VDouble(a), VDouble(b)) => Numerator(a) == Numerator(b) && Scale(a) == Scale(b)
    case (VList(a), VList(b)) => |a| == |b| && forall i :: 0 <= i < |a| ==> Equal(a[i], b[i])
    case _ => x == y
  }

  predicate Among(x: Value, items: seq<Value>) {
    exists i :: 0 <= i < |items| && Equal(x, items[i])
  }

  function Related(cmp: CompareOp, x: Value, y: Value): Tri {
    match cmp
    case Eq => Truth(Equal(x, y))
    case Ne => Truth(!Equal(x, y))
    case Lt => if Ordered(x, y) then Truth(Below(x, y)) else Error
    case Le => if Ordered(x, y) then Truth(!Below(y, x)) else Error
    case Gt => if Ordered(x, y) then Truth(Below(y, x)) else Error
    case Ge => if Ordered(x, y) then Truth(!Below(x, y)) else Error
  }

  /** The fixed surroundings of one evaluation. */
  datatype Scope = Scope(schema: Schema, binding: Binding, lib: Library)

  function EvalOperand(o: Operand, sc: Scope, table: Table): Option<Value>
    decreases o, 1
  {
    match o
    case Field(role, a) => if a in Bound(sc.binding, role) then Some(Bound(sc.binding, role)[a]) else None
    case Literal(_, v) => Some(v)
    case Source(name, args) =>
      var values := EvalOperands(args, sc, table);
      if values.None? then None else Lookup(Call(name, values.value), sc, table)
  }

  function EvalOperands(os: seq<Operand>, sc: Scope, table: Table): Option<seq<Value>>
    decreases os, 0
  {
    if os == [] then Some([])
    else
      var first, rest := EvalOperand(os[0], sc, table), EvalOperands(os[1..], sc, table);
      if first.Some? && rest.Some? then Some([first.value] + rest.value) else None
  }

  /** factCall.lookup: an unanswered or mistyped call is an error, not a false. */
  function Lookup(c: Call, sc: Scope, table: Table): Option<Value> {
    var key := Key(c, sc.lib);
    if c.name in sc.schema.sources && key in table && HasType(table[key], sc.schema.sources[c.name]) then Some(table[key]) else None
  }

  function EvalNode(n: Node, sc: Scope, table: Table): Tri
    decreases n, 1
  {
    match n
    case Logic(op, operands) =>
      var xs := EvalNodes(operands, sc, table);
      if xs == [] then Error
      else if op == Not then if |xs| == 1 then Negated(xs[0]) else Error
      else Fold(op, xs)
    case Compare(left, cmp, right) =>
      var x, y := EvalOperand(left, sc, table), EvalOperand(right, sc, table);
      if x.Some? && y.Some? then Related(cmp, x.value, y.value) else Error
    case Member(item, collection, negate) =>
      var x, y := EvalOperand(item, sc, table), EvalOperand(collection, sc, table);
      if x.Some? && y.Some? && y.value.VList? then
        var found := Truth(Among(x.value, y.value.items));
        if negate then Negated(found) else found
      else Error
  }

  function EvalNodes(ns: seq<Node>, sc: Scope, table: Table): (r: seq<Tri>)
    ensures |r| == |ns|
    decreases ns, 0
  {
    if ns == [] then [] else [EvalNode(ns[0], sc, table)] + EvalNodes(ns[1..], sc, table)
  }

  // ---- collecting the calls a condition can reach ----

  function OperandSites(o: Operand): (r: seq<Operand>)
    ensures forall s :: s in r ==> s.Source?
    decreases o, 1
  {
    if o.Source? then [o] + OperandsSites(o.args) else []
  }

  function OperandsSites(os: seq<Operand>): (r: seq<Operand>)
    ensures forall s :: s in r ==> s.Source?
    decreases os, 0
  {
    if os == [] then [] else OperandSites(os[0]) + OperandsSites(os[1..])
  }

  /** collectSources: every call site, both sides of every row, every operand of
      every group. */
  function Sites(n: Node): (r: seq<Operand>)
    ensures forall s :: s in r ==> s.Source?
    decreases n, 1
  {
    match n
    case Logic(_, operands) => NodesSites(operands)
    case Compare(left, _, right) => OperandSites(left) + OperandSites(right)
    case Member(item, collection, _) => OperandSites(item) + OperandSites(collection)
  }

  function NodesSites(ns: seq<Node>): (r: seq<Operand>)
    ensures forall s :: s in r ==> s.Source?
    decreases ns, 0
  {
    if ns == [] then [] else Sites(ns[0]) + NodesSites(ns[1..])
  }

  /** operandValue: an argument is a literal or a field of the request. */
  function ArgValue(o: Operand, b: Binding): Result<Value> {
    match o
    case Literal(t, v) => if HasType(v, t) then Ok(v) else Err(Fault.Broken)
    case Field(role, a) => if a in Bound(b, role) then Ok(Bound(b, role)[a]) else Err(Fault.Broken)
    case Source(_, _) => Err(Fault.Broken)
  }

  function ArgValues(os: seq<Operand>, b: Binding): Result<seq<Value>> {
    if os == [] then Ok([])
    else
      var first :- ArgValue(os[0], b);
      var rest :- ArgValues(os[1..], b);
      Ok([first] + rest)
  }

  function CallAt(site: Operand, b: Binding): Result<Call>
    requires site.Source?
  {
    var args :- ArgValues(site.args, b);
    Ok(Call(site.name, args))
  }

  /** Two tables that answer a condition's own calls alike. */
  ghost predicate Agree(sites: seq<Operand>, sc: Scope, t: Table, u: Table) {
    forall s :: s in sites && s.Source? ==>
      && CallAt(s, sc.binding).Ok?
      && Lookup(CallAt(s, sc.binding).value, sc, t) == Lookup(CallAt(s, sc.binding).value, sc, u)
  }

  lemma {:induction false} ArgsAreFixed(os: seq<Operand>, sc: Scope, t: Table)
    requires ArgValues(os, sc.binding).Ok?
    ensures EvalOperands(os, sc, t) == Some(ArgValues(os, sc.binding).value)
  {
    if os != [] { ArgsAreFixed(os[1..], sc, t); }
  }

  lemma OperandReadsItsSites(o: Operand, sc: Scope, t: Table, u: Table)
    requires Agree(OperandSites(o), sc, t, u)
    ensures EvalOperand(o, sc, t) == EvalOperand(o, sc, u)
  {
    if o.Source? {
      assert o in OperandSites(o);
      ArgsAreFixed(o.args, sc, t);
      ArgsAreFixed(o.args, sc, u);
    }
  }

  /** A condition reads the fact table only at its collected calls, whichever
      operands short-circuiting would have skipped. */
  lemma {:induction false} NodeReadsItsSites(n: Node, sc: Scope, t: Table, u: Table)
    requires Agree(Sites(n), sc, t, u)
    ensures EvalNode(n, sc, t) == EvalNode(n, sc, u)
    decreases n, 1
  {
    match n
    case Logic(_, operands) => NodesReadTheirSites(operands, sc, t, u);
    case Compare(left, _, right) =>
      OperandReadsItsSites(left, sc, t, u);
      OperandReadsItsSites(right, sc, t, u);
    case Member(item, collection, _) =>
      OperandReadsItsSites(item, sc, t, u);
      OperandReadsItsSites(collection, sc, t, u);
  }

  lemma {:induction false} NodesReadTheirSites(ns: seq<Node>, sc: Scope, t: Table, u: Table)
    requires Agree(NodesSites(ns), sc, t, u)
    ensures EvalNodes(ns, sc, t) == EvalNodes(ns, sc, u)
    decreases ns, 0
  {
    if ns != [] {
      NodeReadsItsSites(ns[0], sc, t, u);
      NodesReadTheirSites(ns[1..], sc, t, u);
    }
  }
}
