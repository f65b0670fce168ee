/** The policy language: types, values, conditions, challenge declarations,
    schemas, and the requests that are judged against them. */
module Policy {
  import opened Basics
  import opened Approvers

  /** A finite double: mantissa / 2^scale in lowest terms, or the other zero. */
  datatype Number = Number(mantissa: int, scale: nat) | NegativeZero

  type Float = f: Number | f.NegativeZero? || f.scale == 0 || f.mantissa % 2 != 0 witness Number(0, 0)

  function Numerator(f: Float): int {
    if f.NegativeZero? then 0 else f.mantissa
  }

  function Scale(f: Float): nat {
    if f.NegativeZero? then 0 else f.scale
  }

  datatype Type = TBool | TInt | TDouble | TString | TTimestamp | TDuration | ListOf(elem: Type)

  /** A value in the representation an evaluation works with; times are UTC. */
  datatype Value =
    | VBool(b: bool)
    | VInt(i: int)
    | VDouble(f: Float)
    | VString(s: string)
    | VTime(at: Instant)
    | VDuration(d: int)
    | VList(items: seq<Value>)

  predicate HasType(v: Value, t: Type)
    decreases t
  {
    match t
    case TBool => v.VBool?
    case TInt => v.VInt?
    case TDouble => v.VDouble?
    case TString => v.VString?
    case TTimestamp => v.VTime?
    case TDuration => v.VDuration?
    case ListOf(e) => v.VList? && forall i :: 0 <= i < |v.items| ==> HasType(v.items[i], e)
  }

  /** A JSON document with every number read as a double. */
  datatype Json = JBool(b: bool) | JNumber(f: Float) | JText(s: string) | JList(items: seq<Json>)

  /** The document as a jsonb column gives it back: numbers there have one zero. */
  function Stored(j: Json): (r: Json)
    decreases j, 1
  {
    match j
    case JNumber(f) => JNumber(if f.NegativeZero? then Number(0, 0) else f)
    case JList(items) => JList(StoredAll(items))
    case _ => j
  }

  function StoredAll(js: seq<Json>): (r: seq<Json>)
    ensures |r| == |js|
    decreases js, 0
  {
    if js == [] then [] else [Stored(js[0])] + StoredAll(js[1..])
  }

  function StoredMap(m: map<string, Json>): map<string, Json> {
    map k | k in m :: Stored(m[k])
  }

  lemma {:induction false} StoredIsStored(j: Json)
    ensures Stored(Stored(j)) == Stored(j)
    decreases j, 1
  {
    if j.JList? { StoredAllIsStored(j.items); }
  }

  lemma {:induction false} StoredAllIsStored(js: seq<Json>)
    ensures StoredAll(StoredAll(js)) == StoredAll(js)
    decreases js, 0
  {
    if js != [] {
      StoredIsStored(js[0]);
      StoredAllIsStored(js[1..]);
    }
  }

  lemma StoredMapIsStored(m: map<string, Json>)
    ensures StoredMap(StoredMap(m)) == StoredMap(m)
  {
    forall k | k in m ensures Stored(Stored(m[k])) == Stored(m[k]) { StoredIsStored(m[k]); }
  }

  // ---- conditions ----

  datatype Role = SubjectRole | ResourceRole | ContextRole

  datatype Operand =
    | Field(role: Role, attribute: string)
    | Literal(t: Type, v: Value)
    | Source(name: string, args: seq<Operand>)

  datatype LogicOp = All | Any | Not

  datatype CompareOp = Eq | Ne | Lt | Le | Gt | Ge

  datatype Node =
    | Logic(op: LogicOp, operands: seq<Node>)
    | Compare(left: Operand, cmp: CompareOp, right: Operand)
    | Member(item: Operand, collection: Operand, negate: bool)

  // ---- challenges ----

  datatype Kind = QuorumKind | DelayKind | ExternalKind | MfaKind

  datatype Spec =
    | QuorumSpec(threshold: int, approvers: ApproverSet)
    | DelaySpec(duration: int, cancellableBy: Option<ApproverSet>)
    | ExternalSpec(target: string)
    | MfaSpec(classes: seq<string>)

  function KindOf(spec: Spec): Kind {
    match spec
    case QuorumSpec(_, _) => QuorumKind
    case DelaySpec(_, _) => DelayKind
    case ExternalSpec(_) => ExternalKind
    case MfaSpec(_) => MfaKind
  }

  // ---- policies and schemas ----

  /** An empty binding means the role is not bound; None is the empty condition. */
  datatype Policy = Policy(
    id: string, subject: string, resource: string, context: string,
    actions: seq<string>, condition: Option<Node>, challenges: seq<Spec>)

  /** Declared entity attributes, and declared sources with their result types. */
  datatype Schema = Schema(entities: map<string, map<string, Type>>, sources: map<string, Type>)

  // ---- requests ----

  datatype Entity = Entity(kind: string, id: string, attributes: map<string, Value>)

  datatype Input = Input(action: string, subject: Entity, resource: Entity, context: Entity)

  /** A request as it is frozen onto a decision row. */
  datatype FrozenEntity = FrozenEntity(kind: string, id: string, attributes: map<string, Json>)

  datatype FrozenInput = FrozenInput(action: string, subject: FrozenEntity, resource: FrozenEntity, context: FrozenEntity)

  function StoredEntity(e: FrozenEntity): FrozenEntity {
    e.(attributes := StoredMap(e.attributes))
  }

  function StoredInput(input: FrozenInput): FrozenInput {
    input.(subject := StoredEntity(input.subject), resource := StoredEntity(input.resource), context := StoredEntity(input.context))
  }
}
