/** Two requests on which replaying the very policy set that opened a decision asks the
    live sources again: one the row does not give back, one whose fact was never had. */
module AskedAgain {
  import opened Basics
  import opened Policy
  import opened CallKeys
  import opened Engine
  import opened Evaluation
  import opened Freezing
  import opened FrozenFacts
  import opened Challenges
  import opened Replay

  const SITE := Source("s", [Field(SubjectRole, "x")])
  const TRUE := Literal(TBool, VBool(true))
  const ASKING := Compare(SITE, Eq, TRUE)

  /** True whatever the source says: an unanswered call is an error that the other
      operand absorbs. */
  const ABSORBING := Logic(Any, [Compare(TRUE, Eq, TRUE), ASKING])

  /** A policy on "u" entities under one condition, gated by a wait. */
  function Waiting(condition: Node): Policy {
    Policy("p", "u", "", "", ["act"], Some(condition), [DelaySpec(1000, None)])
  }

  const NUMBERS := Schema(map["u" := map["x" := TDouble]], map["s" := TBool])

  function Request(x: Float): Input {
    Input("act", Entity("u", "", map["x" := VDouble(x)]), Entity("", "", map[]), Entity("", "", map[]))
  }

  function CallOf(x: Float): Call {
    Call("s", [VDouble(x)])
  }

  lemma RequestBinds(x: Float)
    ensures Bind(NUMBERS, Request(x)) == Ok(Binding(map["x" := VDouble(x)], map[], map[]))
    ensures CallAt(SITE, Bind(NUMBERS, Request(x)).value) == Ok(CallOf(x))
  {
    var b := Bind(NUMBERS, Request(x)).value;
    assert ArgValue(SITE.args[0], b) == Ok(VDouble(x));
    assert SITE.args[1..] == [] && ArgValues([], b) == Ok([]);
    assert ArgValues(SITE.args, b) == Ok([VDouble(x)] + []) && [VDouble(x)] + [] == [VDouble(x)];
  }

  lemma OneCallPlan(rev: Revised, x: Float, condition: Node)
    requires rev.schema == NUMBERS && rev.policies == [Waiting(condition)] && Compiles(condition, NUMBERS) && Sites(condition) == [SITE]
    ensures var plan := PlanFor(rev.schema, rev.policies, Request(x), rev.lib);
            plan.Ready? && plan.policies == rev.policies && plan.calls == [CallOf(x)]
  {
    var p, input := Waiting(condition), Request(x);
    assert [p][1..] == [] && Matching([p], input) == [p];
    RequestBinds(x);
    var sc := Scope(rev.schema, Bind(rev.schema, input).value, rev.lib);
    assert Collectable(p, sc);
    assert [SITE][1..] == [] && Keys([], rev.lib) == {};
    assert Collect([SITE], sc, []) == Collect([], sc, [] + [CallOf(x)]) == [CallOf(x)];
    assert CollectAll([p], sc, []) == CollectAll([], sc, [CallOf(x)]);
  }

  lemma AskingCompiles()
    ensures Compiles(ASKING, NUMBERS) && Sites(ASKING) == [SITE]
  {
    assert OperandsSites(SITE.args[1..]) == [] && OperandsSites(SITE.args) == [];
    assert OperandSites(SITE) == [SITE] && OperandSites(TRUE) == [];
  }

  lemma AbsorbingCompiles()
    ensures Compiles(ABSORBING, NUMBERS) && Sites(ABSORBING) == [SITE]
  {
    AskingCompiles();
    var ns := ABSORBING.operands;
    assert ns[1..] == [ASKING] && ns[1..][1..] == [];
    assert Sites(ns[0]) == [] && NodesSites(ns[1..]) == [SITE] + [];
  }

  lemma OneMissing(call: Call, facts: map<string, Json>, lib: Library)
    requires Name(call, lib) !in facts
    ensures Missing([call], facts, lib) == [call]
  {
    assert [call][..0] == [] && Missing([], facts, lib) == [];
  }

  function Answers(x: Float, lib: Library): Table {
    map[Key(CallOf(x), lib) := VBool(true)]
  }

  lemma SubjectComesBack(lib: Library)
    ensures RestoreEntity(NUMBERS, StoredEntity(FreezeEntity(Request(NegativeZero).subject, lib)), lib) == Ok(Request(Number(0, 0)).subject)
  {
    var f := StoredEntity(FreezeEntity(Request(NegativeZero).subject, lib));
    assert f.attributes == map["x" := JNumber(Number(0, 0))];
    assert Restore(TDouble, JNumber(Number(0, 0)), lib) == Ok(VDouble(Number(0, 0)));
    assert RestoreEntity(NUMBERS, f, lib).value.attributes == map["x" := VDouble(Number(0, 0))];
  }

  lemma NegativeZeroComesBackAsZero(lib: Library)
    ensures RestoreInput(NUMBERS, StoredInput(FreezeInput(Request(NegativeZero), lib)), lib) == Ok(Request(Number(0, 0)))
  {
    SubjectComesBack(lib);
    var f := StoredInput(FreezeInput(Request(NegativeZero), lib));
    assert f.resource.attributes == map[] && f.context.attributes == map[];
  }

  lemma ZeroIsPlanned(rev: Revised, c: Context)
    requires rev.schema == NUMBERS && rev.policies == [Waiting(ASKING)] && c.request == StoredInput(FreezeInput(Request(NegativeZero), rev.lib))
    ensures PlanAgain(rev, c).Ready? && PlanAgain(rev, c).calls == [CallOf(Number(0, 0))]
  {
    AskingCompiles();
    OneCallPlan(rev, Number(0, 0), ASKING);
    NegativeZeroComesBackAsZero(rev.lib);
  }

  lemma FirstCallIsAnswered(rev: Revised)
    requires rev.schema == NUMBERS && rev.policies == [Waiting(ASKING)]
    ensures var plan := PlanFor(NUMBERS, rev.policies, Request(NegativeZero), rev.lib);
            plan.Ready? && plan.calls == [CallOf(NegativeZero)] && forall call :: call in plan.calls ==> Key(call, rev.lib) in Answers(NegativeZero, rev.lib)
  {
    AskingCompiles();
    OneCallPlan(rev, NegativeZero, ASKING);
  }

  lemma ZeroIsAsked(rev: Revised, c: Context)
    requires WellNamed(rev) && rev.schema == NUMBERS && rev.policies == [Waiting(ASKING)]
    requires FrozenFrom(c, PlanFor(NUMBERS, rev.policies, Request(NegativeZero), rev.lib), Request(NegativeZero), Answers(NegativeZero, rev.lib), rev.lib)
    ensures Name(CallOf(Number(0, 0)), rev.lib) !in c.facts
  {
    var call := CallOf(Number(0, 0));
    FirstCallIsAnswered(rev);
    ZeroIsPlanned(rev, c);
    assert CallOf(NegativeZero) != call;
    ReplayAsksExactly(rev, c, Request(NegativeZero), Answers(NegativeZero, rev.lib), call);
  }

  /** A request holding a negative zero, its one call answered: the row gives the zero
      back unsigned, which is another call, so a replay of the same set fetches. */
  lemma ANegativeZeroIsAskedAgain(rev: Revised, c: Context)
    requires WellNamed(rev) && rev.schema == NUMBERS && rev.policies == [Waiting(ASKING)]
    requires FrozenFrom(c, PlanFor(NUMBERS, rev.policies, Request(NegativeZero), rev.lib), Request(NegativeZero), Answers(NegativeZero, rev.lib), rev.lib)
    ensures forall call :: call in PlanFor(NUMBERS, rev.policies, Request(NegativeZero), rev.lib).calls ==> Key(call, rev.lib) in Answers(NegativeZero, rev.lib)
    ensures Asked(rev, c) == [CallOf(Number(0, 0))]
  {
    FirstCallIsAnswered(rev);
    ZeroIsAsked(rev, c);
    OneMissing(CallOf(Number(0, 0)), c.facts, rev.lib);
    ZeroIsPlanned(rev, c);
  }

  /** A policy that holds although its call went unanswered: nothing was lost, a decision
      was opened, and a replay of the same set fetches. */
  lemma AnAbsorbedErrorIsAskedAgain(rev: Revised, c: Context)
    requires WellNamed(rev) && rev.schema == NUMBERS && rev.policies == [Waiting(ABSORBING)]
    requires FrozenFrom(c, PlanFor(NUMBERS, rev.policies, Request(Number(1, 0)), rev.lib), Request(Number(1, 0)), map[], rev.lib)
    ensures ExactInput(Request(Number(1, 0))) && Decide(NUMBERS, rev.policies, Request(Number(1, 0)), rev.lib, Some(map[])).verdict == Challenge
    ensures Asked(rev, c) == [CallOf(Number(1, 0))]
  {
    AbsorbingCompiles();
    OneCallPlan(rev, Number(1, 0), ABSORBING);
    SamePlanAgain(rev, c, Request(Number(1, 0)), map[]);
    ReplayAsksExactly(rev, c, Request(Number(1, 0)), map[], CallOf(Number(1, 0)));
    OneMissing(CallOf(Number(1, 0)), c.facts, rev.lib);
    AbsorbingHolds(PlanFor(NUMBERS, rev.policies, Request(Number(1, 0)), rev.lib).scope, map[]);
  }

  lemma AbsorbingHolds(sc: Scope, table: Table)
    ensures EvalNode(ABSORBING, sc, table) == True
  {
    var ns := ABSORBING.operands;
    var xs := EvalNodes(ns, sc, table);
    assert EvalNode(ns[0], sc, table) == True && xs == [EvalNode(ns[0], sc, table)] + EvalNodes(ns[1..], sc, table);
    assert xs[0] == True && True in xs;
    FoldMeansItsOperands(Any, xs);
  }
}
