/** One evaluation of a policy set, and the two answers read off it: the stateless
    check and the stateful decide. */
module Evaluation {
  import opened Basics
  import opened Policy
  import opened CallKeys
  import opened Engine

  // ---- matching ----

  predicate RoleFits(bound: string, e: Entity) {
    bound == "" || e.kind == bound
  }

  predicate Matches(p: Policy, input: Input) {
    && input.action in p.actions
    && RoleFits(p.subject, input.subject) && RoleFits(p.resource, input.resource) && RoleFits(p.context, input.context)
  }

  function Matching(policies: seq<Policy>, input: Input): (r: seq<Policy>)
    ensures forall p :: p in r <==> p in policies && Matches(p, input)
  {
    if policies == [] then []
    else
      var rest := Matching(policies[1..], input);
      if Matches(policies[0], input) then [policies[0]] + rest else rest
  }

  // ---- compiling and collecting ----

  predicate OperandCompiles(o: Operand, schema: Schema) {
    match o
    case Field(_, _) => true
    case Literal(t, v) => HasType(v, t)
    case Source(name, args) => name in schema.sources && forall i :: 0 <= i < |args| ==> OperandCompiles(args[i], schema)
  }

  predicate Compiles(n: Node, schema: Schema) {
    match n
    case Logic(op, operands) => operands != [] && (op == Not ==> |operands| == 1) && forall i :: 0 <= i < |operands| ==> Compiles(operands[i], schema)
    case Compare(l, _, r) => OperandCompiles(l, schema) && OperandCompiles(r, schema)
    case Member(l, r, _) => OperandCompiles(l, schema) && OperandCompiles(r, schema)
  }

  function PolicySites(p: Policy): seq<Operand> {
    if p.condition.Some? then Sites(p.condition.value) else []
  }

  predicate Callable(sites: seq<Operand>, sc: Scope) {
    forall s :: s in sites ==> s.Source? && CallAt(s, sc.binding).Ok?
  }

  /** A policy whose condition compiles and whose call arguments the request holds. */
  predicate Collectable(p: Policy, sc: Scope) {
    (p.condition.Some? ==> Compiles(p.condition.value, sc.schema)) && Callable(PolicySites(p), sc)
  }

  function KeyAt(site: Operand, sc: Scope): string
    requires site.Source? && CallAt(site, sc.binding).Ok?
  {
    Key(CallAt(site, sc.binding).value, sc.lib)
  }

  function Keys(calls: seq<Call>, lib: Library): set<string> {
    set c | c in calls :: Key(c, lib)
  }

  /** A call appended unless one with its key is there already. */
  function Added(calls: seq<Call>, c: Call, lib: Library): (r: seq<Call>)
    ensures Keys(r, lib) == Keys(calls, lib) + {Key(c, lib)}
  {
    if Key(c, lib) in Keys(calls, lib) then calls
    else
      assert forall x :: x in calls + [c] <==> x in calls || x == c;
      calls + [c]
  }

  function Collect(sites: seq<Operand>, sc: Scope, calls: seq<Call>): seq<Call>
    requires Callable(sites, sc)
  {
    if sites == [] then calls else Collect(sites[1..], sc, Added(calls, CallAt(sites[0], sc.binding).value, sc.lib))
  }

  function CollectAll(ps: seq<Policy>, sc: Scope, calls: seq<Call>): seq<Call>
    requires forall p :: p in ps ==> Collectable(p, sc)
  {
    if ps == [] then calls
    else
      assert ps[0] in ps && Collectable(ps[0], sc);
      CollectAll(ps[1..], sc, Collect(PolicySites(ps[0]), sc, calls))
  }

  /** Exactly the calls at the sites are collected, each under one key. */
  lemma {:induction false} CollectGathers(sites: seq<Operand>, sc: Scope, calls: seq<Call>)
    requires Callable(sites, sc)
    ensures Keys(Collect(sites, sc, calls), sc.lib) == Keys(calls, sc.lib) + set s | s in sites :: KeyAt(s, sc)
  {
    if sites != [] {
      CollectGathers(sites[1..], sc, Added(calls, CallAt(sites[0], sc.binding).value, sc.lib));
      KeysFromFirst(sites, sc);
    }
  }

  lemma KeysFromFirst(sites: seq<Operand>, sc: Scope)
    requires sites != [] && Callable(sites, sc)
    ensures (set s | s in sites :: KeyAt(s, sc)) == {KeyAt(sites[0], sc)} + set s | s in sites[1..] :: KeyAt(s, sc)
  {
    assert forall s :: s in sites <==> s == sites[0] || s in sites[1..] by { assert sites == [sites[0]] + sites[1..]; }
  }

  ghost predicate Reaches(p: Policy, sc: Scope, key: string)
    requires Collectable(p, sc)
  {
    exists s :: s in PolicySites(p) && KeyAt(s, sc) == key
  }

  lemma {:induction false} CollectAllGathers(ps: seq<Policy>, sc: Scope, calls: seq<Call>, key: string)
    requires forall p :: p in ps ==> Collectable(p, sc)
    ensures key in Keys(CollectAll(ps, sc, calls), sc.lib) <==> key in Keys(calls, sc.lib) || exists p :: p in ps && Reaches(p, sc, key)
  {
    if ps != [] {
      assert ps[0] in ps;
      CollectGathers(PolicySites(ps[0]), sc, calls);
      CollectAllGathers(ps[1..], sc, Collect(PolicySites(ps[0]), sc, calls), key);
      assert forall p :: p in ps <==> p == ps[0] || p in ps[1..];
    }
  }

  /** Everything that happens before facts are fetched. */
  datatype Plan = NoMatch | Unready | Ready(policies: seq<Policy>, scope: Scope, calls: seq<Call>)

  function PlanFor(schema: Schema, policies: seq<Policy>, input: Input, lib: Library): Plan {
    var ps := Matching(policies, input);
    if ps == [] then NoMatch
    else
      var b := Bind(schema, input);
      if b.Err? then Unready
      else
        var sc := Scope(schema, b.value, lib);
        if forall p :: p in ps ==> Collectable(p, sc) then Ready(ps, sc, CollectAll(ps, sc, [])) else Unready
  }

  // ---- running the conditions ----

  function Outcome(p: Policy, sc: Scope, table: Table): Tri {
    if p.condition.None? then True else EvalNode(p.condition.value, sc, table)
  }

  function Holding(ps: seq<Policy>, sc: Scope, table: Table): (r: seq<Policy>)
    ensures forall p :: p in r <==> p in ps && Outcome(p, sc, table) == True
  {
    if ps == [] then []
    else
      var rest := Holding(ps[1..], sc, table);
      if Outcome(ps[0], sc, table) == True then [ps[0]] + rest else rest
  }

  /** The shared evaluation: which policies apply, or that none matched, or that the
      answer could not be told. */
  datatype Applied = Unmatched | Untold | Applied(policies: seq<Policy>)

  predicate Told(ps: seq<Policy>, sc: Scope, table: Table) {
    forall p :: p in ps ==> Outcome(p, sc, table) != Error
  }

  /** `answers` is what the one batched fetch came back with, if it did. */
  function Apply(plan: Plan, answers: Option<Table>): Applied {
    match plan
    case NoMatch => Unmatched
    case Unready => Untold
    case Ready(ps, sc, calls) =>
      if calls != [] && answers.None? then Untold
      else
        var table := if calls == [] then map[] else answers.value;
        if Told(ps, sc, table) then Applied(Holding(ps, sc, table)) else Untold
  }

  // ---- the two answers ----

  datatype Verdict = Deny | Allow | Challenge

  datatype Reason = NoMatchingPolicy | RequiresDecision | ConditionNotMet | PolicyMatched | ChallengeRequired | Unanswered

  datatype Answer = Answer(verdict: Verdict, reason: Reason, policy: string, gates: seq<Policy>)

  predicate Gated(p: Policy) {
    p.challenges != []
  }

  function First(ps: seq<Policy>, gated: bool): (r: Option<Policy>)
    ensures r.Some? ==> r.value in ps && Gated(r.value) == gated
    ensures r.None? ==> forall p :: p in ps ==> Gated(p) != gated
  {
    if ps == [] then None else if Gated(ps[0]) == gated then Some(ps[0]) else First(ps[1..], gated)
  }

  function Gates(ps: seq<Policy>): (r: seq<Policy>)
    ensures forall p :: p in r <==> p in ps && Gated(p)
  {
    if ps == [] then [] else if Gated(ps[0]) then [ps[0]] + Gates(ps[1..]) else Gates(ps[1..])
  }

  lemma {:induction false} OneMore(ps: seq<Policy>, p: Policy)
    ensures Gates(ps + [p]) == Gates(ps) + if Gated(p) then [p] else []
    ensures First(ps + [p], false) == if First(ps, false).Some? then First(ps, false) else if Gated(p) then None else Some(p)
  {
    if ps != [] {
      OneMore(ps[1..], p);
      assert (ps + [p])[1..] == ps[1..] + [p];
    }
  }

  lemma {:induction false} FirstGate(ps: seq<Policy>)
    ensures First(ps, true) == if Gates(ps) == [] then None else Some(Gates(ps)[0])
  {
    if ps != [] && !Gated(ps[0]) { FirstGate(ps[1..]); }
  }

  function CheckAnswer(a: Applied): Answer {
    match a
    case Unmatched => Answer(Deny, NoMatchingPolicy, "", [])
    case Untold => Answer(Deny, Unanswered, "", [])
    case Applied(ps) =>
      if First(ps, true).Some? then Answer(Deny, RequiresDecision, First(ps, true).value.id, [])
      else if First(ps, false).Some? then Answer(Allow, PolicyMatched, First(ps, false).value.id, [])
      else Answer(Deny, ConditionNotMet, "", [])
  }

  function DecideAnswer(a: Applied): Answer {
    match a
    case Unmatched => Answer(Deny, NoMatchingPolicy, "", [])
    case Untold => Answer(Deny, Unanswered, "", [])
    case Applied(ps) =>
      if Gates(ps) != [] then Answer(Challenge, ChallengeRequired, Gates(ps)[0].id, Gates(ps))
      else if First(ps, false).Some? then Answer(Allow, PolicyMatched, First(ps, false).value.id, [])
      else Answer(Deny, ConditionNotMet, "", [])
  }

  function Check(schema: Schema, policies: seq<Policy>, input: Input, lib: Library, answers: Option<Table>): Answer {
    CheckAnswer(Apply(PlanFor(schema, policies, input, lib), answers))
  }

  function Decide(schema: Schema, policies: seq<Policy>, input: Input, lib: Library, answers: Option<Table>): Answer {
    DecideAnswer(Apply(PlanFor(schema, policies, input, lib), answers))
  }

  // ---- the loops behind them ----

  /** core.evaluate: match, collect each call once, then run every condition. */
  method Evaluate(schema: Schema, policies: seq<Policy>, input: Input, lib: Library, answers: Option<Table>) returns (r: Applied)
    ensures r == Apply(PlanFor(schema, policies, input, lib), answers)
  {
    var entries := MatchEntries(policies, input);
    if entries == [] { return Unmatched; }
    var b := Bind(schema, input);
    if b.Err? { return Untold; }
    var sc := Scope(schema, b.value, lib);
    var calls := GatherAll(entries, sc);
    if calls.None? { return Untold; }
    if calls.value != [] && answers.None? { return Untold; }
    r := RunConditions(entries, sc, if calls.value == [] then map[] else answers.value);
  }

  method MatchEntries(policies: seq<Policy>, input: Input) returns (entries: seq<Policy>)
    ensures entries == Matching(policies, input)
  {
    entries := [];
    for i := 0 to |policies|
      invariant entries + Matching(policies[i..], input) == Matching(policies, input)
    {
      assert policies[i..][0] == policies[i] && policies[i..][1..] == policies[i + 1..];
      if Matches(policies[i], input) { entries := entries + [policies[i]]; }
    }
  }

  method GatherAll(entries: seq<Policy>, sc: Scope) returns (calls: Option<seq<Call>>)
    ensures calls.Some? <==> forall p :: p in entries ==> Collectable(p, sc)
    ensures calls.Some? ==> calls.value == CollectAll(entries, sc, [])
  {
    var found: seq<Call> := [];
    for i := 0 to |entries|
      invariant forall p :: p in entries[..i] ==> Collectable(p, sc)
      invariant (forall p :: p in entries ==> Collectable(p, sc)) ==> CollectAll(entries[i..], sc, found) == CollectAll(entries, sc, [])
    {
      assert entries[i] in entries && entries[i..][0] == entries[i] && entries[i..][1..] == entries[i + 1..];
      if !Collectable(entries[i], sc) { return None; }
      found := GatherCalls(PolicySites(entries[i]), sc, found);
    }
    calls := Some(found);
  }

  method RunConditions(entries: seq<Policy>, sc: Scope, table: Table) returns (r: Applied)
    ensures r == if Told(entries, sc, table) then Applied(Holding(entries, sc, table)) else Untold
  {
    var applicable: seq<Policy> := [];
    for i := 0 to |entries|
      invariant Told(entries[..i], sc, table)
      invariant applicable + Holding(entries[i..], sc, table) == Holding(entries, sc, table)
    {
      assert entries[i..][0] == entries[i] && entries[i..][1..] == entries[i + 1..];
      var holds := Outcome(entries[i], sc, table);
      if holds == Error { return Untold; }
      if holds == True { applicable := applicable + [entries[i]]; }
    }
    r := Applied(applicable);
  }

  /** The inner collection loop of one policy's sites. */
  method GatherCalls(sites: seq<Operand>, sc: Scope, before: seq<Call>) returns (calls: seq<Call>)
    requires Callable(sites, sc)
    ensures calls == Collect(sites, sc, before)
  {
    calls := before;
    for i := 0 to |sites|
      invariant Collect(sites[i..], sc, calls) == Collect(sites, sc, before)
    {
      var call := CallAt(sites[i], sc.binding).value;
      if Key(call, sc.lib) !in Keys(calls, sc.lib) { calls := calls + [call]; }
    }
  }

  /** CheckEvaluator.Evaluate over the applicable policies. */
  method AnswerCheck(applicable: seq<Policy>) returns (r: Answer)
    ensures r == CheckAnswer(Applied(applicable))
  {
    var allowed: Option<Policy> := None;
    for i := 0 to |applicable|
      invariant First(applicable[i..], true) == First(applicable, true)
      invariant First(applicable, false) == if allowed.Some? then allowed else First(applicable[i..], false)
    {
      if Gated(applicable[i]) { return Answer(Deny, RequiresDecision, applicable[i].id, []); }
      if allowed.None? { allowed := Some(applicable[i]); }
    }
    if allowed.None? { return Answer(Deny, ConditionNotMet, "", []); }
    r := Answer(Allow, PolicyMatched, allowed.value.id, []);
  }

  /** DecideEvaluator.Evaluate over the applicable policies: every gate contributes. */
  method AnswerDecide(applicable: seq<Policy>) returns (r: Answer)
    ensures r == DecideAnswer(Applied(applicable))
  {
    var gates: seq<Policy> := [];
    var allowed: Option<Policy> := None;
    for i := 0 to |applicable|
      invariant gates == Gates(applicable[..i]) && allowed == First(applicable[..i], false)
    {
      OneMore(applicable[..i], applicable[i]);
      assert applicable[..i + 1] == applicable[..i] + [applicable[i]];
      if Gated(applicable[i]) { gates := gates + [applicable[i]]; }
      else if allowed.None? { allowed := Some(applicable[i]); }
    }
    assert applicable[..|applicable|] == applicable;
    if gates != [] { return Answer(Challenge, ChallengeRequired, gates[0].id, gates); }
    if allowed.None? { return Answer(Deny, ConditionNotMet, "", []); }
    r := Answer(Allow, PolicyMatched, allowed.value.id, []);
  }

  // ---- the two paths agree ----

  /** Check allows exactly when decide allows, and sends the caller to decide exactly
      when decide challenges, attributed to the same policy either way. */
  lemma CheckAndDecideAgree(schema: Schema, policies: seq<Policy>, input: Input, lib: Library, answers: Option<Table>)
    ensures var c, d := Check(schema, policies, input, lib, answers), Decide(schema, policies, input, lib, answers);
            && (c.verdict == Allow <==> d.verdict == Allow)
            && (c.reason == RequiresDecision <==> d.verdict == Challenge)
            && (c.reason != RequiresDecision ==> c.reason == d.reason)
            && c.policy == d.policy
  {
    var a := Apply(PlanFor(schema, policies, input, lib), answers);
    if a.Applied? { FirstGate(a.policies); }
  }

  // ---- the verdict is a property of the set of policies ----

  ghost predicate SamePolicies(a: seq<Policy>, b: seq<Policy>) {
    forall p :: p in a <==> p in b
  }

  lemma NonEmpty<T>(s: seq<T>)
    ensures s != [] <==> exists x :: x in s
  {
    if s != [] { assert s[0] in s; }
  }

  lemma CallsExist(ps: seq<Policy>, sc: Scope)
    requires forall p :: p in ps ==> Collectable(p, sc)
    ensures CollectAll(ps, sc, []) != [] <==> exists p, s :: p in ps && s in PolicySites(p)
  {
    var calls := CollectAll(ps, sc, []);
    if calls != [] {
      assert Key(calls[0], sc.lib) in Keys(calls, sc.lib);
      CollectAllGathers(ps, sc, [], Key(calls[0], sc.lib));
    }
    if p, s :| p in ps && s in PolicySites(p) {
      CollectAllGathers(ps, sc, [], KeyAt(s, sc));
      assert Reaches(p, sc, KeyAt(s, sc));
    }
  }

  /** Planning reads the policy list as a set. */
  lemma PlansAlike(schema: Schema, a: seq<Policy>, b: seq<Policy>, input: Input, lib: Library)
    requires SamePolicies(a, b)
    ensures var p, q := PlanFor(schema, a, input, lib), PlanFor(schema, b, input, lib);
            && (p.NoMatch? <==> q.NoMatch?) && (p.Unready? <==> q.Unready?)
            && (p.Ready? ==> SamePolicies(p.policies, q.policies) && p.scope == q.scope && (p.calls == [] <==> q.calls == []))
  {
    var x, y := Matching(a, input), Matching(b, input);
    NonEmpty(x);
    NonEmpty(y);
    assert SamePolicies(x, y);
    var p := PlanFor(schema, a, input, lib);
    if p.Ready? {
      CallsExist(x, p.scope);
      CallsExist(y, p.scope);
    }
  }

  lemma AppliesAlike(schema: Schema, a: seq<Policy>, b: seq<Policy>, input: Input, lib: Library, answers: Option<Table>)
    requires SamePolicies(a, b)
    ensures var x, y := Apply(PlanFor(schema, a, input, lib), answers), Apply(PlanFor(schema, b, input, lib), answers);
            (x.Applied? && y.Applied? && SamePolicies(x.policies, y.policies)) || (x == y && !x.Applied?)
  {
    PlansAlike(schema, a, b, input, lib);
  }

  lemma AnswersAlike(a: seq<Policy>, b: seq<Policy>)
    requires SamePolicies(a, b)
    ensures var c, d := CheckAnswer(Applied(a)), CheckAnswer(Applied(b)); c.verdict == d.verdict && c.reason == d.reason
    ensures var c, d := DecideAnswer(Applied(a)), DecideAnswer(Applied(b));
            c.verdict == d.verdict && c.reason == d.reason && SamePolicies(c.gates, d.gates)
  {
    NonEmpty(Gates(a));
    NonEmpty(Gates(b));
  }

  /** Reordering or repeating policies changes neither the verdict nor the reason,
      nor which gates a challenge is made of. */
  lemma OrderDoesNotDecide(schema: Schema, a: seq<Policy>, b: seq<Policy>, input: Input, lib: Library, answers: Option<Table>)
    requires SamePolicies(a, b)
    ensures var c, d := Check(schema, a, input, lib, answers), Check(schema, b, input, lib, answers);
            c.verdict == d.verdict && c.reason == d.reason
    ensures var c, d := Decide(schema, a, input, lib, answers), Decide(schema, b, input, lib, answers);
            c.verdict == d.verdict && c.reason == d.reason && SamePolicies(c.gates, d.gates)
  {
    AppliesAlike(schema, a, b, input, lib, answers);
    var x, y := Apply(PlanFor(schema, a, input, lib), answers), Apply(PlanFor(schema, b, input, lib), answers);
    if x.Applied? { AnswersAlike(x.policies, y.policies); }
  }

  /** A gated policy added anywhere in the set never turns a check that did not allow
      into one that does. */
  lemma GatesOnlyTighten(schema: Schema, small: seq<Policy>, g: Policy, big: seq<Policy>, input: Input, lib: Library, answers: Option<Table>)
    requires Gated(g) && forall p :: p in big <==> p == g || p in small
    requires Check(schema, big, input, lib, answers).verdict == Allow
    ensures Check(schema, small, input, lib, answers).verdict == Allow
  {
    var applied := Apply(PlanFor(schema, big, input, lib), answers).policies;
    var p := First(applied, false).value;
    assert p in Matching(small, input);
    ShrinksTo(schema, small, big, input, lib, answers);
    var left := Apply(PlanFor(schema, small, input, lib), answers).policies;
    assert p in left && forall q :: q in left ==> q in applied;
  }

  lemma SmallerPlan(schema: Schema, small: seq<Policy>, big: seq<Policy>, input: Input, lib: Library)
    requires PlanFor(schema, big, input, lib).Ready? && (forall p :: p in small ==> p in big) && Matching(small, input) != []
    ensures var x, y := PlanFor(schema, big, input, lib), PlanFor(schema, small, input, lib);
            && y.Ready? && y.scope == x.scope && (forall p :: p in y.policies <==> p in x.policies && p in small)
            && (y.calls != [] ==> x.calls != [])
            && (y.calls == [] ==> forall p :: p in y.policies ==> PolicySites(p) == [])
  {
    var x, y := PlanFor(schema, big, input, lib), PlanFor(schema, small, input, lib);
    assert forall p :: p in y.policies ==> p in x.policies;
    CallsExist(x.policies, x.scope);
    CallsExist(y.policies, x.scope);
    forall p | p in y.policies && y.calls == [] ensures PolicySites(p) == [] { NonEmpty(PolicySites(p)); }
  }

  /** Fewer policies, at least one still matching: what applied still applies, and
      nothing new does. */
  lemma ShrinksTo(schema: Schema, small: seq<Policy>, big: seq<Policy>, input: Input, lib: Library, answers: Option<Table>)
    requires Apply(PlanFor(schema, big, input, lib), answers).Applied?
    requires forall p :: p in small ==> p in big
    requires Matching(small, input) != []
    ensures var x, y := Apply(PlanFor(schema, big, input, lib), answers), Apply(PlanFor(schema, small, input, lib), answers);
            y.Applied? && forall p :: p in y.policies <==> p in x.policies && p in small
  {
    SmallerPlan(schema, small, big, input, lib);
    var x, y := PlanFor(schema, big, input, lib), PlanFor(schema, small, input, lib);
    var t: Table := if x.calls == [] then map[] else answers.value;
    var u: Table := if y.calls == [] then map[] else answers.value;
    forall p | p in y.policies ensures Outcome(p, x.scope, t) == Outcome(p, x.scope, u) {
      if t != u { ReadsNothing(p, x.scope, t, u); }
    }
  }

  lemma ReadsNothing(p: Policy, sc: Scope, t: Table, u: Table)
    requires PolicySites(p) == []
    ensures Outcome(p, sc, t) == Outcome(p, sc, u)
  {
    if p.condition.Some? { NodeReadsItsSites(p.condition.value, sc, t, u); }
  }
}
