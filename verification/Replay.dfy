/** How a revised policy set judges a decision's frozen request and facts, that the
    same policy set judges them as it did, and which approvals live through it. */
module Replay {
  import opened Basics
  import opened Text
  import Approvers
  import opened Policy
  import opened CallKeys
  import opened Engine
  import opened Evaluation
  import opened Freezing
  import opened FrozenFacts
  import opened Challenges
  import opened Decisions
  import opened Revision
  import opened Soundness
  import Runs

  /** A newly effective policy set and what surrounds it: what the live sources
      answer for the calls they are asked, the version to pin, the obligations. */
  datatype Revised = Revised(schema: Schema, policies: seq<Policy>, lib: Library, live: Option<Table>, version: int, obligations: seq<Json>)

  ghost predicate WellNamed(rev: Revised) {
    Faithful(rev.lib) && forall n :: n in rev.schema.sources ==> Over(n, NameChar)
  }

  /** The challenges of the gates, in gate order. */
  function Flatten(gates: seq<Policy>): seq<Spec> {
    if gates == [] then [] else gates[0].challenges + Flatten(gates[1..])
  }

  function PlanAgain(rev: Revised, c: Context): Plan {
    var input := RestoreInput(rev.schema, c.request, rev.lib);
    if input.Err? then Unready else PlanFor(rev.schema, rev.policies, input.value, rev.lib)
  }

  /** What the live sources are asked for. */
  function Asked(rev: Revised, c: Context): seq<Call> {
    var plan := PlanAgain(rev, c);
    if plan.Ready? then Missing(plan.calls, c.facts, rev.lib) else []
  }

  function AnswerAgain(rev: Revised, c: Context): Answer {
    var plan := PlanAgain(rev, c);
    var table := if plan.Ready? then Resolve(plan.calls, c.facts, rev.schema, rev.lib, rev.live) else Err(UnresolvedFact);
    DecideAnswer(Apply(plan, if table.Ok? then Some(table.value) else None))
  }

  /** The snapshot moves only by what was fetched. */
  function Merged(rev: Revised, c: Context): map<string, Json> {
    if Asked(rev, c) == [] || rev.live.None? then c.facts else c.facts + Snapshot(Asked(rev, c), rev.live.value, rev.lib)
  }

  /** The judging half of Revalidator.revaluate. */
  function Judge(rev: Revised, c: Context): Judgment {
    var answer := AnswerAgain(rev, c);
    if answer.verdict == Deny then Refused
    else Kept(answer.policy, rev.version, Merged(rev, c), rev.obligations, Flatten(answer.gates))
  }

  // ---- collected calls are declared ----

  lemma {:induction false} OperandSitesAreDeclared(o: Operand, schema: Schema)
    requires OperandCompiles(o, schema)
    ensures forall s :: s in OperandSites(o) ==> s.name in schema.sources
    decreases o, 1
  {
    if o.Source? { OperandsSitesAreDeclared(o.args, schema); }
  }

  lemma {:induction false} OperandsSitesAreDeclared(os: seq<Operand>, schema: Schema)
    requires forall i :: 0 <= i < |os| ==> OperandCompiles(os[i], schema)
    ensures forall s :: s in OperandsSites(os) ==> s.name in schema.sources
    decreases os, 0
  {
    if os != [] {
      OperandSitesAreDeclared(os[0], schema);
      OperandsSitesAreDeclared(os[1..], schema);
    }
  }

  lemma {:induction false} SitesAreDeclared(n: Node, schema: Schema)
    requires Compiles(n, schema)
    ensures forall s :: s in Sites(n) ==> s.name in schema.sources
    decreases n, 1
  {
    match n
    case Logic(_, operands) => NodesSitesAreDeclared(operands, schema);
    case Compare(l, _, r) =>
      OperandSitesAreDeclared(l, schema);
      OperandSitesAreDeclared(r, schema);
    case Member(l, r, _) =>
      OperandSitesAreDeclared(l, schema);
      OperandSitesAreDeclared(r, schema);
  }

  lemma {:induction false} NodesSitesAreDeclared(ns: seq<Node>, schema: Schema)
    requires forall i :: 0 <= i < |ns| ==> Compiles(ns[i], schema)
    ensures forall s :: s in NodesSites(ns) ==> s.name in schema.sources
    decreases ns, 0
  {
    if ns != [] {
      SitesAreDeclared(ns[0], schema);
      NodesSitesAreDeclared(ns[1..], schema);
    }
  }

  ghost predicate Declared(calls: seq<Call>, schema: Schema) {
    forall c :: c in calls ==> c.name in schema.sources
  }

  lemma {:induction false} CollectKeepsDeclared(sites: seq<Operand>, sc: Scope, calls: seq<Call>)
    requires Callable(sites, sc) && Declared(calls, sc.schema) && forall s :: s in sites ==> s.Source? && s.name in sc.schema.sources
    ensures Declared(Collect(sites, sc, calls), sc.schema)
  {
    if sites != [] { CollectKeepsDeclared(sites[1..], sc, Added(calls, CallAt(sites[0], sc.binding).value, sc.lib)); }
  }

  lemma {:induction false} CollectedAreDeclared(ps: seq<Policy>, sc: Scope, calls: seq<Call>)
    requires (forall p :: p in ps ==> Collectable(p, sc)) && Declared(calls, sc.schema)
    ensures Declared(CollectAll(ps, sc, calls), sc.schema)
  {
    if ps != [] {
      assert ps[0] in ps && Collectable(ps[0], sc);
      if ps[0].condition.Some? { SitesAreDeclared(ps[0].condition.value, sc.schema); }
      CollectKeepsDeclared(PolicySites(ps[0]), sc, calls);
      CollectedAreDeclared(ps[1..], sc, Collect(PolicySites(ps[0]), sc, calls));
    }
  }

  lemma PlanIsNamed(rev: Revised, input: Input)
    requires WellNamed(rev) && PlanFor(rev.schema, rev.policies, input, rev.lib).Ready?
    ensures var plan := PlanFor(rev.schema, rev.policies, input, rev.lib);
            Named(plan.calls) && Declared(plan.calls, rev.schema) && plan.scope.schema == rev.schema && plan.scope.lib == rev.lib
  {
    var plan := PlanFor(rev.schema, rev.policies, input, rev.lib);
    CollectedAreDeclared(plan.policies, plan.scope, []);
  }

  // ---- the snapshot ----

  lemma KeptIsResolved(rev: Revised, c: Context)
    requires Judge(rev, c).Kept?
    ensures RestoreInput(rev.schema, c.request, rev.lib).Ok? && PlanAgain(rev, c).Ready?
    ensures PlanAgain(rev, c).calls != [] ==> Resolve(PlanAgain(rev, c).calls, c.facts, rev.schema, rev.lib, rev.live).Ok?
  {
  }

  /** A revision never changes a frozen value, asks the live sources only for calls
      the snapshot lacks, adds exactly those, and having added them asks no more. */
  lemma SnapshotOnlyGrows(rev: Revised, c: Context)
    requires WellNamed(rev) && Judge(rev, c).Kept?
    ensures var j := Judge(rev, c);
            && (forall k :: k in c.facts ==> k in j.facts && j.facts[k] == c.facts[k])
            && (forall call :: call in Asked(rev, c) ==> Name(call, rev.lib) !in c.facts && Name(call, rev.lib) in j.facts)
            && (forall k :: k in j.facts && k !in c.facts ==> exists call :: call in Asked(rev, c) && Name(call, rev.lib) == k)
            && (j.facts == c.facts <==> Asked(rev, c) == [])
            && Asked(rev, c.(facts := j.facts)) == []
  {
    var plan, asked, j := PlanAgain(rev, c), Asked(rev, c), Judge(rev, c);
    PlanIsNamed(rev, RestoreInput(rev.schema, c.request, rev.lib).value);
    KeptIsResolved(rev, c);
    if asked != [] {
      assert asked[0] in asked && plan.calls != [];
      assert rev.live.Some?;
      var added := Snapshot(asked, rev.live.value, rev.lib);
      forall k | k in added ensures k !in c.facts && exists call :: call in asked && Name(call, rev.lib) == k {
        SnapshotNames(asked, rev.live.value, rev.lib, k);
      }
      forall call | call in asked ensures Name(call, rev.lib) in added {
        ResolveAnswers(plan.calls, c.facts, rev.schema, rev.lib, rev.live, call);
        SnapshotAnswers(asked, rev.live.value, rev.lib, call);
      }
      assert Name(asked[0], rev.lib) in j.facts;
    }
    var again := Asked(rev, c.(facts := j.facts));
    assert PlanAgain(rev, c.(facts := j.facts)) == plan;
    assert forall call :: call in plan.calls ==> call in asked || Name(call, rev.lib) in c.facts;
    NonEmpty(again);
  }

  // ---- replay ----

  /** A decision as one evaluation left it and its row gives it back. */
  ghost predicate FrozenFrom(c: Context, plan: Plan, input: Input, table: Table, lib: Library) {
    plan.Ready? && c.request == StoredInput(FreezeInput(input, lib)) && c.facts == StoredMap(Snapshot(plan.calls, table, lib))
  }

  lemma SamePlanAgain(rev: Revised, c: Context, input: Input, table: Table)
    requires WellNamed(rev) && FrozenFrom(c, PlanFor(rev.schema, rev.policies, input, rev.lib), input, table, rev.lib) && ExactInput(input)
    ensures PlanAgain(rev, c) == PlanFor(rev.schema, rev.policies, input, rev.lib)
  {
    InputRoundTrips(rev.schema, input, rev.lib);
    MatchingByShape(rev.policies, input, RestoreInput(rev.schema, c.request, rev.lib).value);
  }

  lemma {:induction false} MatchingByShape(policies: seq<Policy>, a: Input, b: Input)
    requires a.action == b.action && a.subject.kind == b.subject.kind && a.resource.kind == b.resource.kind && a.context.kind == b.context.kind
    ensures Matching(policies, a) == Matching(policies, b)
  {
    if policies != [] { MatchingByShape(policies[1..], a, b); }
  }

  lemma {:induction false} ArgsByNames(os: seq<Operand>, a: Binding, b: Binding)
    requires SameNames(a, b)
    ensures ArgValues(os, a).Ok? <==> ArgValues(os, b).Ok?
  {
    if os != [] { ArgsByNames(os[1..], a, b); }
  }

  /** What was ready to be evaluated is ready again. */
  lemma PlanIsReadyAgain(rev: Revised, c: Context, input: Input, table: Table)
    requires WellNamed(rev) && FrozenFrom(c, PlanFor(rev.schema, rev.policies, input, rev.lib), input, table, rev.lib)
    ensures RestoreInput(rev.schema, c.request, rev.lib).Ok? && PlanAgain(rev, c).Ready?
  {
    InputRoundTrips(rev.schema, input, rev.lib);
    var again := RestoreInput(rev.schema, c.request, rev.lib).value;
    MatchingByShape(rev.policies, input, again);
    var a, b := Bind(rev.schema, input).value, Bind(rev.schema, again).value;
    forall s: Operand | s.Source? ensures CallAt(s, a).Ok? <==> CallAt(s, b).Ok? { ArgsByNames(s.args, a, b); }
    var x, y := Scope(rev.schema, a, rev.lib), Scope(rev.schema, b, rev.lib);
    forall p | p in Matching(rev.policies, input) ensures Collectable(p, y) { assert Collectable(p, x); }
  }

  /** Replaying the same set on any request asks for exactly those calls of the restored
      request that the first evaluation did not collect and have answered. */
  lemma ReplayAsksExactly(rev: Revised, c: Context, input: Input, table: Table, call: Call)
    requires WellNamed(rev) && FrozenFrom(c, PlanFor(rev.schema, rev.policies, input, rev.lib), input, table, rev.lib)
    ensures PlanAgain(rev, c).Ready?
    ensures call in Asked(rev, c) <==>
            call in PlanAgain(rev, c).calls && !(call in PlanFor(rev.schema, rev.policies, input, rev.lib).calls && Key(call, rev.lib) in table)
  {
    PlanIsReadyAgain(rev, c, input, table);
    var plan, again := PlanFor(rev.schema, rev.policies, input, rev.lib), PlanAgain(rev, c);
    PlanIsNamed(rev, input);
    PlanIsNamed(rev, RestoreInput(rev.schema, c.request, rev.lib).value);
    if call in again.calls { SnapshotAnswers(plan.calls, table, rev.lib, call); }
  }

  /** Where nothing of the request was lost on its way through the row, it fetches
      nothing exactly when every call it collected was answered the first time. */
  lemma ReplayFetchesNothing(rev: Revised, c: Context, input: Input, table: Table)
    requires WellNamed(rev) && FrozenFrom(c, PlanFor(rev.schema, rev.policies, input, rev.lib), input, table, rev.lib) && ExactInput(input)
    ensures Asked(rev, c) == [] <==> forall call :: call in PlanFor(rev.schema, rev.policies, input, rev.lib).calls ==> Key(call, rev.lib) in table
  {
    SamePlanAgain(rev, c, input, table);
    forall call | call in PlanAgain(rev, c).calls ensures call in Asked(rev, c) <==> Key(call, rev.lib) !in table {
      ReplayAsksExactly(rev, c, input, table, call);
    }
    NonEmpty(Asked(rev, c));
  }

  ghost predicate Answered(plan: Plan, table: Table)
    requires plan.Ready?
  {
    forall call :: call in plan.calls ==> Lookup(call, plan.scope, table).Some? && Exact(Lookup(call, plan.scope, table).value)
  }

  /** The frozen table answers every collected call as the live one did. */
  lemma ReplayTable(rev: Revised, c: Context, input: Input, table: Table)
    requires WellNamed(rev) && FrozenFrom(c, PlanFor(rev.schema, rev.policies, input, rev.lib), input, table, rev.lib)
    requires Answered(PlanFor(rev.schema, rev.policies, input, rev.lib), table)
    ensures var calls := PlanFor(rev.schema, rev.policies, input, rev.lib).calls;
            && Resolve(calls, c.facts, rev.schema, rev.lib, rev.live).Ok?
            && forall call :: call in calls ==>
                 var t := Resolve(calls, c.facts, rev.schema, rev.lib, rev.live).value;
                 Key(call, rev.lib) in t && Key(call, rev.lib) in table && t[Key(call, rev.lib)] == table[Key(call, rev.lib)]
  {
    var plan := PlanFor(rev.schema, rev.policies, input, rev.lib);
    PlanIsNamed(rev, input);
    forall call | call in plan.calls
      ensures Name(call, rev.lib) in c.facts && Held(call, c.facts, rev.schema, rev.lib) == Ok(table[Key(call, rev.lib)])
    {
      SnapshotAnswers(plan.calls, table, rev.lib, call);
      RestoreInvertsFreeze(rev.schema.sources[call.name], table[Key(call, rev.lib)], rev.lib);
    }
    RecallSucceeds(plan.calls, c.facts, rev.schema, rev.lib);
    NonEmpty(Missing(plan.calls, c.facts, rev.lib));
    forall call | call in plan.calls
      ensures var t := Resolve(plan.calls, c.facts, rev.schema, rev.lib, rev.live).value;
              Key(call, rev.lib) in t && t[Key(call, rev.lib)] == table[Key(call, rev.lib)]
    {
      ResolveAnswers(plan.calls, c.facts, rev.schema, rev.lib, rev.live, call);
    }
  }

  lemma {:induction false} RecallSucceeds(calls: seq<Call>, facts: map<string, Json>, schema: Schema, lib: Library)
    requires forall c :: c in calls ==> Name(c, lib) in facts && Held(c, facts, schema, lib).Ok?
    ensures Recall(calls, facts, schema, lib).Ok?
  {
    if calls != [] {
      assert calls[|calls| - 1] in calls;
      RecallSucceeds(calls[..|calls| - 1], facts, schema, lib);
    }
  }

  /** Two tables that agree on a plan's calls give every condition one outcome. */
  lemma OutcomesAgree(rev: Revised, input: Input, t: Table, u: Table, p: Policy)
    requires WellNamed(rev) && PlanFor(rev.schema, rev.policies, input, rev.lib).Ready?
    requires var plan := PlanFor(rev.schema, rev.policies, input, rev.lib);
             && p in plan.policies
             && forall call :: call in plan.calls ==> Lookup(call, plan.scope, t) == Lookup(call, plan.scope, u)
    ensures var plan := PlanFor(rev.schema, rev.policies, input, rev.lib); Outcome(p, plan.scope, t) == Outcome(p, plan.scope, u)
  {
    var plan := PlanFor(rev.schema, rev.policies, input, rev.lib);
    PlanIsNamed(rev, input);
    if p.condition.Some? {
      assert Collectable(p, plan.scope);
      SitesAreDeclared(p.condition.value, rev.schema);
      forall s | s in Sites(p.condition.value)
        ensures CallAt(s, plan.scope.binding).Ok? && CallAt(s, plan.scope.binding).value in plan.calls
      {
        var call := CallAt(s, plan.scope.binding).value;
        CollectAllGathers(plan.policies, plan.scope, [], KeyAt(s, plan.scope));
        assert Reaches(p, plan.scope, KeyAt(s, plan.scope));
        var found :| found in plan.calls && Key(found, rev.lib) == Key(call, rev.lib);
        KeyIsInjective(found, call, rev.lib);
      }
      NodeReadsItsSites(p.condition.value, plan.scope, t, u);
    }
  }

  lemma {:induction false} HoldingAgrees(ps: seq<Policy>, sc: Scope, t: Table, u: Table)
    requires forall p :: p in ps ==> Outcome(p, sc, t) == Outcome(p, sc, u)
    ensures Holding(ps, sc, t) == Holding(ps, sc, u)
  {
    if ps != [] {
      assert ps[0] in ps;
      HoldingAgrees(ps[1..], sc, t, u);
    }
  }

  /** Re-evaluating the same policy set on a decision's frozen request and facts
      gives the answer it gave: the same verdict, policy and gates, whatever the live
      sources would say now. */
  lemma ReplayAnswersAlike(rev: Revised, c: Context, input: Input, table: Table)
    requires WellNamed(rev) && FrozenFrom(c, PlanFor(rev.schema, rev.policies, input, rev.lib), input, table, rev.lib)
    requires ExactInput(input) && Answered(PlanFor(rev.schema, rev.policies, input, rev.lib), table)
    ensures AnswerAgain(rev, c) == Decide(rev.schema, rev.policies, input, rev.lib, Some(table))
    ensures Asked(rev, c) == []
  {
    var plan := PlanFor(rev.schema, rev.policies, input, rev.lib);
    SamePlanAgain(rev, c, input, table);
    ReplayFetchesNothing(rev, c, input, table);
    ReplayTable(rev, c, input, table);
    var again := Resolve(plan.calls, c.facts, rev.schema, rev.lib, rev.live).value;
    PlanIsNamed(rev, input);
    var t: Table := if plan.calls == [] then map[] else table;
    var u: Table := if plan.calls == [] then map[] else again;
    assert forall call :: call in plan.calls ==> Lookup(call, plan.scope, t) == Lookup(call, plan.scope, u);
    forall p | p in plan.policies ensures Outcome(p, plan.scope, t) == Outcome(p, plan.scope, u) { OutcomesAgree(rev, input, t, u, p); }
    HoldingAgrees(plan.policies, plan.scope, t, u);
  }

  // ---- which approvals live through a revision ----

  lemma IssuedTerms(spec: Spec, c: Context, dep: Deployment, draw: Draw, now: Instant)
    requires spec.QuorumSpec? && Issue(spec, c, dep, draw, now).Ok?
    ensures Approvers.ResolveQuorum(dep.dir, spec.threshold, spec.approvers) == Ok(Issue(spec, c, dep, draw, now).value.detail.terms)
  {
  }

  /** The terms a revised quorum resolves to. */
  function NewTerms(j: Judgment, i: nat, env: Setting): Result<Approvers.ApproverTerms>
    requires j.Kept? && i < |j.specs| && j.specs[i].QuorumSpec?
  {
    Approvers.ResolveQuorum(env.dep.dir, j.specs[i].threshold, j.specs[i].approvers)
  }

  ghost predicate SameMaterial(c: Context, j: Judgment)
    requires j.Kept?
  {
    j.policy == c.policy && j.facts == c.facts && j.obligations == c.obligations
  }

  /** What a quorum row keeps of its votes, in terms of the material they are bound to. */
  lemma DroppedExactly(row: Row, c: Context, expiresAt: Instant, i: nat, have: nat, spec: Spec, e: Context, env: Setting, now: Instant)
    requires row.detail.QuorumDetail? && spec.QuorumSpec? && RowSound(row, c, expiresAt, i, have)
    requires RebindQuorum(row, have, spec, e, env, i, now).Ok?
    ensures !RebindQuorum(row, have, spec, e, env, i, now).value.dropped <==>
            e == c && Approvers.ResolveQuorum(env.dep.dir, spec.threshold, spec.approvers) == Ok(row.detail.terms)
  {
    IssuedTerms(spec, e, env.dep, env.draws(i), now);
  }

  lemma RevaluateRebinds(d: Decision, j: Judgment, env: Setting, now: Instant, k: (nat, string))
    requires j.Kept? && SameShape(d.rows, j.specs) && Revaluate(d, j, env, now).Ok? && k in d.approvals && k.0 < |d.rows|
    ensures var r := RebindRow(Rejudged(d, j), k.0, j.specs[k.0], env, now);
            r.Ok? && (k in Revaluate(d, j, env, now).value.approvals <==> !r.value.dropped)
  {
    var rebound := RebindRows(Rejudged(d, j), j.specs, env, now, |j.specs|).value;
    assert RebindRow(Rejudged(d, j), k.0, j.specs[k.0], env, now) == Ok(rebound[k.0]);
  }

  /** An approval lives through a same-shape revision exactly when the policy, the
      facts, the obligations and the terms it was given under are all unchanged. The
      threshold is not among them. */
  lemma SurvivesExactly(d: Decision, j: Judgment, env: Setting, now: Instant, k: (nat, string))
    requires Sound(d) && d.state == Open && j.Kept?
    requires SameShape(d.rows, j.specs) && Revaluate(d, j, env, now).Ok? && k in d.approvals
    ensures ApprovalSound(d, k) && j.specs[k.0].QuorumSpec?
    ensures k in Revaluate(d, j, env, now).value.approvals <==>
            SameMaterial(d.context, j) && NewTerms(j, k.0, env) == Ok(d.rows[k.0].detail.terms)
  {
    assert ApprovalSound(d, k);
    var i := k.0;
    assert RowSound(d.rows[i], d.context, d.expiresAt, i, Have(d, i));
    RevaluateRebinds(d, j, env, now, k);
    DroppedExactly(d.rows[i], d.context, d.expiresAt, i, Have(d, i), j.specs[i], Rejudged(d, j).context, env, now);
  }

  /** No approval lives through a revision that changes the shape. */
  lemma ReshapedLosesAll(d: Decision, j: Judgment, env: Setting, now: Instant)
    requires j.Kept?
    requires !SameShape(d.rows, j.specs) && Revaluate(d, j, env, now).Ok?
    ensures Revaluate(d, j, env, now).value.approvals == map[]
  {
  }

  /** If a revision fetched anything, no earlier approval survives it. */
  lemma FetchingLosesAll(rev: Revised, d: Decision, env: Setting, now: Instant)
    requires WellNamed(rev) && Sound(d) && d.state == Open && Judge(rev, d.context).Kept? && Asked(rev, d.context) != []
    requires Revaluate(d, Judge(rev, d.context), env, now).Ok?
    ensures Revaluate(d, Judge(rev, d.context), env, now).value.approvals == map[]
  {
    var j := Judge(rev, d.context);
    var e := Revaluate(d, j, env, now).value;
    SnapshotOnlyGrows(rev, d.context);
    ApprovalsOnlyShrink(d, j, env, now);
    if SameShape(d.rows, j.specs) {
      forall k | k in d.approvals ensures k !in e.approvals { SurvivesExactly(d, j, env, now, k); }
    } else {
      ReshapedLosesAll(d, j, env, now);
    }
    assert e.approvals.Keys == {};
  }

  /** Member lists that name the same people resolve to the same terms, in whatever
      order, spelling and number they are written and whatever the threshold. */
  lemma TermsAreBySet(dir: Approvers.Directory, a: Approvers.ApproverSet, b: Approvers.ApproverSet, m: int, n: int)
    requires Approvers.ResolveQuorum(dir, m, a).Ok? && Approvers.ResolveQuorum(dir, n, b).Ok?
    requires a.source == b.source && a.claim == b.claim
    requires Approvers.Named(a.members) == Approvers.Named(b.members)
    ensures Approvers.ResolveQuorum(dir, m, a).value == Approvers.ResolveQuorum(dir, n, b).value
  {
    Approvers.NormalizationIsBySet(a.members, b.members);
  }

  ghost predicate SameTerms(d: Decision, j: Judgment, env: Setting)
    requires j.Kept? && SameShape(d.rows, j.specs)
  {
    forall i :: 0 <= i < |d.rows| && d.rows[i].kind == QuorumKind && d.rows[i].detail.QuorumDetail? ==> NewTerms(j, i, env) == Ok(d.rows[i].detail.terms)
  }

  lemma SameMaterialKeepsAll(d: Decision, j: Judgment, env: Setting, now: Instant)
    requires Sound(d) && d.state == Open && j.Kept? && SameShape(d.rows, j.specs)
    requires SameMaterial(d.context, j) && SameTerms(d, j, env) && Revaluate(d, j, env, now).Ok?
    ensures Revaluate(d, j, env, now).value.approvals == d.approvals
  {
    ApprovalsOnlyShrink(d, j, env, now);
    forall k | k in d.approvals ensures k in Revaluate(d, j, env, now).value.approvals { SurvivesExactly(d, j, env, now, k); }
  }

  /** If nothing was fetched and policy, obligations and terms are unchanged, every
      approval survives. */
  lemma UnchangedKeepsAll(rev: Revised, d: Decision, env: Setting, now: Instant)
    requires WellNamed(rev) && Sound(d) && d.state == Open && Judge(rev, d.context).Kept? && Asked(rev, d.context) == []
    requires Judge(rev, d.context).policy == d.context.policy && Judge(rev, d.context).obligations == d.context.obligations
    requires SameShape(d.rows, Judge(rev, d.context).specs) && SameTerms(d, Judge(rev, d.context), env)
    requires Revaluate(d, Judge(rev, d.context), env, now).Ok?
    ensures Revaluate(d, Judge(rev, d.context), env, now).value.approvals == d.approvals
  {
    SnapshotOnlyGrows(rev, d.context);
    SameMaterialKeepsAll(d, Judge(rev, d.context), env, now);
  }

  // ---- sequences of revisions ----

  /** One revision as it reaches one decision. */
  datatype Round = Round(rev: Revised, env: Setting, now: Instant)

  function ReviseBy(d: Decision, r: Round): Decision {
    Revise(d, Judge(r.rev, d.context), r.env, r.now)
  }

  function ReviseAll(d: Decision, rounds: seq<Round>): Decision
    decreases |rounds|
  {
    if rounds == [] then d else ReviseAll(ReviseBy(d, rounds[0]), rounds[1..])
  }

  /** What a later form of a decision may have done to its evidence: facts only
      added, approvals only lost, and all of them lost if a fact was added. */
  ghost predicate Descends(d: Decision, e: Decision) {
    && (forall k :: k in d.context.facts ==> k in e.context.facts && e.context.facts[k] == d.context.facts[k])
    && (forall k :: k in e.approvals ==> k in d.approvals && e.approvals[k] == d.approvals[k])
    && (e.context.facts != d.context.facts ==> e.approvals == map[])
  }

  lemma DescentChains(d: Decision, e: Decision, f: Decision)
    requires Descends(d, e) && Descends(e, f)
    ensures Descends(d, f)
  {
  }

  lemma FactsAfter(d: Decision, j: Judgment, env: Setting, now: Instant)
    requires Revaluate(d, j, env, now).Ok?
    ensures var c := Revaluate(d, j, env, now).value.context;
            if j.Kept? then c == StoredContext(Rejudged(d, j).context) else c == d.context
  {
    if j.Kept? { RebindKeepsFrame(Rejudged(d, j), j.specs, env, now); }
  }

  /** Material the row does not give back is material that changed. */
  lemma UnstorableLosesAll(d: Decision, j: Judgment, env: Setting, now: Instant)
    requires Sound(d) && d.state == Open && j.Kept? && Revaluate(d, j, env, now).Ok? && !Storable(Rejudged(d, j).context)
    ensures Revaluate(d, j, env, now).value.approvals == map[]
  {
    var e := Revaluate(d, j, env, now).value;
    ApprovalsOnlyShrink(d, j, env, now);
    if SameShape(d.rows, j.specs) {
      assert !SameMaterial(d.context, j);
      forall k | k in d.approvals ensures k !in e.approvals { SurvivesExactly(d, j, env, now, k); }
    } else {
      ReshapedLosesAll(d, j, env, now);
    }
    assert e.approvals.Keys == {};
  }

  /** The content is the row's own, and any approval is bound to it. */
  ghost predicate Anchored(d: Decision) {
    Storable(d.context) && (d.approvals != map[] ==> Sound(d))
  }

  lemma RevaluateAnchors(rev: Revised, d: Decision, env: Setting, now: Instant)
    requires Anchored(d) && d.state == Open && Revaluate(d, Judge(rev, d.context), env, now).Ok?
    ensures Anchored(Revaluate(d, Judge(rev, d.context), env, now).value)
  {
    var j := Judge(rev, d.context);
    var e := Revaluate(d, j, env, now).value;
    FactsAfter(d, j, env, now);
    if j.Kept? { StoredIsStorable(Rejudged(d, j).context); }
    ApprovalsOnlyShrink(d, j, env, now);
    if d.approvals == map[] {
      assert e.approvals.Keys == {};
    } else if j.Kept? && !Storable(Rejudged(d, j).context) {
      UnstorableLosesAll(d, j, env, now);
    } else {
      RevaluateIsSound(d, j, env, now);
    }
  }

  lemma RevaluateDescends(rev: Revised, d: Decision, env: Setting, now: Instant)
    requires WellNamed(rev) && Anchored(d) && d.state == Open && Revaluate(d, Judge(rev, d.context), env, now).Ok?
    ensures Descends(d, Revaluate(d, Judge(rev, d.context), env, now).value)
  {
    var j := Judge(rev, d.context);
    var e := Revaluate(d, j, env, now).value;
    FactsAfter(d, j, env, now);
    ApprovalsOnlyShrink(d, j, env, now);
    if d.approvals == map[] { assert e.approvals.Keys == {}; }
    if j.Kept? {
      SnapshotOnlyGrows(rev, d.context);
      assert StoredMap(d.context.facts) == d.context.facts && e.context.facts == StoredMap(j.facts);
      if Asked(rev, d.context) != [] && d.approvals != map[] { FetchingLosesAll(rev, d, env, now); }
    }
  }

  /** Across any sequence of revisions a frozen fact never changes value, and an
      approval that is still there at the end never outlived a fetch and is bound to
      what the decision carries. */
  lemma {:induction false} FrozenForGood(d: Decision, rounds: seq<Round>)
    requires Anchored(d) && forall r :: r in rounds ==> WellNamed(r.rev)
    ensures Anchored(ReviseAll(d, rounds)) && Descends(d, ReviseAll(d, rounds))
    decreases |rounds|
  {
    if rounds != [] {
      var r := rounds[0];
      assert r in rounds;
      var e := ReviseBy(d, r);
      if e != d {
        RevaluateAnchors(r.rev, d, r.env, r.now);
        RevaluateDescends(r.rev, d, r.env, r.now);
      }
      FrozenForGood(e, rounds[1..]);
      DescentChains(d, e, ReviseAll(e, rounds[1..]));
    }
  }

  // ---- revisions within a run ----

  /** A revision that judges as the code does, under some policy set. */
  ghost predicate JudgesBy(ev: Runs.Event, rev: Revised) {
    ev.Revises? && WellNamed(rev) && forall c :: ev.judge(c) == Judge(rev, c)
  }

  ghost predicate Judges(ev: Runs.Event) {
    ev.Revises? ==> exists rev :: JudgesBy(ev, rev)
  }

  ghost predicate KeepsFacts(d: Decision, e: Decision) {
    forall k :: k in d.context.facts ==> k in e.context.facts && e.context.facts[k] == d.context.facts[k]
  }

  lemma RevaluatedKeepsFacts(rev: Revised, d: Decision, env: Setting, now: Instant)
    requires WellNamed(rev) && Storable(d.context) && Revaluate(d, Judge(rev, d.context), env, now).Ok?
    ensures KeepsFacts(d, Revaluate(d, Judge(rev, d.context), env, now).value)
  {
    var j := Judge(rev, d.context);
    FactsAfter(d, j, env, now);
    if j.Kept? {
      SnapshotOnlyGrows(rev, d.context);
      assert StoredMap(d.context.facts) == d.context.facts;
    }
  }

  /** Whatever judges it, content in the store is content the store gives back. */
  lemma StepStaysStored(w: Runs.World, ev: Runs.Event, id: string)
    requires id in Runs.Step(w, ev).decisions && (id in w.decisions ==> Storable(w.decisions[id].context))
    ensures Storable(Runs.Step(w, ev).decisions[id].context)
  {
    if id !in w.decisions {
      Runs.NewIsOpened(w, ev, id);
      StoredIsStorable(ev.proposal.context);
    } else {
      Runs.StepMakes(w, ev, id);
      var d := w.decisions[id];
      if Runs.Reaches(w, ev, id) {
        var j := ev.judge(d.context);
        FactsAfter(d, j, ev.envs(id), ev.now);
        if j.Kept? { StoredIsStorable(Rejudged(d, j).context); }
      } else if Runs.WorksOn(w, ev, id) {
        WritesKeepContent(d, w.jobs[ev.n]);
      }
    }
  }

  lemma WritesKeepContent(d: Decision, j: Runs.Job)
    ensures Runs.Written(d, j).context == d.context
  {
  }

  lemma StepKeepsFacts(w: Runs.World, ev: Runs.Event, id: string)
    requires id in w.decisions && Storable(w.decisions[id].context) && Judges(ev)
    ensures id in Runs.Step(w, ev).decisions && KeepsFacts(w.decisions[id], Runs.Step(w, ev).decisions[id])
  {
    Runs.StepMakes(w, ev, id);
    var d := w.decisions[id];
    if Runs.Reaches(w, ev, id) {
      var rev :| JudgesBy(ev, rev);
      RevaluatedKeepsFacts(rev, d, ev.envs(id), ev.now);
    } else if Runs.WorksOn(w, ev, id) {
      WritesKeepContent(d, w.jobs[ev.n]);
    }
  }

  ghost predicate StoredAt(w: Runs.World, id: string) {
    id in w.decisions ==> Storable(w.decisions[id].context)
  }

  lemma {:induction false} RunStaysStored(w: Runs.World, events: seq<Runs.Event>, id: string)
    requires StoredAt(w, id)
    ensures StoredAt(Runs.Run(w, events), id)
    decreases |events|
  {
    if events != [] {
      var n := |events| - 1;
      RunStaysStored(w, events[..n], id);
      OneMoreIsStored(Runs.Run(w, events[..n]), Runs.Run(w, events), events[n], id);
    }
  }

  lemma OneMoreIsStored(w: Runs.World, v: Runs.World, ev: Runs.Event, id: string)
    requires StoredAt(w, id) && v == Runs.Step(w, ev)
    ensures StoredAt(v, id)
  {
    if id in v.decisions { StepStaysStored(w, ev, id); }
  }

  ghost predicate Grown(w: Runs.World, v: Runs.World, id: string) {
    id in w.decisions && id in v.decisions && Storable(v.decisions[id].context) && KeepsFacts(w.decisions[id], v.decisions[id])
  }

  lemma OneMoreGrows(w: Runs.World, v: Runs.World, ev: Runs.Event, id: string)
    requires Grown(w, v, id) && Judges(ev)
    ensures Grown(w, Runs.Step(v, ev), id)
  {
    StepKeepsFacts(v, ev, id);
    StepStaysStored(v, ev, id);
  }

  lemma {:induction false} GrownUpTo(w: Runs.World, events: seq<Runs.Event>, id: string, m: nat)
    requires Grown(w, w, id) && m <= |events| && forall k :: 0 <= k < |events| ==> Judges(events[k])
    ensures Grown(w, Runs.Run(w, events[..m]), id)
  {
    if m > 0 {
      GrownUpTo(w, events, id, m - 1);
      OneMoreGrows(w, Runs.Run(w, events[..m - 1]), events[m - 1], id);
      Runs.PrefixSteps(w, events, m - 1);
    }
  }

  /** In every run, however it interleaves, from any moment on: while revisions judge as
      the code does, whatever policy sets they bring, a decision's frozen facts only
      grow. */
  lemma FactsOnlyGrow(before: seq<Runs.Event>, after: seq<Runs.Event>, id: string)
    requires id in Runs.Run(Runs.EMPTY, before).decisions && forall k :: 0 <= k < |after| ==> Judges(after[k])
    ensures var w := Runs.Run(Runs.EMPTY, before);
            var v := Runs.Run(w, after);
            id in v.decisions && KeepsFacts(w.decisions[id], v.decisions[id])
  {
    RunStaysStored(Runs.EMPTY, before, id);
    FactsGrowFrom(Runs.Run(Runs.EMPTY, before), after, id);
  }

  lemma FactsGrowFrom(w: Runs.World, after: seq<Runs.Event>, id: string)
    requires Grown(w, w, id) && forall k :: 0 <= k < |after| ==> Judges(after[k])
    ensures Grown(w, Runs.Run(w, after), id)
  {
    GrownUpTo(w, after, id, |after|);
    assert after[..|after|] == after;
  }
}
