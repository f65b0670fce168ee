/** When the approvals of a decision stay bound to the terms in force: exactly when every
    write to it finds the terms it was read under, in every run and whatever else the
    writers do to each other. */
module Binding {
  import opened Basics
  import opened Approvers
  import opened Policy
  import opened Challenges
  import opened Decisions
  import opened Revision
  import opened Soundness
  import opened Runs
  import opened Always

  // ---- the property ----

  /** Each quorum row carries the hash recomputed from the decision and its terms. */
  ghost predicate RowBound(row: Row, c: Context) {
    row.kind == QuorumKind ==> row.detail.QuorumDetail? && row.detail.hash == Some(BindingHash(c, row.detail.terms))
  }

  /** Each approval carries the hash its row carries and, in the list modes, names a
      member of the current set. */
  ghost predicate VoteBound(d: Decision, k: (nat, string))
    requires k in d.approvals
  {
    && k.0 < |d.rows| && d.rows[k.0].kind == QuorumKind && d.rows[k.0].detail.QuorumDetail?
    && var detail := d.rows[k.0].detail;
       detail.hash == Some(d.approvals[k]) && (!detail.terms.ClaimTerms? ==> k.1 in detail.terms.members)
  }

  ghost predicate Bound(d: Decision) {
    && (forall i :: 0 <= i < |d.rows| ==> RowBound(d.rows[i], d.context))
    && (forall k :: k in d.approvals ==> VoteBound(d, k))
  }

  ghost predicate BoundAt(w: World, id: string) {
    id in w.decisions ==> Bound(w.decisions[id])
  }

  /** The terms in force are the same. */
  ghost predicate SameTerms(d: Decision, e: Decision) {
    forall i :: 0 <= i < |d.rows| && d.rows[i].kind == QuorumKind && d.rows[i].detail.QuorumDetail? ==>
      i < |e.rows| && e.rows[i].kind == QuorumKind && e.rows[i].detail.QuorumDetail? && e.rows[i].detail.hash == d.rows[i].detail.hash
  }

  /** After one event the decision is bound, and only a revision of it has changed terms. */
  ghost predicate BoundAfter(w: World, ev: Event, id: string) {
    && BoundAt(Step(w, ev), id)
    && (id in w.decisions && id in Step(w, ev).decisions && !Reaches(w, ev, id) ==> SameTerms(w.decisions[id], Step(w, ev).decisions[id]))
  }

  // ---- the condition ----

  /** What is written late over a quorum was read from a quorum of the same hash. */
  predicate RowInTerms(d: Decision, i: nat, detail: Detail) {
    i < |d.rows| && d.rows[i].kind == QuorumKind ==>
      detail.QuorumDetail? && d.rows[i].detail.QuorumDetail? && d.rows[i].detail.hash == detail.hash
  }

  /** So was a vote that is not there already. */
  predicate WriteInTerms(d: Decision, j: Job) {
    match j.phase
    case Voting(i, approver, hash) =>
      i < |d.rows| && (i, approver) !in d.approvals ==>
        d.rows[i].kind == QuorumKind && d.rows[i].detail.QuorumDetail? && d.rows[i].detail.hash == Some(hash)
    case Marking(i, _, detail, _) => RowInTerms(d, i, detail)
    case Storing(k, _, _, _, _) => k < |j.copy.rows| ==> RowInTerms(d, k, j.copy.rows[k].detail)
    case _ => true
  }

  predicate AsksQuorum(specs: seq<Spec>) {
    exists i :: 0 <= i < |specs| && specs[i].QuorumSpec?
  }

  predicate OpensIt(w: World, ev: Event, id: string) {
    && ev.Opens? && ev.proposal.context.id == id && id !in w.decisions
    && Create(ev.proposal, ev.dep, ev.draws, ev.now).Ok? && Create(ev.proposal, ev.dep, ev.draws, ev.now).value.Some?
  }

  /** What an event must find, of one decision and nothing else: the terms its write was
      read under, or content to hash that the row gives back. */
  ghost predicate InTerms(w: World, ev: Event, id: string) {
    && (WorksOn(w, ev, id) && id in w.decisions ==> WriteInTerms(w.decisions[id], w.jobs[ev.n]))
    && (OpensIt(w, ev, id) && AsksQuorum(ev.proposal.specs) ==> Storable(ev.proposal.context))
    && (Reaches(w, ev, id) ==>
         var j := ev.judge(w.decisions[id].context);
         j.Kept? && AsksQuorum(j.specs) ==> Storable(Rejudged(w.decisions[id], j).context))
  }

  ghost predicate AllInTerms(events: seq<Event>, id: string) {
    forall m :: 0 <= m < |events| ==> InTerms(Run(EMPTY, events[..m]), events[m], id)
  }

  // ---- openings ----

  lemma {:induction false} OpenedKinds(specs: seq<Spec>, c: Context, dep: Deployment, draws: nat -> Draw, now: Instant, expiresAt: Instant)
    requires OpenRows(specs, c, dep, draws, now, expiresAt).Ok? && OpenRows(specs, c, dep, draws, now, expiresAt).value.Opened?
    ensures var rows := OpenRows(specs, c, dep, draws, now, expiresAt).value.rows;
            |rows| == |specs| && forall i :: 0 <= i < |rows| ==> rows[i].kind == KindOf(specs[i])
  {
    if specs != [] { OpenedKinds(specs[..|specs| - 1], c, dep, draws, now, expiresAt); }
  }

  lemma OpenedBoundExactly(p: Proposal, dep: Deployment, draws: nat -> Draw, now: Instant)
    requires Create(p, dep, draws, now).Ok? && Create(p, dep, draws, now).value.Some?
    ensures Bound(Create(p, dep, draws, now).value.value) <==> (AsksQuorum(p.specs) ==> Storable(p.context))
  {
    OpenRowsAreFresh(p.specs, p.context, dep, draws, now, p.expiresAt);
    OpenedKinds(p.specs, p.context, dep, draws, now, p.expiresAt);
    var d := Create(p, dep, draws, now).value.value;
    forall i | 0 <= i < |d.rows|
      ensures p.specs[i].QuorumSpec? <==> d.rows[i].kind == QuorumKind
      ensures RowBound(d.rows[i], d.context) <==> (d.rows[i].kind == QuorumKind ==> Storable(p.context))
    {
      assert Fresh(d.rows[i], p.context);
    }
  }

  // ---- writes ----

  lemma VoteBoundExactly(d: Decision, j: Job)
    requires Bound(d) && AllSane(d) && JobSane(j) && j.phase.Voting?
    ensures Bound(Written(d, j)) <==> WriteInTerms(d, j)
    ensures SameTerms(d, Written(d, j))
  {
    var i, approver, hash := j.phase.i, j.phase.approver, j.phase.hash;
    var e := Written(d, j);
    if i < |d.rows| && (i, approver) !in d.approvals {
      var k: (nat, string) := (i, approver);
      assert Sane(d.rows[i], d.expiresAt);
      assert e.approvals[k] == hash && RowBound(d.rows[i], d.context);
      assert VoteBound(e, k) <==> WriteInTerms(d, j);
      forall x | x in e.approvals && x != k ensures VoteBound(e, x) { assert VoteBound(d, x); }
    }
  }

  /** A quorum detail carrying the hash of one that is bound is that one's terms. */
  lemma SameHashSameTerms(a: Detail, b: Detail)
    requires a.QuorumDetail? && b.QuorumDetail? && Worded(a) && Worded(b) && a.hash == b.hash
    ensures a.terms == b.terms
  {
  }

  lemma RowBoundExactly(d: Decision, i: nat, state: Progress, detail: Detail, evidence: Evidence)
    requires Bound(d) && AllSane(d) && Fair(state, detail, evidence)
    ensures var e := WriteRow(d, i, state, detail, evidence); Bound(e) && SameTerms(d, e) <==> RowInTerms(d, i, detail)
  {
    var e := WriteRow(d, i, state, detail, evidence);
    if i < |d.rows| {
      assert Sane(d.rows[i], d.expiresAt) && RowBound(d.rows[i], d.context);
      if d.rows[i].kind == QuorumKind && RowInTerms(d, i, detail) { SameHashSameTerms(d.rows[i].detail, detail); }
      if RowInTerms(d, i, detail) {
        forall x | 0 <= x < |e.rows| ensures RowBound(e.rows[x], e.context) { assert RowBound(d.rows[x], d.context); }
        forall k | k in e.approvals ensures VoteBound(e, k) { assert VoteBound(d, k); }
      }
    }
  }

  lemma WrittenBoundExactly(d: Decision, j: Job)
    requires Bound(d) && AllSane(d) && JobSane(j)
    ensures Bound(Written(d, j)) && SameTerms(d, Written(d, j)) <==> WriteInTerms(d, j)
  {
    match j.phase
    case Voting(_, _, _) => VoteBoundExactly(d, j);
    case Marking(i, state, detail, evidence) => RowBoundExactly(d, i, state, detail, evidence);
    case Storing(k, state, evidence, _, _) => RowBoundExactly(d, k, state, j.copy.rows[k].detail, evidence);
    case _ => ClosingBinds(d, Written(d, j));
  }

  lemma ClosingBinds(d: Decision, e: Decision)
    requires Bound(d) && e.rows == d.rows && e.approvals == d.approvals && e.context == d.context
    ensures Bound(e) && SameTerms(d, e)
  {
    forall k | k in e.approvals ensures VoteBound(e, k) { assert VoteBound(d, k); }
  }

  // ---- revisions ----

  lemma {:induction false} ReopenedHashes(specs: seq<Spec>, d: Decision, env: Setting, now: Instant)
    requires ReopenRows(specs, d, env, now).Ok?
    ensures var rows := ReopenRows(specs, d, env, now).value;
            forall i :: 0 <= i < |specs| ==> RowBound(rows[i], d.context) && rows[i].kind == KindOf(specs[i]) && !Foreign(rows[i])
  {
    if specs != [] { ReopenedHashes(specs[..|specs| - 1], d, env, now); }
  }

  lemma ReboundHash(d: Decision, i: nat, spec: Spec, env: Setting, now: Instant)
    requires i < |d.rows| && d.rows[i].kind == KindOf(spec) && RebindRow(d, i, spec, env, now).Ok?
    ensures var row := RebindRow(d, i, spec, env, now).value.row; RowBound(row, d.context) && row.kind == KindOf(spec) && !Foreign(row)
  {
  }

  /** Whatever was there before, a revision hashes every quorum over the content it wrote,
      and leaves each row with a detail of its own kind. */
  lemma RevaluatedHash(d: Decision, j: Judgment, env: Setting, now: Instant, i: nat)
    requires j.Kept? && Revaluate(d, j, env, now).Ok? && i < |Revaluate(d, j, env, now).value.rows|
    ensures var e := Revaluate(d, j, env, now).value;
            && |e.rows| == |j.specs| && e.rows[i].kind == KindOf(j.specs[i]) && !Foreign(e.rows[i])
            && RowBound(e.rows[i], Rejudged(d, j).context)
  {
    RevaluatedRow(d, j, env, now, i);
    if SameShape(d.rows, j.specs) {
      ReboundHash(Rejudged(d, j), i, j.specs[i], env, now);
    } else {
      ReopenedHashes(j.specs, Rejudged(d, j), env, now);
    }
  }

  lemma RevaluatedFrame(d: Decision, j: Judgment, env: Setting, now: Instant)
    requires j.Kept? && Revaluate(d, j, env, now).Ok?
    ensures var e := Revaluate(d, j, env, now).value; e.context == StoredContext(Rejudged(d, j).context) && |e.rows| == |j.specs|
  {
    RebindKeepsFrame(Rejudged(d, j), j.specs, env, now);
  }

  /** A vote a revision leaves was not dropped with its row. */
  lemma LeftVote(d: Decision, j: Judgment, env: Setting, now: Instant, k: (nat, string))
    requires j.Kept? && Revaluate(d, j, env, now).Ok? && k in Revaluate(d, j, env, now).value.approvals && k.0 < |d.rows|
    ensures SameShape(d.rows, j.specs) && k in d.approvals && Revaluate(d, j, env, now).value.approvals[k] == d.approvals[k]
    ensures RebindRow(Rejudged(d, j), k.0, j.specs[k.0], env, now).Ok? && !RebindRow(Rejudged(d, j), k.0, j.specs[k.0], env, now).value.dropped
  {
    if SameShape(d.rows, j.specs) {
      var rebound := RebindRows(Rejudged(d, j), j.specs, env, now, |j.specs|).value;
      assert RebindRow(Rejudged(d, j), k.0, j.specs[k.0], env, now) == Ok(rebound[k.0]);
    }
  }

  lemma KeptHash(row: Row, have: nat, spec: Spec, c: Context, env: Setting, i: nat, now: Instant)
    requires row.kind == QuorumKind && row.detail.QuorumDetail? && Worded(row.detail) && spec.QuorumSpec? && RebindQuorum(row, have, spec, c, env, i, now).Ok?
    requires !RebindQuorum(row, have, spec, c, env, i, now).value.dropped
    ensures var r := RebindQuorum(row, have, spec, c, env, i, now).value.row.detail; r.QuorumDetail? && r.hash == row.detail.hash && r.terms == row.detail.terms
  {
  }

  lemma LeftVoteIsBound(d: Decision, j: Judgment, env: Setting, now: Instant, k: (nat, string))
    requires Bound(d) && AllSane(d) && j.Kept? && Revaluate(d, j, env, now).Ok? && k in Revaluate(d, j, env, now).value.approvals
    ensures VoteBound(Revaluate(d, j, env, now).value, k) && AsksQuorum(j.specs)
  {
    ApprovalsOnlyShrink(d, j, env, now);
    assert VoteBound(d, k);
    var i := k.0;
    LeftVote(d, j, env, now, k);
    RevaluatedFrame(d, j, env, now);
    RevaluatedRow(d, j, env, now, i);
    assert j.specs[i].QuorumSpec? && Sane(d.rows[i], d.expiresAt);
    KeptHash(d.rows[i], Have(Rejudged(d, j), i), j.specs[i], Rejudged(d, j).context, env, i, now);
  }

  lemma RevaluatedBoundExactly(d: Decision, j: Judgment, env: Setting, now: Instant)
    requires Bound(d) && AllSane(d) && j.Kept? && Revaluate(d, j, env, now).Ok?
    ensures Bound(Revaluate(d, j, env, now).value) <==> (AsksQuorum(j.specs) ==> Storable(Rejudged(d, j).context))
  {
    var e, c := Revaluate(d, j, env, now).value, Rejudged(d, j).context;
    RevaluatedFrame(d, j, env, now);
    forall i | 0 <= i < |e.rows|
      ensures j.specs[i].QuorumSpec? <==> e.rows[i].kind == QuorumKind
      ensures RowBound(e.rows[i], e.context) <==> (e.rows[i].kind == QuorumKind ==> Storable(c))
    {
      RevaluatedHash(d, j, env, now, i);
    }
    forall k | k in e.approvals ensures VoteBound(e, k) && AsksQuorum(j.specs) { LeftVoteIsBound(d, j, env, now, k); }
  }

  // ---- every run ----

  lemma StepBoundExactly(w: World, ev: Event, id: string)
    requires Steady(w) && BoundAt(w, id)
    ensures BoundAfter(w, ev, id) <==> InTerms(w, ev, id)
  {
    if id !in w.decisions {
      if id in Step(w, ev).decisions { NewIsOpened(w, ev, id); }
      if OpensIt(w, ev, id) { OpenedBoundExactly(ev.proposal, ev.dep, ev.draws, ev.now); }
    } else {
      StepMakes(w, ev, id);
      KnownBoundExactly(w, ev, id, Step(w, ev).decisions[id]);
    }
  }

  lemma KnownBoundExactly(w: World, ev: Event, id: string, e: Decision)
    requires Steady(w) && id in w.decisions && Bound(w.decisions[id]) && e == Made(w, ev, id)
    requires Reaches(w, ev, id) ==> Revaluate(w.decisions[id], ev.judge(w.decisions[id].context), ev.envs(id), ev.now) == Ok(e)
    ensures Bound(e) && (!Reaches(w, ev, id) ==> SameTerms(w.decisions[id], e)) <==> InTerms(w, ev, id)
  {
    var d := w.decisions[id];
    assert AllSane(d);
    if WorksOn(w, ev, id) {
      WrittenBoundExactly(d, w.jobs[ev.n]);
    } else if Reaches(w, ev, id) {
      var j := ev.judge(d.context);
      if j.Kept? { RevaluatedBoundExactly(d, j, ev.envs(id), ev.now); } else { ClosingBinds(d, e); }
    } else {
      ClosingBinds(d, e);
    }
  }

  ghost predicate StaysBound(events: seq<Event>, id: string) {
    forall m :: 0 <= m < |events| ==> BoundAfter(Run(EMPTY, events[..m]), events[m], id)
  }

  lemma {:induction false} BoundUpTo(events: seq<Event>, id: string, m: nat)
    requires m <= |events| && (AllInTerms(events, id) || StaysBound(events, id))
    ensures BoundAt(Run(EMPTY, events[..m]), id)
  {
    if m > 0 {
      BoundUpTo(events, id, m - 1);
      EveryRunIsSteady(events[..m - 1]);
      assert InTerms(Run(EMPTY, events[..m - 1]), events[m - 1], id) || BoundAfter(Run(EMPTY, events[..m - 1]), events[m - 1], id);
      StepBoundExactly(Run(EMPTY, events[..m - 1]), events[m - 1], id);
      PrefixSteps(EMPTY, events, m - 1);
    }
  }

  /** In every run, for one decision: every approval is bound after every event, and only
      revisions of the decision change the terms in force, exactly when every write to it
      found the terms it was read under and all content hashed for it comes back from its
      row. Votes, passes and sweeps may interleave as they like. */
  lemma ApprovalsStayBound(events: seq<Event>, id: string)
    ensures StaysBound(events, id) <==> AllInTerms(events, id)
  {
    forall m | 0 <= m < |events| && (AllInTerms(events, id) || StaysBound(events, id))
      ensures BoundAfter(Run(EMPTY, events[..m]), events[m], id) <==> InTerms(Run(EMPTY, events[..m]), events[m], id)
    {
      BoundUpTo(events, id, m);
      EveryRunIsSteady(events[..m]);
      StepBoundExactly(Run(EMPTY, events[..m]), events[m], id);
    }
  }

  /** What that says of the decision as it stands. */
  lemma ApprovalsAreBound(events: seq<Event>, id: string)
    requires AllInTerms(events, id) && id in Run(EMPTY, events).decisions
    ensures var d := Run(EMPTY, events).decisions[id];
            && (forall i :: 0 <= i < |d.rows| && d.rows[i].kind == QuorumKind ==>
                 d.rows[i].detail.QuorumDetail? && d.rows[i].detail.hash == Some(BindingHash(d.context, d.rows[i].detail.terms)))
            && forall k :: k in d.approvals ==>
                 && k.0 < |d.rows| && d.rows[k.0].kind == QuorumKind && d.rows[k.0].detail.QuorumDetail?
                 && var terms := d.rows[k.0].detail.terms;
                    d.approvals[k] == BindingHash(d.context, terms) && (!terms.ClaimTerms? ==> k.1 in terms.members)
  {
    BoundUpTo(events, id, |events|);
    assert events[..|events|] == events;
    var d := Run(EMPTY, events).decisions[id];
    forall k | k in d.approvals ensures VoteBound(d, k) && RowBound(d.rows[k.0], d.context) {}
    forall i | 0 <= i < |d.rows| ensures RowBound(d.rows[i], d.context) {}
  }

  // ---- a decision and its rows read apart ----

  /** A submission that read its decision and, before or after a revision, its rows: if the
      handler takes it, it takes it as it would from the rows' own decision, and a vote
      only where both carry the same content. */
  lemma ReadApartIsReadWhole(d: Decision, e: Decision, i: nat, dep: Deployment, s: Subject, p: Payload, now: Instant)
    requires Bound(e) && d.context.id == e.context.id && d.expiresAt == e.expiresAt
    requires Accepted(d.(rows := e.rows), i, dep, s, p, now).Ok?
    ensures Accepted(e.(state := Open), i, dep, s, p, now) == Accepted(d.(rows := e.rows), i, dep, s, p, now)
    ensures Accepted(d.(rows := e.rows), i, dep, s, p, now).value.Voting? ==> d.context == e.context
  {
    assert RowBound(e.rows[i], e.context);
  }

  // ---- content the row does not give back ----

  /** A detail hashed over other content than the decision's. */
  ghost predicate Alien(detail: Detail, c: Context) {
    detail.QuorumDetail? ==> detail.hash.Some? && detail.hash.value.context == c
  }

  ghost predicate AllAlien(d: Decision, c: Context) {
    d.context == StoredContext(c) && forall i :: 0 <= i < |d.rows| ==> Alien(d.rows[i].detail, c)
  }

  ghost predicate JobAlien(j: Job, c: Context) {
    AllAlien(j.copy, c) && !j.phase.Voting? && !j.phase.Counting? && (j.phase.Marking? ==> !j.phase.detail.QuorumDetail?)
  }

  ghost predicate AlienAt(w: World, id: string, c: Context) {
    && id in w.decisions && AllAlien(w.decisions[id], c) && w.decisions[id].approvals == map[]
    && forall n :: n in w.jobs && w.jobs[n].id == id ==> JobAlien(w.jobs[n], c)
  }

  lemma WrittenIsAlien(d: Decision, j: Job, c: Context)
    requires AllAlien(d, c) && JobAlien(j, c)
    ensures AllAlien(Written(d, j), c) && Written(d, j).approvals == d.approvals
  {
    var e := Written(d, j);
    forall i | 0 <= i < |e.rows| ensures Alien(e.rows[i].detail, c) {
      assert Alien(d.rows[i].detail, c);
      if j.phase.Storing? && j.phase.k < |j.copy.rows| { assert Alien(j.copy.rows[j.phase.k].detail, c); }
    }
  }

  lemma NextIsAlien(d: Decision, j: Job, c: Context)
    requires JobAlien(j, c)
    ensures JobAlien(NextJob(d, j), c)
  {
    WrittenIsAlien(j.copy, j, c);
  }

  lemma AcceptedIsAlien(d: Decision, i: nat, dep: Deployment, s: Subject, p: Payload, now: Instant, id: string, stamp: nat, c: Context)
    requires AllAlien(d, c) && !Storable(c) && Accepted(d, i, dep, s, p, now).Ok?
    ensures JobAlien(Job(id, now, d, stamp, Accepted(d, i, dep, s, p, now).value), c)
  {
    assert Alien(d.rows[i].detail, c);
  }

  lemma JobStaysAlien(w: World, ev: Event, id: string, n: nat, j: Job, c: Context)
    requires Tracked(w) && AlienAt(w, id, c) && !Storable(c) && Starts(w, ev, n, j) && j.id == id
    ensures JobAlien(j, c)
  {
    if n in w.jobs && j == w.jobs[n] {
    } else if Continues(w, ev, n, j) {
      NextIsAlien(w.decisions[id], w.jobs[n], c);
    } else {
      FreshCopies(w, ev, n, j);
      if Begun(w, ev, n, j) { AcceptedIsAlien(w.decisions[id], ev.ordinal, ev.dep, ev.caller, ev.payload, ev.now, id, Stamp(w, id), c); }
    }
  }

  lemma StepStaysAlien(w: World, ev: Event, id: string, c: Context)
    requires Tracked(w) && AlienAt(w, id, c) && !Storable(c) && !Reaches(w, ev, id)
    ensures AlienAt(Step(w, ev), id, c)
  {
    var v := Step(w, ev);
    StepMakes(w, ev, id);
    if WorksOn(w, ev, id) { WrittenIsAlien(w.decisions[id], w.jobs[ev.n], c); }
    forall n | n in v.jobs && v.jobs[n].id == id ensures JobAlien(v.jobs[n], c) {
      StepStarts(w, ev, n);
      JobStaysAlien(w, ev, id, n, v.jobs[n], c);
    }
  }

  ghost predicate Unreached(w: World, events: seq<Event>, id: string) {
    forall m :: 0 <= m < |events| ==> !Reaches(Run(w, events[..m]), events[m], id)
  }

  lemma {:induction false} AlienUpTo(w: World, events: seq<Event>, id: string, c: Context, m: nat)
    requires Tracked(w) && AlienAt(w, id, c) && !Storable(c) && Unreached(w, events, id) && m <= |events|
    ensures AlienAt(Run(w, events[..m]), id, c)
  {
    if m > 0 {
      AlienUpTo(w, events, id, c, m - 1);
      RunTracks(w, events[..m - 1]);
      assert !Reaches(Run(w, events[..m - 1]), events[m - 1], id);
      StepStaysAlien(Run(w, events[..m - 1]), events[m - 1], id, c);
      PrefixSteps(w, events, m - 1);
    }
  }

  lemma OpenedIsAlien(w: World, opening: Event)
    requires Tracked(w) && opening.Opens? && OpensIt(w, opening, opening.proposal.context.id)
    ensures AlienAt(Step(w, opening), opening.proposal.context.id, opening.proposal.context)
  {
    var p, v := opening.proposal, Step(w, opening);
    OpenRowsAreFresh(p.specs, p.context, opening.dep, opening.draws, opening.now, p.expiresAt);
    var d := v.decisions[p.context.id];
    forall i | 0 <= i < |d.rows| ensures Alien(d.rows[i].detail, p.context) { assert Fresh(d.rows[i], p.context); }
    forall n | n in v.jobs ensures v.jobs[n].id != p.context.id { assert JobDated(w, w.jobs[n]); }
  }

  /** A decision whose content does not come back from its row takes no approval until a
      revision reaches it: through whatever else happens it has none, and the approval
      of every target is refused as bound to other material. */
  lemma UnstorableWaitsForARevision(before: seq<Event>, opening: Event, after: seq<Event>)
    requires opening.Opens? && OpensIt(Run(EMPTY, before), opening, opening.proposal.context.id) && !Storable(opening.proposal.context)
    requires Unreached(Step(Run(EMPTY, before), opening), after, opening.proposal.context.id)
    ensures var id, v := opening.proposal.context.id, Run(Step(Run(EMPTY, before), opening), after);
            && id in v.decisions && v.decisions[id].approvals == map[]
            && forall i, s, echo :: 0 <= i < |v.decisions[id].rows| && v.decisions[id].rows[i].detail.QuorumDetail? && IsTarget(v.decisions[id].rows[i].detail.terms, s) ==>
                 Approve(v.decisions[id].rows[i].detail, v.decisions[id].context, s, Approval(echo)) == Err(BindingChanged)
  {
    var w, id, c := Run(EMPTY, before), opening.proposal.context.id, opening.proposal.context;
    RunTracks(EMPTY, before);
    StepTracks(w, opening);
    OpenedIsAlien(w, opening);
    AlienUpTo(Step(w, opening), after, id, c, |after|);
    assert after[..|after|] == after;
    var d := Run(Step(w, opening), after).decisions[id];
    forall i, s, echo | 0 <= i < |d.rows| && d.rows[i].detail.QuorumDetail? && IsTarget(d.rows[i].detail.terms, s)
      ensures Approve(d.rows[i].detail, d.context, s, Approval(echo)) == Err(BindingChanged)
    {
      assert Alien(d.rows[i].detail, c);
    }
  }

  /** A revision hashes every quorum anew, whatever was there: from then on the approval of
      a target is taken exactly when the content the revision wrote comes back from its
      row. */
  lemma RevisionTakesApprovalsExactly(d: Decision, j: Judgment, env: Setting, now: Instant, i: nat, s: Subject)
    requires j.Kept? && Revaluate(d, j, env, now).Ok? && i < |Revaluate(d, j, env, now).value.rows|
    requires var row := Revaluate(d, j, env, now).value.rows[i]; row.detail.QuorumDetail? && IsTarget(row.detail.terms, s)
    ensures var e := Revaluate(d, j, env, now).value; Approve(e.rows[i].detail, e.context, s, Approval(None)).Ok? <==> Storable(Rejudged(d, j).context)
  {
    RevaluatedHash(d, j, env, now, i);
    RevaluatedFrame(d, j, env, now);
  }
}
