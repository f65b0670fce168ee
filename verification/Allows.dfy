/** Who allows a decision, and on what: in every run, the pass or the revision that wrote
    the allow, and the event of the run behind every challenge it found satisfied. */
module Allows {
  import opened Basics
  import opened Approvers
  import opened Policy
  import opened Challenges
  import opened Decisions
  import opened Revision
  import opened Soundness
  import opened Settling
  import opened Runs
  import opened Always
  import opened Binding
  import opened Kinds
  import opened Witnesses

  // ---- a quorum that was reached ----

  /** At some point of the run the store held enough votes at the ordinal, by distinct
      approvers; and with `inTerms`, each of them under the hash of this detail. */
  ghost predicate ReachedAt(events: seq<Event>, m: nat, id: string, i: nat, detail: Detail, inTerms: bool) {
    && m <= |events| && detail.QuorumDetail?
    && var w := Run(EMPTY, events[..m]);
       && id in w.decisions
       && Enough(w.decisions[id], i, detail, inTerms)
  }

  ghost predicate Enough(d: Decision, i: nat, detail: Detail, inTerms: bool)
    requires detail.QuorumDetail?
  {
    && Have(d, i) >= detail.threshold
    && (inTerms ==> forall k :: k in Voters(d.approvals, i) ==> k in d.approvals && detail.hash == Some(d.approvals[k]))
  }

  ghost predicate Reached(events: seq<Event>, id: string, i: nat, detail: Detail, inTerms: bool) {
    exists m: nat :: ReachedAt(events, m, id, i, detail, inTerms)
  }

  ghost predicate Backed(events: seq<Event>, id: string, i: nat, state: Progress, detail: Detail, inTerms: bool) {
    state == Satisfied && detail.QuorumDetail? ==> Reached(events, id, i, detail, inTerms)
  }

  ghost predicate AllBacked(events: seq<Event>, id: string, d: Decision, inTerms: bool) {
    forall i :: 0 <= i < |d.rows| ==> Backed(events, id, i, d.rows[i].state, d.rows[i].detail, inTerms)
  }

  ghost predicate JobBacked(events: seq<Event>, j: Job, inTerms: bool) {
    && AllBacked(events, j.id, j.copy, inTerms)
    && match j.phase
       case Marking(i, state, detail, _) => Backed(events, j.id, i, state, detail, inTerms)
       case Storing(k, state, _, _, _) => k < |j.copy.rows| ==> Backed(events, j.id, k, state, j.copy.rows[k].detail, inTerms)
       case _ => true
  }

  ghost predicate BackedAt(events: seq<Event>, w: World, id: string, inTerms: bool) {
    && (id in w.decisions ==> AllBacked(events, id, w.decisions[id], inTerms))
    && (forall n :: n in w.jobs && w.jobs[n].id == id ==> JobBacked(events, w.jobs[n], inTerms))
  }

  // ---- the condition on counting ----

  /** Votes are counted at a row that carries the hash of the copy they are counted for. */
  predicate CountInTerms(d: Decision, j: Job) {
    match j.phase
    case Counting(i) => i < |j.copy.rows| && j.copy.rows[i].detail.QuorumDetail? ==> RowInTerms(d, i, j.copy.rows[i].detail)
    case Scanning(k, _, _) =>
      k < |j.copy.rows| && j.copy.rows[k].state == Pending && j.copy.rows[k].detail.QuorumDetail? ==> RowInTerms(d, k, j.copy.rows[k].detail)
    case _ => true
  }

  ghost predicate CountsInTerms(events: seq<Event>, id: string) {
    forall m :: 0 <= m < |events| ==> StepCountsInTerms(Run(EMPTY, events[..m]), events[m], id)
  }

  ghost predicate StepCountsInTerms(w: World, ev: Event, id: string) {
    WorksOn(w, ev, id) && id in w.decisions ==> CountInTerms(w.decisions[id], w.jobs[ev.n])
  }

  // ---- it stays reached ----

  lemma ReachedStays(events: seq<Event>, ev: Event, id: string, i: nat, detail: Detail, inTerms: bool)
    requires Reached(events, id, i, detail, inTerms)
    ensures Reached(events + [ev], id, i, detail, inTerms)
  {
    var m: nat :| ReachedAt(events, m, id, i, detail, inTerms);
    assert (events + [ev])[..m] == events[..m];
    assert ReachedAt(events + [ev], m, id, i, detail, inTerms);
  }

  lemma AllStayBacked(events: seq<Event>, ev: Event, id: string, d: Decision, inTerms: bool)
    requires AllBacked(events, id, d, inTerms)
    ensures AllBacked(events + [ev], id, d, inTerms)
  {
    forall i | 0 <= i < |d.rows| && d.rows[i].state == Satisfied && d.rows[i].detail.QuorumDetail?
      ensures Reached(events + [ev], id, i, d.rows[i].detail, inTerms)
    {
      assert Backed(events, id, i, d.rows[i].state, d.rows[i].detail, inTerms);
      ReachedStays(events, ev, id, i, d.rows[i].detail, inTerms);
    }
  }

  lemma JobStaysBacked(events: seq<Event>, ev: Event, j: Job, inTerms: bool)
    requires JobBacked(events, j, inTerms)
    ensures JobBacked(events + [ev], j, inTerms)
  {
    AllStayBacked(events, ev, j.id, j.copy, inTerms);
    match j.phase
    case Marking(i, state, detail, _) =>
      if state == Satisfied && detail.QuorumDetail? { ReachedStays(events, ev, j.id, i, detail, inTerms); }
    case Storing(k, state, _, _, _) =>
      if k < |j.copy.rows| && state == Satisfied && j.copy.rows[k].detail.QuorumDetail? { ReachedStays(events, ev, j.id, k, j.copy.rows[k].detail, inTerms); }
    case _ =>
  }

  // ---- counts and writes ----

  /** On a bound decision a count that reaches the threshold is of votes under the
      detail's own hash exactly when the row counted at carries it. */
  lemma CountIsInTermsExactly(d: Decision, i: nat, detail: Detail)
    requires Bound(d) && detail.QuorumDetail? && Have(d, i) >= detail.threshold >= 1
    ensures Enough(d, i, detail, true) <==> RowInTerms(d, i, detail)
  {
    if RowInTerms(d, i, detail) { VotesCarryTheHash(d, i, detail); }
    var k :| k in Voters(d.approvals, i);
    assert VoteBound(d, k);
  }

  lemma VotesCarryTheHash(d: Decision, i: nat, detail: Detail)
    requires Bound(d) && detail.QuorumDetail? && RowInTerms(d, i, detail)
    ensures forall k :: k in Voters(d.approvals, i) ==> k in d.approvals && detail.hash == Some(d.approvals[k])
  {
    forall k | k in Voters(d.approvals, i) ensures k in d.approvals && detail.hash == Some(d.approvals[k]) { assert VoteBound(d, k); }
  }

  /** The count of an operation, at the store as it is. */
  lemma CountReaches(events: seq<Event>, d: Decision, id: string, i: nat, detail: Detail, inTerms: bool)
    requires id in Run(EMPTY, events).decisions && d == Run(EMPTY, events).decisions[id] && detail.QuorumDetail? && Have(d, i) >= detail.threshold
    requires inTerms ==> Bound(d) && RowInTerms(d, i, detail)
    ensures Reached(events, id, i, detail, inTerms)
  {
    if inTerms { VotesCarryTheHash(d, i, detail); }
    assert events[..|events|] == events;
    assert ReachedAt(events, |events|, id, i, detail, inTerms);
  }

  lemma WriteIsBacked(evs: seq<Event>, id: string, d: Decision, i: nat, state: Progress, detail: Detail, evidence: Evidence, inTerms: bool)
    requires AllBacked(evs, id, d, inTerms) && Backed(evs, id, i, state, detail, inTerms)
    ensures AllBacked(evs, id, WriteRow(d, i, state, detail, evidence), inTerms)
  {
    var e := WriteRow(d, i, state, detail, evidence);
    forall x | 0 <= x < |e.rows| ensures Backed(evs, id, x, e.rows[x].state, e.rows[x].detail, inTerms) {
      assert Backed(evs, id, x, d.rows[x].state, d.rows[x].detail, inTerms);
    }
  }

  lemma WrittenIsBacked(evs: seq<Event>, d: Decision, j: Job, inTerms: bool)
    requires AllBacked(evs, j.id, d, inTerms) && JobBacked(evs, j, inTerms)
    ensures AllBacked(evs, j.id, Written(d, j), inTerms)
  {
    match j.phase
    case Marking(i, state, detail, evidence) => WriteIsBacked(evs, j.id, d, i, state, detail, evidence, inTerms);
    case Storing(k, state, evidence, _, _) =>
      if k < |j.copy.rows| { WriteIsBacked(evs, j.id, d, k, state, j.copy.rows[k].detail, evidence, inTerms); }
    case _ =>
  }

  lemma NextIsBacked(events: seq<Event>, d: Decision, j: Job, inTerms: bool)
    requires j.id in Run(EMPTY, events).decisions && d == Run(EMPTY, events).decisions[j.id] && JobBacked(events, j, inTerms)
    requires inTerms ==> Bound(d) && CountInTerms(d, j)
    ensures JobBacked(events, NextJob(d, j), inTerms)
  {
    WrittenIsBacked(events, j.copy, j, inTerms);
    match j.phase
    case Counting(i) =>
      if i < |j.copy.rows| && j.copy.rows[i].detail.QuorumDetail? && Have(d, i) >= j.copy.rows[i].detail.threshold {
        CountReaches(events, d, j.id, i, j.copy.rows[i].detail, inTerms);
      }
    case Scanning(k, _, _) =>
      if k < |j.copy.rows| && j.copy.rows[k].state == Pending && j.copy.rows[k].detail.QuorumDetail? && Have(d, k) >= j.copy.rows[k].detail.threshold {
        CountReaches(events, d, j.id, k, j.copy.rows[k].detail, inTerms);
      }
    case _ =>
  }

  // ---- revisions ----

  lemma RebindReaches(row: Row, have: nat, spec: Spec, c: Context, env: Setting, i: nat, now: Instant)
    requires row.kind == QuorumKind && spec.QuorumSpec? && RebindQuorum(row, have, spec, c, env, i, now).Ok?
    requires RebindQuorum(row, have, spec, c, env, i, now).value.row.state == Satisfied
    ensures var r := RebindQuorum(row, have, spec, c, env, i, now).value.row;
            r == row || (row.detail.QuorumDetail? && r.detail.QuorumDetail? && r.detail.hash == row.detail.hash && have >= r.detail.threshold)
  {
  }

  lemma {:induction false} ReopenedAreUnmet(specs: seq<Spec>, d: Decision, env: Setting, now: Instant)
    requires ReopenRows(specs, d, env, now).Ok?
    ensures forall i :: 0 <= i < |specs| ==> ReopenRows(specs, d, env, now).value[i].state != Satisfied
  {
    if specs != [] { ReopenedAreUnmet(specs[..|specs| - 1], d, env, now); }
  }

  lemma RevaluatedRowIsBacked(events: seq<Event>, id: string, d: Decision, j: Judgment, env: Setting, now: Instant, i: nat, inTerms: bool)
    requires id in Run(EMPTY, events).decisions && d == Run(EMPTY, events).decisions[id] && AllBacked(events, id, d, inTerms) && (inTerms ==> Bound(d))
    requires j.Kept? && Revaluate(d, j, env, now).Ok? && i < |Revaluate(d, j, env, now).value.rows|
    ensures var row := Revaluate(d, j, env, now).value.rows[i]; Backed(events, id, i, row.state, row.detail, inTerms)
  {
    var r, row := Rejudged(d, j), Revaluate(d, j, env, now).value.rows[i];
    RevaluatedRow(d, j, env, now, i);
    if SameShape(d.rows, j.specs) {
      assert Backed(events, id, i, d.rows[i].state, d.rows[i].detail, inTerms);
      if j.specs[i].QuorumSpec? && row.state == Satisfied {
        RebindReaches(d.rows[i], Have(r, i), j.specs[i], r.context, env, i, now);
        if row != d.rows[i] { CountReaches(events, d, id, i, row.detail, inTerms); }
      } else if j.specs[i].QuorumSpec? {
      } else {
        ReboundHash(r, i, j.specs[i], env, now);
      }
    } else {
      ReopenedAreUnmet(j.specs, r, env, now);
    }
  }

  // ---- every run ----

  lemma {:induction false} OpenedAreUnmet(specs: seq<Spec>, c: Context, dep: Deployment, draws: nat -> Draw, now: Instant, expiresAt: Instant)
    requires OpenRows(specs, c, dep, draws, now, expiresAt).Ok? && OpenRows(specs, c, dep, draws, now, expiresAt).value.Opened?
    ensures var rows := OpenRows(specs, c, dep, draws, now, expiresAt).value.rows; forall i :: 0 <= i < |rows| ==> rows[i].state == Pending
  {
    if specs != [] { OpenedAreUnmet(specs[..|specs| - 1], c, dep, draws, now, expiresAt); }
  }

  lemma DecisionIsBacked(events: seq<Event>, w: World, ev: Event, id: string, inTerms: bool)
    requires w == Run(EMPTY, events) && BackedAt(events, w, id, inTerms) && id in Step(w, ev).decisions && (inTerms ==> BoundAt(w, id))
    ensures AllBacked(events, id, Step(w, ev).decisions[id], inTerms)
  {
    if id !in w.decisions {
      NewIsOpened(w, ev, id);
      OpenedAreUnmet(ev.proposal.specs, ev.proposal.context, ev.dep, ev.draws, ev.now, ev.proposal.expiresAt);
    } else {
      StepMakes(w, ev, id);
      KnownIsBacked(events, w, ev, id, Step(w, ev).decisions[id], inTerms);
    }
  }

  lemma KnownIsBacked(events: seq<Event>, w: World, ev: Event, id: string, e: Decision, inTerms: bool)
    requires w == Run(EMPTY, events) && BackedAt(events, w, id, inTerms) && id in w.decisions && (inTerms ==> BoundAt(w, id)) && e == Made(w, ev, id)
    requires Reaches(w, ev, id) ==> Revaluate(w.decisions[id], ev.judge(w.decisions[id].context), ev.envs(id), ev.now) == Ok(e)
    ensures AllBacked(events, id, e, inTerms)
  {
    var d := w.decisions[id];
    if WorksOn(w, ev, id) {
      WrittenIsBacked(events, d, w.jobs[ev.n], inTerms);
    } else if Reaches(w, ev, id) && ev.judge(d.context).Kept? {
      forall i | 0 <= i < |e.rows| ensures Backed(events, id, i, e.rows[i].state, e.rows[i].detail, inTerms) {
        RevaluatedRowIsBacked(events, id, d, ev.judge(d.context), ev.envs(id), ev.now, i, inTerms);
      }
    }
  }

  lemma JobIsBacked(events: seq<Event>, w: World, ev: Event, id: string, n: nat, j: Job, inTerms: bool)
    requires w == Run(EMPTY, events) && Steady(w) && BackedAt(events, w, id, inTerms) && Starts(w, ev, n, j) && j.id == id
    requires inTerms ==> BoundAt(w, id) && StepCountsInTerms(w, ev, id)
    ensures JobBacked(events, j, inTerms)
  {
    if n in w.jobs && j == w.jobs[n] {
    } else if Continues(w, ev, n, j) {
      NextIsBacked(events, w.decisions[id], w.jobs[n], inTerms);
    } else {
      FreshIsBacked(events, w, ev, id, n, j, inTerms);
    }
  }

  lemma FreshIsBacked(events: seq<Event>, w: World, ev: Event, id: string, n: nat, j: Job, inTerms: bool)
    requires Tracked(w) && BackedAt(events, w, id, inTerms) && (Begun(w, ev, n, j) || Begins(w, ev, n, j)) && j.id == id
    ensures JobBacked(events, j, inTerms)
  {
    FreshCopies(w, ev, n, j);
    if Begun(w, ev, n, j) { AcceptedIsUnmet(w.decisions[id], ev.ordinal, ev.dep, ev.caller, ev.payload, ev.now); }
  }

  /** No submission satisfies a quorum before it has counted. */
  lemma AcceptedIsUnmet(d: Decision, i: nat, dep: Deployment, s: Subject, p: Payload, now: Instant)
    requires Accepted(d, i, dep, s, p, now).Ok?
    ensures var phase := Accepted(d, i, dep, s, p, now).value; phase.Marking? ==> !phase.detail.QuorumDetail?
  {
  }

  lemma StepIsBacked(events: seq<Event>, ev: Event, id: string, inTerms: bool)
    requires BackedAt(events, Run(EMPTY, events), id, inTerms)
    requires inTerms ==> BoundAt(Run(EMPTY, events), id) && StepCountsInTerms(Run(EMPTY, events), ev, id)
    ensures BackedAt(events + [ev], Step(Run(EMPTY, events), ev), id, inTerms)
  {
    EveryRunIsSteady(events);
    var w := Run(EMPTY, events);
    var v := Step(w, ev);
    if id in v.decisions {
      DecisionIsBacked(events, w, ev, id, inTerms);
      AllStayBacked(events, ev, id, v.decisions[id], inTerms);
    }
    forall n | n in v.jobs && v.jobs[n].id == id ensures JobBacked(events + [ev], v.jobs[n], inTerms) {
      StepStarts(w, ev, n);
      JobIsBacked(events, w, ev, id, n, v.jobs[n], inTerms);
      JobStaysBacked(events, ev, v.jobs[n], inTerms);
    }
  }

  lemma OneMoreIsBacked(events: seq<Event>, ev: Event, id: string, inTerms: bool)
    requires BackedAt(events, Run(EMPTY, events), id, inTerms)
    requires inTerms ==> BoundAt(Run(EMPTY, events), id) && StepCountsInTerms(Run(EMPTY, events), ev, id)
    ensures BackedAt(events + [ev], Run(EMPTY, events + [ev]), id, inTerms)
  {
    StepIsBacked(events, ev, id, inTerms);
    StepIsNext(events, ev);
  }

  lemma NextIsBackedToo(events: seq<Event>, id: string, m: nat, inTerms: bool)
    requires m < |events| && BackedAt(events[..m], Run(EMPTY, events[..m]), id, inTerms)
    requires inTerms ==> BoundAt(Run(EMPTY, events[..m]), id) && StepCountsInTerms(Run(EMPTY, events[..m]), events[m], id)
    ensures BackedAt(events[..m + 1], Run(EMPTY, events[..m + 1]), id, inTerms)
  {
    OneMoreIsBacked(events[..m], events[m], id, inTerms);
    assert events[..m] + [events[m]] == events[..m + 1];
  }

  lemma InTermsSoFar(events: seq<Event>, id: string, m: nat)
    requires m < |events| && AllInTerms(events, id) && CountsInTerms(events, id)
    ensures BoundAt(Run(EMPTY, events[..m]), id) && StepCountsInTerms(Run(EMPTY, events[..m]), events[m], id)
  {
    BoundUpTo(events, id, m);
  }

  lemma {:induction false} RunIsBacked(events: seq<Event>, id: string, m: nat, inTerms: bool)
    requires m <= |events| && (inTerms ==> AllInTerms(events, id) && CountsInTerms(events, id))
    ensures BackedAt(events[..m], Run(EMPTY, events[..m]), id, inTerms)
  {
    if m > 0 {
      RunIsBacked(events, id, m - 1, inTerms);
      if inTerms { InTermsSoFar(events, id, m - 1); }
      NextIsBackedToo(events, id, m - 1, inTerms);
    }
  }

  // ---- what a satisfied challenge rests on ----

  /** The votes of a reached quorum, each with the submission that gave it, by somebody
      who was a target of the terms it was given under. */
  ghost predicate WonAt(events: seq<Event>, m: nat, id: string, i: nat, detail: Detail, inTerms: bool) {
    && ReachedAt(events, m, id, i, detail, inTerms)
    && var d := Run(EMPTY, events[..m]).decisions[id];
       forall k :: k in Voters(d.approvals, i) ==> k in d.approvals && Voted(events[..m], id, i, k.1, d.approvals[k])
  }

  ghost predicate Earned(events: seq<Event>, id: string, i: nat, row: Row, inTerms: bool) {
    && row.state == Satisfied
    && match row.detail
       case QuorumDetail(threshold, _, _) => threshold >= 1 && exists m: nat :: WonAt(events, m, id, i, row.detail, inTerms)
       case DelayDetail(_, _, _, _) =>
         row.evidence.Waited? && row.evidence.release <= row.evidence.at && WaitEnded(events, id, i, row.evidence.at, row.evidence.release)
       case ExternalDetail(_, _, _, _, verdict) =>
         verdict == APPROVED && row.evidence.Answered? && Signed(events, id, i, row.detail, row.evidence.at, row.evidence.signature)
       case MfaDetail(_, _, consumedAt) => consumedAt.Some? && Completed(events, id, i, consumedAt.value)
  }

  lemma SatisfiedIsEarned(events: seq<Event>, id: string, i: nat, row: Row, expiresAt: Instant, inTerms: bool)
    requires row.state == Satisfied && Sane(row, expiresAt) && RowWitnessed(events, id, i, row.detail, row.evidence)
    requires Backed(events, id, i, row.state, row.detail, inTerms)
    ensures Earned(events, id, i, row, inTerms)
  {
    if row.detail.QuorumDetail? {
      var m: nat :| ReachedAt(events, m, id, i, row.detail, inTerms);
      EvidenceIsWitnessed(events[..m]);
      var d := Run(EMPTY, events[..m]).decisions[id];
      assert DecisionWitnessed(events[..m], id, d);
      assert WonAt(events, m, id, i, row.detail, inTerms);
    }
  }

  // ---- the log ----

  /** Who wrote a log row: an operation, a revision, or a sweep's expiry. */
  ghost predicate WrittenBy(w: World, ev: Event, entry: Entry) {
    var id := entry.rested.context.id;
    && id in w.decisions && w.decisions[id].state == Open && entry.to == entry.rested.state != Open && entry.rested == Made(w, ev, id)
    && var d := w.decisions[id];
       || (WorksOn(w, ev, id) && entry.at == w.jobs[ev.n].now)
       || (Reaches(w, ev, id) && entry.at == ev.now && Revaluate(d, ev.judge(d.context), ev.envs(id), ev.now) == Ok(entry.rested))
       || entry.to == Expired
  }

  lemma PutLogsOne(w: World, id: string, e: Decision, at: Instant, n: nat)
    requires id in w.decisions && |w.log| <= n < |Put(w, id, e, at).log|
    ensures Put(w, id, e, at).log[n] == Entry(e.state, at, e) && w.decisions[id].state == Open && e.state != Open
  {
  }

  /** The log rows of a revision are of decisions it reached, as it found them. */
  lemma {:induction false} RevisionLogs(w: World, ids: seq<string>, judge: Context -> Judgment, envs: string -> Setting, now: Instant, n: nat)
    requires AllFiled(w) && NoRepeats(ids) && ReviseWorld(w, ids, judge, envs, now).Ok? && |w.log| <= n < |ReviseWorld(w, ids, judge, envs, now).value.log|
    ensures var entry := ReviseWorld(w, ids, judge, envs, now).value.log[n];
            var id := entry.rested.context.id;
            && id in ids && id in w.decisions && w.decisions[id].state == Open && !IsExpired(w.decisions[id], now)
            && entry.to == entry.rested.state != Open && entry.at == now
            && Revaluate(w.decisions[id], judge(w.decisions[id].context), envs(id), now) == Ok(entry.rested)
    decreases |ids|
  {
    if ids != [] {
      var next := ReviseNext(w, ids[0], judge, envs(ids[0]), now).value;
      RevisesOne(w, ids[0], judge, envs(ids[0]), now);
      assert ids == [ids[0]] + ids[1..] && ids[0] !in ids[1..];
      ReviseWorldLog(next, ids[1..], judge, envs, now);
      if n < |next.log| {
        RevisionLogsOne(w, ids[0], judge, envs(ids[0]), now, n);
      } else {
        RevisionLogs(next, ids[1..], judge, envs, now, n);
      }
    }
  }

  lemma RevisesOne(w: World, id: string, judge: Context -> Judgment, env: Setting, now: Instant)
    requires AllFiled(w) && ReviseNext(w, id, judge, env, now).Ok?
    ensures var v := ReviseNext(w, id, judge, env, now).value;
            AllFiled(v) && v.decisions.Keys == w.decisions.Keys && w.log <= v.log && forall x :: x in w.decisions && x != id ==> v.decisions[x] == w.decisions[x]
  {
    if id in w.decisions && w.decisions[id].state == Open && !IsExpired(w.decisions[id], now) {
      var d := w.decisions[id];
      RevaluateIsFiled(d, judge(d.context), env, now);
      RevaluateKeepsDate(d, judge(d.context), env, now);
    }
  }

  lemma RevisionLogsOne(w: World, id: string, judge: Context -> Judgment, env: Setting, now: Instant, n: nat)
    requires AllFiled(w) && ReviseNext(w, id, judge, env, now).Ok? && |w.log| <= n < |ReviseNext(w, id, judge, env, now).value.log|
    ensures var entry := ReviseNext(w, id, judge, env, now).value.log[n];
            && entry.rested.context.id == id && id in w.decisions && w.decisions[id].state == Open && !IsExpired(w.decisions[id], now)
            && entry.to == entry.rested.state != Open && entry.at == now
            && Revaluate(w.decisions[id], judge(w.decisions[id].context), env, now) == Ok(entry.rested)
  {
    var d := w.decisions[id];
    RevaluateKeepsDate(d, judge(d.context), env, now);
    PutLogsOne(w, id, Revaluate(d, judge(d.context), env, now).value, now, n);
  }

  lemma {:induction false} ReviseWorldLog(w: World, ids: seq<string>, judge: Context -> Judgment, envs: string -> Setting, now: Instant)
    requires ReviseWorld(w, ids, judge, envs, now).Ok?
    ensures w.log <= ReviseWorld(w, ids, judge, envs, now).value.log
    decreases |ids|
  {
    if ids != [] { ReviseWorldLog(ReviseNext(w, ids[0], judge, envs(ids[0]), now).value, ids[1..], judge, envs, now); }
  }

  lemma WorkLogs(w: World, n: nat, k: nat)
    requires Tracked(w) && n in w.jobs && w.jobs[n].id in w.decisions && |w.log| <= k < |Work(w, n).log|
    ensures WrittenBy(w, Works(n), Work(w, n).log[k])
  {
    var j := w.jobs[n];
    var d := w.decisions[j.id];
    PutLogsOne(w, j.id, Written(d, j), j.now, k);
    assert JobDated(w, j);
    WrittenShifts(d, j);
  }

  lemma SweepLogs(w: World, n: nat, claim: Claim, k: nat)
    requires Tracked(w) && |w.log| <= k < |Step(w, Sweeps(n, claim)).log|
    ensures WrittenBy(w, Sweeps(n, claim), Step(w, Sweeps(n, claim)).log[k])
  {
    var id := claim.copy.context.id;
    PutLogsOne(w, id, Close(w.decisions[id], Expire), claim.now, k);
  }

  lemma StepLogs(w: World, ev: Event, k: nat)
    requires Tracked(w) && |w.log| <= k < |Step(w, ev).log|
    ensures WrittenBy(w, ev, Step(w, ev).log[k])
  {
    match ev
    case Works(n) => WorkLogs(w, n, k);
    case Sweeps(n, claim) => SweepLogs(w, n, claim, k);
    case Revises(ids, judge, envs, now) => RevisionLogs(w, ids, judge, envs, now, k);
    case _ =>
  }

  /** The event that wrote a log row. */
  lemma {:induction false} WrittenAt(events: seq<Event>, k: nat) returns (m: nat)
    requires k < |Run(EMPTY, events).log|
    ensures m < |events| && WrittenBy(Run(EMPTY, events[..m]), events[m], Run(EMPTY, events).log[k])
    decreases |events|
  {
    var last := |events| - 1;
    var before := events[..last];
    LastLogs(Run(EMPTY, before), Run(EMPTY, events), before, events[last], k);
    if k < |Run(EMPTY, before).log| {
      m := WrittenAt(before, k);
      assert before[..m] == events[..m];
    } else {
      m := last;
    }
  }

  lemma LastLogs(w: World, v: World, before: seq<Event>, ev: Event, k: nat)
    requires w == Run(EMPTY, before) && v == Step(w, ev) && k < |v.log|
    ensures if k < |w.log| then v.log[k] == w.log[k] else WrittenBy(w, ev, v.log[k])
  {
    RunTracks(EMPTY, before);
    StepTracks(w, ev);
    if |w.log| <= k { StepLogs(w, ev, k); }
  }

  // ---- every allow ----

  /** A pass about to resolve as allowed: every row of its copy is counted. */
  predicate Resolves(j: Job) {
    j.phase == Scanning(|j.copy.rows|, |j.copy.rows|, 0)
  }

  /** The pass that wrote it found every challenge of its copy satisfied, by a detail that
      was earned, and of the challenge's own kind where every late write so far found the
      kind it was read under; and where nobody else had written the decision since the
      pass read it, the log row shows that copy. */
  ghost predicate AllowedByPass(events: seq<Event>, m: nat, entry: Entry, inTerms: bool)
    requires m < |events|
  {
    var w, id := Run(EMPTY, events[..m]), entry.rested.context.id;
    && WorksOn(w, events[m], id) && id in w.decisions && entry.rested == Close(w.decisions[id], Satisfy)
    && var j := w.jobs[events[m].n];
       && Resolves(j) && entry.at == j.now
       && (forall i :: 0 <= i < |j.copy.rows| ==> Earned(events[..m], id, i, j.copy.rows[i], inTerms))
       && (AllInKind(events[..m], id) ==> AllOwn(j.copy))
       && (j.stamp == Stamp(w, id) ==> entry.rested.rows == j.copy.rows && entry.rested.approvals == j.copy.approvals)
  }

  /** The revision that wrote it left every challenge satisfied, and earned, by a detail of
      its own kind. */
  ghost predicate AllowedByRevision(events: seq<Event>, m: nat, entry: Entry, inTerms: bool)
    requires m < |events|
  {
    var w, id, e := Run(EMPTY, events[..m]), entry.rested.context.id, entry.rested;
    && Reaches(w, events[m], id) && entry.at == events[m].now
    && Revaluate(w.decisions[id], events[m].judge(w.decisions[id].context), events[m].envs(id), events[m].now) == Ok(e)
    && AllOwn(e) && forall i :: 0 <= i < |e.rows| ==> Earned(events[..m + 1], id, i, e.rows[i], inTerms)
  }

  lemma PassHasCounted(j: Job)
    requires JobSane(j) && Resolves(j)
    ensures forall i :: 0 <= i < |j.copy.rows| ==> j.copy.rows[i].state == Satisfied
  {
    assert j.copy.rows[..|j.copy.rows|] == j.copy.rows;
    TallyIsVerdict(j.copy.rows);
  }

  lemma AllowingResolves(d: Decision, j: Job)
    requires JobSane(j) && d.state == Open && Written(d, j).state == Allowed
    ensures Resolves(j) && Written(d, j) == Close(d, Satisfy)
  {
  }

  lemma PassIsEarned(events: seq<Event>, m: nat, entry: Entry, inTerms: bool)
    requires m < |events| && entry.to == Allowed && WrittenBy(Run(EMPTY, events[..m]), events[m], entry)
    requires WorksOn(Run(EMPTY, events[..m]), events[m], entry.rested.context.id)
    requires inTerms ==> AllInTerms(events, entry.rested.context.id) && CountsInTerms(events, entry.rested.context.id)
    ensures AllowedByPass(events, m, entry, inTerms)
  {
    var w, id := Run(EMPTY, events[..m]), entry.rested.context.id;
    EveryRunIsSteady(events[..m]);
    EvidenceIsWitnessed(events[..m]);
    RunIsBacked(events, id, m, inTerms);
    var j := w.jobs[events[m].n];
    AllowingResolves(w.decisions[id], j);
    PassHasCounted(j);
    CopyIsEarned(events[..m], j, inTerms);
    assert Stamped(w, j);
    if AllInKind(events[..m], id) { CopyIsOwn(events[..m], id, events[m].n); }
  }

  lemma CopyIsOwn(events: seq<Event>, id: string, n: nat)
    requires AllInKind(events, id) && n in Run(EMPTY, events).jobs && Run(EMPTY, events).jobs[n].id == id
    ensures AllOwn(Run(EMPTY, events).jobs[n].copy)
  {
    OwnUpTo(events, id, |events|);
    assert events[..|events|] == events;
  }

  lemma CopyIsEarned(events: seq<Event>, j: Job, inTerms: bool)
    requires JobSane(j) && JobWitnessed(events, j) && JobBacked(events, j, inTerms) && forall i :: 0 <= i < |j.copy.rows| ==> j.copy.rows[i].state == Satisfied
    ensures forall i :: 0 <= i < |j.copy.rows| ==> Earned(events, j.id, i, j.copy.rows[i], inTerms)
  {
    RowsAreEarned(events, j.id, j.copy, inTerms);
  }

  lemma RowsAreEarned(events: seq<Event>, id: string, d: Decision, inTerms: bool)
    requires AllSane(d) && DecisionWitnessed(events, id, d) && AllBacked(events, id, d, inTerms) && forall i :: 0 <= i < |d.rows| ==> d.rows[i].state == Satisfied
    ensures forall i :: 0 <= i < |d.rows| ==> Earned(events, id, i, d.rows[i], inTerms)
  {
    forall i | 0 <= i < |d.rows| ensures Earned(events, id, i, d.rows[i], inTerms) {
      assert Backed(events, id, i, d.rows[i].state, d.rows[i].detail, inTerms);
      SatisfiedIsEarned(events, id, i, d.rows[i], d.expiresAt, inTerms);
    }
  }

  lemma RevisedAllowIsMet(d: Decision, j: Judgment, env: Setting, now: Instant)
    requires d.state == Open && Revaluate(d, j, env, now).Ok? && Revaluate(d, j, env, now).value.state == Allowed
    ensures var e := Revaluate(d, j, env, now).value; AllOwn(e) && forall i :: 0 <= i < |e.rows| ==> e.rows[i].state == Satisfied
  {
    if j.Kept? { RebindKeepsFrame(Rejudged(d, j), j.specs, env, now); }
    RevaluatedIsOwn(d, j, env, now);
  }

  lemma RevisionIsEarned(events: seq<Event>, m: nat, entry: Entry, inTerms: bool)
    requires m < |events| && entry.to == Allowed && WrittenBy(Run(EMPTY, events[..m]), events[m], entry)
    requires !WorksOn(Run(EMPTY, events[..m]), events[m], entry.rested.context.id)
    requires inTerms ==> AllInTerms(events, entry.rested.context.id) && CountsInTerms(events, entry.rested.context.id)
    ensures AllowedByRevision(events, m, entry, inTerms)
  {
    var w, id, ev := Run(EMPTY, events[..m]), entry.rested.context.id, events[m];
    StepMakes(w, ev, id);
    PrefixSteps(EMPTY, events, m);
    var evs := events[..m + 1];
    EveryRunIsSteady(evs);
    EvidenceIsWitnessed(evs);
    RunIsBacked(events, id, m + 1, inTerms);
    RevisedAllowIsMet(w.decisions[id], ev.judge(w.decisions[id].context), ev.envs(id), ev.now);
    RowsAreEarned(evs, id, entry.rested, inTerms);
  }

  ghost predicate AllowedAt(events: seq<Event>, m: nat, entry: Entry, inTerms: bool) {
    m < |events| && (AllowedByPass(events, m, entry, inTerms) || AllowedByRevision(events, m, entry, inTerms))
  }

  lemma AllowIsEarned(events: seq<Event>, n: nat, inTerms: bool) returns (m: nat)
    requires n < |Run(EMPTY, events).log| && Run(EMPTY, events).log[n].to == Allowed
    requires var id := Run(EMPTY, events).log[n].rested.context.id; inTerms ==> AllInTerms(events, id) && CountsInTerms(events, id)
    ensures AllowedAt(events, m, Run(EMPTY, events).log[n], inTerms)
    ensures Run(EMPTY, events).log[n].at < Run(EMPTY, events).log[n].rested.expiresAt
  {
    var entry := Run(EMPTY, events).log[n];
    RunTracks(EMPTY, events);
    assert Logged(Run(EMPTY, events), entry);
    m := WrittenAt(events, n);
    if WorksOn(Run(EMPTY, events[..m]), events[m], entry.rested.context.id) {
      PassIsEarned(events, m, entry, inTerms);
    } else {
      RevisionIsEarned(events, m, entry, inTerms);
    }
  }

  /** In every run, however it interleaves, every allow was written before its decision
      expired, by a pass or a revision that had every challenge satisfied, each by what
      events of the run handed in. */
  lemma EveryAllowIsEarned(events: seq<Event>, n: nat)
    requires n < |Run(EMPTY, events).log| && Run(EMPTY, events).log[n].to == Allowed
    ensures Run(EMPTY, events).log[n].at < Run(EMPTY, events).log[n].rested.expiresAt
    ensures exists m: nat :: AllowedAt(events, m, Run(EMPTY, events).log[n], false)
  {
    var m := AllowIsEarned(events, n, false);
  }

  /** Where every write to that decision, and every count for it, found the terms it was
      read under, the votes behind each quorum were given under the very hash it
      carried. */
  lemma EveryAllowIsInTerms(events: seq<Event>, n: nat)
    requires n < |Run(EMPTY, events).log| && Run(EMPTY, events).log[n].to == Allowed
    requires var id := Run(EMPTY, events).log[n].rested.context.id; AllInTerms(events, id) && CountsInTerms(events, id)
    ensures exists m: nat :: AllowedAt(events, m, Run(EMPTY, events).log[n], true)
  {
    var m := AllowIsEarned(events, n, true);
  }
}
