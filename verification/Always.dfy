/** What every run keeps of every row and of every copy, however stale the copies are
    and however their writes interleave: state, detail and evidence agree, a pass has
    counted its own copy, and an untouched stamp means an untouched decision. */
module Always {
  import opened Basics
  import opened Approvers
  import opened Policy
  import opened Challenges
  import opened Decisions
  import opened Revision
  import opened Soundness
  import opened Settling
  import opened Runs

  // ---- rows ----

  /** A quorum's hash covers the terms beside it. */
  ghost predicate Worded(detail: Detail)
    requires detail.QuorumDetail?
  {
    detail.threshold >= 1 && Hashed(detail.terms) == detail.terms && detail.hash.Some? && detail.hash.value.approvers == detail.terms
  }

  /** A state, and the detail and evidence written with it. */
  ghost predicate Fair(state: Progress, detail: Detail, evidence: Evidence) {
    match detail
    case QuorumDetail(_, _, _) => Worded(detail)
    case DelayDetail(_, _, _, cancelled) =>
      (cancelled.Some? ==> state == Failed) && (state == Satisfied ==> evidence.Waited? && evidence.release <= evidence.at)
    case ExternalDetail(_, _, _, _, verdict) =>
      (state == Pending ==> verdict == "") && (state == Satisfied ==> verdict == APPROVED && evidence.Answered?)
    case MfaDetail(_, _, consumedAt) =>
      (state == Pending ==> consumedAt.None?) && (state == Satisfied ==> consumedAt.Some? && evidence == SteppedUp(consumedAt.value))
  }

  /** A pending wait's timer is the earlier of its release and the expiry. */
  ghost predicate Timed(row: Row, expiresAt: Instant) {
    row.detail.DelayDetail? && row.state == Pending ==> row.deadline == Some(Min(Micros(row.detail.releaseAt), expiresAt))
  }

  /** A pending row that holds another kind's detail holds a quorum's, which no other
      kind's handler can read. */
  ghost predicate Sane(row: Row, expiresAt: Instant) {
    Fair(row.state, row.detail, row.evidence) && Timed(row, expiresAt) && (Stuck(row) ==> row.detail.QuorumDetail?)
  }

  ghost predicate AllSane(d: Decision) {
    Micros(d.expiresAt) == d.expiresAt && forall i :: 0 <= i < |d.rows| ==> Sane(d.rows[i], d.expiresAt)
  }

  // ---- operations under way ----

  /** What an operation may still write: nothing pending but a quorum. */
  ghost predicate MayWrite(state: Progress, detail: Detail, evidence: Evidence) {
    Fair(state, detail, evidence) && (state == Pending ==> detail.QuorumDetail?)
  }

  ghost predicate Tallied(rows: seq<Row>, k: nat, met: nat, lost: nat) {
    k <= |rows| && met == Met(rows[..k]) && lost == Lost(rows[..k])
  }

  ghost predicate PhaseSane(j: Job) {
    match j.phase
    case Voting(_, approver, hash) => !hash.approvers.ClaimTerms? ==> approver in hash.approvers.members
    case Marking(_, state, detail, evidence) =>
      MayWrite(state, detail, evidence) && (detail.DelayDetail? ==> state == Failed && detail.cancelled.Some?)
    case Scanning(k, met, lost) => Tallied(j.copy.rows, k, met, lost)
    case Storing(k, state, evidence, met, lost) =>
      && k < |j.copy.rows| && j.copy.rows[k].state == Pending
      && MayWrite(state, j.copy.rows[k].detail, evidence) && Tallied(j.copy.rows, k, met, lost)
    case _ => true
  }

  ghost predicate JobSane(j: Job) {
    AllSane(j.copy) && PhaseSane(j)
  }

  /** A copy is the decision, or somebody else has changed it since. */
  ghost predicate Stamped(w: World, j: Job) {
    j.id in w.decisions && j.stamp <= Stamp(w, j.id) && (j.stamp == Stamp(w, j.id) ==> j.copy == w.decisions[j.id])
  }

  ghost predicate Steady(w: World) {
    && Tracked(w)
    && (forall id :: id in w.decisions ==> AllSane(w.decisions[id]))
    && (forall n :: n in w.jobs ==> JobSane(w.jobs[n]) && Stamped(w, w.jobs[n]))
  }

  // ---- writes ----

  lemma WriteIsSane(d: Decision, i: nat, state: Progress, detail: Detail, evidence: Evidence)
    requires AllSane(d) && MayWrite(state, detail, evidence)
    ensures AllSane(WriteRow(d, i, state, detail, evidence))
  {
    var e := WriteRow(d, i, state, detail, evidence);
    forall x | 0 <= x < |e.rows| ensures Sane(e.rows[x], e.expiresAt) { assert Sane(d.rows[x], d.expiresAt); }
  }

  lemma WrittenIsSane(d: Decision, j: Job)
    requires AllSane(d) && JobSane(j)
    ensures AllSane(Written(d, j))
  {
    match j.phase
    case Marking(i, state, detail, evidence) => WriteIsSane(d, i, state, detail, evidence);
    case Storing(k, state, evidence, _, _) => WriteIsSane(d, k, state, j.copy.rows[k].detail, evidence);
    case _ =>
  }

  lemma SettledMayBeWritten(row: Row, expiresAt: Instant, have: nat, now: Instant)
    requires Sane(row, expiresAt) && Settled(row, have, now).state != row.state
    ensures var s := Settled(row, have, now); s.state != Pending && MayWrite(s.state, row.detail, s.evidence)
  {
  }

  lemma ScanIsSane(d: Decision, j: Job)
    requires JobSane(j) && j.phase.Scanning? && j.phase.k < |j.copy.rows|
    ensures PhaseSane(NextJob(d, j))
  {
    var k := j.phase.k;
    var row := j.copy.rows[k];
    TallyOneMore(j.copy.rows, k);
    assert Sane(row, j.copy.expiresAt);
    if Settled(row, Have(d, k), j.now).state != row.state { SettledMayBeWritten(row, j.copy.expiresAt, Have(d, k), j.now); }
  }

  lemma StoreIsSane(d: Decision, j: Job)
    requires JobSane(j) && j.phase.Storing?
    ensures PhaseSane(NextJob(d, j))
  {
    var k, e := j.phase.k, Written(j.copy, j);
    assert e.rows[..k] == j.copy.rows[..k];
    TallyOneMore(e.rows, k);
  }

  lemma NextIsSane(d: Decision, j: Job)
    requires JobSane(j)
    ensures JobSane(NextJob(d, j))
  {
    WrittenIsSane(j.copy, j);
    match j.phase
    case Counting(i) => if i < |j.copy.rows| { assert Sane(j.copy.rows[i], j.copy.expiresAt); }
    case Scanning(k, _, _) => if k < |j.copy.rows| { ScanIsSane(d, j); }
    case Storing(_, _, _, _, _) => StoreIsSane(d, j);
    case _ =>
  }

  lemma AcceptedIsSane(d: Decision, i: nat, dep: Deployment, s: Subject, p: Payload, now: Instant, id: string, stamp: nat)
    requires AllSane(d) && Accepted(d, i, dep, s, p, now).Ok?
    ensures JobSane(Job(id, now, d, stamp, Accepted(d, i, dep, s, p, now).value))
  {
    assert Sane(d.rows[i], d.expiresAt);
  }

  lemma StartIsSane(d: Decision, stamp: nat, now: Instant)
    requires AllSane(d)
    ensures JobSane(StartPass(d, stamp, now))
  {
    assert d.rows[..0] == [];
  }

  // ---- openings and revisions ----

  lemma OpenedIsSane(p: Proposal, dep: Deployment, draws: nat -> Draw, now: Instant)
    requires Create(p, dep, draws, now).Ok? && Create(p, dep, draws, now).value.Some?
    ensures AllSane(Create(p, dep, draws, now).value.value)
  {
    OpenRowsAreFresh(p.specs, p.context, dep, draws, now, p.expiresAt);
    var d := Create(p, dep, draws, now).value.value;
    forall i | 0 <= i < |d.rows| ensures Sane(d.rows[i], d.expiresAt) { assert Fresh(d.rows[i], p.context); }
  }

  lemma ReboundIsSane(d: Decision, i: nat, spec: Spec, env: Setting, now: Instant)
    requires i < |d.rows| && d.rows[i].kind == KindOf(spec) && Micros(d.expiresAt) == d.expiresAt && Sane(d.rows[i], d.expiresAt)
    requires RebindRow(d, i, spec, env, now).Ok?
    ensures Sane(RebindRow(d, i, spec, env, now).value.row, d.expiresAt)
  {
  }

  lemma {:induction false} ReopenedAreSane(specs: seq<Spec>, d: Decision, env: Setting, now: Instant)
    requires Micros(d.expiresAt) == d.expiresAt && ReopenRows(specs, d, env, now).Ok?
    ensures forall i :: 0 <= i < |specs| ==> Sane(ReopenRows(specs, d, env, now).value[i], d.expiresAt)
  {
    if specs != [] { ReopenedAreSane(specs[..|specs| - 1], d, env, now); }
  }

  /** The rows of a kept revision, one by one. */
  lemma RevaluatedRow(d: Decision, j: Judgment, env: Setting, now: Instant, i: nat)
    requires j.Kept? && Revaluate(d, j, env, now).Ok? && i < |Revaluate(d, j, env, now).value.rows|
    ensures var e := Revaluate(d, j, env, now).value;
            if SameShape(d.rows, j.specs) then
              |e.rows| == |d.rows| && RebindRow(Rejudged(d, j), i, j.specs[i], env, now).Ok? && e.rows[i] == RebindRow(Rejudged(d, j), i, j.specs[i], env, now).value.row
            else ReopenRows(j.specs, Rejudged(d, j), env, now).Ok? && e.rows == ReopenRows(j.specs, Rejudged(d, j), env, now).value
  {
  }

  lemma RevaluatedIsSane(d: Decision, j: Judgment, env: Setting, now: Instant)
    requires AllSane(d) && Revaluate(d, j, env, now).Ok?
    ensures AllSane(Revaluate(d, j, env, now).value)
  {
    var e := Revaluate(d, j, env, now).value;
    if j.Kept? {
      var r := Rejudged(d, j);
      RebindKeepsFrame(r, j.specs, env, now);
      forall i | 0 <= i < |e.rows| ensures Sane(e.rows[i], e.expiresAt) {
        RevaluatedRow(d, j, env, now, i);
        if SameShape(d.rows, j.specs) {
          assert Sane(d.rows[i], d.expiresAt);
          ReboundIsSane(r, i, j.specs[i], env, now);
        } else {
          ReopenedAreSane(j.specs, r, env, now);
        }
      }
    }
  }

  // ---- stamps ----

  /** No stamp goes back, and a change moves it on. */
  ghost predicate StampsMove(w: World, v: World) {
    forall x :: x in w.decisions ==>
      x in v.decisions && Stamp(w, x) <= Stamp(v, x) && (v.decisions[x] != w.decisions[x] ==> Stamp(w, x) < Stamp(v, x))
  }

  lemma {:induction false} RevisionStamps(w: World, ids: seq<string>, judge: Context -> Judgment, envs: string -> Setting, now: Instant)
    requires ReviseWorld(w, ids, judge, envs, now).Ok?
    ensures StampsMove(w, ReviseWorld(w, ids, judge, envs, now).value)
    decreases |ids|
  {
    if ids != [] {
      var next := ReviseNext(w, ids[0], judge, envs(ids[0]), now).value;
      assert StampsMove(w, next);
      RevisionStamps(next, ids[1..], judge, envs, now);
    }
  }

  lemma PutStamps(w: World, id: string, e: Decision, at: Instant)
    requires id in w.decisions
    ensures StampsMove(w, Put(w, id, e, at))
  {
  }

  lemma WorkMovesStamps(w: World, n: nat)
    requires n in w.jobs && w.jobs[n].id in w.decisions
    ensures StampsMove(w, Work(w, n))
  {
    var j := w.jobs[n];
    PutStamps(w, j.id, Written(w.decisions[j.id], j), j.now);
  }

  lemma SweepMovesStamps(w: World, n: nat, claim: Claim)
    ensures StampsMove(w, Step(w, Sweeps(n, claim)))
  {
    var id, v := claim.copy.context.id, Step(w, Sweeps(n, claim));
    if claim in w.claims && id in w.decisions && IsExpired(claim.copy, claim.now) {
      PutStamps(w, id, Close(w.decisions[id], Expire), claim.now);
    } else {
      assert v.decisions == w.decisions && v.stamps == w.stamps;
    }
  }

  lemma StepStamps(w: World, ev: Event)
    ensures StampsMove(w, Step(w, ev))
  {
    match ev
    case Works(n) => if n in w.jobs && w.jobs[n].id in w.decisions { WorkMovesStamps(w, n); }
    case Sweeps(n, claim) => SweepMovesStamps(w, n, claim);
    case Revises(ids, judge, envs, now) => if Applies(w, ev) { RevisionStamps(w, ids, judge, envs, now); }
    case _ =>
  }

  lemma WorkStamps(w: World, n: nat)
    requires n in w.jobs && w.jobs[n].id in w.decisions && !w.jobs[n].phase.Reading? && Stamped(w, w.jobs[n])
    ensures Stamped(Work(w, n), NextJob(w.decisions[w.jobs[n].id], w.jobs[n]))
  {
  }

  lemma StampStays(w: World, v: World, j: Job)
    requires StampsMove(w, v) && Stamped(w, j)
    ensures Stamped(v, j)
  {
  }

  lemma FreshIsStamped(w: World, ev: Event, n: nat, j: Job)
    requires Tracked(w) && (Begun(w, ev, n, j) || Begins(w, ev, n, j))
    ensures Stamped(w, j)
  {
  }

  lemma JobStaysStamped(w: World, ev: Event, v: World, n: nat, j: Job)
    requires Steady(w) && Starts(w, ev, n, j) && StampsMove(w, v) && (Continues(w, ev, n, j) ==> v == Work(w, n))
    ensures Stamped(v, j)
  {
    if n in w.jobs && j == w.jobs[n] {
      StampStays(w, v, j);
    } else if Continues(w, ev, n, j) {
      WorkStamps(w, n);
    } else {
      FreshIsStamped(w, ev, n, j);
      StampStays(w, v, j);
    }
  }

  // ---- every run ----

  lemma DecisionStaysSane(w: World, ev: Event, id: string)
    requires Steady(w) && id in Step(w, ev).decisions
    ensures AllSane(Step(w, ev).decisions[id])
  {
    if id !in w.decisions {
      NewIsOpened(w, ev, id);
      OpenedIsSane(ev.proposal, ev.dep, ev.draws, ev.now);
    } else {
      StepMakes(w, ev, id);
      var d := w.decisions[id];
      assert AllSane(d);
      if WorksOn(w, ev, id) {
        WrittenIsSane(d, w.jobs[ev.n]);
      } else if Reaches(w, ev, id) {
        RevaluatedIsSane(d, ev.judge(d.context), ev.envs(id), ev.now);
      }
    }
  }

  lemma JobStaysSane(w: World, ev: Event, n: nat, j: Job)
    requires Steady(w) && Starts(w, ev, n, j)
    ensures JobSane(j)
  {
    if n in w.jobs && j == w.jobs[n] {
    } else if Continues(w, ev, n, j) {
      NextIsSane(w.decisions[w.jobs[n].id], w.jobs[n]);
    } else if Begun(w, ev, n, j) {
      AcceptedIsSane(w.decisions[ev.id], ev.ordinal, ev.dep, ev.caller, ev.payload, ev.now, ev.id, Stamp(w, ev.id));
    } else {
      var id, now :| id in w.decisions && j == StartPass(w.decisions[id], Stamp(w, id), now);
      StartIsSane(w.decisions[id], Stamp(w, id), now);
    }
  }

  lemma JobStaysSteady(w: World, ev: Event, v: World, n: nat)
    requires Steady(w) && v == Step(w, ev) && StampsMove(w, v) && n in v.jobs
    ensures JobSane(v.jobs[n]) && Stamped(v, v.jobs[n])
  {
    StepStarts(w, ev, n);
    JobStaysSane(w, ev, n, v.jobs[n]);
    JobStaysStamped(w, ev, v, n, v.jobs[n]);
  }

  lemma StepStaysSteady(w: World, ev: Event)
    requires Steady(w)
    ensures Steady(Step(w, ev))
  {
    var v := Step(w, ev);
    StepTracks(w, ev);
    StepStamps(w, ev);
    forall id | id in v.decisions ensures AllSane(v.decisions[id]) { DecisionStaysSane(w, ev, id); }
    forall n | n in v.jobs ensures JobSane(v.jobs[n]) && Stamped(v, v.jobs[n]) { JobStaysSteady(w, ev, v, n); }
  }

  /** Every run, whatever its events and however they interleave. */
  lemma {:induction false} RunStaysSteady(w: World, events: seq<Event>)
    requires Steady(w)
    ensures Steady(Run(w, events))
    decreases |events|
  {
    if events != [] {
      RunStaysSteady(w, events[..|events| - 1]);
      StepStaysSteady(Run(w, events[..|events| - 1]), events[|events| - 1]);
    }
  }

  lemma EveryRunIsSteady(events: seq<Event>)
    ensures Steady(Run(EMPTY, events))
  {
    RunStaysSteady(EMPTY, events);
  }
}
