/** When every row of a decision holds a detail of its own kind: exactly when every late
    write finds a row of the kind it was read under, in every run. */
module Kinds {
  import opened Basics
  import opened Approvers
  import opened Policy
  import opened Challenges
  import opened Decisions
  import opened Revision
  import opened Soundness
  import opened Runs
  import opened Always
  import opened Binding

  // ---- the property ----

  ghost predicate AllOwn(d: Decision) {
    forall i :: 0 <= i < |d.rows| ==> !Foreign(d.rows[i])
  }

  ghost predicate OwnAt(w: World, id: string) {
    id in w.decisions ==> AllOwn(w.decisions[id])
  }

  ghost predicate KindsAgree(events: seq<Event>, id: string) {
    forall m :: 0 <= m <= |events| ==> OwnAt(Run(EMPTY, events[..m]), id)
  }

  // ---- the condition ----

  /** The row now there is of the kind of the row that was read. */
  predicate RowInKind(d: Decision, copy: Decision, i: nat) {
    i < |d.rows| ==> i < |copy.rows| && d.rows[i].kind == copy.rows[i].kind
  }

  predicate WriteInKind(d: Decision, j: Job) {
    match j.phase
    case Marking(i, _, _, _) => RowInKind(d, j.copy, i)
    case Storing(k, _, _, _, _) => RowInKind(d, j.copy, k)
    case _ => true
  }

  ghost predicate InKind(w: World, ev: Event, id: string) {
    WorksOn(w, ev, id) && id in w.decisions ==> WriteInKind(w.decisions[id], w.jobs[ev.n])
  }

  ghost predicate AllInKind(events: seq<Event>, id: string) {
    forall m :: 0 <= m < |events| ==> InKind(Run(EMPTY, events[..m]), events[m], id)
  }

  // ---- copies ----

  /** What an operation holds, and what it will write over its own row. */
  ghost predicate JobOwn(j: Job) {
    && AllOwn(j.copy)
    && (j.phase.Marking? ==> j.phase.i < |j.copy.rows| && DetailKind(j.phase.detail) == j.copy.rows[j.phase.i].kind)
  }

  ghost predicate JobsOwn(w: World, id: string) {
    forall n :: n in w.jobs && w.jobs[n].id == id ==> JobOwn(w.jobs[n])
  }

  lemma WriteOwnExactly(d: Decision, copy: Decision, i: nat, state: Progress, detail: Detail, evidence: Evidence)
    requires AllOwn(d) && i < |copy.rows| && DetailKind(detail) == copy.rows[i].kind
    ensures AllOwn(WriteRow(d, i, state, detail, evidence)) <==> RowInKind(d, copy, i)
  {
    var e := WriteRow(d, i, state, detail, evidence);
    if i < |d.rows| {
      assert Foreign(e.rows[i]) <==> !RowInKind(d, copy, i);
      forall x | 0 <= x < |e.rows| && x != i ensures !Foreign(e.rows[x]) { assert !Foreign(d.rows[x]); }
    }
  }

  lemma WrittenOwnExactly(d: Decision, j: Job)
    requires AllOwn(d) && JobOwn(j) && JobSane(j)
    ensures AllOwn(Written(d, j)) <==> WriteInKind(d, j)
  {
    match j.phase
    case Marking(i, state, detail, evidence) => WriteOwnExactly(d, j.copy, i, state, detail, evidence);
    case Storing(k, state, evidence, _, _) =>
      assert !Foreign(j.copy.rows[k]);
      WriteOwnExactly(d, j.copy, k, state, j.copy.rows[k].detail, evidence);
    case _ => assert Written(d, j).rows == d.rows;
  }

  lemma NextIsOwn(d: Decision, j: Job)
    requires JobOwn(j) && JobSane(j)
    ensures JobOwn(NextJob(d, j))
  {
    WrittenOwnExactly(j.copy, j);
    if j.phase.Counting? && j.phase.i < |j.copy.rows| { assert !Foreign(j.copy.rows[j.phase.i]); }
  }

  lemma AcceptedIsOwn(d: Decision, i: nat, dep: Deployment, s: Subject, p: Payload, now: Instant, id: string, stamp: nat)
    requires AllOwn(d) && Accepted(d, i, dep, s, p, now).Ok?
    ensures JobOwn(Job(id, now, d, stamp, Accepted(d, i, dep, s, p, now).value))
  {
    assert !Foreign(d.rows[i]);
  }

  lemma JobStaysOwn(w: World, ev: Event, id: string, n: nat, j: Job)
    requires Steady(w) && OwnAt(w, id) && JobsOwn(w, id) && Starts(w, ev, n, j) && j.id == id
    ensures JobOwn(j)
  {
    if n in w.jobs && j == w.jobs[n] {
    } else if Continues(w, ev, n, j) {
      NextIsOwn(w.decisions[id], w.jobs[n]);
    } else {
      FreshCopies(w, ev, n, j);
      if Begun(w, ev, n, j) { AcceptedIsOwn(w.decisions[id], ev.ordinal, ev.dep, ev.caller, ev.payload, ev.now, id, Stamp(w, id)); }
    }
  }

  // ---- events ----

  lemma OpenedIsOwn(p: Proposal, dep: Deployment, draws: nat -> Draw, now: Instant)
    requires Create(p, dep, draws, now).Ok? && Create(p, dep, draws, now).value.Some?
    ensures AllOwn(Create(p, dep, draws, now).value.value)
  {
    OpenRowsAreFresh(p.specs, p.context, dep, draws, now, p.expiresAt);
    var d := Create(p, dep, draws, now).value.value;
    forall i | 0 <= i < |d.rows| ensures !Foreign(d.rows[i]) { assert Fresh(d.rows[i], p.context); }
  }

  /** A revision that keeps a decision asking leaves every row with a detail of its own
      kind, whatever it found; one that denies it leaves the rows as they were. */
  lemma RevaluatedIsOwn(d: Decision, j: Judgment, env: Setting, now: Instant)
    requires Revaluate(d, j, env, now).Ok?
    ensures j.Kept? || AllOwn(d) ==> AllOwn(Revaluate(d, j, env, now).value)
  {
    var e := Revaluate(d, j, env, now).value;
    if j.Kept? {
      forall i | 0 <= i < |e.rows| ensures !Foreign(e.rows[i]) { RevaluatedHash(d, j, env, now, i); }
    }
  }

  lemma KnownOwnExactly(w: World, ev: Event, id: string, e: Decision)
    requires Steady(w) && id in w.decisions && AllOwn(w.decisions[id]) && JobsOwn(w, id) && e == Made(w, ev, id)
    requires Reaches(w, ev, id) ==> Revaluate(w.decisions[id], ev.judge(w.decisions[id].context), ev.envs(id), ev.now) == Ok(e)
    ensures AllOwn(e) <==> InKind(w, ev, id)
  {
    var d := w.decisions[id];
    if WorksOn(w, ev, id) {
      WrittenOwnExactly(d, w.jobs[ev.n]);
    } else if Reaches(w, ev, id) {
      RevaluatedIsOwn(d, ev.judge(d.context), ev.envs(id), ev.now);
    }
  }

  lemma StepOwnExactly(w: World, ev: Event, id: string)
    requires Steady(w) && OwnAt(w, id) && JobsOwn(w, id)
    ensures OwnAt(Step(w, ev), id) <==> InKind(w, ev, id)
  {
    if id in w.decisions {
      StepMakes(w, ev, id);
      KnownOwnExactly(w, ev, id, Step(w, ev).decisions[id]);
    } else if id in Step(w, ev).decisions {
      NewIsOpened(w, ev, id);
      OpenedIsOwn(ev.proposal, ev.dep, ev.draws, ev.now);
    }
  }

  lemma StepJobsOwn(w: World, ev: Event, v: World, id: string)
    requires Steady(w) && OwnAt(w, id) && JobsOwn(w, id) && v == Step(w, ev)
    ensures JobsOwn(v, id)
  {
    forall n | n in v.jobs && v.jobs[n].id == id ensures JobOwn(v.jobs[n]) {
      StepStarts(w, ev, n);
      JobStaysOwn(w, ev, id, n, v.jobs[n]);
    }
  }

  // ---- every run ----

  lemma {:induction false} OwnUpTo(events: seq<Event>, id: string, m: nat)
    requires m <= |events| && (AllInKind(events, id) || KindsAgree(events, id))
    ensures OwnAt(Run(EMPTY, events[..m]), id) && JobsOwn(Run(EMPTY, events[..m]), id)
  {
    if m > 0 {
      OwnUpTo(events, id, m - 1);
      var w := Run(EMPTY, events[..m - 1]);
      EveryRunIsSteady(events[..m - 1]);
      assert AllInKind(events, id) ==> InKind(w, events[m - 1], id);
      StepOwnExactly(w, events[m - 1], id);
      StepJobsOwn(w, events[m - 1], Step(w, events[m - 1]), id);
      PrefixSteps(EMPTY, events, m - 1);
    }
  }

  /** In every run, for one decision: its rows hold details of their own kinds after every
      event exactly when every late write found a row of the kind it was read under. */
  lemma KindsAgreeExactly(events: seq<Event>, id: string)
    ensures KindsAgree(events, id) <==> AllInKind(events, id)
  {
    if AllInKind(events, id) {
      forall m | 0 <= m <= |events| ensures OwnAt(Run(EMPTY, events[..m]), id) { OwnUpTo(events, id, m); }
    }
    if KindsAgree(events, id) {
      forall m | 0 <= m < |events| ensures InKind(Run(EMPTY, events[..m]), events[m], id) {
        OwnUpTo(events, id, m);
        EveryRunIsSteady(events[..m]);
        PrefixSteps(EMPTY, events, m);
        assert OwnAt(Run(EMPTY, events[..m + 1]), id);
        StepOwnExactly(Run(EMPTY, events[..m]), events[m], id);
      }
    }
  }

  // ---- what becomes of a row no handler can read ----

  lemma {:induction false} OneRefusalRefuses(d: Decision, specs: seq<Spec>, env: Setting, now: Instant, i: nat, n: nat)
    requires SameShape(d.rows, specs) && i < n <= |specs| && RebindRow(d, i, specs[i], env, now).Err?
    ensures RebindRows(d, specs, env, now, n).Err?
    decreases n
  {
    if i < n - 1 { OneRefusalRefuses(d, specs, env, now, i, n - 1); }
  }

  /** A pending row left with another kind's detail takes no submission, keeps every pass
      from resolving the decision, and makes every revision to the same list of
      challenges fail: what is left is to expire, to be refused, or to be given another
      list. */
  lemma StuckStaysStuck(d: Decision, i: nat)
    requires AllSane(d) && d.state == Open && i < |d.rows| && Stuck(d.rows[i])
    ensures forall dep, s, p, now :: Accepted(d, i, dep, s, p, now).Err?
    ensures forall now :: Advance(d, now).state == Open && i < |Advance(d, now).rows| && Advance(d, now).rows[i] == d.rows[i]
    ensures forall j: Judgment, env, now :: j.Kept? && SameShape(d.rows, j.specs) ==> Revaluate(d, j, env, now).Err?
  {
    forall j: Judgment, env, now | j.Kept? && SameShape(d.rows, j.specs) ensures Revaluate(d, j, env, now).Err? {
      assert Sane(d.rows[i], d.expiresAt);
      OneRefusalRefuses(Rejudged(d, j), j.specs, env, now, i, |j.specs|);
    }
  }
}
