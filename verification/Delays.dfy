/** A running wait over the life of its decision: it is moved, never restarted; what
    its timer can do to it; and what a recorded cancellation is worth. */
module Delays {
  import opened Basics
  import opened Approvers
  import opened Policy
  import opened Challenges
  import opened Decisions
  import opened Revision
  import opened Settling
  import opened Runs
  import opened Always
  import opened Binding
  import opened Kinds

  // ---- one row ----

  function OpenedAt(detail: Detail): Instant
    requires detail.DelayDetail?
  {
    detail.releaseAt - detail.duration
  }

  /** How one turn may change a delay row. */
  ghost predicate Waits(a: Row, b: Row) {
    && a.kind == DelayKind && b.kind == DelayKind && a.detail.DelayDetail? && b.detail.DelayDetail?
    && OpenedAt(b.detail) == OpenedAt(a.detail)
    && (a.detail.cancelled.Some? ==> b.detail.cancelled == a.detail.cancelled)
    && (a.state == Satisfied ==> b.state == Satisfied)
    && (a.state == Failed ==> b.state == Failed)
  }

  // ---- the clock, however the writers interleave ----

  /** A decision whose every wait counts from one instant. */
  ghost predicate Clocked(d: Decision, t: Instant) {
    forall i :: 0 <= i < |d.rows| && d.rows[i].detail.DelayDetail? ==> OpenedAt(d.rows[i].detail) == t
  }

  /** So does whatever an operation under way still has to write. */
  ghost predicate JobClocked(j: Job, t: Instant) {
    && Clocked(j.copy, t)
    && (j.phase.Marking? && j.phase.detail.DelayDetail? ==> OpenedAt(j.phase.detail) == t)
  }

  ghost predicate WorldClocked(w: World, id: string, t: Instant) {
    && id in w.decisions && Clocked(w.decisions[id], t)
    && forall n :: n in w.jobs && w.jobs[n].id == id ==> JobClocked(w.jobs[n], t)
  }

  /** No revision gives the decision another list of challenges. */
  ghost predicate KeepsShape(w: World, ev: Event, id: string) {
    Reaches(w, ev, id) && ev.judge(w.decisions[id].context).Kept? ==> SameShape(w.decisions[id].rows, ev.judge(w.decisions[id].context).specs)
  }

  ghost predicate KeepsShapes(w: World, events: seq<Event>, id: string) {
    forall m :: 0 <= m < |events| ==> KeepsShape(Run(w, events[..m]), events[m], id)
  }

  lemma RebindKeepsClock(row: Row, spec: Spec, expiresAt: Instant, dep: Deployment, now: Instant)
    requires row.kind == DelayKind && spec.DelaySpec? && RebindDelay(row, spec, expiresAt, dep, now).Ok?
    ensures Waits(row, RebindDelay(row, spec, expiresAt, dep, now).value.row)
  {
  }

  lemma ReboundWaits(d: Decision, i: nat, spec: Spec, env: Setting, now: Instant)
    requires i < |d.rows| && d.rows[i].kind == KindOf(spec) && RebindRow(d, i, spec, env, now).Ok?
    ensures var row := RebindRow(d, i, spec, env, now).value.row;
            row.kind == d.rows[i].kind && (d.rows[i].kind == DelayKind || row.detail.DelayDetail? ==> Waits(d.rows[i], row))
  {
    ReboundHash(d, i, spec, env, now);
    if spec.DelaySpec? { RebindKeepsClock(d.rows[i], spec, d.expiresAt, env.dep, now); }
  }

  lemma RebindsEach(d: Decision, specs: seq<Spec>, env: Setting, now: Instant, i: nat)
    requires SameShape(d.rows, specs) && i < |d.rows| && RebindChallenges(d, specs, env, now).Ok?
    ensures var e := RebindChallenges(d, specs, env, now).value;
            |e.rows| == |d.rows| && RebindRow(d, i, specs[i], env, now).Ok? && e.rows[i] == RebindRow(d, i, specs[i], env, now).value.row
  {
  }

  lemma RevaluateWaits(d: Decision, j: Judgment, env: Setting, now: Instant, i: nat)
    requires i < |d.rows| && (j.Kept? ==> SameShape(d.rows, j.specs)) && Revaluate(d, j, env, now).Ok?
    ensures var e := Revaluate(d, j, env, now).value;
            && |e.rows| == |d.rows| && e.rows[i].kind == d.rows[i].kind
            && if j.Kept? then d.rows[i].kind == DelayKind || e.rows[i].detail.DelayDetail? ==> Waits(d.rows[i], e.rows[i]) else e.rows[i] == d.rows[i]
  {
    if j.Kept? {
      RebindsEach(Rejudged(d, j), j.specs, env, now, i);
      ReboundWaits(Rejudged(d, j), i, j.specs[i], env, now);
    }
  }

  lemma RevaluateKeepsCount(d: Decision, j: Judgment, env: Setting, now: Instant)
    requires (j.Kept? ==> SameShape(d.rows, j.specs)) && Revaluate(d, j, env, now).Ok?
    ensures |Revaluate(d, j, env, now).value.rows| == |d.rows|
  {
  }

  lemma RevaluateKeepsClock(d: Decision, j: Judgment, env: Setting, now: Instant, t: Instant)
    requires Clocked(d, t) && (j.Kept? ==> SameShape(d.rows, j.specs)) && Revaluate(d, j, env, now).Ok?
    ensures Clocked(Revaluate(d, j, env, now).value, t)
  {
    var e := Revaluate(d, j, env, now).value;
    forall i | 0 <= i < |e.rows| && e.rows[i].detail.DelayDetail? ensures OpenedAt(e.rows[i].detail) == t {
      RevaluateKeepsCount(d, j, env, now);
      RevaluateWaits(d, j, env, now, i);
    }
  }

  lemma WrittenKeepsClock(d: Decision, j: Job, t: Instant)
    requires Clocked(d, t) && JobClocked(j, t)
    ensures Clocked(Written(d, j), t)
  {
  }

  lemma NextKeepsClock(d: Decision, j: Job, t: Instant)
    requires JobClocked(j, t)
    ensures JobClocked(NextJob(d, j), t)
  {
    WrittenKeepsClock(j.copy, j, t);
  }

  lemma AcceptedKeepsClock(d: Decision, i: nat, dep: Deployment, s: Subject, p: Payload, now: Instant, stamp: nat, t: Instant)
    requires Clocked(d, t) && Accepted(d, i, dep, s, p, now).Ok?
    ensures JobClocked(Job(d.context.id, now, d, stamp, Accepted(d, i, dep, s, p, now).value), t)
  {
  }

  lemma DecisionKeepsClock(w: World, ev: Event, id: string, t: Instant)
    requires WorldClocked(w, id, t) && KeepsShape(w, ev, id)
    ensures id in Step(w, ev).decisions && Clocked(Step(w, ev).decisions[id], t)
  {
    StepMakes(w, ev, id);
    var d := w.decisions[id];
    if WorksOn(w, ev, id) {
      WrittenKeepsClock(d, w.jobs[ev.n], t);
    } else if Reaches(w, ev, id) {
      RevaluateKeepsClock(d, ev.judge(d.context), ev.envs(id), ev.now, t);
    }
  }

  lemma JobKeepsClock(w: World, ev: Event, id: string, n: nat, j: Job, t: Instant)
    requires Tracked(w) && WorldClocked(w, id, t) && Starts(w, ev, n, j) && j.id == id
    ensures JobClocked(j, t)
  {
    if n in w.jobs && j == w.jobs[n] {
    } else if Continues(w, ev, n, j) {
      NextKeepsClock(w.decisions[id], w.jobs[n], t);
    } else {
      FreshCopies(w, ev, n, j);
      if Begun(w, ev, n, j) { AcceptedKeepsClock(w.decisions[id], ev.ordinal, ev.dep, ev.caller, ev.payload, ev.now, Stamp(w, id), t); }
    }
  }

  lemma StepKeepsClock(w: World, ev: Event, id: string, t: Instant)
    requires Tracked(w) && WorldClocked(w, id, t) && KeepsShape(w, ev, id)
    ensures WorldClocked(Step(w, ev), id, t)
  {
    DecisionKeepsClock(w, ev, id, t);
    forall n | n in Step(w, ev).jobs && Step(w, ev).jobs[n].id == id ensures JobClocked(Step(w, ev).jobs[n], t) {
      StepStarts(w, ev, n);
      JobKeepsClock(w, ev, id, n, Step(w, ev).jobs[n], t);
    }
  }

  lemma {:induction false} ClockUpTo(w: World, events: seq<Event>, id: string, t: Instant, m: nat)
    requires Tracked(w) && WorldClocked(w, id, t) && KeepsShapes(w, events, id) && m <= |events|
    ensures WorldClocked(Run(w, events[..m]), id, t)
  {
    if m > 0 {
      ClockUpTo(w, events, id, t, m - 1);
      RunTracks(w, events[..m - 1]);
      assert KeepsShape(Run(w, events[..m - 1]), events[m - 1], id);
      StepKeepsClock(Run(w, events[..m - 1]), events[m - 1], id, t);
      PrefixSteps(w, events, m - 1);
    }
  }

  lemma {:induction false} OpenRowsAreClocked(specs: seq<Spec>, c: Context, dep: Deployment, draws: nat -> Draw, now: Instant, expiresAt: Instant)
    requires OpenRows(specs, c, dep, draws, now, expiresAt).Ok? && OpenRows(specs, c, dep, draws, now, expiresAt).value.Opened?
    ensures var rows := OpenRows(specs, c, dep, draws, now, expiresAt).value.rows;
            forall i :: 0 <= i < |rows| && rows[i].detail.DelayDetail? ==> OpenedAt(rows[i].detail) == now
  {
    if specs != [] { OpenRowsAreClocked(specs[..|specs| - 1], c, dep, draws, now, expiresAt); }
  }

  /** Whatever is submitted, swept and revised, and however stale the copies it was
      written from: while no revision changes the list of challenges, every wait of a
      decision counts from the instant the decision was opened. */
  lemma AWaitIsNeverRestarted(before: seq<Event>, opening: Event, after: seq<Event>, i: nat)
    requires opening.Opens? && opening.proposal.context.id !in Run(EMPTY, before).decisions
    requires opening.proposal.context.id in Step(Run(EMPTY, before), opening).decisions
    requires KeepsShapes(Step(Run(EMPTY, before), opening), after, opening.proposal.context.id)
    ensures var v := Run(Step(Run(EMPTY, before), opening), after);
            var id := opening.proposal.context.id;
            && id in v.decisions
            && (i < |v.decisions[id].rows| && v.decisions[id].rows[i].detail.DelayDetail? ==> OpenedAt(v.decisions[id].rows[i].detail) == opening.now)
  {
    var id, w := opening.proposal.context.id, Run(EMPTY, before);
    RunTracks(EMPTY, before);
    OpenRowsAreClocked(opening.proposal.specs, opening.proposal.context, opening.dep, opening.draws, opening.now, opening.proposal.expiresAt);
    forall n | n in w.jobs ensures w.jobs[n].id != id { assert JobDated(w, w.jobs[n]); }
    StepTracks(w, opening);
    ClockUpTo(Step(w, opening), after, id, opening.now, |after|);
    assert after[..|after|] == after;
  }

  // ---- what it became, and what a late write makes of it ----

  /** In every run a pending wait's timer is the earlier of its release, cut to the
      column's microsecond, and the expiry, unless a late write has left it a quorum's
      detail; and a wait with a cancellation has failed. */
  lemma WaitsAreTimed(events: seq<Event>, id: string, i: nat)
    requires id in Run(EMPTY, events).decisions && i < |Run(EMPTY, events).decisions[id].rows|
    requires Run(EMPTY, events).decisions[id].rows[i].kind == DelayKind
    ensures var d := Run(EMPTY, events).decisions[id];
            var detail := d.rows[i].detail;
            && (d.rows[i].state == Pending ==>
                 detail.QuorumDetail? || (detail.DelayDetail? && d.rows[i].deadline == Some(Min(Micros(detail.releaseAt), d.expiresAt))))
            && (detail.DelayDetail? && detail.cancelled.Some? ==> d.rows[i].state == Failed)
            && (AllInKind(events, id) ==> detail.DelayDetail?)
  {
    EveryRunIsSteady(events);
    var d := Run(EMPTY, events).decisions[id];
    assert AllSane(d) && Sane(d.rows[i], d.expiresAt);
    if AllInKind(events, id) {
      OwnUpTo(events, id, |events|);
      assert events[..|events|] == events;
      assert !Foreign(d.rows[i]);
    }
  }

  /** A wait stays what it became: met or failed, and a cancellation recorded. */
  ghost predicate Stays(a: Row, b: Row) {
    && IsWait(a) && IsWait(b) && a.detail.DelayDetail? && b.detail.DelayDetail?
    && (a.detail.cancelled.Some? ==> b.detail.cancelled == a.detail.cancelled)
    && (a.state == Satisfied ==> b.state == Satisfied)
    && (a.state == Failed ==> b.state == Failed)
  }

  predicate IsWait(row: Row) {
    row.kind == DelayKind && row.detail.DelayDetail?
  }

  /** What a late write over a wait must be, and find: a settle of a wait, no cancellation
      and nothing settled the other way; a cancellation, a wait that is not met and no
      other's record. */
  predicate FindsWait(row: Row, j: Job, i: nat)
    requires IsWait(row)
  {
    match j.phase
    case Marking(x, _, detail, _) =>
      x == i ==> detail.DelayDetail? && row.state != Satisfied && (row.detail.cancelled.None? || row.detail.cancelled == detail.cancelled)
    case Storing(k, state, _, _, _) =>
      k == i && k < |j.copy.rows| ==>
        j.copy.rows[k].detail.DelayDetail? && row.detail.cancelled.None? && (row.state == state || !(row.state in {Satisfied, Failed}))
    case _ => true
  }

  lemma LateWriteKeepsExactly(d: Decision, j: Job, i: nat)
    requires JobSane(j) && i < |d.rows| && IsWait(d.rows[i])
    ensures i < |Written(d, j).rows| && (Stays(d.rows[i], Written(d, j).rows[i]) <==> FindsWait(d.rows[i], j, i))
  {
    if j.phase.Storing? { assert Sane(j.copy.rows[j.phase.k], j.copy.expiresAt); }
  }

  /** A late settle keeps a recorded cancellation exactly when the wait it lands on carries
      none. */
  lemma LateSettleKeepsCancellationExactly(d: Decision, j: Job)
    requires JobSane(j) && j.phase.Storing? && j.copy.rows[j.phase.k].detail.DelayDetail?
    requires j.phase.k < |d.rows| && d.rows[j.phase.k].detail.DelayDetail?
    ensures j.phase.k < |Written(d, j).rows| && Written(d, j).rows[j.phase.k].detail.DelayDetail?
    ensures Written(d, j).rows[j.phase.k].detail.cancelled == d.rows[j.phase.k].detail.cancelled <==> d.rows[j.phase.k].detail.cancelled.None?
  {
    assert Sane(j.copy.rows[j.phase.k], j.copy.expiresAt);
  }

  ghost predicate HasWait(w: World, id: string, i: nat) {
    id in w.decisions && i < |w.decisions[id].rows| && IsWait(w.decisions[id].rows[i])
  }

  ghost predicate StaysAfter(w: World, ev: Event, id: string, i: nat) {
    HasWait(w, id, i) && HasWait(Step(w, ev), id, i) && Stays(w.decisions[id].rows[i], Step(w, ev).decisions[id].rows[i])
  }

  ghost predicate FindsAt(w: World, ev: Event, id: string, i: nat) {
    WorksOn(w, ev, id) && HasWait(w, id, i) ==> FindsWait(w.decisions[id].rows[i], w.jobs[ev.n], i)
  }

  lemma StepKeepsWait(w: World, ev: Event, id: string, i: nat)
    requires Steady(w) && HasWait(w, id, i) && KeepsShape(w, ev, id)
    ensures StaysAfter(w, ev, id, i) <==> FindsAt(w, ev, id, i)
  {
    StepMakes(w, ev, id);
    MadeKeepsWait(w, ev, id, i, Step(w, ev).decisions[id]);
  }

  lemma MadeKeepsWait(w: World, ev: Event, id: string, i: nat, e: Decision)
    requires Steady(w) && HasWait(w, id, i) && KeepsShape(w, ev, id) && e == Made(w, ev, id)
    requires Reaches(w, ev, id) ==> Revaluate(w.decisions[id], ev.judge(w.decisions[id].context), ev.envs(id), ev.now) == Ok(e)
    ensures i < |e.rows| && (Stays(w.decisions[id].rows[i], e.rows[i]) <==> FindsAt(w, ev, id, i))
  {
    var d := w.decisions[id];
    if WorksOn(w, ev, id) {
      LateWriteKeepsExactly(d, w.jobs[ev.n], i);
    } else if Reaches(w, ev, id) {
      RevaluateWaits(d, ev.judge(d.context), ev.envs(id), ev.now, i);
    }
  }

  ghost predicate StaysThrough(w: World, events: seq<Event>, id: string, i: nat) {
    forall m :: 0 <= m < |events| ==> StaysAfter(Run(w, events[..m]), events[m], id, i)
  }

  ghost predicate FindsThrough(w: World, events: seq<Event>, id: string, i: nat) {
    forall m :: 0 <= m < |events| ==> FindsAt(Run(w, events[..m]), events[m], id, i)
  }

  lemma {:induction false} WaitUpTo(w: World, events: seq<Event>, id: string, i: nat, m: nat)
    requires Steady(w) && HasWait(w, id, i) && KeepsShapes(w, events, id) && m <= |events|
    requires StaysThrough(w, events, id, i) || FindsThrough(w, events, id, i)
    ensures Steady(Run(w, events[..m])) && HasWait(Run(w, events[..m]), id, i)
  {
    RunStaysSteady(w, events[..m]);
    if m > 0 {
      WaitUpTo(w, events, id, i, m - 1);
      assert KeepsShape(Run(w, events[..m - 1]), events[m - 1], id);
      assert StaysAfter(Run(w, events[..m - 1]), events[m - 1], id, i) || FindsAt(Run(w, events[..m - 1]), events[m - 1], id, i);
      StepKeepsWait(Run(w, events[..m - 1]), events[m - 1], id, i);
      PrefixSteps(w, events, m - 1);
    }
  }

  /** Through any events with any number of same-shape revisions of it, a wait stays a
      wait, and what it became, at every step exactly when every late write to it is of a
      wait and finds it pending, or already so. Nothing else can undo it. */
  lemma AWaitStaysExactly(w: World, events: seq<Event>, id: string, i: nat)
    requires Steady(w) && HasWait(w, id, i) && KeepsShapes(w, events, id)
    ensures StaysThrough(w, events, id, i) <==> FindsThrough(w, events, id, i)
  {
    forall m | 0 <= m < |events| && (StaysThrough(w, events, id, i) || FindsThrough(w, events, id, i))
      ensures StaysAfter(Run(w, events[..m]), events[m], id, i) <==> FindsAt(Run(w, events[..m]), events[m], id, i)
    {
      WaitUpTo(w, events, id, i, m);
      assert KeepsShape(Run(w, events[..m]), events[m], id);
      StepKeepsWait(Run(w, events[..m]), events[m], id, i);
    }
  }

  // ---- failing by timer ----

  /** A pass fails a wait by its timer exactly when it runs inside the last
      microsecond before the release, where the column is already due and the release
      is not. */
  lemma TimerFailsExactly(d: Decision, i: nat, now: Instant)
    requires AllSane(d) && d.state == Open && now < d.expiresAt && i < |d.rows| && d.rows[i].detail.DelayDetail? && d.rows[i].state == Pending
    ensures Settled(d.rows[i], Have(d, i), now).state == Failed <==> Micros(d.rows[i].detail.releaseAt) <= now < d.rows[i].detail.releaseAt
  {
    assert Sane(d.rows[i], d.expiresAt);
  }

  /** So no pass at any instant can fail it exactly when the release is a whole
      microsecond, or the decision is over by the time the column is due. */
  lemma NeverFailsByTimerExactly(d: Decision, i: nat)
    requires AllSane(d) && d.state == Open && i < |d.rows| && d.rows[i].detail.DelayDetail? && d.rows[i].state == Pending
    ensures (forall now: Instant :: now < d.expiresAt ==> Settled(d.rows[i], Have(d, i), now).state != Failed) <==>
            d.rows[i].detail.releaseAt % 1000 == 0 || d.expiresAt <= Micros(d.rows[i].detail.releaseAt)
  {
    var release := d.rows[i].detail.releaseAt;
    forall now: Instant | now < d.expiresAt
      ensures Settled(d.rows[i], Have(d, i), now).state == Failed <==> Micros(release) <= now < release
    {
      TimerFailsExactly(d, i, now);
    }
    if release % 1000 != 0 && Micros(release) < d.expiresAt {
      assert Settled(d.rows[i], Have(d, i), Micros(release)).state == Failed;
    }
  }

  // ---- failing only by cancellation, on a whole-microsecond clock ----

  ghost predicate WholeSpecs(specs: seq<Spec>) {
    forall i :: 0 <= i < |specs| && specs[i].DelaySpec? ==> specs[i].duration % 1000 == 0
  }

  /** Waits of the decision open at, and are given, whole microseconds. */
  ghost predicate WholeEvent(w: World, ev: Event, id: string) {
    && (ev.Opens? && ev.proposal.context.id == id ==> ev.now % 1000 == 0 && WholeSpecs(ev.proposal.specs))
    && (Reaches(w, ev, id) ==> ev.now % 1000 == 0 && (ev.judge(w.decisions[id].context).Kept? ==> WholeSpecs(ev.judge(w.decisions[id].context).specs)))
  }

  ghost predicate WholeEvents(events: seq<Event>, id: string) {
    forall m :: 0 <= m < |events| ==> WholeEvent(Run(EMPTY, events[..m]), events[m], id)
  }

  /** Failed means cancelled. */
  ghost predicate ExcusedBy(state: Progress, detail: Detail) {
    detail.DelayDetail? ==> detail.releaseAt % 1000 == 0 && detail.duration % 1000 == 0 && (state == Failed ==> detail.cancelled.Some?)
  }

  ghost predicate Excused(row: Row) {
    ExcusedBy(row.state, row.detail)
  }

  ghost predicate AllExcused(d: Decision) {
    forall i :: 0 <= i < |d.rows| ==> Excused(d.rows[i])
  }

  ghost predicate JobExcused(j: Job) {
    && AllExcused(j.copy)
    && match j.phase
       case Marking(_, state, detail, _) => ExcusedBy(state, detail)
       case Storing(k, state, _, _, _) => k < |j.copy.rows| ==> ExcusedBy(state, j.copy.rows[k].detail)
       case _ => true
  }

  ghost predicate ExcusedAt(w: World, id: string) {
    && (id in w.decisions ==> AllExcused(w.decisions[id]))
    && (forall n :: n in w.jobs && w.jobs[n].id == id ==> JobExcused(w.jobs[n]))
  }

  lemma SettledIsExcused(row: Row, expiresAt: Instant, have: nat, now: Instant)
    requires Excused(row) && Sane(row, expiresAt) && now < expiresAt
    ensures ExcusedBy(Settled(row, have, now).state, row.detail)
  {
  }

  lemma {:induction false} ReopenedAreExcused(specs: seq<Spec>, d: Decision, env: Setting, now: Instant)
    requires WholeSpecs(specs) && now % 1000 == 0 && ReopenRows(specs, d, env, now).Ok?
    ensures forall i :: 0 <= i < |specs| ==> Excused(ReopenRows(specs, d, env, now).value[i])
  {
    if specs != [] { ReopenedAreExcused(specs[..|specs| - 1], d, env, now); }
  }

  lemma ReboundIsExcused(d: Decision, i: nat, spec: Spec, env: Setting, now: Instant)
    requires i < |d.rows| && d.rows[i].kind == KindOf(spec) && Excused(d.rows[i])
    requires (spec.DelaySpec? ==> spec.duration % 1000 == 0) && RebindRow(d, i, spec, env, now).Ok?
    ensures Excused(RebindRow(d, i, spec, env, now).value.row)
  {
  }

  lemma RevaluatedIsExcused(d: Decision, j: Judgment, env: Setting, now: Instant)
    requires AllExcused(d) && now % 1000 == 0 && (j.Kept? ==> WholeSpecs(j.specs)) && Revaluate(d, j, env, now).Ok?
    ensures AllExcused(Revaluate(d, j, env, now).value)
  {
    if j.Kept? {
      var r, e := Rejudged(d, j), Revaluate(d, j, env, now).value;
      forall i | 0 <= i < |e.rows| ensures Excused(e.rows[i]) {
        RevaluatedRow(d, j, env, now, i);
        if SameShape(d.rows, j.specs) {
          assert Excused(d.rows[i]);
          ReboundIsExcused(r, i, j.specs[i], env, now);
        } else {
          ReopenedAreExcused(j.specs, r, env, now);
        }
      }
    }
  }

  lemma WriteIsExcused(d: Decision, i: nat, state: Progress, detail: Detail, evidence: Evidence)
    requires AllExcused(d) && ExcusedBy(state, detail)
    ensures AllExcused(WriteRow(d, i, state, detail, evidence))
  {
    var e := WriteRow(d, i, state, detail, evidence);
    forall x | 0 <= x < |e.rows| ensures Excused(e.rows[x]) { assert Excused(d.rows[x]); }
  }

  lemma WrittenIsExcused(d: Decision, j: Job)
    requires AllExcused(d) && JobExcused(j)
    ensures AllExcused(Written(d, j))
  {
    match j.phase
    case Marking(i, state, detail, evidence) => WriteIsExcused(d, i, state, detail, evidence);
    case Storing(k, state, evidence, _, _) => if k < |j.copy.rows| { WriteIsExcused(d, k, state, j.copy.rows[k].detail, evidence); }
    case _ =>
  }

  lemma NextIsExcused(d: Decision, j: Job)
    requires JobExcused(j) && JobSane(j) && (j.phase.Scanning? ==> j.now < j.copy.expiresAt)
    ensures JobExcused(NextJob(d, j))
  {
    WrittenIsExcused(j.copy, j);
    match j.phase
    case Scanning(k, _, _) =>
      if k < |j.copy.rows| {
        assert Excused(j.copy.rows[k]) && Sane(j.copy.rows[k], j.copy.expiresAt);
        SettledIsExcused(j.copy.rows[k], j.copy.expiresAt, Have(d, k), j.now);
      }
    case _ =>
  }

  lemma AcceptedIsExcused(d: Decision, i: nat, dep: Deployment, s: Subject, p: Payload, now: Instant, id: string, stamp: nat)
    requires AllExcused(d) && Accepted(d, i, dep, s, p, now).Ok?
    ensures JobExcused(Job(id, now, d, stamp, Accepted(d, i, dep, s, p, now).value))
  {
    assert Excused(d.rows[i]);
  }

  lemma {:induction false} OpenRowsAreExcused(specs: seq<Spec>, c: Context, dep: Deployment, draws: nat -> Draw, now: Instant, expiresAt: Instant)
    requires OpenRows(specs, c, dep, draws, now, expiresAt).Ok? && OpenRows(specs, c, dep, draws, now, expiresAt).value.Opened?
    requires now % 1000 == 0 && WholeSpecs(specs)
    ensures var rows := OpenRows(specs, c, dep, draws, now, expiresAt).value.rows; forall i :: 0 <= i < |rows| ==> Excused(rows[i])
  {
    if specs != [] { OpenRowsAreExcused(specs[..|specs| - 1], c, dep, draws, now, expiresAt); }
  }

  lemma DecisionIsExcused(w: World, ev: Event, id: string)
    requires ExcusedAt(w, id) && WholeEvent(w, ev, id) && id in Step(w, ev).decisions
    ensures AllExcused(Step(w, ev).decisions[id])
  {
    if id !in w.decisions {
      NewIsOpened(w, ev, id);
      OpenRowsAreExcused(ev.proposal.specs, ev.proposal.context, ev.dep, ev.draws, ev.now, ev.proposal.expiresAt);
    } else {
      StepMakes(w, ev, id);
      var d := w.decisions[id];
      if WorksOn(w, ev, id) {
        WrittenIsExcused(d, w.jobs[ev.n]);
      } else if Reaches(w, ev, id) {
        RevaluatedIsExcused(d, ev.judge(d.context), ev.envs(id), ev.now);
      }
    }
  }

  lemma JobIsExcused(w: World, ev: Event, id: string, n: nat, j: Job)
    requires Steady(w) && ExcusedAt(w, id) && Starts(w, ev, n, j) && j.id == id
    ensures JobExcused(j)
  {
    if n in w.jobs && j == w.jobs[n] {
    } else if Continues(w, ev, n, j) {
      assert JobDated(w, w.jobs[n]);
      NextIsExcused(w.decisions[id], w.jobs[n]);
    } else {
      FreshCopies(w, ev, n, j);
      if Begun(w, ev, n, j) { AcceptedIsExcused(w.decisions[id], ev.ordinal, ev.dep, ev.caller, ev.payload, ev.now, id, Stamp(w, id)); }
    }
  }

  lemma StepIsExcused(w: World, ev: Event, id: string)
    requires Steady(w) && ExcusedAt(w, id) && WholeEvent(w, ev, id)
    ensures ExcusedAt(Step(w, ev), id)
  {
    var v := Step(w, ev);
    if id in v.decisions { DecisionIsExcused(w, ev, id); }
    forall n | n in v.jobs && v.jobs[n].id == id ensures JobExcused(v.jobs[n]) {
      StepStarts(w, ev, n);
      JobIsExcused(w, ev, id, n, v.jobs[n]);
    }
  }

  lemma {:induction false} ExcusedUpTo(events: seq<Event>, id: string, m: nat)
    requires WholeEvents(events, id) && m <= |events|
    ensures ExcusedAt(Run(EMPTY, events[..m]), id)
  {
    if m > 0 {
      ExcusedUpTo(events, id, m - 1);
      EveryRunIsSteady(events[..m - 1]);
      StepIsExcused(Run(EMPTY, events[..m - 1]), events[m - 1], id);
      PrefixSteps(EMPTY, events, m - 1);
    }
  }

  /** Every wait of the decision that failed was cancelled. */
  ghost predicate OnlyCancelled(w: World, id: string) {
    id in w.decisions ==> forall i :: 0 <= i < |w.decisions[id].rows| ==> CancelledIfFailed(w.decisions[id].rows[i])
  }

  ghost predicate CancelledIfFailed(row: Row) {
    row.kind == DelayKind && row.state == Failed ==> row.detail.DelayDetail? && row.detail.cancelled.Some?
  }

  /** What fails a wait was read from a wait. */
  predicate FailureInKind(d: Decision, i: nat, state: Progress, detail: Detail) {
    i < |d.rows| && d.rows[i].kind == DelayKind && state == Failed ==> detail.DelayDetail?
  }

  predicate WriteFailsInKind(d: Decision, j: Job) {
    match j.phase
    case Marking(i, state, detail, _) => FailureInKind(d, i, state, detail)
    case Storing(k, state, _, _, _) => k < |j.copy.rows| ==> FailureInKind(d, k, state, j.copy.rows[k].detail)
    case _ => true
  }

  ghost predicate FailsInKind(w: World, ev: Event, id: string) {
    WorksOn(w, ev, id) && id in w.decisions ==> WriteFailsInKind(w.decisions[id], w.jobs[ev.n])
  }

  ghost predicate AllFailInKind(events: seq<Event>, id: string) {
    forall m :: 0 <= m < |events| ==> FailsInKind(Run(EMPTY, events[..m]), events[m], id)
  }

  ghost predicate AlwaysOnlyCancelled(events: seq<Event>, id: string) {
    forall m :: 0 <= m <= |events| ==> OnlyCancelled(Run(EMPTY, events[..m]), id)
  }

  ghost predicate FailedOwn(d: Decision) {
    forall i :: 0 <= i < |d.rows| && d.rows[i].kind == DelayKind && d.rows[i].state == Failed ==> d.rows[i].detail.DelayDetail?
  }

  lemma WriteFailsExactly(d: Decision, i: nat, state: Progress, detail: Detail, evidence: Evidence)
    requires FailedOwn(d)
    ensures FailedOwn(WriteRow(d, i, state, detail, evidence)) <==> FailureInKind(d, i, state, detail)
  {
    var e := WriteRow(d, i, state, detail, evidence);
    if i < |d.rows| { assert e.rows[i].kind == d.rows[i].kind && e.rows[i].state == state && e.rows[i].detail == detail; }
  }

  lemma WrittenFailsExactly(d: Decision, j: Job)
    requires FailedOwn(d)
    ensures FailedOwn(Written(d, j)) <==> WriteFailsInKind(d, j)
  {
    match j.phase
    case Marking(i, state, detail, evidence) => WriteFailsExactly(d, i, state, detail, evidence);
    case Storing(k, state, evidence, _, _) => if k < |j.copy.rows| { WriteFailsExactly(d, k, state, j.copy.rows[k].detail, evidence); }
    case _ =>
  }

  lemma MadeFailsExactly(w: World, ev: Event, id: string, e: Decision)
    requires id in w.decisions && FailedOwn(w.decisions[id]) && e == Made(w, ev, id)
    requires Reaches(w, ev, id) ==> Revaluate(w.decisions[id], ev.judge(w.decisions[id].context), ev.envs(id), ev.now) == Ok(e)
    ensures FailedOwn(e) <==> FailsInKind(w, ev, id)
  {
    var d := w.decisions[id];
    if WorksOn(w, ev, id) {
      WrittenFailsExactly(d, w.jobs[ev.n]);
    } else if Reaches(w, ev, id) {
      RevaluatedFailsOwn(d, ev.judge(d.context), ev.envs(id), ev.now);
    }
  }

  lemma RevaluatedFailsOwn(d: Decision, j: Judgment, env: Setting, now: Instant)
    requires FailedOwn(d) && Revaluate(d, j, env, now).Ok?
    ensures FailedOwn(Revaluate(d, j, env, now).value)
  {
    RevaluatedIsOwn(d, j, env, now);
    var e := Revaluate(d, j, env, now).value;
    if j.Kept? {
      forall i | 0 <= i < |e.rows| && e.rows[i].kind == DelayKind ensures e.rows[i].detail.DelayDetail? { assert !Foreign(e.rows[i]); }
    }
  }

  lemma OpenedFailsOwn(p: Proposal, dep: Deployment, draws: nat -> Draw, now: Instant)
    requires Create(p, dep, draws, now).Ok? && Create(p, dep, draws, now).value.Some?
    ensures FailedOwn(Create(p, dep, draws, now).value.value)
  {
    OpenedIsOwn(p, dep, draws, now);
    var d := Create(p, dep, draws, now).value.value;
    forall i | 0 <= i < |d.rows| && d.rows[i].kind == DelayKind ensures d.rows[i].detail.DelayDetail? { assert !Foreign(d.rows[i]); }
  }

  /** Where every delay detail that failed is cancelled, a failed wait is cancelled exactly
      when it holds one. */
  lemma OnlyCancelledExactly(w: World, id: string)
    requires ExcusedAt(w, id)
    ensures OnlyCancelled(w, id) <==> (id in w.decisions ==> FailedOwn(w.decisions[id]))
  {
    if id in w.decisions {
      var d := w.decisions[id];
      forall i | 0 <= i < |d.rows| ensures CancelledIfFailed(d.rows[i]) <==> (d.rows[i].kind == DelayKind && d.rows[i].state == Failed ==> d.rows[i].detail.DelayDetail?) {
        assert Excused(d.rows[i]);
      }
    }
  }

  lemma StepFailsExactly(w: World, ev: Event, v: World, id: string)
    requires Steady(w) && ExcusedAt(w, id) && OnlyCancelled(w, id) && v == Step(w, ev) && ExcusedAt(v, id)
    ensures OnlyCancelled(v, id) <==> FailsInKind(w, ev, id)
  {
    OnlyCancelledExactly(w, id);
    OnlyCancelledExactly(v, id);
    if id in w.decisions {
      StepMakes(w, ev, id);
      MadeFailsExactly(w, ev, id, v.decisions[id]);
    } else if id in v.decisions {
      NewIsOpened(w, ev, id);
      OpenedFailsOwn(ev.proposal, ev.dep, ev.draws, ev.now);
    }
  }

  lemma FailsAt(events: seq<Event>, id: string, m: nat)
    requires m < |events| && WholeEvents(events, id) && OnlyCancelled(Run(EMPTY, events[..m]), id)
    ensures OnlyCancelled(Run(EMPTY, events[..m + 1]), id) <==> FailsInKind(Run(EMPTY, events[..m]), events[m], id)
  {
    EveryRunIsSteady(events[..m]);
    ExcusedUpTo(events, id, m);
    ExcusedUpTo(events, id, m + 1);
    PrefixSteps(EMPTY, events, m);
    StepFailsExactly(Run(EMPTY, events[..m]), events[m], Run(EMPTY, events[..m + 1]), id);
  }

  lemma {:induction false} CancelledUpTo(events: seq<Event>, id: string, m: nat)
    requires WholeEvents(events, id) && AllFailInKind(events, id) && m <= |events|
    ensures OnlyCancelled(Run(EMPTY, events[..m]), id)
  {
    if m > 0 {
      CancelledUpTo(events, id, m - 1);
      assert FailsInKind(Run(EMPTY, events[..m - 1]), events[m - 1], id);
      FailsAt(events, id, m - 1);
    }
  }

  /** Where a decision's waits open at, and are given, whole microseconds, then in every
      run, however it interleaves, reshaping revisions included: after every event each
      wait of it that failed was cancelled, exactly when no late write failed a wait with
      another kind's detail. */
  lemma FailsOnlyByCancellation(events: seq<Event>, id: string)
    requires WholeEvents(events, id)
    ensures AlwaysOnlyCancelled(events, id) <==> AllFailInKind(events, id)
    ensures AllInKind(events, id) ==> AlwaysOnlyCancelled(events, id)
  {
    if AllFailInKind(events, id) {
      forall m | 0 <= m <= |events| ensures OnlyCancelled(Run(EMPTY, events[..m]), id) { CancelledUpTo(events, id, m); }
    }
    if AlwaysOnlyCancelled(events, id) {
      forall m | 0 <= m < |events| ensures FailsInKind(Run(EMPTY, events[..m]), events[m], id) {
        assert OnlyCancelled(Run(EMPTY, events[..m]), id) && OnlyCancelled(Run(EMPTY, events[..m + 1]), id);
        FailsAt(events, id, m);
      }
    }
    if AllInKind(events, id) {
      forall m | 0 <= m <= |events| ensures OnlyCancelled(Run(EMPTY, events[..m]), id) { OwnIsCancelled(events, id, m); }
    }
  }

  lemma OwnIsCancelled(events: seq<Event>, id: string, m: nat)
    requires WholeEvents(events, id) && AllInKind(events, id) && m <= |events|
    ensures OnlyCancelled(Run(EMPTY, events[..m]), id)
  {
    OwnUpTo(events, id, m);
    ExcusedUpTo(events, id, m);
    var w := Run(EMPTY, events[..m]);
    OnlyCancelledExactly(w, id);
    if id in w.decisions {
      var d := w.decisions[id];
      forall i | 0 <= i < |d.rows| && d.rows[i].kind == DelayKind ensures d.rows[i].detail.DelayDetail? { assert !Foreign(d.rows[i]); }
    }
  }

  // ---- reaching the release ----

  /** A pending, uncancelled wait has an instant at which a pass meets it exactly when
      its release lies before the decision's expiry. */
  lemma CanBeMetExactly(d: Decision, i: nat)
    requires AllSane(d) && d.state == Open && i < |d.rows| && d.rows[i].detail.DelayDetail? && d.rows[i].state == Pending
    ensures (exists now: Instant :: now < d.expiresAt && Settled(d.rows[i], Have(d, i), now).state == Satisfied) <==>
            d.rows[i].detail.releaseAt < d.expiresAt
  {
    assert Sane(d.rows[i], d.expiresAt);
    var release := d.rows[i].detail.releaseAt;
    if release < d.expiresAt { assert Settled(d.rows[i], Have(d, i), release).state == Satisfied; }
  }

  lemma SoleWaitOpens(p: Proposal, dep: Deployment, draws: nat -> Draw, now: Instant)
    requires |p.specs| == 1 && p.specs[0].DelaySpec? && Create(p, dep, draws, now).Ok?
    ensures Create(p, dep, draws, now).value.Some?
    ensures var d := Create(p, dep, draws, now).value.value;
            && AllSane(d) && d.state == Open && |d.rows| == 1 && d.rows[0].state == Pending && d.rows[0].detail.DelayDetail?
            && d.rows[0].detail.releaseAt == now + p.specs[0].duration && d.expiresAt == Micros(Max(now + p.specs[0].duration, p.expiresAt))
  {
    assert p.specs[..0] == [] && OpenRows([], p.context, dep, draws, now, p.expiresAt) == Ok(Opened([], p.expiresAt));
    assert p.specs == [p.specs[0]];
    var issued := Issue(p.specs[0], p.context, dep, draws(0), now).value;
    assert OpenRows(p.specs, p.context, dep, draws, now, p.expiresAt) ==
      Ok(Opened([] + [Row(DelayKind, Pending, Some(Micros(issued.deadline.value)), issued.detail, NoEvidence)], Max(issued.deadline.value, p.expiresAt)));
    OpenedIsSane(p, dep, draws, now);
  }

  lemma SoleRowDecides(d: Decision, t: Instant)
    requires d.state == Open && |d.rows| == 1
    ensures Advance(d, t).state == Allowed <==> t < d.expiresAt && Settled(d.rows[0], Have(d, 0), t).state == Satisfied
  {
    if !IsExpired(d, t) { PassDecidesExactly(d, t); }
  }

  /** The lifetime is stretched to the longest timer and not past it, so a decision
      whose only challenge is a wait has a pass that allows it exactly when the wait ends
      before the lifetime it was given. */
  lemma SoleWaitCanBeMetExactly(p: Proposal, dep: Deployment, draws: nat -> Draw, now: Instant)
    requires |p.specs| == 1 && p.specs[0].DelaySpec? && Create(p, dep, draws, now).Ok?
    ensures Create(p, dep, draws, now).value.Some?
    ensures (exists t: Instant :: Advance(Create(p, dep, draws, now).value.value, t).state == Allowed) <==> now + p.specs[0].duration < Micros(p.expiresAt)
  {
    SoleWaitOpens(p, dep, draws, now);
    var d := Create(p, dep, draws, now).value.value;
    CanBeMetExactly(d, 0);
    forall t: Instant
      ensures Advance(d, t).state == Allowed <==> t < d.expiresAt && Settled(d.rows[0], Have(d, 0), t).state == Satisfied
    {
      SoleRowDecides(d, t);
    }
    if t: Instant :| t < d.expiresAt && Settled(d.rows[0], Have(d, 0), t).state == Satisfied { assert Advance(d, t).state == Allowed; }
  }
}
