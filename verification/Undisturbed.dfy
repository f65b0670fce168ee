/** A decision nobody writes over: where every operation on it finds it as it read it, its
    rows and votes agree with each other at every moment, and its resolution stands. */
module Undisturbed {
  import opened Basics
  import opened Approvers
  import opened Challenges
  import opened Decisions
  import opened Revision
  import opened Soundness
  import opened Settling
  import opened Runs
  import opened Always
  import opened Allows

  // ---- the condition ----

  /** What an event must find, of one decision and nothing else: the decision as the
      operation read and left it, and content its row gives back. */
  ghost predicate Orderly(w: World, ev: Event, id: string) {
    && (WorksOn(w, ev, id) && !w.jobs[ev.n].phase.Done? ==> w.jobs[ev.n].stamp == Stamp(w, id))
    && (ev.Opens? && ev.proposal.context.id == id ==> Storable(ev.proposal.context))
    && (Reaches(w, ev, id) && ev.judge(w.decisions[id].context).Kept? ==>
         Storable(Rejudged(w.decisions[id], ev.judge(w.decisions[id].context)).context))
  }

  ghost predicate AllOrderly(events: seq<Event>, id: string) {
    forall m :: 0 <= m < |events| ==> Orderly(Run(EMPTY, events[..m]), events[m], id)
  }

  // ---- what it keeps ----

  /** What a resolution rests on. */
  ghost predicate Rests(e: Decision, at: Instant) {
    match e.state
    case Open => true
    case Allowed => at < e.expiresAt && forall i :: 0 <= i < |e.rows| ==> e.rows[i].state == Satisfied && Supported(e.rows[i], e.context.id, i, Have(e, i))
    case Denied => at < e.expiresAt
    case Expired => e.expiresAt <= at
    case Withdrawn => false
  }

  /** How one orderly write may move one decision. */
  ghost predicate Moves(d: Decision, e: Decision, at: Instant) {
    && Sound(e) && e.context.id == d.context.id && e.expiresAt == d.expiresAt
    && (d.state != Open ==> e == d) && (d.state == Open ==> Rests(e, at))
  }

  /** What an operation under way knows, from its own copy. */
  ghost predicate Fits(j: Job) {
    && Sound(j.copy) && j.copy.state == Open && j.copy.context.id == j.id && j.now < j.copy.expiresAt
    && var rows := j.copy.rows;
       match j.phase
       case Voting(i, approver, hash) =>
         && i < |rows| && rows[i].detail.QuorumDetail? && rows[i].detail.hash == Some(hash)
         && (!rows[i].detail.terms.ClaimTerms? ==> approver in rows[i].detail.terms.members)
       case Counting(i) => i < |rows| && rows[i].detail.QuorumDetail?
       case Marking(i, state, detail, evidence) =>
         i < |rows| && Sound(WriteRow(j.copy, i, state, detail, evidence)) && (rows[i].detail.DelayDetail? ==> Cancels(rows[i], state, detail))
       case Scanning(k, met, lost) => k <= |rows| && met == Met(rows[..k]) && lost == Lost(rows[..k])
       case Storing(k, state, evidence, met, lost) =>
         && k < |rows| && rows[k].(state := state, evidence := evidence) == Settled(rows[k], Have(j.copy, k), j.now)
         && met == Met(rows[..k]) && lost == Lost(rows[..k])
       case _ => true
  }

  /** The only submission a wait takes. */
  ghost predicate Cancels(row: Row, state: Progress, detail: Detail)
    requires row.detail.DelayDetail?
  {
    row.state == Pending && state == Failed && detail.DelayDetail? && detail.cancelled.Some? && detail == row.detail.(cancelled := detail.cancelled)
  }

  ghost predicate Readies(j: Job) {
    j.phase.Reading? || j.phase.Done? || Fits(j)
  }

  /** Its log row is the decision as it stands. */
  ghost predicate LogStands(w: World, id: string) {
    forall n :: 0 <= n < |w.log| && w.log[n].rested.context.id == id ==>
      id in w.decisions && w.decisions[id] == w.log[n].rested && Rests(w.log[n].rested, w.log[n].at)
  }

  ghost predicate Held(w: World, id: string) {
    && Steady(w) && LogStands(w, id)
    && (id in w.decisions ==> Sound(w.decisions[id]))
    && (forall n :: n in w.jobs && w.jobs[n].id == id ==> Readies(w.jobs[n]))
  }

  // ---- each write ----

  lemma VerdictRests(e: Decision, at: Instant)
    requires Sound(e) && e.state == Open && at < e.expiresAt
    ensures Rests(CloseBy(e, Verdict(e.rows)), at)
  {
    if Verdict(e.rows) == Some(Satisfy) {
      var f := Close(e, Satisfy);
      forall i | 0 <= i < |f.rows| ensures f.rows[i].state == Satisfied && Supported(f.rows[i], f.context.id, i, Have(f, i)) {
        assert RowSound(e.rows[i], e.context, e.expiresAt, i, Have(e, i));
      }
    }
  }

  lemma ResolveMoves(j: Job)
    requires Fits(j) && j.phase.Scanning? && j.phase.k == |j.copy.rows|
    ensures Moves(j.copy, Written(j.copy, j), j.now)
  {
    var d := j.copy;
    assert d.rows[..|d.rows|] == d.rows;
    TallyIsVerdict(d.rows);
    VerdictRests(d, j.now);
    if Verdict(d.rows).Some? { CloseIsSound(d, Verdict(d.rows).value); }
    assert Written(d, j) == CloseBy(d, Verdict(d.rows));
  }

  /** Storing the row of a pass is settling that row. */
  lemma StoringSettles(j: Job)
    requires Fits(j) && j.phase.Storing?
    ensures Written(j.copy, j) == Settle(j.copy, {j.phase.k}, j.now)
  {
    var k := j.phase.k;
    var e, f := Written(j.copy, j), Settle(j.copy, {k}, j.now);
    assert e.rows == f.rows;
  }

  lemma FitMoves(j: Job)
    requires Fits(j)
    ensures Moves(j.copy, Written(j.copy, j), j.now)
  {
    match j.phase
    case Voting(i, approver, hash) => RecordIsSound(j.copy, i, approver, hash);
    case Storing(k, _, _, _, _) =>
      StoringSettles(j);
      SettleIsSound(j.copy, {k}, j.now);
    case Scanning(k, _, _) => if k == |j.copy.rows| { ResolveMoves(j); }
    case _ =>
  }

  lemma CountingFits(j: Job)
    requires Fits(j) && j.phase.Counting?
    ensures Fits(NextJob(j.copy, j))
  {
    var i, d := j.phase.i, j.copy;
    var row := d.rows[i];
    StateIsSound(d, i, if Have(d, i) >= row.detail.threshold then Satisfied else Pending);
  }

  lemma ScanningFits(j: Job)
    requires Fits(j) && j.phase.Scanning? && j.phase.k < |j.copy.rows|
    ensures Fits(NextJob(j.copy, j))
  {
    TallyOneMore(j.copy.rows, j.phase.k);
    SoundIsRead(j.copy, j.phase.k);
  }

  lemma SoundIsRead(d: Decision, k: nat)
    requires Sound(d) && k < |d.rows|
    ensures !Stuck(d.rows[k])
  {
    assert RowSound(d.rows[k], d.context, d.expiresAt, k, Have(d, k));
  }

  lemma StoringFits(j: Job)
    requires Fits(j) && j.phase.Storing?
    ensures Fits(NextJob(j.copy, j))
  {
    var k := j.phase.k;
    FitMoves(j);
    var e := Written(j.copy, j);
    assert e.rows[..k] == j.copy.rows[..k];
    TallyOneMore(e.rows, k);
  }

  lemma VotingFits(j: Job)
    requires Fits(j) && j.phase.Voting?
    ensures Fits(NextJob(j.copy, j))
  {
    FitMoves(j);
  }

  lemma FitNext(j: Job)
    requires Fits(j) && !j.phase.Done? && !j.phase.Reading?
    ensures var k := NextJob(j.copy, j); k.phase.Done? || k.phase.Reading? || Fits(k)
  {
    match j.phase
    case Voting(_, _, _) => VotingFits(j);
    case Counting(_) => CountingFits(j);
    case Scanning(k, _, _) => if k < |j.copy.rows| { ScanningFits(j); }
    case Storing(_, _, _, _, _) => StoringFits(j);
    case _ =>
  }

  lemma AcceptedFits(d: Decision, i: nat, dep: Deployment, s: Subject, p: Payload, now: Instant, stamp: nat)
    requires Sound(d) && Accepted(d, i, dep, s, p, now).Ok?
    ensures Fits(Job(d.context.id, now, d, stamp, Accepted(d, i, dep, s, p, now).value))
  {
    assert RowSound(d.rows[i], d.context, d.expiresAt, i, Have(d, i));
    if !d.rows[i].detail.QuorumDetail? {
      SubmitIsSound(d, i, dep, s, p, now, false);
      var m := Accepted(d, i, dep, s, p, now).value;
      assert WriteRow(d, i, m.state, m.detail, m.evidence) == Submit(d, i, dep, s, p, now, false).value;
    }
  }

  lemma RevaluateMoves(d: Decision, j: Judgment, env: Setting, now: Instant)
    requires Sound(d) && d.state == Open && !IsExpired(d, now) && Revaluate(d, j, env, now).Ok?
    requires j.Kept? ==> Storable(Rejudged(d, j).context)
    ensures Moves(d, Revaluate(d, j, env, now).value, now)
  {
    RevaluateIsSound(d, j, env, now);
    if j.Kept? {
      RebindKeepsFrame(Rejudged(d, j), j.specs, env, now);
      ReboundIsSound(d, j, env, now);
      var e := RebindChallenges(Rejudged(d, j), j.specs, env, now).value;
      assert Refiled(e) == e;
      VerdictRests(e, now);
    }
  }

  // ---- each event ----

  lemma FreshReadies(w: World, ev: Event, n: nat, j: Job)
    requires Steady(w) && (Begun(w, ev, n, j) || Begins(w, ev, n, j)) && (j.id in w.decisions ==> Sound(w.decisions[j.id]))
    ensures Readies(j)
  {
    FreshCopies(w, ev, n, j);
    assert j.copy.rows[..0] == [];
    if Begun(w, ev, n, j) { AcceptedFits(w.decisions[j.id], ev.ordinal, ev.dep, ev.caller, ev.payload, ev.now, Stamp(w, j.id)); }
  }

  lemma JobReadies(w: World, ev: Event, id: string, n: nat, j: Job)
    requires Held(w, id) && Orderly(w, ev, id) && Starts(w, ev, n, j) && j.id == id
    ensures Readies(j)
  {
    if n in w.jobs && j == w.jobs[n] {
    } else if Continues(w, ev, n, j) {
      assert Stamped(w, w.jobs[n]);
      if !w.jobs[n].phase.Done? { FitNext(w.jobs[n]); }
    } else {
      FreshReadies(w, ev, n, j);
    }
  }

  /** An allow has every challenge satisfied and supported. */
  ghost predicate Upheld(e: Decision) {
    e.state == Allowed ==> forall i :: 0 <= i < |e.rows| ==> e.rows[i].state == Satisfied && Supported(e.rows[i], e.context.id, i, Have(e, i))
  }

  /** One event moves the decision as an orderly write may. */
  lemma KnownMoves(w: World, ev: Event, id: string, e: Decision)
    requires Held(w, id) && Orderly(w, ev, id) && id in w.decisions && e == Made(w, ev, id)
    requires Reaches(w, ev, id) ==> Revaluate(w.decisions[id], ev.judge(w.decisions[id].context), ev.envs(id), ev.now) == Ok(e)
    ensures Sound(e) && (w.decisions[id].state != Open ==> e == w.decisions[id]) && (w.decisions[id].state == Open ==> Upheld(e))
  {
    var d := w.decisions[id];
    if WorksOn(w, ev, id) {
      var j := w.jobs[ev.n];
      assert Stamped(w, j);
      if !j.phase.Done? { FitMoves(j); }
    } else if Reaches(w, ev, id) {
      RevaluateMoves(d, ev.judge(d.context), ev.envs(id), ev.now);
    } else {
      CloseIsSound(d, Expire);
    }
  }

  lemma StepIsSound(w: World, ev: Event, v: World, id: string)
    requires Held(w, id) && Orderly(w, ev, id) && v == Step(w, ev) && id in v.decisions
    ensures Sound(v.decisions[id])
    ensures id in w.decisions ==> if w.decisions[id].state != Open then v.decisions[id] == w.decisions[id] else Upheld(v.decisions[id])
  {
    if id in w.decisions {
      StepMakes(w, ev, id);
      KnownMoves(w, ev, id, v.decisions[id]);
    } else {
      NewIsOpened(w, ev, id);
      CreateIsSoundExactly(ev.proposal, ev.dep, ev.draws, ev.now);
    }
  }

  lemma LoggedRests(v: World, entry: Entry)
    requires Logged(v, entry) && Upheld(entry.rested)
    ensures Rests(entry.rested, entry.at)
  {
  }

  /** A log row is written with the decision it is about. */
  lemma LoggedIsMade(w: World, ev: Event, v: World, k: nat)
    requires Tracked(w) && v == Step(w, ev) && |w.log| <= k < |v.log|
    ensures var id := v.log[k].rested.context.id;
            id in w.decisions && w.decisions[id].state == Open && id in v.decisions && v.decisions[id] == v.log[k].rested
  {
    StepLogs(w, ev, k);
    StepMakes(w, ev, v.log[k].rested.context.id);
  }

  lemma StepLogStands(w: World, ev: Event, v: World, id: string)
    requires Held(w, id) && Orderly(w, ev, id) && v == Step(w, ev) && Tracked(v) && w.log <= v.log
    ensures LogStands(v, id)
  {
    forall n | 0 <= n < |v.log| && v.log[n].rested.context.id == id
      ensures id in v.decisions && v.decisions[id] == v.log[n].rested && Rests(v.log[n].rested, v.log[n].at)
    {
      assert Logged(v, v.log[n]);
      StepIsSound(w, ev, v, id);
      if n < |w.log| {
        assert v.log[n] == w.log[n] && Logged(w, w.log[n]);
      } else {
        LoggedIsMade(w, ev, v, n);
        LoggedRests(v, v.log[n]);
      }
    }
  }

  lemma StepIsHeld(w: World, ev: Event, id: string)
    requires Held(w, id) && Orderly(w, ev, id)
    ensures Held(Step(w, ev), id)
  {
    var v := Step(w, ev);
    StepStaysSteady(w, ev);
    StepTracks(w, ev);
    StepLogStands(w, ev, v, id);
    if id in v.decisions { StepIsSound(w, ev, v, id); }
    forall n | n in v.jobs && v.jobs[n].id == id ensures Readies(v.jobs[n]) {
      StepStarts(w, ev, n);
      JobReadies(w, ev, id, n, v.jobs[n]);
    }
  }

  // ---- every run ----

  lemma {:induction false} HeldUpTo(events: seq<Event>, id: string, m: nat)
    requires m <= |events| && AllOrderly(events, id)
    ensures Held(Run(EMPTY, events[..m]), id)
  {
    if m > 0 {
      HeldUpTo(events, id, m - 1);
      StepIsHeld(Run(EMPTY, events[..m - 1]), events[m - 1], id);
      PrefixSteps(EMPTY, events, m - 1);
    }
  }

  /** In a run in which nobody writes over what somebody else changed of one decision,
      whatever happens to the others, that decision is sound: every satisfied row rests
      on evidence and votes that are there, every approval is bound, and once it is
      resolved its one log row is the decision as it stands, rows and votes included. */
  lemma UndisturbedIsSound(events: seq<Event>, id: string)
    requires AllOrderly(events, id) && id in Run(EMPTY, events).decisions
    ensures var w := Run(EMPTY, events);
            && Sound(w.decisions[id])
            && (w.decisions[id].state != Open ==> exists n :: 0 <= n < |w.log| && w.log[n].rested == w.decisions[id] && Rests(w.log[n].rested, w.log[n].at))
  {
    HeldUpTo(events, id, |events|);
    assert events[..|events|] == events;
    var w := Run(EMPTY, events);
    if w.decisions[id].state != Open {
      assert HasEntry(w, id);
      var n :| 0 <= n < |w.log| && w.log[n].rested.context.id == id;
      assert w.log[n].rested == w.decisions[id];
    }
  }

  // ---- writes on a resolved decision ----

  /** A late write finds it is not needed: the vote is there, the row already reads so, or
      there is no such row any more. */
  predicate Idle(d: Decision, j: Job) {
    match j.phase
    case Voting(i, approver, _) => i < |d.rows| ==> (i, approver) in d.approvals
    case Marking(i, state, detail, _) => RowReads(d, i, state, detail)
    case Storing(k, state, _, _, _) => k < |j.copy.rows| ==> RowReads(d, k, state, j.copy.rows[k].detail)
    case _ => true
  }

  predicate RowReads(d: Decision, i: nat, state: Progress, detail: Detail) {
    i < |d.rows| ==> d.rows[i].state == state && d.rows[i].detail == detail
  }

  /** The same in every stored column; evidence is not one. */
  ghost predicate SameColumns(d: Decision, e: Decision) {
    && e.(rows := d.rows) == d && |e.rows| == |d.rows|
    && forall i :: 0 <= i < |d.rows| ==> e.rows[i].(evidence := d.rows[i].evidence) == d.rows[i]
  }

  lemma WriteStandsExactly(d: Decision, i: nat, state: Progress, detail: Detail, evidence: Evidence)
    requires d.state != Open
    ensures SameColumns(d, WriteRow(d, i, state, detail, evidence)) <==> RowReads(d, i, state, detail)
  {
    if i < |d.rows| && !RowReads(d, i, state, detail) {
      var e := WriteRow(d, i, state, detail, evidence);
      assert e.rows[i].(evidence := d.rows[i].evidence) != d.rows[i];
    }
  }

  /** One transaction leaves a resolved decision as it was exactly when it was not
      needed. */
  lemma LateWriteStandsExactly(d: Decision, j: Job)
    requires d.state != Open
    ensures SameColumns(d, Written(d, j)) <==> Idle(d, j)
  {
    match j.phase
    case Voting(i, approver, hash) =>
      if i < |d.rows| && (i, approver) !in d.approvals { assert (i, approver) in Written(d, j).approvals; }
    case Marking(i, state, detail, evidence) => WriteStandsExactly(d, i, state, detail, evidence);
    case Storing(k, state, evidence, _, _) => if k < |j.copy.rows| { WriteStandsExactly(d, k, state, j.copy.rows[k].detail, evidence); }
    case _ =>
  }

  ghost predicate AllIdle(w: World, events: seq<Event>, id: string) {
    forall m :: 0 <= m < |events| ==> StepIdle(Run(w, events[..m]), events[m], id)
  }

  ghost predicate StepIdle(w: World, ev: Event, id: string) {
    WorksOn(w, ev, id) && id in w.decisions ==> Idle(w.decisions[id], w.jobs[ev.n])
  }

  ghost predicate Stands(w: World, events: seq<Event>, id: string)
    requires id in w.decisions
  {
    forall m :: 0 <= m <= |events| ==> StandsAt(w, Run(w, events[..m]), id)
  }

  ghost predicate StandsAt(w: World, v: World, id: string)
    requires id in w.decisions
  {
    id in v.decisions && SameColumns(w.decisions[id], v.decisions[id])
  }

  lemma StepStandsExactly(w: World, ev: Event, id: string)
    requires id in w.decisions && w.decisions[id].state != Open
    ensures id in Step(w, ev).decisions && (SameColumns(w.decisions[id], Step(w, ev).decisions[id]) <==> StepIdle(w, ev, id))
  {
    StepMakes(w, ev, id);
    if WorksOn(w, ev, id) { LateWriteStandsExactly(w.decisions[id], w.jobs[ev.n]); }
  }

  lemma {:induction false} StandsUpTo(w: World, events: seq<Event>, id: string, m: nat)
    requires id in w.decisions && w.decisions[id].state != Open && m <= |events| && AllIdle(w, events, id)
    ensures StandsAt(w, Run(w, events[..m]), id)
  {
    if m > 0 {
      StandsUpTo(w, events, id, m - 1);
      assert StepIdle(Run(w, events[..m - 1]), events[m - 1], id);
      StepStandsExactly(Run(w, events[..m - 1]), events[m - 1], id);
      PrefixSteps(w, events, m - 1);
    }
  }

  lemma ColumnsBetween(d: Decision, e: Decision, f: Decision)
    requires SameColumns(d, e) && SameColumns(d, f)
    ensures SameColumns(e, f)
  {
  }

  /** From any state of the store: a resolved decision stays as it is, rows and votes
      included, through any events whatever, exactly when every operation that still
      writes to it finds its write not needed. Nothing else can change it. */
  lemma ResolvedStandsExactly(w: World, events: seq<Event>, id: string)
    requires id in w.decisions && w.decisions[id].state != Open
    ensures Stands(w, events, id) <==> AllIdle(w, events, id)
  {
    if AllIdle(w, events, id) {
      forall m | 0 <= m <= |events| ensures StandsAt(w, Run(w, events[..m]), id) { StandsUpTo(w, events, id, m); }
    }
    if Stands(w, events, id) {
      forall m | 0 <= m < |events| ensures StepIdle(Run(w, events[..m]), events[m], id) {
        assert StandsAt(w, Run(w, events[..m]), id) && StandsAt(w, Run(w, events[..m + 1]), id);
        ColumnsBetween(w.decisions[id], Run(w, events[..m]).decisions[id], Run(w, events[..m + 1]).decisions[id]);
        PrefixSteps(w, events, m);
        StepStandsExactly(Run(w, events[..m]), events[m], id);
      }
    }
  }
}
