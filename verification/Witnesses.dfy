/** Every piece of evidence in the store was handed in by an event of the run: the vote
    of somebody who was then a target, the callback signed under the target's secret, the
    completion, the instant at which a wait had ended. */
module Witnesses {
  import opened Basics
  import opened Approvers
  import opened Policy
  import opened Challenges
  import opened Decisions
  import opened Revision
  import opened Soundness
  import opened Runs

  // ---- what counts as a witness ----

  /** A vote by a subject who met the terms its hash was issued over. */
  ghost predicate VotedIn(ev: Event, id: string, i: nat, approver: string, hash: Digest) {
    ev.Submits? && ev.id == id && ev.ordinal == i && ev.payload.Approval? && ev.caller.id == approver && IsTarget(hash.approvers, ev.caller)
  }

  /** A callback with the issued correlator, signed under the secret the deployment held
      for the target when it came in. */
  ghost predicate SignedIn(ev: Event, id: string, i: nat, detail: Detail, at: Instant, sig: Signature) {
    && detail.ExternalDetail? && ev.Submits? && ev.id == id && ev.ordinal == i && ev.now == at
    && ev.payload == Callback(detail.nonce, detail.verdict, sig) && detail.target in ev.dep.targets
    && sig == Signature(ev.dep.targets[detail.target].secret, id, i, detail.nonce, detail.verdict)
  }

  ghost predicate CompletedIn(ev: Event, id: string, i: nat, at: Instant) {
    ev.Submits? && ev.id == id && ev.ordinal == i && ev.now == at && ev.payload == StepUp(true)
  }

  /** The instant of a pass that reads a decision at an event. */
  function ReadsAt(w: World, ev: Event, id: string): Option<Instant> {
    match ev
    case Passes(n, x, now) => if x == id && n !in w.jobs then Some(now) else None
    case Works(n) => if n in w.jobs && w.jobs[n].phase.Reading? && w.jobs[n].id == id then Some(w.jobs[n].now) else None
    case Sweeps(n, claim) => if claim.copy.context.id == id && n !in w.jobs then Some(claim.now) else None
    case _ => None
  }

  ghost predicate IsWaiting(w: World, id: string, i: nat) {
    && id in w.decisions && i < |w.decisions[id].rows|
    && var row := w.decisions[id].rows[i];
       row.kind == DelayKind && row.detail.DelayDetail? && row.state == Pending
  }

  /** The wait was read pending, with its release behind the reader's clock. */
  ghost predicate FoundOver(events: seq<Event>, m: nat, id: string, i: nat, at: Instant, release: Instant) {
    && m < |events|
    && var w := Run(EMPTY, events[..m]);
       IsWaiting(w, id, i) && w.decisions[id].rows[i].detail.releaseAt == release <= at && ReadsAt(w, events[m], id) == Some(at)
  }

  /** Or a revision moved its release behind the clock. */
  ghost predicate MovedOver(events: seq<Event>, m: nat, id: string, i: nat, at: Instant, release: Instant) {
    && m < |events| && events[m].Revises? && events[m].now == at
    && IsWaiting(Run(EMPTY, events[..m]), id, i)
    && var v := Run(EMPTY, events[..m + 1]);
       && id in v.decisions && i < |v.decisions[id].rows|
       && var row := v.decisions[id].rows[i];
          row.detail.DelayDetail? && row.state == Satisfied && row.detail.releaseAt == release <= at
  }

  ghost predicate Voted(events: seq<Event>, id: string, i: nat, approver: string, hash: Digest) {
    exists m: nat :: m < |events| && VotedIn(events[m], id, i, approver, hash)
  }

  ghost predicate Signed(events: seq<Event>, id: string, i: nat, detail: Detail, at: Instant, sig: Signature) {
    exists m: nat :: m < |events| && SignedIn(events[m], id, i, detail, at, sig)
  }

  ghost predicate Completed(events: seq<Event>, id: string, i: nat, at: Instant) {
    exists m: nat :: m < |events| && CompletedIn(events[m], id, i, at)
  }

  ghost predicate WaitEnded(events: seq<Event>, id: string, i: nat, at: Instant, release: Instant) {
    exists m: nat :: FoundOver(events, m, id, i, at, release) || MovedOver(events, m, id, i, at, release)
  }

  ghost predicate RowWitnessed(events: seq<Event>, id: string, i: nat, detail: Detail, evidence: Evidence) {
    && (detail.QuorumDetail? ==> Hashed(detail.terms) == detail.terms)
    && match evidence
       case NoEvidence => true
       case Waited(at, release) => WaitEnded(events, id, i, at, release)
       case Answered(at, sig) => Signed(events, id, i, detail, at, sig)
       case SteppedUp(at) => Completed(events, id, i, at)
  }

  ghost predicate RowsWitnessed(events: seq<Event>, id: string, rows: seq<Row>) {
    forall i :: 0 <= i < |rows| ==> RowWitnessed(events, id, i, rows[i].detail, rows[i].evidence)
  }

  ghost predicate VotesWitnessed(events: seq<Event>, id: string, approvals: map<(nat, string), Digest>) {
    forall k :: k in approvals ==> Voted(events, id, k.0, k.1, approvals[k])
  }

  ghost predicate DecisionWitnessed(events: seq<Event>, id: string, d: Decision) {
    RowsWitnessed(events, id, d.rows) && VotesWitnessed(events, id, d.approvals)
  }

  /** The rows a pass has yet to reach are as it read them. */
  ghost predicate ReadBy(events: seq<Event>, m: nat, j: Job, k: nat) {
    && m < |events|
    && var w := Run(EMPTY, events[..m]);
       && j.id in w.decisions && ReadsAt(w, events[m], j.id) == Some(j.now) && |w.decisions[j.id].rows| == |j.copy.rows|
       && forall i :: k <= i < |j.copy.rows| ==> w.decisions[j.id].rows[i] == j.copy.rows[i]
  }

  ghost predicate WasRead(events: seq<Event>, j: Job, k: nat) {
    exists m: nat :: ReadBy(events, m, j, k)
  }

  ghost predicate PhaseWitnessed(events: seq<Event>, j: Job) {
    match j.phase
    case Voting(i, approver, hash) => Voted(events, j.id, i, approver, hash)
    case Marking(i, _, detail, evidence) => RowWitnessed(events, j.id, i, detail, evidence)
    case Scanning(k, _, _) => WasRead(events, j, k)
    case Storing(k, _, evidence, _, _) =>
      WasRead(events, j, k) && k < |j.copy.rows| && RowWitnessed(events, j.id, k, j.copy.rows[k].detail, evidence)
    case _ => true
  }

  ghost predicate JobWitnessed(events: seq<Event>, j: Job) {
    DecisionWitnessed(events, j.id, j.copy) && PhaseWitnessed(events, j)
  }

  ghost predicate Witnessed(events: seq<Event>, w: World) {
    && (forall id :: id in w.decisions ==> DecisionWitnessed(events, id, w.decisions[id]))
    && (forall n :: n in w.jobs ==> JobWitnessed(events, w.jobs[n]))
  }

  // ---- a witness stays one ----

  lemma SameThen(events: seq<Event>, ev: Event, m: nat)
    requires m < |events|
    ensures (events + [ev])[m] == events[m] && (events + [ev])[..m] == events[..m] && (events + [ev])[..m + 1] == events[..m + 1]
  {
  }

  lemma WaitStaysEnded(events: seq<Event>, ev: Event, id: string, i: nat, at: Instant, release: Instant)
    requires WaitEnded(events, id, i, at, release)
    ensures WaitEnded(events + [ev], id, i, at, release)
  {
    var m: nat :| FoundOver(events, m, id, i, at, release) || MovedOver(events, m, id, i, at, release);
    SameThen(events, ev, m);
    assert FoundOver(events + [ev], m, id, i, at, release) || MovedOver(events + [ev], m, id, i, at, release);
  }

  lemma VoteStays(events: seq<Event>, ev: Event, id: string, i: nat, approver: string, hash: Digest)
    requires Voted(events, id, i, approver, hash)
    ensures Voted(events + [ev], id, i, approver, hash)
  {
    var m: nat :| m < |events| && VotedIn(events[m], id, i, approver, hash);
    assert (events + [ev])[m] == events[m];
  }

  lemma RowStays(events: seq<Event>, ev: Event, id: string, i: nat, detail: Detail, evidence: Evidence)
    requires RowWitnessed(events, id, i, detail, evidence)
    ensures RowWitnessed(events + [ev], id, i, detail, evidence)
  {
    match evidence
    case NoEvidence =>
    case Waited(at, release) => WaitStaysEnded(events, ev, id, i, at, release);
    case Answered(at, sig) =>
      var m: nat :| m < |events| && SignedIn(events[m], id, i, detail, at, sig);
      assert (events + [ev])[m] == events[m];
    case SteppedUp(at) =>
      var m: nat :| m < |events| && CompletedIn(events[m], id, i, at);
      assert (events + [ev])[m] == events[m];
  }

  lemma DecisionStays(events: seq<Event>, ev: Event, id: string, d: Decision)
    requires DecisionWitnessed(events, id, d)
    ensures DecisionWitnessed(events + [ev], id, d)
  {
    forall i | 0 <= i < |d.rows| ensures RowWitnessed(events + [ev], id, i, d.rows[i].detail, d.rows[i].evidence) {
      RowStays(events, ev, id, i, d.rows[i].detail, d.rows[i].evidence);
    }
    forall k | k in d.approvals ensures Voted(events + [ev], id, k.0, k.1, d.approvals[k]) {
      VoteStays(events, ev, id, k.0, k.1, d.approvals[k]);
    }
  }

  lemma ReadStays(events: seq<Event>, ev: Event, j: Job, k: nat)
    requires WasRead(events, j, k)
    ensures WasRead(events + [ev], j, k)
  {
    var m: nat :| ReadBy(events, m, j, k);
    SameThen(events, ev, m);
    assert ReadBy(events + [ev], m, j, k);
  }

  lemma JobStays(events: seq<Event>, ev: Event, j: Job)
    requires JobWitnessed(events, j)
    ensures JobWitnessed(events + [ev], j)
  {
    DecisionStays(events, ev, j.id, j.copy);
    match j.phase
    case Voting(i, approver, hash) => VoteStays(events, ev, j.id, i, approver, hash);
    case Marking(i, _, detail, evidence) => RowStays(events, ev, j.id, i, detail, evidence);
    case Scanning(k, _, _) => ReadStays(events, ev, j, k);
    case Storing(k, _, evidence, _, _) =>
      ReadStays(events, ev, j, k);
      RowStays(events, ev, j.id, k, j.copy.rows[k].detail, evidence);
    case _ =>
  }

  lemma AllStay(events: seq<Event>, ev: Event, w: World)
    requires Witnessed(events, w)
    ensures Witnessed(events + [ev], w)
  {
    forall id | id in w.decisions ensures DecisionWitnessed(events + [ev], id, w.decisions[id]) { DecisionStays(events, ev, id, w.decisions[id]); }
    forall n | n in w.jobs ensures JobWitnessed(events + [ev], w.jobs[n]) { JobStays(events, ev, w.jobs[n]); }
  }

  // ---- writes ----

  lemma WriteIsWitnessed(evs: seq<Event>, id: string, d: Decision, i: nat, state: Progress, detail: Detail, evidence: Evidence)
    requires DecisionWitnessed(evs, id, d) && RowWitnessed(evs, id, i, detail, evidence)
    ensures DecisionWitnessed(evs, id, WriteRow(d, i, state, detail, evidence))
  {
    var e := WriteRow(d, i, state, detail, evidence);
    forall x | 0 <= x < |e.rows| ensures RowWitnessed(evs, id, x, e.rows[x].detail, e.rows[x].evidence) {
      assert RowWitnessed(evs, id, x, d.rows[x].detail, d.rows[x].evidence);
    }
  }

  lemma WrittenIsWitnessed(evs: seq<Event>, d: Decision, j: Job)
    requires DecisionWitnessed(evs, j.id, d) && JobWitnessed(evs, j)
    ensures DecisionWitnessed(evs, j.id, Written(d, j))
  {
    match j.phase
    case Voting(i, approver, hash) =>
      var e := Written(d, j);
      forall k | k in e.approvals ensures Voted(evs, j.id, k.0, k.1, e.approvals[k]) {}
    case Marking(i, state, detail, evidence) => WriteIsWitnessed(evs, j.id, d, i, state, detail, evidence);
    case Storing(k, state, evidence, _, _) => WriteIsWitnessed(evs, j.id, d, k, state, j.copy.rows[k].detail, evidence);
    case _ =>
  }

  lemma ReadOn(evs: seq<Event>, j: Job, k: nat, h: Job)
    requires WasRead(evs, j, k) && h.id == j.id && h.now == j.now && |h.copy.rows| == |j.copy.rows|
    requires forall i :: k < i < |j.copy.rows| ==> h.copy.rows[i] == j.copy.rows[i]
    ensures WasRead(evs, h, k + 1)
  {
    var m: nat :| ReadBy(evs, m, j, k);
    assert ReadBy(evs, m, h, k + 1);
  }

  /** A wait a pass marks met was read over by it. */
  lemma SettledIsWitnessed(evs: seq<Event>, j: Job, k: nat, have: nat)
    requires WasRead(evs, j, k) && k < |j.copy.rows| && RowWitnessed(evs, j.id, k, j.copy.rows[k].detail, j.copy.rows[k].evidence)
    ensures RowWitnessed(evs, j.id, k, j.copy.rows[k].detail, Settled(j.copy.rows[k], have, j.now).evidence)
  {
    var row := j.copy.rows[k];
    var s := Settled(row, have, j.now);
    if s.evidence != row.evidence {
      var m: nat :| ReadBy(evs, m, j, k);
      assert FoundOver(evs, m, j.id, k, j.now, row.detail.releaseAt);
    }
  }

  lemma ScannedIsWitnessed(evs: seq<Event>, d: Decision, j: Job)
    requires JobWitnessed(evs, j) && j.phase.Scanning? && j.phase.k < |j.copy.rows|
    ensures PhaseWitnessed(evs, NextJob(d, j))
  {
    var h, k := NextJob(d, j), j.phase.k;
    assert RowWitnessed(evs, j.id, k, j.copy.rows[k].detail, j.copy.rows[k].evidence);
    SettledIsWitnessed(evs, j, k, Have(d, k));
    assert h.copy == j.copy;
    ReadOn(evs, j, k, h);
    var m: nat :| ReadBy(evs, m, j, k);
    assert ReadBy(evs, m, h, k);
  }

  lemma NextPhaseIsWitnessed(evs: seq<Event>, d: Decision, j: Job)
    requires JobWitnessed(evs, j)
    ensures PhaseWitnessed(evs, NextJob(d, j))
  {
    match j.phase
    case Scanning(k, _, _) => if k < |j.copy.rows| { ScannedIsWitnessed(evs, d, j); }
    case Storing(k, _, _, _, _) => ReadOn(evs, j, k, NextJob(d, j));
    case Counting(i) => if i < |j.copy.rows| { assert RowWitnessed(evs, j.id, i, j.copy.rows[i].detail, j.copy.rows[i].evidence); }
    case _ =>
  }

  lemma NextJobIsWitnessed(evs: seq<Event>, d: Decision, j: Job)
    requires JobWitnessed(evs, j)
    ensures JobWitnessed(evs, NextJob(d, j))
  {
    WrittenIsWitnessed(evs, j.copy, j);
    NextPhaseIsWitnessed(evs, d, j);
  }

  // ---- events ----

  lemma PutIsWitnessed(evs: seq<Event>, w: World, id: string, e: Decision, at: Instant)
    requires Witnessed(evs, w) && id in w.decisions && DecisionWitnessed(evs, id, e)
    ensures Witnessed(evs, Put(w, id, e, at))
  {
  }

  lemma JobIsWitnessed(evs: seq<Event>, w: World, n: nat, j: Job)
    requires Witnessed(evs, w) && JobWitnessed(evs, j)
    ensures Witnessed(evs, w.(jobs := w.jobs[n := j]))
  {
  }

  lemma StartIsWitnessed(events: seq<Event>, ev: Event, w: World, id: string, now: Instant)
    requires w == Run(EMPTY, events) && Tracked(w) && Witnessed(events + [ev], w) && id in w.decisions && ReadsAt(w, ev, id) == Some(now)
    ensures JobWitnessed(events + [ev], StartPass(w.decisions[id], Stamp(w, id), now))
  {
    var evs, j := events + [ev], StartPass(w.decisions[id], Stamp(w, id), now);
    assert evs[..|events|] == events && evs[|events|] == ev;
    assert ReadBy(evs, |events|, j, 0);
  }

  lemma AcceptedIsWitnessed(events: seq<Event>, ev: Event, d: Decision, stamp: nat)
    requires ev.Submits? && d.context.id == ev.id && DecisionWitnessed(events + [ev], ev.id, d)
    requires Accepted(d, ev.ordinal, ev.dep, ev.caller, ev.payload, ev.now).Ok?
    ensures JobWitnessed(events + [ev], Job(ev.id, ev.now, d, stamp, Accepted(d, ev.ordinal, ev.dep, ev.caller, ev.payload, ev.now).value))
  {
    var evs, i := events + [ev], ev.ordinal;
    assert evs[|events|] == ev;
    var row := d.rows[i];
    assert RowWitnessed(evs, ev.id, i, row.detail, row.evidence);
    var phase := Accepted(d, i, ev.dep, ev.caller, ev.payload, ev.now).value;
    match row.detail
    case QuorumDetail(_, _, _) => assert VotedIn(evs[|events|], ev.id, i, phase.approver, phase.hash);
    case DelayDetail(_, _, _, _) =>
    case ExternalDetail(_, _, _, _, _) => assert SignedIn(evs[|events|], ev.id, i, phase.detail, ev.now, ev.payload.signature);
    case MfaDetail(_, _, _) => assert CompletedIn(evs[|events|], ev.id, i, ev.now);
  }

  lemma WorkIsWitnessed(events: seq<Event>, ev: Event, w: World)
    requires w == Run(EMPTY, events) && Tracked(w) && Witnessed(events + [ev], w) && ev.Works? && ev.n in w.jobs && w.jobs[ev.n].id in w.decisions
    ensures Witnessed(events + [ev], Work(w, ev.n))
  {
    var evs, j := events + [ev], w.jobs[ev.n];
    var d := w.decisions[j.id];
    assert JobDated(w, j);
    if j.phase.Reading? {
      StartIsWitnessed(events, ev, w, j.id, j.now);
      JobIsWitnessed(evs, w, ev.n, StartPass(d, Stamp(w, j.id), j.now));
    } else {
      WrittenIsWitnessed(evs, d, j);
      NextJobIsWitnessed(evs, d, j);
      PutIsWitnessed(evs, w, j.id, Written(d, j), j.now);
      JobIsWitnessed(evs, Put(w, j.id, Written(d, j), j.now), ev.n, NextJob(d, j));
    }
  }

  lemma SweepIsWitnessed(events: seq<Event>, ev: Event, w: World)
    requires w == Run(EMPTY, events) && Tracked(w) && Witnessed(events + [ev], w) && ev.Sweeps?
    ensures Witnessed(events + [ev], Step(w, ev))
  {
    var id := ev.claim.copy.context.id;
    if ev.claim in w.claims && id in w.decisions {
      if IsExpired(ev.claim.copy, ev.claim.now) {
        PutIsWitnessed(events + [ev], w, id, Close(w.decisions[id], Expire), ev.claim.now);
      } else if ev.n !in w.jobs {
        StartIsWitnessed(events, ev, w, id, ev.claim.now);
        JobIsWitnessed(events + [ev], w, ev.n, StartPass(w.decisions[id], Stamp(w, id), ev.claim.now));
      }
    }
  }

  // ---- revisions ----

  /** A rebound row keeps its evidence, loses it, or is a wait moved behind the clock. */
  lemma ReboundEvidence(d: Decision, i: nat, spec: Spec, env: Setting, now: Instant)
    requires i < |d.rows| && d.rows[i].kind == KindOf(spec) && RebindRow(d, i, spec, env, now).Ok?
    ensures var a, b := d.rows[i], RebindRow(d, i, spec, env, now).value.row;
            && (b.detail.QuorumDetail? ==> b == a || Hashed(b.detail.terms) == b.detail.terms)
            && (|| b == a || b.evidence == NoEvidence
                || (a.detail.ExternalDetail? && b.detail.ExternalDetail? && b.detail.(failure := a.detail.failure) == a.detail && b.evidence == a.evidence)
                || (a.detail.DelayDetail? && b.detail.DelayDetail? && b.evidence == a.evidence)
                || (a.kind == DelayKind && a.detail.DelayDetail? && a.state == Pending && b.detail.DelayDetail? && b.state == Satisfied
                    && b.evidence == Waited(now, b.detail.releaseAt) && b.detail.releaseAt <= now))
  {
  }

  lemma ReboundIsWitnessed(evs: seq<Event>, d: Decision, i: nat, spec: Spec, env: Setting, now: Instant)
    requires i < |d.rows| && d.rows[i].kind == KindOf(spec) && RebindRow(d, i, spec, env, now).Ok?
    requires RowWitnessed(evs, d.context.id, i, d.rows[i].detail, d.rows[i].evidence)
    requires var b := RebindRow(d, i, spec, env, now).value.row;
             b.evidence != d.rows[i].evidence && b.evidence.Waited? ==> WaitEnded(evs, d.context.id, i, b.evidence.at, b.evidence.release)
    ensures var b := RebindRow(d, i, spec, env, now).value.row; RowWitnessed(evs, d.context.id, i, b.detail, b.evidence)
  {
    ReboundEvidence(d, i, spec, env, now);
    var a, b := d.rows[i], RebindRow(d, i, spec, env, now).value.row;
    if a.evidence.Answered? && b.evidence == a.evidence {
      var m: nat :| m < |evs| && SignedIn(evs[m], d.context.id, i, a.detail, a.evidence.at, a.evidence.signature);
      assert SignedIn(evs[m], d.context.id, i, b.detail, b.evidence.at, b.evidence.signature);
    }
  }

  lemma {:induction false} ReopenedAreWitnessed(evs: seq<Event>, specs: seq<Spec>, d: Decision, env: Setting, now: Instant)
    requires ReopenRows(specs, d, env, now).Ok?
    ensures RowsWitnessed(evs, d.context.id, ReopenRows(specs, d, env, now).value)
  {
    if specs != [] { ReopenedAreWitnessed(evs, specs[..|specs| - 1], d, env, now); }
  }

  ghost predicate EndsWait(d: Decision, e: Decision, i: nat, now: Instant)
    requires i < |e.rows|
  {
    && i < |d.rows| && d.rows[i].kind == DelayKind && d.rows[i].detail.DelayDetail? && d.rows[i].state == Pending
    && e.rows[i].detail.DelayDetail? && e.rows[i].state == Satisfied && e.rows[i].detail.releaseAt <= now
  }

  /** The rows a revision leaves, when the wait it may have ended is on record. */
  lemma RevaluatedRows(evs: seq<Event>, d: Decision, j: Judgment, env: Setting, now: Instant)
    requires d.state == Open && j.Kept? && Revaluate(d, j, env, now).Ok? && RowsWitnessed(evs, d.context.id, d.rows)
    requires var e := Revaluate(d, j, env, now).value;
             forall i :: 0 <= i < |e.rows| && EndsWait(d, e, i, now) ==> WaitEnded(evs, d.context.id, i, now, e.rows[i].detail.releaseAt)
    ensures RowsWitnessed(evs, d.context.id, Revaluate(d, j, env, now).value.rows)
  {
    var r, e := Rejudged(d, j), Revaluate(d, j, env, now).value;
    if SameShape(r.rows, j.specs) {
      var rebound := RebindRows(r, j.specs, env, now, |j.specs|).value;
      forall i | 0 <= i < |e.rows| ensures RowWitnessed(evs, d.context.id, i, e.rows[i].detail, e.rows[i].evidence) {
        assert RebindRow(r, i, j.specs[i], env, now) == Ok(rebound[i]) && e.rows[i] == rebound[i].row;
        assert RowWitnessed(evs, d.context.id, i, d.rows[i].detail, d.rows[i].evidence);
        ReboundEvidence(r, i, j.specs[i], env, now);
        ReboundIsWitnessed(evs, r, i, j.specs[i], env, now);
      }
    } else {
      ReopenedAreWitnessed(evs, j.specs, r, env, now);
    }
  }

  lemma RevisedIsWitnessed(events: seq<Event>, ev: Event, w: World, id: string)
    requires w == Run(EMPTY, events) && Tracked(w) && Witnessed(events + [ev], w) && ev.Revises? && id in w.decisions
    requires NoRepeats(ev.ids) && ReviseWorld(w, ev.ids, ev.judge, ev.envs, ev.now).Ok?
    ensures var v := Step(w, ev); id in v.decisions && DecisionWitnessed(events + [ev], id, v.decisions[id])
  {
    var evs, v := events + [ev], Step(w, ev);
    ReviseWorldFrames(w, ev.ids, ev.judge, ev.envs, ev.now);
    var d, e := w.decisions[id], v.decisions[id];
    assert Revised(d, e, ev.judge, ev.envs(id), ev.now);
    if e != d {
      var j, env := ev.judge(d.context), ev.envs(id);
      ApprovalsOnlyShrink(d, j, env, ev.now);
      assert VotesWitnessed(evs, id, e.approvals);
      if j.Kept? {
        forall i | 0 <= i < |e.rows| && EndsWait(d, e, i, ev.now) ensures WaitEnded(evs, id, i, ev.now, e.rows[i].detail.releaseAt) {
          StepIsNext(events, ev);
          assert MovedOver(evs, |events|, id, i, ev.now, e.rows[i].detail.releaseAt);
        }
        RevaluatedRows(evs, d, j, env, ev.now);
      }
    }
  }

  lemma StepIsNext(events: seq<Event>, ev: Event)
    ensures var evs := events + [ev];
            && evs[|events|] == ev && Run(EMPTY, evs[..|events|]) == Run(EMPTY, events)
            && Run(EMPTY, evs[..|events| + 1]) == Run(EMPTY, evs) == Step(Run(EMPTY, events), ev)
  {
    var evs := events + [ev];
    assert evs[..|events|] == events && evs[..|events| + 1] == evs;
  }

  lemma RevisesIsWitnessed(events: seq<Event>, ev: Event, w: World)
    requires w == Run(EMPTY, events) && Tracked(w) && Witnessed(events + [ev], w) && ev.Revises?
    ensures Witnessed(events + [ev], Step(w, ev))
  {
    if NoRepeats(ev.ids) && ReviseWorld(w, ev.ids, ev.judge, ev.envs, ev.now).Ok? {
      var v := Step(w, ev);
      ReviseWorldFrames(w, ev.ids, ev.judge, ev.envs, ev.now);
      forall id | id in v.decisions ensures DecisionWitnessed(events + [ev], id, v.decisions[id]) { RevisedIsWitnessed(events, ev, w, id); }
    }
  }

  lemma OpensIsWitnessed(events: seq<Event>, ev: Event, w: World)
    requires Witnessed(events + [ev], w) && ev.Opens?
    ensures Witnessed(events + [ev], Step(w, ev))
  {
    var r := Create(ev.proposal, ev.dep, ev.draws, ev.now);
    if r.Ok? && r.value.Some? && ev.proposal.context.id !in w.decisions {
      OpenedAreBlank(ev.proposal.specs, ev.proposal.context, ev.dep, ev.draws, ev.now, ev.proposal.expiresAt);
      OpenRowsAreFresh(ev.proposal.specs, ev.proposal.context, ev.dep, ev.draws, ev.now, ev.proposal.expiresAt);
      var d := r.value.value;
      forall i | 0 <= i < |d.rows| ensures RowWitnessed(events + [ev], ev.proposal.context.id, i, d.rows[i].detail, d.rows[i].evidence) {
        assert Fresh(d.rows[i], ev.proposal.context);
      }
    }
  }

  lemma {:induction false} OpenedAreBlank(specs: seq<Spec>, c: Context, dep: Deployment, draws: nat -> Draw, now: Instant, expiresAt: Instant)
    requires OpenRows(specs, c, dep, draws, now, expiresAt).Ok? && OpenRows(specs, c, dep, draws, now, expiresAt).value.Opened?
    ensures var o := OpenRows(specs, c, dep, draws, now, expiresAt).value; forall i :: 0 <= i < |o.rows| ==> o.rows[i].evidence == NoEvidence
  {
    if specs != [] { OpenedAreBlank(specs[..|specs| - 1], c, dep, draws, now, expiresAt); }
  }

  lemma StepIsWitnessed(events: seq<Event>, ev: Event, w: World)
    requires w == Run(EMPTY, events) && Tracked(w) && Witnessed(events, w)
    ensures Witnessed(events + [ev], Step(w, ev))
  {
    AllStay(events, ev, w);
    match ev
    case Opens(_, _, _, _) => OpensIsWitnessed(events, ev, w);
    case Submits(n, id, i, dep, s, p, now) =>
      if n !in w.jobs && id in w.decisions && Accepted(w.decisions[id], i, dep, s, p, now).Ok? {
        AcceptedIsWitnessed(events, ev, w.decisions[id], Stamp(w, id));
        JobIsWitnessed(events + [ev], w, n, Job(id, now, w.decisions[id], Stamp(w, id), Accepted(w.decisions[id], i, dep, s, p, now).value));
      }
    case Passes(n, id, now) =>
      if n !in w.jobs && id in w.decisions {
        StartIsWitnessed(events, ev, w, id, now);
        JobIsWitnessed(events + [ev], w, n, StartPass(w.decisions[id], Stamp(w, id), now));
      }
    case Works(n) => if n in w.jobs && w.jobs[n].id in w.decisions { WorkIsWitnessed(events, ev, w); }
    case Claims(_, _) =>
    case Sweeps(_, _) => SweepIsWitnessed(events, ev, w);
    case Revises(_, _, _, _) => RevisesIsWitnessed(events, ev, w);
  }

  lemma OneMoreIsWitnessed(events: seq<Event>, ev: Event)
    requires Witnessed(events, Run(EMPTY, events))
    ensures Witnessed(events + [ev], Run(EMPTY, events + [ev]))
  {
    RunTracks(EMPTY, events);
    StepIsWitnessed(events, ev, Run(EMPTY, events));
    StepIsNext(events, ev);
  }

  lemma {:induction false} WitnessedUpTo(events: seq<Event>, m: nat)
    requires m <= |events|
    ensures Witnessed(events[..m], Run(EMPTY, events[..m]))
  {
    if m > 0 {
      WitnessedUpTo(events, m - 1);
      OneMoreIsWitnessed(events[..m - 1], events[m - 1]);
      assert events[..m - 1] + [events[m - 1]] == events[..m];
    }
  }

  /** In every run, however its writes interleave, all evidence in the store and in every
      copy has its witness. */
  lemma EvidenceIsWitnessed(events: seq<Event>)
    ensures Witnessed(events, Run(EMPTY, events))
  {
    WitnessedUpTo(events, |events|);
    assert events[..|events|] == events;
  }
}
