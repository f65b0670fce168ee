/** Whole runs of the service by any number of instances. A submission and a pass are
    operations that read a copy and then write, one transaction at a time, whatever is
    in the store by then; a sweep acts on a claim taken earlier; a revision is one
    transaction. An operation that is never continued is one that stopped. */
module Runs {
  import opened Basics
  import opened Approvers
  import opened Challenges
  import opened Decisions
  import opened Revision
  import opened Soundness

  // ---- the store ----

  /** One resolution row of the audit log, with the decision it was written for. */
  datatype Entry = Entry(to: DecisionState, at: Instant, rested: Decision)

  /** A sweeper's copy of a due decision and the instant it was claimed at. */
  datatype Claim = Claim(copy: Decision, now: Instant)

  /** What an operation does next. */
  datatype Phase =
    | Voting(i: nat, approver: string, hash: Digest)
    | Counting(i: nat)
    | Marking(i: nat, state: Progress, detail: Detail, evidence: Evidence)
    | Reading
    | Scanning(k: nat, met: nat, lost: nat)
    | Storing(k: nat, state: Progress, evidence: Evidence, met: nat, lost: nat)
    | Done

  /** An operation under way: the decision as it read it with its own writes on top, how
      often the row had changed by then, and what comes next. */
  datatype Job = Job(id: string, now: Instant, copy: Decision, stamp: nat, phase: Phase)

  datatype World = World(
    decisions: map<string, Decision>, log: seq<Entry>, claims: set<Claim>, stamps: map<string, nat>, jobs: map<nat, Job>)

  const EMPTY := World(map[], [], {}, map[], map[])

  /** How often a decision has changed. */
  function Stamp(w: World, id: string): nat {
    if id in w.stamps then w.stamps[id] else 0
  }

  /** A decision rewritten; leaving the open state writes its log row with it. */
  function Put(w: World, id: string, e: Decision, at: Instant): World
    requires id in w.decisions
  {
    if e == w.decisions[id] then w
    else
      var log := if w.decisions[id].state == Open && e.state != Open then w.log + [Entry(e.state, at, e)] else w.log;
      w.(decisions := w.decisions[id := e], log := log, stamps := w.stamps[id := Stamp(w, id) + 1])
  }

  // ---- submissions and passes ----

  /** Service.Submit up to its first write, on the decision as it was read: what the
      handler will record. */
  function Accepted(d: Decision, i: nat, dep: Deployment, s: Subject, p: Payload, now: Instant): (r: Result<Phase>)
    ensures r.Ok? ==> i < |d.rows| && StillCollecting(d, i, now).Ok? && !Foreign(d.rows[i])
  {
    if i >= |d.rows| then Err(NoSuchChallenge)
    else
      var _ :- StillCollecting(d, i, now);
      var row := d.rows[i];
      if Foreign(row) then Err(InvalidPayload) else
      match row.detail
      case QuorumDetail(_, _, _) =>
        var vote :- Approve(row.detail, d.context, s, p);
        Ok(Voting(i, vote.0, vote.1))
      case DelayDetail(_, _, _, _) =>
        var detail :- CancelDelay(row.detail, s, p, now);
        Ok(Marking(i, Failed, detail, row.evidence))
      case ExternalDetail(_, _, _, _, _) =>
        var detail :- AcceptCallback(row.detail, d.context.id, i, dep, p);
        Ok(Marking(i, ExternalState(detail.verdict), detail, Answered(now, p.signature)))
      case MfaDetail(_, _, _) =>
        var detail :- CompleteMfa(row.detail, p, now);
        Ok(Marking(i, Satisfied, detail, SteppedUp(now)))
  }

  /** A pass starts from a fresh read, and leaves a resolved or expired decision alone. */
  function StartPass(d: Decision, stamp: nat, now: Instant): Job {
    Job(d.context.id, now, d, stamp, if d.state != Open || IsExpired(d, now) then Done else Scanning(0, 0, 0))
  }

  function Counted(st: Progress): (nat, nat) {
    if st == Satisfied then (1, 0) else if st == Pending then (0, 0) else (0, 1)
  }

  /** The decision after the operation's next write, if its next step writes. */
  function Written(d: Decision, j: Job): Decision {
    match j.phase
    case Voting(i, approver, hash) => if i < |d.rows| then RecordApproval(d, i, approver, hash) else d
    case Marking(i, state, detail, evidence) => WriteRow(d, i, state, detail, evidence)
    case Storing(k, state, evidence, _, _) =>
      if k < |j.copy.rows| then WriteRow(d, k, state, j.copy.rows[k].detail, evidence) else d
    case Scanning(k, met, lost) =>
      if k < |j.copy.rows| then d
      else if lost > 0 then Close(d, Fail)
      else if met == |j.copy.rows| then Close(d, Satisfy)
      else d
    case _ => d
  }

  /** What comes after it. Votes are counted in the store; all else is read from the
      operation's own copy. A row that cannot be read, or is gone when it is to be
      written, ends the operation. */
  function NextPhase(d: Decision, j: Job): Phase {
    match j.phase
    case Voting(i, _, _) => if i < |d.rows| then Counting(i) else Done
    case Counting(i) =>
      if i < |j.copy.rows| && j.copy.rows[i].detail.QuorumDetail? then
        var row := j.copy.rows[i];
        Marking(i, if Have(d, i) >= row.detail.threshold then Satisfied else Pending, row.detail, row.evidence)
      else Done
    case Marking(i, _, _, _) => if i < |d.rows| then Reading else Done
    case Scanning(k, met, lost) =>
      if k >= |j.copy.rows| || Stuck(j.copy.rows[k]) then Done
      else
        var row := Settled(j.copy.rows[k], Have(d, k), j.now);
        if row.state != j.copy.rows[k].state then Storing(k, row.state, row.evidence, met, lost)
        else Scanning(k + 1, met + Counted(row.state).0, lost + Counted(row.state).1)
    case Storing(k, state, _, met, lost) =>
      if k < |d.rows| then Scanning(k + 1, met + Counted(state).0, lost + Counted(state).1) else Done
    case _ => Done
  }

  function NextJob(d: Decision, j: Job): Job {
    j.(copy := Written(j.copy, j), stamp := if Written(d, j) == d then j.stamp else j.stamp + 1, phase := NextPhase(d, j))
  }

  /** One transaction of an operation. */
  function Work(w: World, n: nat): World
    requires n in w.jobs && w.jobs[n].id in w.decisions
  {
    var j := w.jobs[n];
    var d := w.decisions[j.id];
    if j.phase.Reading? then w.(jobs := w.jobs[n := StartPass(d, Stamp(w, j.id), j.now)])
    else
      var v := Put(w, j.id, Written(d, j), j.now);
      v.(jobs := v.jobs[n := NextJob(d, j)])
  }

  // ---- revisions ----

  predicate NoRepeats(ids: seq<string>) {
    forall i, j :: 0 <= i < j < |ids| ==> ids[i] != ids[j]
  }

  /** Apply in the revaluating mode: every listed decision that is open, or none. */
  function ReviseWorld(w: World, ids: seq<string>, judge: Context -> Judgment, envs: string -> Setting, now: Instant): Result<World>
    decreases |ids|
  {
    if ids == [] then Ok(w)
    else
      var next :- ReviseNext(w, ids[0], judge, envs(ids[0]), now);
      ReviseWorld(next, ids[1..], judge, envs, now)
  }

  function ReviseNext(w: World, id: string, judge: Context -> Judgment, env: Setting, now: Instant): Result<World> {
    if id !in w.decisions || w.decisions[id].state != Open || IsExpired(w.decisions[id], now) then Ok(w)
    else
      var d := w.decisions[id];
      var e :- Revaluate(d, judge(d.context), env, now);
      Ok(Put(w, id, e, now))
  }

  // ---- events ----

  datatype Event =
    | Opens(proposal: Proposal, dep: Deployment, draws: nat -> Draw, now: Instant)
    | Submits(n: nat, id: string, ordinal: nat, dep: Deployment, caller: Subject, payload: Payload, now: Instant)
    | Passes(n: nat, id: string, now: Instant)
    | Works(n: nat)
    | Claims(id: string, now: Instant)
    | Sweeps(n: nat, claim: Claim)
    | Revises(ids: seq<string>, judge: Context -> Judgment, envs: string -> Setting, now: Instant)

  predicate IsDue(d: Decision, now: Instant) {
    d.state == Open && Passed(d.next, now)
  }

  function Step(w: World, ev: Event): World {
    match ev
    case Opens(p, dep, draws, now) =>
      var r := Create(p, dep, draws, now);
      if r.Ok? && r.value.Some? && p.context.id !in w.decisions then w.(decisions := w.decisions[p.context.id := r.value.value]) else w
    case Submits(n, id, i, dep, s, p, now) =>
      if n in w.jobs || id !in w.decisions || Accepted(w.decisions[id], i, dep, s, p, now).Err? then w
      else w.(jobs := w.jobs[n := Job(id, now, w.decisions[id], Stamp(w, id), Accepted(w.decisions[id], i, dep, s, p, now).value)])
    case Passes(n, id, now) =>
      if n in w.jobs || id !in w.decisions then w else w.(jobs := w.jobs[n := StartPass(w.decisions[id], Stamp(w, id), now)])
    case Works(n) =>
      if n in w.jobs && w.jobs[n].id in w.decisions then Work(w, n) else w
    case Claims(id, now) =>
      if id in w.decisions && IsDue(w.decisions[id], now) then w.(claims := w.claims + {Claim(w.decisions[id], now)}) else w
    case Sweeps(n, claim) =>
      var id := claim.copy.context.id;
      if claim !in w.claims || id !in w.decisions then w
      else if IsExpired(claim.copy, claim.now) then Put(w, id, Close(w.decisions[id], Expire), claim.now)
      else if n in w.jobs then w
      else w.(jobs := w.jobs[n := StartPass(w.decisions[id], Stamp(w, id), claim.now)])
    case Revises(ids, judge, envs, now) =>
      var r := ReviseWorld(w, ids, judge, envs, now);
      if NoRepeats(ids) && r.Ok? then r.value else w
  }

  function Run(w: World, events: seq<Event>): World
    decreases |events|
  {
    if events == [] then w else Step(Run(w, events[..|events| - 1]), events[|events| - 1])
  }

  // ---- what holds however the writes interleave ----

  /** When a resolution may be written. */
  predicate Timely(to: DecisionState, expiresAt: Instant, at: Instant) {
    match to
    case Allowed => at < expiresAt
    case Denied => at < expiresAt
    case Expired => expiresAt <= at
    case _ => false
  }

  /** A log row says what state its decision is in, and was written in time. */
  ghost predicate Logged(w: World, entry: Entry) {
    && entry.rested.context.id in w.decisions
    && var d := w.decisions[entry.rested.context.id];
       && d.state == entry.to == entry.rested.state && d.expiresAt == entry.rested.expiresAt && Timely(entry.to, d.expiresAt, entry.at)
  }

  ghost predicate LogIsTrue(w: World) {
    forall n :: 0 <= n < |w.log| ==> Logged(w, w.log[n])
  }

  ghost predicate LogsOnce(log: seq<Entry>) {
    forall m, n :: 0 <= m < n < |log| ==> log[m].rested.context.id != log[n].rested.context.id
  }

  ghost predicate HasEntry(w: World, id: string) {
    exists n :: 0 <= n < |w.log| && w.log[n].rested.context.id == id
  }

  ghost predicate AllLogged(w: World) {
    forall id :: id in w.decisions && w.decisions[id].state != Open ==> HasEntry(w, id)
  }

  ghost predicate AllFiled(w: World) {
    forall id :: id in w.decisions ==> w.decisions[id].context.id == id && Filed(w.decisions[id])
  }

  /** A stale copy still has the right expiry: nothing moves it after creation. */
  ghost predicate Dated(w: World, copy: Decision) {
    copy.context.id in w.decisions && w.decisions[copy.context.id].expiresAt == copy.expiresAt
  }

  ghost predicate ClaimsHold(w: World) {
    forall c :: c in w.claims ==> Dated(w, c.copy)
  }

  ghost predicate JobDated(w: World, j: Job) {
    j.copy.context.id == j.id && Dated(w, j.copy) && (j.phase.Scanning? || j.phase.Storing? ==> j.now < j.copy.expiresAt)
  }

  ghost predicate JobsDated(w: World) {
    forall n :: n in w.jobs ==> JobDated(w, w.jobs[n])
  }

  ghost predicate Tracked(w: World) {
    AllFiled(w) && LogIsTrue(w) && LogsOnce(w.log) && AllLogged(w) && ClaimsHold(w) && JobsDated(w)
  }

  /** How one write may move one decision, whatever else it does to its rows. */
  ghost predicate Shifts(d: Decision, e: Decision, at: Instant) {
    && Filed(e) && e.context.id == d.context.id && e.expiresAt == d.expiresAt
    && (d.state != Open ==> e.state == d.state)
    && (d.state == Open && e.state != Open ==> Timely(e.state, e.expiresAt, at))
  }

  lemma PutLogs(w: World, id: string, e: Decision, at: Instant)
    requires LogIsTrue(w) && LogsOnce(w.log) && AllLogged(w) && id in w.decisions && w.decisions[id].context.id == id && Shifts(w.decisions[id], e, at)
    ensures var v := Put(w, id, e, at); LogIsTrue(v) && LogsOnce(v.log) && AllLogged(v)
  {
    var d, v := w.decisions[id], Put(w, id, e, at);
    if e != d {
      forall n | 0 <= n < |v.log| ensures Logged(v, v.log[n]) {
        if n < |w.log| { assert v.log[n] == w.log[n] && Logged(w, w.log[n]); }
      }
      forall m, n | 0 <= m < n < |v.log| ensures v.log[m].rested.context.id != v.log[n].rested.context.id {
        assert v.log[m] == w.log[m] && Logged(w, w.log[m]);
      }
      forall x | x in v.decisions && v.decisions[x].state != Open ensures HasEntry(v, x) {
        if x == id && d.state == Open {
          assert v.log[|w.log|].rested.context.id == id;
        } else {
          assert HasEntry(w, x);
          var n :| 0 <= n < |w.log| && w.log[n].rested.context.id == x;
          assert v.log[n] == w.log[n];
        }
      }
    }
  }

  lemma PutDates(w: World, id: string, e: Decision, at: Instant)
    requires ClaimsHold(w) && JobsDated(w) && id in w.decisions && e.expiresAt == w.decisions[id].expiresAt
    ensures var v := Put(w, id, e, at); ClaimsHold(v) && JobsDated(v)
  {
    var v := Put(w, id, e, at);
    forall c | c in v.claims ensures Dated(v, c.copy) { assert Dated(w, c.copy); }
    forall n | n in v.jobs ensures JobDated(v, v.jobs[n]) { assert JobDated(w, w.jobs[n]); }
  }

  lemma PutTracks(w: World, id: string, e: Decision, at: Instant)
    requires Tracked(w) && id in w.decisions && Shifts(w.decisions[id], e, at)
    ensures Tracked(Put(w, id, e, at))
  {
    PutLogs(w, id, e, at);
    PutDates(w, id, e, at);
  }

  /** What one step leaves alone. */
  ghost predicate Extends(w: World, v: World) {
    && w.log <= v.log
    && forall id :: id in w.decisions ==>
         && id in v.decisions && v.decisions[id].expiresAt == w.decisions[id].expiresAt
         && (w.decisions[id].state != Open ==> v.decisions[id].state == w.decisions[id].state)
  }

  lemma PutExtends(w: World, id: string, e: Decision, at: Instant)
    requires id in w.decisions && Shifts(w.decisions[id], e, at)
    ensures Extends(w, Put(w, id, e, at))
  {
  }

  lemma ExtensionsChain(u: World, v: World, w: World)
    requires Extends(u, v) && Extends(v, w)
    ensures Extends(u, w)
  {
  }

  lemma JobsTrack(w: World, n: nat, j: Job)
    requires Tracked(w) && JobDated(w, j)
    ensures Tracked(w.(jobs := w.jobs[n := j])) && Extends(w, w.(jobs := w.jobs[n := j]))
  {
    var v := w.(jobs := w.jobs[n := j]);
    forall m | 0 <= m < |v.log| ensures Logged(v, v.log[m]) { assert Logged(w, w.log[m]); }
    forall x | x in v.decisions && v.decisions[x].state != Open ensures HasEntry(v, x) { assert HasEntry(w, x); }
    forall c | c in v.claims ensures Dated(v, c.copy) { assert Dated(w, c.copy); }
    forall m | m in v.jobs ensures JobDated(v, v.jobs[m]) { if m != n { assert JobDated(w, w.jobs[m]); } }
  }

  // ---- each operation shifts ----

  lemma WriteRowShifts(d: Decision, i: nat, state: Progress, detail: Detail, evidence: Evidence, at: Instant)
    requires Filed(d)
    ensures Shifts(d, WriteRow(d, i, state, detail, evidence), at)
  {
  }

  lemma CloseShifts(d: Decision, t: Transition, at: Instant)
    requires Filed(d) && Timely(To(t), d.expiresAt, at)
    ensures Shifts(d, Close(d, t), at)
  {
  }

  lemma VoteShifts(d: Decision, i: nat, approver: string, hash: Digest, at: Instant)
    requires Filed(d)
    ensures Shifts(d, RecordApproval(d, i, approver, hash), at)
  {
  }

  lemma WrittenShifts(d: Decision, j: Job)
    requires Filed(d) && j.copy.expiresAt == d.expiresAt && (j.phase.Scanning? ==> j.now < d.expiresAt)
    ensures Shifts(d, Written(d, j), j.now)
  {
    match j.phase
    case Voting(i, approver, hash) => VoteShifts(d, i, approver, hash, j.now);
    case Marking(i, state, detail, evidence) => WriteRowShifts(d, i, state, detail, evidence, j.now);
    case Storing(k, state, evidence, _, _) =>
      if k < |j.copy.rows| { WriteRowShifts(d, k, state, j.copy.rows[k].detail, evidence, j.now); }
    case Scanning(_, _, _) =>
      CloseShifts(d, Fail, j.now);
      CloseShifts(d, Satisfy, j.now);
    case _ =>
  }

  lemma NextJobKeepsDate(d: Decision, j: Job)
    ensures var k := NextJob(d, j);
            && k.id == j.id && k.now == j.now && k.copy.context.id == j.copy.context.id && k.copy.expiresAt == j.copy.expiresAt
            && (k.phase.Scanning? || k.phase.Storing? ==> j.phase.Scanning? || j.phase.Storing?)
  {
  }

  lemma RevaluateKeepsDate(d: Decision, j: Judgment, env: Setting, now: Instant)
    requires d.state == Open && Revaluate(d, j, env, now).Ok?
    ensures var e := Revaluate(d, j, env, now).value;
            e.context.id == d.context.id && e.expiresAt == d.expiresAt && e.state in {Open, Allowed, Denied}
  {
    if j.Kept? { RebindKeepsFrame(Rejudged(d, j), j.specs, env, now); }
  }

  lemma ReviseNextTracks(w: World, id: string, judge: Context -> Judgment, env: Setting, now: Instant)
    requires Tracked(w) && ReviseNext(w, id, judge, env, now).Ok?
    ensures Tracked(ReviseNext(w, id, judge, env, now).value) && Extends(w, ReviseNext(w, id, judge, env, now).value)
    ensures ReviseNext(w, id, judge, env, now).value.jobs == w.jobs
  {
    if id in w.decisions && w.decisions[id].state == Open && !IsExpired(w.decisions[id], now) {
      var d := w.decisions[id];
      var e := Revaluate(d, judge(d.context), env, now).value;
      RevaluateIsFiled(d, judge(d.context), env, now);
      RevaluateKeepsDate(d, judge(d.context), env, now);
      PutTracks(w, id, e, now);
      PutExtends(w, id, e, now);
    }
  }

  /** What a revision made of one decision of the world it started from. */
  ghost predicate Revised(d: Decision, e: Decision, judge: Context -> Judgment, env: Setting, now: Instant) {
    e == d || (d.state == Open && !IsExpired(d, now) && Revaluate(d, judge(d.context), env, now) == Ok(e))
  }

  lemma ReviseNextFrames(w: World, id: string, judge: Context -> Judgment, env: Setting, now: Instant)
    requires ReviseNext(w, id, judge, env, now).Ok?
    ensures var v := ReviseNext(w, id, judge, env, now).value;
            && v.decisions.Keys == w.decisions.Keys && v.jobs == w.jobs
            && (forall x :: x in w.decisions && x != id ==> v.decisions[x] == w.decisions[x])
            && (id in w.decisions ==> Revised(w.decisions[id], v.decisions[id], judge, env, now))
  {
  }

  lemma {:induction false} ReviseWorldFrames(w: World, ids: seq<string>, judge: Context -> Judgment, envs: string -> Setting, now: Instant)
    requires NoRepeats(ids) && ReviseWorld(w, ids, judge, envs, now).Ok?
    ensures var v := ReviseWorld(w, ids, judge, envs, now).value;
            && v.decisions.Keys == w.decisions.Keys && v.jobs == w.jobs
            && (forall x :: x in w.decisions && x !in ids ==> v.decisions[x] == w.decisions[x])
            && (forall x :: x in w.decisions ==> Revised(w.decisions[x], v.decisions[x], judge, envs(x), now))
    decreases |ids|
  {
    if ids != [] {
      ReviseNextFrames(w, ids[0], judge, envs(ids[0]), now);
      var next := ReviseNext(w, ids[0], judge, envs(ids[0]), now).value;
      ReviseWorldFrames(next, ids[1..], judge, envs, now);
      assert ids == [ids[0]] + ids[1..];
      assert ids[0] !in ids[1..];
    }
  }

  ghost predicate Applies(w: World, ev: Event) {
    ev.Revises? && NoRepeats(ev.ids) && ReviseWorld(w, ev.ids, ev.judge, ev.envs, ev.now).Ok?
  }

  /** A revision reaches this decision. */
  ghost predicate Reaches(w: World, ev: Event, id: string) {
    Applies(w, ev) && id in ev.ids && id in w.decisions && w.decisions[id].state == Open && !IsExpired(w.decisions[id], ev.now)
  }

  /** An operation under way may write this decision. */
  predicate WorksOn(w: World, ev: Event, id: string) {
    ev.Works? && ev.n in w.jobs && w.jobs[ev.n].id == id && !w.jobs[ev.n].phase.Reading?
  }

  lemma {:induction false} ReviseWorldReaches(w: World, ids: seq<string>, judge: Context -> Judgment, envs: string -> Setting, now: Instant, id: string)
    requires NoRepeats(ids) && ReviseWorld(w, ids, judge, envs, now).Ok?
    requires id in ids && id in w.decisions && w.decisions[id].state == Open && !IsExpired(w.decisions[id], now)
    ensures var v := ReviseWorld(w, ids, judge, envs, now).value;
            id in v.decisions && Revaluate(w.decisions[id], judge(w.decisions[id].context), envs(id), now) == Ok(v.decisions[id])
    decreases |ids|
  {
    var next := ReviseNext(w, ids[0], judge, envs(ids[0]), now).value;
    assert ids == [ids[0]] + ids[1..] && ids[0] !in ids[1..];
    if id == ids[0] {
      ReviseWorldFrames(next, ids[1..], judge, envs, now);
    } else {
      ReviseNextFrames(w, ids[0], judge, envs(ids[0]), now);
      ReviseWorldReaches(next, ids[1..], judge, envs, now, id);
    }
  }

  /** What one event makes of one decision that is there. */
  ghost function Made(w: World, ev: Event, id: string): Decision
    requires id in w.decisions
  {
    var d := w.decisions[id];
    if WorksOn(w, ev, id) then Written(d, w.jobs[ev.n])
    else if ev.Sweeps? && ev.claim in w.claims && ev.claim.copy.context.id == id && IsExpired(ev.claim.copy, ev.claim.now) then Close(d, Expire)
    else if Reaches(w, ev, id) && Revaluate(d, ev.judge(d.context), ev.envs(id), ev.now).Ok? then Revaluate(d, ev.judge(d.context), ev.envs(id), ev.now).value
    else d
  }

  lemma RevisesMake(w: World, ev: Event, id: string)
    requires ev.Revises? && id in w.decisions
    ensures id in Step(w, ev).decisions && Step(w, ev).decisions[id] == Made(w, ev, id)
    ensures Reaches(w, ev, id) ==> Revaluate(w.decisions[id], ev.judge(w.decisions[id].context), ev.envs(id), ev.now) == Ok(Step(w, ev).decisions[id])
  {
    if Applies(w, ev) {
      ReviseWorldFrames(w, ev.ids, ev.judge, ev.envs, ev.now);
      if Reaches(w, ev, id) { ReviseWorldReaches(w, ev.ids, ev.judge, ev.envs, ev.now, id); }
    }
  }

  lemma StepMakes(w: World, ev: Event, id: string)
    requires id in w.decisions
    ensures id in Step(w, ev).decisions && Step(w, ev).decisions[id] == Made(w, ev, id)
    ensures Reaches(w, ev, id) ==> Revaluate(w.decisions[id], ev.judge(w.decisions[id].context), ev.envs(id), ev.now) == Ok(Step(w, ev).decisions[id])
  {
    if ev.Revises? { RevisesMake(w, ev, id); }
  }

  /** Nothing but an opening adds a decision. */
  lemma NewIsOpened(w: World, ev: Event, id: string)
    requires id !in w.decisions && id in Step(w, ev).decisions
    ensures ev.Opens? && ev.proposal.context.id == id && Create(ev.proposal, ev.dep, ev.draws, ev.now) == Ok(Some(Step(w, ev).decisions[id]))
  {
    if Applies(w, ev) { ReviseWorldFrames(w, ev.ids, ev.judge, ev.envs, ev.now); }
  }

  /** Where an operation under way comes from: it was there, it has gone one step on, or
      it starts from a decision as it is stored now. */
  ghost predicate Starts(w: World, ev: Event, n: nat, j: Job) {
    (n in w.jobs && j == w.jobs[n]) || Continues(w, ev, n, j) || Begun(w, ev, n, j) || Begins(w, ev, n, j)
  }

  ghost predicate Continues(w: World, ev: Event, n: nat, j: Job) {
    ev == Works(n) && n in w.jobs && w.jobs[n].id in w.decisions && !w.jobs[n].phase.Reading? && j == NextJob(w.decisions[w.jobs[n].id], w.jobs[n])
  }

  /** A submission, and a pass. */
  ghost predicate Begun(w: World, ev: Event, n: nat, j: Job) {
    && ev.Submits? && n == ev.n && ev.id in w.decisions && Accepted(w.decisions[ev.id], ev.ordinal, ev.dep, ev.caller, ev.payload, ev.now).Ok?
    && j == Job(ev.id, ev.now, w.decisions[ev.id], Stamp(w, ev.id), Accepted(w.decisions[ev.id], ev.ordinal, ev.dep, ev.caller, ev.payload, ev.now).value)
  }

  ghost predicate Begins(w: World, ev: Event, n: nat, j: Job) {
    && (ev.Passes? || ev.Sweeps? || (ev == Works(n) && n in w.jobs && w.jobs[n].phase.Reading?))
    && exists id, now :: id in w.decisions && j == StartPass(w.decisions[id], Stamp(w, id), now)
  }

  lemma StepStarts(w: World, ev: Event, n: nat)
    requires n in Step(w, ev).jobs
    ensures Starts(w, ev, n, Step(w, ev).jobs[n])
  {
    if Applies(w, ev) { ReviseWorldFrames(w, ev.ids, ev.judge, ev.envs, ev.now); }
  }

  /** An operation that starts holds the decision as it is stored. */
  lemma FreshCopies(w: World, ev: Event, n: nat, j: Job)
    requires Tracked(w) && (Begun(w, ev, n, j) || Begins(w, ev, n, j))
    ensures j.id in w.decisions && j.copy == w.decisions[j.id] && !j.phase.Storing? && (j.phase.Marking? ==> Begun(w, ev, n, j))
  {
  }

  lemma {:induction false} ReviseWorldTracks(w: World, ids: seq<string>, judge: Context -> Judgment, envs: string -> Setting, now: Instant)
    requires Tracked(w) && ReviseWorld(w, ids, judge, envs, now).Ok?
    ensures Tracked(ReviseWorld(w, ids, judge, envs, now).value) && Extends(w, ReviseWorld(w, ids, judge, envs, now).value)
    decreases |ids|
  {
    if ids != [] {
      ReviseNextTracks(w, ids[0], judge, envs(ids[0]), now);
      var next := ReviseNext(w, ids[0], judge, envs(ids[0]), now).value;
      ReviseWorldTracks(next, ids[1..], judge, envs, now);
      ExtensionsChain(w, next, ReviseWorld(w, ids, judge, envs, now).value);
    }
  }

  lemma WorkTracks(w: World, n: nat)
    requires Tracked(w) && n in w.jobs && w.jobs[n].id in w.decisions
    ensures Tracked(Work(w, n)) && Extends(w, Work(w, n))
  {
    var j := w.jobs[n];
    var d := w.decisions[j.id];
    assert JobDated(w, j);
    if j.phase.Reading? {
      JobsTrack(w, n, StartPass(d, Stamp(w, j.id), j.now));
    } else {
      WrittenShifts(d, j);
      PutTracks(w, j.id, Written(d, j), j.now);
      PutExtends(w, j.id, Written(d, j), j.now);
      NextJobKeepsDate(d, j);
      var v := Put(w, j.id, Written(d, j), j.now);
      assert JobDated(v, j);
      JobsTrack(v, n, NextJob(d, j));
      ExtensionsChain(w, v, Work(w, n));
    }
  }

  lemma OpensTrack(w: World, id: string, d: Decision)
    requires Tracked(w) && id !in w.decisions && Filed(d) && d.context.id == id && d.state == Open
    ensures Tracked(w.(decisions := w.decisions[id := d])) && Extends(w, w.(decisions := w.decisions[id := d]))
  {
    OpensLog(w, id, d);
    OpensDated(w, id, d);
  }

  lemma OpensLog(w: World, id: string, d: Decision)
    requires LogIsTrue(w) && LogsOnce(w.log) && AllLogged(w) && id !in w.decisions && d.state == Open
    ensures var v := w.(decisions := w.decisions[id := d]); LogIsTrue(v) && LogsOnce(v.log) && AllLogged(v)
  {
    var v := w.(decisions := w.decisions[id := d]);
    forall n | 0 <= n < |v.log| ensures Logged(v, v.log[n]) { assert Logged(w, w.log[n]); }
    forall x | x in v.decisions && v.decisions[x].state != Open ensures HasEntry(v, x) { assert HasEntry(w, x); }
  }

  lemma OpensDated(w: World, id: string, d: Decision)
    requires ClaimsHold(w) && JobsDated(w) && id !in w.decisions
    ensures var v := w.(decisions := w.decisions[id := d]); ClaimsHold(v) && JobsDated(v)
  {
    var v := w.(decisions := w.decisions[id := d]);
    forall c | c in v.claims ensures Dated(v, c.copy) { assert Dated(w, c.copy); }
    forall m | m in v.jobs ensures JobDated(v, v.jobs[m]) { assert JobDated(w, w.jobs[m]); }
  }

  lemma CreateIsFiled(p: Proposal, dep: Deployment, draws: nat -> Draw, now: Instant)
    requires Create(p, dep, draws, now).Ok? && Create(p, dep, draws, now).value.Some?
    ensures var d := Create(p, dep, draws, now).value.value; Filed(d) && d.context.id == p.context.id && d.state == Open
  {
    OpenRowsAreFresh(p.specs, p.context, dep, draws, now, p.expiresAt);
    var d := Create(p, dep, draws, now).value.value;
    forall i | 0 <= i < |d.rows| && Untimed(d.rows[i].kind) ensures d.rows[i].deadline.None? {
      assert Fresh(d.rows[i], p.context);
    }
  }

  lemma ClaimTracks(w: World, id: string, now: Instant)
    requires Tracked(w) && id in w.decisions
    ensures var v := w.(claims := w.claims + {Claim(w.decisions[id], now)}); Tracked(v) && Extends(w, v)
  {
    var v := w.(claims := w.claims + {Claim(w.decisions[id], now)});
    forall n | 0 <= n < |v.log| ensures Logged(v, v.log[n]) { assert Logged(w, w.log[n]); }
    forall x | x in v.decisions && v.decisions[x].state != Open ensures HasEntry(v, x) { assert HasEntry(w, x); }
    forall c | c in v.claims ensures Dated(v, c.copy) { if c in w.claims { assert Dated(w, c.copy); } }
    forall m | m in v.jobs ensures JobDated(v, v.jobs[m]) { assert JobDated(w, w.jobs[m]); }
  }

  lemma SweepTracks(w: World, n: nat, claim: Claim)
    requires Tracked(w)
    ensures Tracked(Step(w, Sweeps(n, claim))) && Extends(w, Step(w, Sweeps(n, claim)))
  {
    var id := claim.copy.context.id;
    if claim in w.claims && id in w.decisions {
      assert Dated(w, claim.copy);
      var d := w.decisions[id];
      if IsExpired(claim.copy, claim.now) {
        CloseShifts(d, Expire, claim.now);
        PutTracks(w, id, Close(d, Expire), claim.now);
        PutExtends(w, id, Close(d, Expire), claim.now);
      } else if n !in w.jobs {
        JobsTrack(w, n, StartPass(d, Stamp(w, id), claim.now));
      }
    }
  }

  lemma OpeningTracks(w: World, ev: Event)
    requires Tracked(w) && ev.Opens?
    ensures Tracked(Step(w, ev)) && Extends(w, Step(w, ev))
  {
    var r, id := Create(ev.proposal, ev.dep, ev.draws, ev.now), ev.proposal.context.id;
    if r.Ok? && r.value.Some? && id !in w.decisions {
      CreateIsFiled(ev.proposal, ev.dep, ev.draws, ev.now);
      OpensTrack(w, id, r.value.value);
    }
  }

  lemma SubmissionTracks(w: World, ev: Event)
    requires Tracked(w) && ev.Submits?
    ensures Tracked(Step(w, ev)) && Extends(w, Step(w, ev))
  {
    if ev.n !in w.jobs && ev.id in w.decisions && Accepted(w.decisions[ev.id], ev.ordinal, ev.dep, ev.caller, ev.payload, ev.now).Ok? {
      JobsTrack(w, ev.n, Job(ev.id, ev.now, w.decisions[ev.id], Stamp(w, ev.id), Accepted(w.decisions[ev.id], ev.ordinal, ev.dep, ev.caller, ev.payload, ev.now).value));
    }
  }

  lemma StepTracks(w: World, ev: Event)
    requires Tracked(w)
    ensures Tracked(Step(w, ev)) && Extends(w, Step(w, ev))
  {
    match ev
    case Opens(_, _, _, _) => OpeningTracks(w, ev);
    case Submits(_, _, _, _, _, _, _) => SubmissionTracks(w, ev);
    case Passes(n, id, now) =>
      if n !in w.jobs && id in w.decisions { JobsTrack(w, n, StartPass(w.decisions[id], Stamp(w, id), now)); }
    case Works(n) => if n in w.jobs && w.jobs[n].id in w.decisions { WorkTracks(w, n); }
    case Claims(id, now) => if id in w.decisions && IsDue(w.decisions[id], now) { ClaimTracks(w, id, now); }
    case Sweeps(n, claim) => SweepTracks(w, n, claim);
    case Revises(ids, judge, envs, now) =>
      if ReviseWorld(w, ids, judge, envs, now).Ok? { ReviseWorldTracks(w, ids, judge, envs, now); }
  }

  lemma {:induction false} RunTracks(w: World, events: seq<Event>)
    requires Tracked(w)
    ensures Tracked(Run(w, events)) && Extends(w, Run(w, events))
    decreases |events|
  {
    if events != [] {
      var n := |events| - 1;
      RunTracks(w, events[..n]);
      StepTracks(Run(w, events[..n]), events[n]);
      ExtensionsChain(w, Run(w, events[..n]), Run(w, events));
    }
  }

  lemma PrefixSteps(w: World, events: seq<Event>, m: nat)
    requires m < |events|
    ensures Run(w, events[..m + 1]) == Step(Run(w, events[..m]), events[m])
  {
    assert events[..m + 1][..m] == events[..m] && events[..m + 1][m] == events[m];
  }

  // ---- leaving the open state ----

  /** How many resolutions are logged for a decision. */
  function Resolutions(log: seq<Entry>, id: string): nat {
    if log == [] then 0
    else Resolutions(log[..|log| - 1], id) + if log[|log| - 1].rested.context.id == id then 1 else 0
  }

  lemma {:induction false} CountsOne(log: seq<Entry>, id: string)
    requires LogsOnce(log)
    ensures Resolutions(log, id) == if exists n :: 0 <= n < |log| && log[n].rested.context.id == id then 1 else 0
  {
    if log != [] {
      var last := |log| - 1;
      CountsOne(log[..last], id);
      assert forall n :: 0 <= n < last ==> log[..last][n] == log[n];
    }
  }

  /** However claims and copies go stale and operations interleave: a decision is logged
      exactly once if it has left the open state and not at all while it has not; it was
      allowed or denied before its expiry, or expired after it; and once it has left,
      no later run of events changes its state, its expiry or its log row. */
  lemma LeavesOpenOnce(before: seq<Event>, after: seq<Event>, id: string)
    requires id in Run(EMPTY, before).decisions
    ensures var w := Run(EMPTY, before);
            var v := Run(w, after);
            && id in v.decisions && v.decisions[id].expiresAt == w.decisions[id].expiresAt
            && Resolutions(v.log, id) == (if v.decisions[id].state == Open then 0 else 1)
            && (w.decisions[id].state != Open ==> v.decisions[id].state == w.decisions[id].state)
            && w.log <= v.log
            && forall n :: 0 <= n < |v.log| && v.log[n].rested.context.id == id ==>
                 v.log[n].to == v.decisions[id].state && Timely(v.log[n].to, v.decisions[id].expiresAt, v.log[n].at)
  {
    var w := Run(EMPTY, before);
    RunTracks(EMPTY, before);
    RunTracks(w, after);
    var v := Run(w, after);
    CountsOne(v.log, id);
    if v.decisions[id].state != Open { assert HasEntry(v, id); }
    forall n | 0 <= n < |v.log| && v.log[n].rested.context.id == id
      ensures v.log[n].to == v.decisions[id].state && v.decisions[id].state != Open && Timely(v.log[n].to, v.decisions[id].expiresAt, v.log[n].at)
    {
      assert Logged(v, v.log[n]);
    }
  }
}
