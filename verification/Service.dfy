/** The operations as the service performs them, write by write, on the store. */
module Service {
  import opened Basics
  import opened Approvers
  import opened Policy
  import opened Challenges
  import opened Decisions
  import opened Revision
  import opened Runs
  import opened Alone
  import opened Sweeping

  datatype SweepReport = SweepReport(claimed: nat, expired: nat, advanced: nat, skipped: nat)

  /** The claimed decisions a report accounts for. */
  function Accounted(report: SweepReport): nat {
    report.expired + report.advanced + report.skipped
  }

  class DecisionStore {
    var decisions: map<string, Decision>
    var log: seq<Entry>
    var claims: set<Claim>
    var stamps: map<string, nat>
    var jobs: map<nat, Job>

    function View(): World
      reads this
    {
      World(decisions, log, claims, stamps, jobs)
    }

    constructor ()
      ensures View() == EMPTY && Tracked(View())
    {
      decisions, log, claims, stamps, jobs := map[], [], {}, map[], map[];
    }

    // ---- single transactions ----

    /** A decision row rewritten, whoever wrote it last. */
    method Write(id: string, e: Decision, at: Instant)
      requires id in decisions
      modifies `decisions, `log, `stamps
      ensures View() == Put(old(View()), id, e, at)
    {
      if e == decisions[id] { return; }
      if decisions[id].state == Open && e.state != Open { log := log + [Entry(e.state, at, e)]; }
      decisions := decisions[id := e];
      stamps := stamps[id := (if id in stamps then stamps[id] else 0) + 1];
    }

    /** Service.resolve: the table is asked first, then the row is updated only while
        it is still open. False is somebody else having got there. */
    method Resolve(copy: Decision, t: Transition, at: Instant) returns (r: Result<bool>)
      modifies `decisions, `log, `stamps
      ensures r.Err? <==> copy.state != Open
      ensures r == Ok(true) <==> copy.state == Open && copy.context.id in old(decisions) && old(decisions)[copy.context.id].state == Open
      ensures r == Ok(true) ==> View() == Put(old(View()), copy.context.id, Close(old(decisions)[copy.context.id], t), at)
      ensures r != Ok(true) ==> View() == old(View())
    {
      var id, next := copy.context.id, Next(copy.state, t);
      if next.Err? { return Err(next.fault); }
      if id !in decisions || decisions[id].state != Open { return Ok(false); }
      Write(id, decisions[id].(state := next.value, next := None), at);
      r := Ok(true);
    }

    /** SetChallengeState: the state and detail of the row that is there now, whatever its
        kind, and the scheduler column with it. False is the row not being there. */
    method SetChallengeState(id: string, i: nat, state: Progress, detail: Detail, evidence: Evidence, at: Instant) returns (found: bool)
      requires id in decisions
      modifies `decisions, `log, `stamps
      ensures found <==> i < |old(decisions)[id].rows|
      ensures View() == Put(old(View()), id, WriteRow(old(decisions)[id], i, state, detail, evidence), at)
    {
      var d := decisions[id];
      found := i < |d.rows|;
      if found {
        d := d.(rows := d.rows[i := d.rows[i].(state := state, detail := detail, evidence := evidence)]);
        if d.state == Open { d := d.(next := Some(NextDeadline(d.expiresAt, d.rows))); }
      }
      Write(id, d, at);
    }

    // ---- the settle pass ----

    /** Service.advance: one read, then one transaction per row that changed, then the
        tally. A row its handler cannot read is an error. */
    method Advance(id: string, now: Instant) returns (r: Result<()>)
      requires id in decisions ==> decisions[id].context.id == id
      modifies `decisions, `log, `stamps
      ensures r == Err(NotFound) <==> id !in old(decisions)
      ensures r == Err(InvalidPayload) <==> id in old(decisions) && Halts(old(decisions)[id], now)
      ensures r == Ok(()) || r == Err(NotFound) || r == Err(InvalidPayload)
      ensures View() == if id in old(decisions) then Pass(old(View()), id, now) else old(View())
    {
      if id !in decisions { return Err(NotFound); }
      r := Ok(());
      var d := decisions[id];
      if d.state != Open || IsExpired(d, now) { return; }
      var read, satisfied, failed := SettleRows(id, d, now, Scan(View(), id, d, 0, 0, 0, now));
      if !read { return Err(InvalidPayload); }
      ScanCloses(View(), id, d, satisfied, failed, now);
      if failed > 0 {
        var _ := Resolve(d, Fail, now);
      } else if satisfied == |d.rows| {
        var _ := Resolve(d, Satisfy, now);
      }
    }

    /** The loop over the rows of the copy `d`, and its tally; false is a row that cannot be
        read. */
    method SettleRows(id: string, d: Decision, now: Instant, ghost whole: World) returns (read: bool, satisfied: nat, failed: nat)
      requires Midway(View(), id, d, 0, 0, 0, now, whole)
      modifies `decisions, `log, `stamps
      ensures read <==> Halt(d.rows) == |d.rows|
      ensures if read then Midway(View(), id, d, |d.rows|, satisfied, failed, now, whole) else View() == whole
    {
      read, satisfied, failed := true, 0, 0;
      for i := 0 to |d.rows|
        invariant read && i <= Halt(d.rows) && Midway(View(), id, d, i, satisfied, failed, now, whole)
      {
        read, satisfied, failed := CountRow(id, i, d, satisfied, failed, now, whole);
        if !read { return; }
      }
    }

    method CountRow(id: string, i: nat, d: Decision, satisfied: nat, failed: nat, now: Instant, ghost whole: World)
      returns (read: bool, met: nat, lost: nat)
      requires i < |d.rows| && Midway(View(), id, d, i, satisfied, failed, now, whole)
      modifies `decisions, `log, `stamps
      ensures read <==> !Stuck(d.rows[i])
      ensures if read then Midway(View(), id, d, i + 1, met, lost, now, whole) else View() == whole
    {
      read, met, lost := !Stuck(d.rows[i]), satisfied, failed;
      if !read {
        ScanStops(View(), id, d, i, satisfied, failed, now);
        return;
      }
      ScanUnfolds(View(), id, d, i, satisfied, failed, now);
      var next := SettleRow(id, i, d, now);
      met, lost := satisfied + Counted(next).0, failed + Counted(next).1;
    }

    /** One row of a pass over the copy `d`: the handler is asked, and a row that is still
        pending after its own timer has run out of time. */
    method SettleRow(id: string, i: nat, d: Decision, now: Instant) returns (next: Progress)
      requires id in decisions && i < |d.rows| && !Stuck(d.rows[i])
      modifies `decisions, `log, `stamps
      ensures View() == ScanOne(old(View()), id, d, i, now)
      ensures id in decisions && decisions[id].context.id == old(decisions)[id].context.id && |decisions[id].rows| == |old(decisions)[id].rows|
      ensures next == Settled(d.rows[i], Have(old(decisions)[id], i), now).state
    {
      var row := d.rows[i];
      if row.state != Pending { return row.state; }
      next := Status(row.detail, Pending, row.deadline, Have(decisions[id], i), now);
      if next == Pending && Passed(row.deadline, now) { next := Failed; }
      if next != Pending {
        var evidence := if next == Satisfied && row.detail.DelayDetail? then Waited(now, row.detail.releaseAt) else row.evidence;
        var _ := SetChallengeState(id, i, next, row.detail, evidence, now);
      }
    }

    // ---- submission ----

    /** Service.Submit for a caller with standing: the handler on the row as it was read,
        its approval where it is a quorum, the row, and then a pass at the same instant,
        whose error it returns with its own writes standing. */
    method Submit(id: string, i: nat, dep: Deployment, s: Subject, p: Payload, now: Instant) returns (r: Result<()>)
      requires id in decisions ==> decisions[id].context.id == id
      modifies `decisions, `log, `stamps
      ensures id !in old(decisions) ==> r == Err(NotFound)
      ensures id in old(decisions) ==>
                var accepted := Accepted(old(decisions)[id], i, dep, s, p, now);
                if accepted.Err? then r == Err(accepted.fault) && View() == old(View())
                else && (accepted.value.Voting? || accepted.value.Marking?) && View() == Submission(old(View()), id, accepted.value, now)
                     && r == if Halts(old(decisions)[id], now) then Err(InvalidPayload) else Ok(())
      ensures id !in old(decisions) ==> View() == old(View())
    {
      if id !in decisions { return Err(NotFound); }
      var d := decisions[id];
      var accepted := Accepted(d, i, dep, s, p, now);
      if accepted.Err? { return Err(accepted.fault); }
      RecordedHaltsAlike(View(), id, i, dep, s, p, now);
      r := Take(id, accepted.value, now);
    }

    /** A submission the handler took. */
    method Take(id: string, phase: Phase, now: Instant) returns (r: Result<()>)
      requires id in decisions && (phase.Voting? || phase.Marking?) && Recorded(View(), id, phase, now).decisions[id].context.id == id
      modifies `decisions, `log, `stamps
      ensures View() == Submission(old(View()), id, phase, now)
      ensures r == if Halts(Recorded(old(View()), id, phase, now).decisions[id], now) then Err(InvalidPayload) else Ok(())
    {
      Record(id, phase, now);
      r := Advance(id, now);
    }

    /** Its writes, from the decision as it was read. */
    method Record(id: string, phase: Phase, now: Instant)
      requires id in decisions && (phase.Voting? || phase.Marking?)
      modifies `decisions, `log, `stamps
      ensures View() == Recorded(old(View()), id, phase, now)
    {
      var d := decisions[id];
      match phase {
        case Voting(i, approver, hash) =>
          if i >= |d.rows| || !d.rows[i].detail.QuorumDetail? { return; }
          Write(id, RecordApproval(d, i, approver, hash), now);
          var have := Have(decisions[id], i);
          var state := if have >= d.rows[i].detail.threshold then Satisfied else Pending;
          var _ := SetChallengeState(id, i, state, d.rows[i].detail, d.rows[i].evidence, now);
        case Marking(i, state, detail, evidence) =>
          var _ := SetChallengeState(id, i, state, detail, evidence, now);
      }
    }

    // ---- sweeping ----

    /** ClaimDue: current copies of due decisions nobody else has locked, the soonest due
        first, up to a batch. */
    method ClaimDue(now: Instant, batch: nat, locked: set<string>) returns (copies: seq<Decision>)
      requires Tracked(View())
      ensures Current(View(), copies) && Ids(copies) <= Due(decisions, now) - locked
      ensures |copies| == Min(batch, |Due(decisions, now) - locked|) && |Ids(copies)| == |copies|
      ensures SoonestFirst(View(), copies, Due(decisions, now) - locked - Ids(copies))
    {
      ghost var due := Due(decisions, now) - locked;
      var left := Due(decisions, now) - locked;
      copies := [];
      while left != {} && |copies| < batch
        invariant Claiming(View(), copies, due, left, batch)
        decreases left
      {
        var id := Soonest(left, now);
        ClaimOne(View(), copies, due, left, id, now, batch);
        copies := copies + [decisions[id]];
        left := left - {id};
      }
      ClaimedAll(View(), copies, due, left, batch);
    }

    method Soonest(ids: set<string>, now: Instant) returns (id: string)
      requires ids != {} && ids <= Due(decisions, now)
      ensures id in ids && forall x :: x in ids ==> DueAt(decisions[id]) <= DueAt(decisions[x])
    {
      id :| id in ids;
      var left := ids - {id};
      while left != {}
        invariant left <= ids && id in ids && forall x :: x in ids - left ==> DueAt(decisions[id]) <= DueAt(decisions[x])
        decreases left
      {
        var x :| x in left;
        left := left - {x};
        if DueAt(decisions[x]) < DueAt(decisions[id]) { id := x; }
      }
    }

    /** Everybody else's turn. */
    method Others(events: seq<Event>)
      modifies this
      ensures View() == Run(old(View()), events)
    {
      for i := 0 to |events|
        invariant View() == Run(old(View()), events[..i])
      {
        RunOneMore(old(View()), events[..i], events[i]);
        var w := Step(View(), events[i]);
        decisions, log, claims, stamps, jobs := w.decisions, w.log, w.claims, w.stamps, w.jobs;
        assert events[..i + 1] == events[..i] + [events[i]];
      }
      assert events[..|events|] == events;
    }

    /** SweepOnce, with `others(i)` at work before it takes up its i-th claimed decision:
        it goes on until a pass ends in an error, and each decision before that one is
        counted once, whatever became of it meanwhile. */
    method SweepOnce(now: Instant, batch: nat, locked: set<string>, others: nat -> seq<Event>)
      returns (report: SweepReport, ok: bool, ghost copies: seq<Decision>)
      requires Tracked(View())
      modifies this
      ensures Tracked(View())
      ensures report.claimed == |copies| == Min(batch, |Due(old(decisions), now) - locked|) == |Ids(copies)|
      ensures Current(old(View()), copies) && Ids(copies) <= Due(old(decisions), now) - locked
      ensures Accounted(report) <= |copies| && (ok <==> Accounted(report) == |copies|)
      ensures forall i :: 0 <= i < Accounted(report) ==> !HaltsAt(TakenUp(old(View()), copies, i, now, others), copies[i], now)
      ensures !ok ==> HaltsAt(TakenUp(old(View()), copies, Accounted(report), now, others), copies[Accounted(report)], now)
      ensures View() == SweepAll(old(View()), if ok then copies else copies[..Accounted(report) + 1], now, others)
    {
      var due := ClaimDue(now, batch, locked);
      copies := due;
      report, ok := SweepReport(|due|, 0, 0, 0), true;
      for i := 0 to |due|
        invariant View() == SweepAll(old(View()), due[..i], now, others)
        invariant report.claimed == |due| && Accounted(report) == i
        invariant forall x :: 0 <= x < i ==> !HaltsAt(TakenUp(old(View()), due, x, now, others), due[x], now)
      {
        StaleCopies(old(View()), due, i, now, others);
        Others(others(i));
        report, ok := SweepItem(due[i], now, report);
        SweepsOn(old(View()), due, i, now, others);
        if !ok { return; }
      }
      assert due[..|due|] == due;
      assert Stale(old(View()), due);
      LateSweepTracks(old(View()), due, now, others);
    }

    /** One claimed copy; false is a pass that ended in an error. */
    method SweepItem(copy: Decision, now: Instant, before: SweepReport) returns (report: SweepReport, ok: bool)
      requires Tracked(View()) && copy.state == Open
      modifies `decisions, `log, `stamps
      ensures View() == SweepCopy(old(View()), copy, now)
      ensures report.claimed == before.claimed && Accounted(report) == Accounted(before) + if ok then 1 else 0
      ensures ok <==> !HaltsAt(old(View()), copy, now)
    {
      report, ok := before, true;
      if IsExpired(copy, now) {
        var r := Resolve(copy, Expire, now);
        report := if r == Ok(true) then report.(expired := report.expired + 1) else report.(skipped := report.skipped + 1);
      } else {
        var r := Advance(copy.context.id, now);
        match r {
          case Ok(_) => report := report.(advanced := report.advanced + 1);
          case Err(NotFound) => report := report.(skipped := report.skipped + 1);
          case _ => ok := false;
        }
      }
    }

    /** drain at one instant with nobody else writing: it ends, without an error exactly
        when no due decision holds a row its pass cannot read, and then leaves no open
        decision past its expiry and none holding a pending challenge whose timer has
        passed. */
    method Drain(now: Instant, batch: nat) returns (ok: bool)
      requires Tracked(View()) && batch >= 1
      modifies this
      ensures Tracked(View()) && decisions.Keys == old(decisions).Keys
      ensures ok <==> forall id :: id in Due(old(decisions), now) ==> !Halts(old(decisions)[id], now)
      ensures ok ==> forall id :: id in decisions && decisions[id].state == Open ==> InTime(decisions[id], now)
      ensures forall id :: id in decisions && id !in Due(old(decisions), now) ==> decisions[id] == old(decisions)[id]
    {
      var full := true;
      ok := true;
      while full
        invariant ok && Tracked(View()) && Drained(old(View()), View(), now)
        invariant !full ==> Due(decisions, now) == {}
        decreases |Due(decisions, now)|, full
      {
        ok, full := DrainBatch(now, batch, old(View()));
        if !ok { return; }
      }
      NothingLeftDue(View(), now);
    }

    /** One batch of a drain that started from `start`. */
    method DrainBatch(now: Instant, batch: nat, ghost start: World) returns (ok: bool, full: bool)
      requires Tracked(View()) && batch >= 1 && Drained(start, View(), now)
      modifies this
      ensures Tracked(View())
      ensures ok ==> Drained(start, View(), now) && if full then |Due(decisions, now)| < |Due(old(decisions), now)| else Due(decisions, now) == {}
      ensures !ok ==> BrokenOff(start, View(), now)
    {
      ghost var w := View();
      var alone: nat -> seq<Event> := i => [];
      ghost var copies;
      var report;
      report, ok, copies := SweepOnce(now, batch, {}, alone);
      full := report.claimed >= batch;
      BatchEnds(start, w, View(), copies, Accounted(report), ok, now, batch, alone);
    }

    // ---- revision ----

    /** Revalidator.Apply in the revaluating mode: one transaction over the listed
        decisions, put back whole if any of them cannot be re-judged. */
    method ApplyRevision(ids: seq<string>, judge: Context -> Judgment, envs: string -> Setting, now: Instant) returns (r: Result<()>)
      modifies this
      ensures r.Ok? ==> ReviseWorld(old(View()), ids, judge, envs, now) == Ok(View())
      ensures r.Err? ==> ReviseWorld(old(View()), ids, judge, envs, now).Err? && View() == old(View())
    {
      var saved, savedLog, savedStamps := decisions, log, stamps;
      for k := 0 to |ids|
        invariant ReviseWorld(View(), ids[k..], judge, envs, now) == ReviseWorld(old(View()), ids, judge, envs, now) && claims == old(claims) && jobs == old(jobs)
      {
        r := ReviseOne(ids[k], judge, envs(ids[k]), now);
        if r.Err? {
          decisions, log, stamps := saved, savedLog, savedStamps;
          return;
        }
        assert ids[k..][1..] == ids[k + 1..];
      }
      r := Ok(());
    }

    method ReviseOne(id: string, judge: Context -> Judgment, env: Setting, now: Instant) returns (r: Result<()>)
      modifies `decisions, `log, `stamps
      ensures r.Ok? ==> ReviseNext(old(View()), id, judge, env, now) == Ok(View())
      ensures r.Err? ==> ReviseNext(old(View()), id, judge, env, now).Err?
    {
      if id in decisions && decisions[id].state == Open && !IsExpired(decisions[id], now) {
        var d := decisions[id];
        var e := Revaluate(d, judge(d.context), env, now);
        if e.Err? { return Err(e.fault); }
        Write(id, e.value, now);
      }
      r := Ok(());
    }
  }

  /** When a due decision fell due. */
  function DueAt(d: Decision): Instant {
    if d.next.Some? then d.next.value else d.expiresAt
  }

  /** Claimed in the order of the scheduler column, and before everything left. */
  ghost predicate SoonestFirst(w: World, copies: seq<Decision>, left: set<string>) {
    && (forall i, j :: 0 <= i < j < |copies| ==> DueAt(copies[i]) <= DueAt(copies[j]))
    && (forall i, x :: 0 <= i < |copies| && x in left && x in w.decisions ==> DueAt(copies[i]) <= DueAt(w.decisions[x]))
  }

  /** A claim under way: what is taken, and what is left of the due. */
  ghost predicate Claiming(w: World, copies: seq<Decision>, due: set<string>, left: set<string>, batch: nat) {
    && left <= due && Ids(copies) == due - left && Current(w, copies)
    && |Ids(copies)| == |copies| <= batch && SoonestFirst(w, copies, left)
  }

  lemma ClaimInOrder(w: World, copies: seq<Decision>, left: set<string>, id: string)
    requires SoonestFirst(w, copies, left) && id in left && id in w.decisions
    requires forall x :: x in left && x in w.decisions ==> DueAt(w.decisions[id]) <= DueAt(w.decisions[x])
    ensures SoonestFirst(w, copies + [w.decisions[id]], left - {id})
  {
  }

  lemma ClaimOne(w: World, copies: seq<Decision>, due: set<string>, left: set<string>, id: string, now: Instant, batch: nat)
    requires Tracked(w) && Claiming(w, copies, due, left, batch) && due <= Due(w.decisions, now) && id in left && |copies| < batch
    requires forall x :: x in left && x in w.decisions ==> DueAt(w.decisions[id]) <= DueAt(w.decisions[x])
    ensures Claiming(w, copies + [w.decisions[id]], due, left - {id}, batch)
  {
    OneMoreCopy(w, copies, id);
    ClaimInOrder(w, copies, left, id);
  }

  lemma ClaimedAll(w: World, copies: seq<Decision>, due: set<string>, left: set<string>, batch: nat)
    requires Claiming(w, copies, due, left, batch) && (left == {} || |copies| >= batch)
    ensures Ids(copies) <= due && |copies| == Min(batch, |due|) && left == due - Ids(copies)
  {
    assert |due - left| == |due| - |left|;
    if left != {} { assert |left| > 0; }
  }

  lemma NothingLeftDue(w: World, now: Instant)
    requires Tracked(w) && Due(w.decisions, now) == {}
    ensures forall id :: id in w.decisions && w.decisions[id].state == Open ==> InTime(w.decisions[id], now)
  {
    forall id | id in w.decisions && w.decisions[id].state == Open ensures InTime(w.decisions[id], now) {
      assert id !in Due(w.decisions, now);
      DueExactly(w.decisions[id], now);
    }
  }

  /** Not over, and holding no pending challenge whose timer has passed. */
  ghost predicate InTime(d: Decision, now: Instant) {
    now < d.expiresAt && forall i :: 0 <= i < |d.rows| && d.rows[i].state == Pending ==> !Passed(d.rows[i].deadline, now)
  }

  lemma OneMoreCopy(w: World, copies: seq<Decision>, id: string)
    requires Tracked(w) && Current(w, copies) && id in w.decisions && w.decisions[id].state == Open && id !in Ids(copies)
    ensures Current(w, copies + [w.decisions[id]]) && Ids(copies + [w.decisions[id]]) == Ids(copies) + {id}
  {
    var more := copies + [w.decisions[id]];
    assert more[..|copies|] == copies;
    assert forall i :: 0 <= i < |copies| ==> more[i] == copies[i] && copies[i].context.id in Ids(copies);
    LastId(more);
  }

  lemma StaleCopies(w: World, due: seq<Decision>, i: nat, now: Instant, others: nat -> seq<Event>)
    requires Tracked(w) && Current(w, due) && i < |due|
    ensures Tracked(Run(SweepAll(w, due[..i], now, others), others(i)))
  {
    assert Stale(w, due[..i]);
    LateSweepTracks(w, due[..i], now, others);
    RunTracks(SweepAll(w, due[..i], now, others), others(i));
  }

  /** One copy further on. */
  lemma SweepsOn(w: World, copies: seq<Decision>, i: nat, now: Instant, others: nat -> seq<Event>)
    requires Tracked(w) && Current(w, copies) && i < |copies|
    ensures SweepCopy(TakenUp(w, copies, i, now, others), copies[i], now) == SweepAll(w, copies[..i + 1], now, others)
    ensures Tracked(SweepAll(w, copies[..i + 1], now, others))
  {
    assert copies[..i + 1][..i] == copies[..i];
    assert Stale(w, copies[..i + 1]);
    LateSweepTracks(w, copies[..i + 1], now, others);
  }

  /** Only what was due has changed, nothing has become due, what is still due is as it
      was, and what is not could be read. */
  ghost predicate Drained(w: World, v: World, now: Instant) {
    && v.decisions.Keys == w.decisions.Keys && Due(v.decisions, now) <= Due(w.decisions, now)
    && (forall id :: id in w.decisions && (id !in Due(w.decisions, now) || id in Due(v.decisions, now)) ==> v.decisions[id] == w.decisions[id])
    && (forall id :: id in Due(w.decisions, now) && id !in Due(v.decisions, now) ==> !Halts(w.decisions[id], now))
  }

  /** Alone, each copy is taken up as it was claimed, as long as no pass ends in an error. */
  lemma {:induction false} TakesAll(w: World, copies: seq<Decision>, n: nat, now: Instant, alone: nat -> seq<Event>)
    requires Tracked(w) && Current(w, copies) && (forall i: nat :: alone(i) == []) && n <= |copies|
    requires forall i :: 0 <= i < n ==> !HaltsAt(TakenUp(w, copies, i, now, alone), copies[i], now)
    ensures forall i :: 0 <= i < n ==> !Halts(copies[i], now)
    ensures n < |copies| ==> (HaltsAt(TakenUp(w, copies, n, now, alone), copies[n], now) <==> Halts(copies[n], now))
    decreases n
  {
    if n > 0 { TakesAll(w, copies, n - 1, now, alone); }
    if n < |copies| { HaltsAsClaimed(w, copies, n, now, alone); }
  }

  lemma HaltsAsClaimed(w: World, copies: seq<Decision>, n: nat, now: Instant, alone: nat -> seq<Event>)
    requires Tracked(w) && Current(w, copies) && (forall i: nat :: alone(i) == []) && n < |copies|
    requires forall i :: 0 <= i < n ==> !Halts(copies[i], now)
    ensures HaltsAt(TakenUp(w, copies, n, now, alone), copies[n], now) <==> Halts(copies[n], now)
  {
    TakesAsClaimed(w, copies, n, now, alone);
  }

  lemma TakesAsClaimed(w: World, copies: seq<Decision>, n: nat, now: Instant, alone: nat -> seq<Event>)
    requires Tracked(w) && Current(w, copies) && (forall i: nat :: alone(i) == []) && n < |copies|
    requires forall i :: 0 <= i < n ==> !Halts(copies[i], now)
    ensures var v := TakenUp(w, copies, n, now, alone);
            && Shrunk(w, v, Ids(copies[..n]), now) && Tracked(v)
            && copies[n].context.id in v.decisions && v.decisions[copies[n].context.id] == copies[n]
  {
    SweepShrinks(w, copies[..n], now, alone);
    LastId(copies[..n + 1]);
    assert copies[..n + 1][..n] == copies[..n];
  }

  lemma BatchEnds(u: World, w: World, v: World, copies: seq<Decision>, n: nat, ok: bool, now: Instant, batch: nat, alone: nat -> seq<Event>)
    requires Tracked(w) && Current(w, copies) && (forall i: nat :: alone(i) == []) && batch >= 1 && Drained(u, w, now)
    requires Ids(copies) <= Due(w.decisions, now) - {} && |Ids(copies)| == |copies| == Min(batch, |Due(w.decisions, now) - {}|)
    requires n <= |copies| && (ok <==> n == |copies|) && v == SweepAll(w, if ok then copies else copies[..n + 1], now, alone)
    requires forall i :: 0 <= i < n ==> !HaltsAt(TakenUp(w, copies, i, now, alone), copies[i], now)
    requires !ok ==> HaltsAt(TakenUp(w, copies, n, now, alone), copies[n], now)
    ensures ok ==> Drained(u, v, now) && if |copies| >= batch then |Due(v.decisions, now)| < |Due(w.decisions, now)| else Due(v.decisions, now) == {}
    ensures !ok ==> BrokenOff(u, v, now)
  {
    TakesAll(w, copies, n, now, alone);
    if ok { BatchDrains(u, w, copies, now, batch, alone); } else { BreaksOff(u, w, copies, n, now, alone); }
  }

  /** Some due decision held a row its pass cannot read, and nothing that was not due has
      changed. */
  ghost predicate BrokenOff(w: World, v: World, now: Instant) {
    && v.decisions.Keys == w.decisions.Keys
    && (exists id :: id in Due(w.decisions, now) && Halts(w.decisions[id], now))
    && forall id :: id in w.decisions && id !in Due(w.decisions, now) ==> v.decisions[id] == w.decisions[id]
  }

  lemma BreaksOff(u: World, w: World, copies: seq<Decision>, n: nat, now: Instant, alone: nat -> seq<Event>)
    requires Tracked(w) && Current(w, copies) && (forall i: nat :: alone(i) == []) && n < |copies| && Drained(u, w, now)
    requires Ids(copies) <= Due(w.decisions, now) - {} && Halts(copies[n], now) && forall i :: 0 <= i < n ==> !Halts(copies[i], now)
    ensures BrokenOff(u, SweepAll(w, copies[..n + 1], now, alone), now)
  {
    assert copies[n].context.id in Ids(copies);
    TakesAsClaimed(w, copies, n, now, alone);
    SweepsOn(w, copies, n, now, alone);
    assert Ids(copies[..n]) <= Ids(copies);
    BreaksOffAt(u, w, TakenUp(w, copies, n, now, alone), Ids(copies[..n]), copies[n], now);
  }

  lemma BreaksOffAt(u: World, w: World, v: World, ids: set<string>, copy: Decision, now: Instant)
    requires Drained(u, w, now) && ids <= Due(w.decisions, now) && Shrunk(w, v, ids, now) && Tracked(v)
    requires copy.context.id in Due(w.decisions, now) && w.decisions[copy.context.id] == copy && Halts(copy, now)
    requires copy.context.id in v.decisions && v.decisions[copy.context.id] == copy
    ensures BrokenOff(u, SweepCopy(v, copy, now), now)
  {
    SweepCopySweeps(v, copy, now);
    assert copy.context.id in Due(u.decisions, now) && u.decisions[copy.context.id] == copy;
  }

  lemma DrainsOn(u: World, v: World, w: World, now: Instant)
    requires Drained(u, v, now) && Drained(v, w, now)
    ensures Drained(u, w, now)
  {
  }

  lemma BatchShrinks(w: World, copies: seq<Decision>, now: Instant, batch: nat, alone: nat -> seq<Event>)
    requires Tracked(w) && Current(w, copies) && (forall i: nat :: alone(i) == []) && batch >= 1 && forall i :: 0 <= i < |copies| ==> !Halts(copies[i], now)
    requires Ids(copies) <= Due(w.decisions, now) && |Ids(copies)| == Min(batch, |Due(w.decisions, now)|)
    ensures var v := SweepAll(w, copies, now, alone);
            && Drained(w, v, now)
            && (|Ids(copies)| >= batch ==> |Due(v.decisions, now)| < |Due(w.decisions, now)|)
            && (|Ids(copies)| < batch ==> Due(v.decisions, now) == {})
  {
    SweepShrinks(w, copies, now, alone);
    BatchTaken(Due(w.decisions, now), Ids(copies), batch);
  }

  lemma BatchDrains(u: World, w: World, copies: seq<Decision>, now: Instant, batch: nat, alone: nat -> seq<Event>)
    requires Tracked(w) && Current(w, copies) && (forall i: nat :: alone(i) == []) && batch >= 1 && Drained(u, w, now)
    requires forall i :: 0 <= i < |copies| ==> !Halts(copies[i], now)
    requires Ids(copies) <= Due(w.decisions, now) - {} && |Ids(copies)| == Min(batch, |Due(w.decisions, now) - {}|)
    ensures var v := SweepAll(w, copies, now, alone);
            && Drained(u, v, now)
            && (|Ids(copies)| >= batch ==> |Due(v.decisions, now)| < |Due(w.decisions, now)|)
            && (|Ids(copies)| < batch ==> Due(v.decisions, now) == {})
  {
    assert Due(w.decisions, now) - {} == Due(w.decisions, now);
    BatchShrinks(w, copies, now, batch, alone);
    DrainsOn(u, w, SweepAll(w, copies, now, alone), now);
  }

  lemma BatchTaken(due: set<string>, ids: set<string>, batch: nat)
    requires ids <= due && |ids| == Min(batch, |due|) && batch >= 1
    ensures |ids| >= batch ==> |due - ids| < |due|
    ensures |ids| < batch ==> due - ids == {}
  {
    SubsetIsSmaller(ids, due);
    assert |due - ids| == |due| - |ids|;
    if |ids| < batch { assert |due - ids| == 0; }
  }

  // ---- the two loops that open and rebind challenges ----

  /** The issue loop of Decide: the first refusal or shed issuance ends it. */
  method IssueChallenges(specs: seq<Spec>, c: Context, dep: Deployment, draws: nat -> Draw, now: Instant, lifetime: Instant) returns (r: Result<Opened>)
    ensures r == OpenRows(specs, c, dep, draws, now, lifetime)
  {
    var rows: seq<Row> := [];
    var expiresAt := lifetime;
    for i := 0 to |specs|
      invariant OpenRows(specs[..i], c, dep, draws, now, lifetime) == Ok(Opened(rows, expiresAt))
    {
      assert specs[..i + 1][..i] == specs[..i];
      var issued := Issue(specs[i], c, dep, draws(i), now);
      if issued.Err? || issued.value.shed { OpeningStops(specs, i + 1, c, dep, draws, now, lifetime); }
      if issued.Err? { return Err(issued.fault); }
      if issued.value.shed && issued.value.state == Failed { return Ok(Shed); }
      var timer := issued.value.deadline;
      if timer.Some? && timer.value > expiresAt { expiresAt := timer.value; }
      rows := rows + [Row(KindOf(specs[i]), Pending, if timer.Some? then Some(Micros(timer.value)) else None, issued.value.detail, NoEvidence)];
    }
    assert specs[..|specs|] == specs;
    r := Ok(Opened(rows, expiresAt));
  }

  lemma {:induction false} OpeningStops(specs: seq<Spec>, n: nat, c: Context, dep: Deployment, draws: nat -> Draw, now: Instant, lifetime: Instant)
    requires n <= |specs|
    ensures var r := OpenRows(specs[..n], c, dep, draws, now, lifetime);
            r.Err? || r.value.Shed? ==> OpenRows(specs, c, dep, draws, now, lifetime) == r
  {
    if n == |specs| {
      assert specs[..n] == specs;
    } else {
      var m := |specs| - 1;
      assert specs[..m][..n] == specs[..n];
      OpeningStops(specs[..m], n, c, dep, draws, now, lifetime);
    }
  }

  /** The loop of rebindChallenges over a list of one shape. */
  method RebindEach(d: Decision, specs: seq<Spec>, env: Setting, now: Instant) returns (r: Result<seq<Rebound>>)
    requires SameShape(d.rows, specs)
    ensures r == RebindRows(d, specs, env, now, |specs|)
  {
    var rebound: seq<Rebound> := [];
    for i := 0 to |specs|
      invariant RebindRows(d, specs, env, now, i) == Ok(rebound)
    {
      var one := RebindRow(d, i, specs[i], env, now);
      if one.Err? {
        RebindingStops(d, specs, env, now, i + 1, |specs|);
        return Err(one.fault);
      }
      rebound := rebound + [one.value];
    }
    r := Ok(rebound);
  }

  lemma {:induction false} RebindingStops(d: Decision, specs: seq<Spec>, env: Setting, now: Instant, n: nat, m: nat)
    requires SameShape(d.rows, specs) && n <= m <= |specs| && RebindRows(d, specs, env, now, n).Err?
    ensures RebindRows(d, specs, env, now, m) == RebindRows(d, specs, env, now, n)
    decreases m
  {
    if n < m { RebindingStops(d, specs, env, now, n, m - 1); }
  }
}
