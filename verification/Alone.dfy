/** One operation with nobody in between: its transactions, one after the other, come to
    the settle pass and the submission of the pure model. */
module Alone {
  import opened Basics
  import opened Approvers
  import opened Challenges
  import opened Decisions
  import opened Soundness
  import opened Settling
  import opened Runs

  // ---- a pass ----

  /** A pass ends at a row it cannot read, or that is gone when it is to be written. */
  predicate Ends(d: Decision, copy: Decision, k: nat, now: Instant)
    requires k < |copy.rows|
  {
    Stuck(copy.rows[k]) || (|d.rows| <= k && Settled(copy.rows[k], Have(d, k), now).state != copy.rows[k].state)
  }

  /** The rest of a pass over a copy, from a row on. */
  function Scan(w: World, id: string, copy: Decision, k: nat, met: nat, lost: nat, now: Instant): (r: World)
    requires id in w.decisions
    ensures r.decisions.Keys == w.decisions.Keys
    decreases |copy.rows| - k
  {
    var d := w.decisions[id];
    if k >= |copy.rows| then
      if lost > 0 then Put(w, id, Close(d, Fail), now) else if met == |copy.rows| then Put(w, id, Close(d, Satisfy), now) else w
    else if Ends(d, copy, k, now) then w
    else
      var counted := Counted(Settled(copy.rows[k], Have(d, k), now).state);
      Scan(ScanOne(w, id, copy, k, now), id, copy, k + 1, met + counted.0, lost + counted.1, now)
  }

  function ScanOne(w: World, id: string, copy: Decision, k: nat, now: Instant): (r: World)
    requires id in w.decisions && k < |copy.rows|
    ensures r.decisions.Keys == w.decisions.Keys
  {
    var d := w.decisions[id];
    var row := Settled(copy.rows[k], Have(d, k), now);
    if row.state == copy.rows[k].state then w else Put(w, id, WriteRow(d, k, row.state, copy.rows[k].detail, row.evidence), now)
  }

  function Pass(w: World, id: string, now: Instant): (r: World)
    requires id in w.decisions
    ensures r.decisions.Keys == w.decisions.Keys
  {
    var d := w.decisions[id];
    if d.state != Open || IsExpired(d, now) then w else Scan(w, id, d, 0, 0, 0, now)
  }

  /** Two worlds that differ in nothing a reader of the store could see. */
  ghost predicate SameStore(w: World, v: World) {
    w.decisions == v.decisions && w.log == v.log && w.claims == v.claims && w.jobs == v.jobs
  }

  lemma PutTwice(w: World, id: string, e: Decision, f: Decision, at: Instant)
    requires id in w.decisions && w.decisions[id].state == Open && e.state == Open
    ensures SameStore(Put(Put(w, id, e, at), id, f, at), Put(w, id, f, at))
  {
    assert w.decisions[id := e][id := f] == w.decisions[id := f];
    assert w.decisions[id := w.decisions[id]] == w.decisions;
  }

  lemma PutAgain(w: World, v: World, id: string, f: Decision, at: Instant)
    requires id in w.decisions && SameStore(w, v)
    ensures SameStore(Put(w, id, f, at), Put(v, id, f, at))
  {
  }

  /** Writing the settled row k on a decision settled up to k settles it up to k + 1. */
  lemma ScanRow(d: Decision, k: nat, now: Instant)
    requires d.state == Open && k < |d.rows|
    ensures var e := Settle(d, Below(k), now);
            var row := Settled(d.rows[k], Have(d, k), now);
            && Have(e, k) == Have(d, k)
            && Settle(d, Below(k + 1), now) == if row.state == d.rows[k].state then e else WriteRow(e, k, row.state, d.rows[k].detail, row.evidence)
  {
    SettledOneMore(d, k, now);
    var e, row := Settle(d, Below(k), now), Settled(d.rows[k], Have(d, k), now);
    assert e.rows[k] == d.rows[k];
    assert row == d.rows[k].(state := row.state, evidence := row.evidence);
  }

  lemma PutSame(w: World, id: string, at: Instant)
    requires id in w.decisions
    ensures Put(w, id, w.decisions[id], at) == w
  {
  }

  /** One row of a scan, as one write. */
  lemma ScanSteps(w: World, v: World, id: string, copy: Decision, k: nat, rows: seq<Row>, now: Instant)
    requires id in w.decisions && k < |copy.rows| == |rows| && v == ScanOne(w, id, copy, k, now)
    requires Settled(copy.rows[k], Have(w.decisions[id], k), now) == rows[k] && !Ends(w.decisions[id], copy, k, now)
    ensures Scan(w, id, copy, k, Met(rows[..k]), Lost(rows[..k]), now) == Scan(v, id, copy, k + 1, Met(rows[..k + 1]), Lost(rows[..k + 1]), now)
  {
    TallyOneMore(rows, k);
  }

  lemma ScanEnds(w: World, id: string, d: Decision, now: Instant)
    requires id in w.decisions && d.state == Open && Halt(d.rows) == |d.rows| && w.decisions[id] == Settle(d, Below(|d.rows|), now)
    ensures var e := Settle(d, Below(|d.rows|), now);
            Scan(w, id, d, |d.rows|, Met(e.rows[..|d.rows|]), Lost(e.rows[..|d.rows|]), now) == Put(w, id, CloseBy(e, Verdict(e.rows)), now)
  {
    var e := Settle(d, Below(|d.rows|), now);
    assert e.rows[..|d.rows|] == e.rows;
    TallyIsVerdict(e.rows);
    PutSame(w, id, now);
  }

  lemma ScanHalts(w: World, id: string, d: Decision, met: nat, lost: nat, now: Instant)
    requires id in w.decisions && Halt(d.rows) < |d.rows|
    ensures Scan(w, id, d, Halt(d.rows), met, lost, now) == Put(w, id, w.decisions[id], now)
  {
    PutSame(w, id, now);
  }

  ghost predicate ScansTo(w: World, id: string, copy: Decision, k: nat, rows: seq<Row>, g: Decision, now: Instant)
    requires id in w.decisions && k <= |rows|
  {
    SameStore(Scan(w, id, copy, k, Met(rows[..k]), Lost(rows[..k]), now), Put(w, id, g, now))
  }

  /** One row of a pass brought up to date, on the decision as it then is. */
  ghost predicate Stage(a: Decision, b: Decision, d: Decision, k: nat, rows: seq<Row>, now: Instant) {
    && k < |d.rows| == |rows| == |a.rows| && a.state == Open && b.state == Open && !Stuck(d.rows[k])
    && Settled(d.rows[k], Have(a, k), now) == rows[k]
    && b == if rows[k].state == d.rows[k].state then a else WriteRow(a, k, rows[k].state, d.rows[k].detail, rows[k].evidence)
  }

  /** A scan comes to one write if what is left of it after a row does. */
  lemma ScanBack(w: World, v: World, id: string, b: Decision, d: Decision, k: nat, rows: seq<Row>, g: Decision, now: Instant)
    requires id in w.decisions && Stage(w.decisions[id], b, d, k, rows, now) && v == Put(w, id, b, now)
    requires id in v.decisions && ScansTo(v, id, d, k + 1, rows, g, now)
    ensures ScansTo(w, id, d, k, rows, g, now)
  {
    PutSame(w, id, now);
    ScanSteps(w, v, id, d, k, rows, now);
    PutTwice(w, id, b, g, now);
  }

  /** A scan through all its stages comes to the write its last stage comes to. */
  lemma {:induction false} ScanThrough(w: World, id: string, d: Decision, k: nat, stages: seq<Decision>, rows: seq<Row>, g: Decision, now: Instant)
    requires id in w.decisions && k < |stages| <= |rows| + 1 && |d.rows| == |rows| && w.decisions[id] == stages[k]
    requires forall x :: 0 <= x < |stages| - 1 ==> Stage(stages[x], stages[x + 1], d, x, rows, now)
    requires forall u: World :: id in u.decisions && u.decisions[id] == stages[|stages| - 1] ==> ScansTo(u, id, d, |stages| - 1, rows, g, now)
    ensures ScansTo(w, id, d, k, rows, g, now)
    decreases |stages| - k
  {
    if k < |stages| - 1 {
      var v := Put(w, id, stages[k + 1], now);
      PutHolds(w, id, stages[k + 1], now);
      ScanThrough(v, id, d, k + 1, stages, rows, g, now);
      ScanBack(w, v, id, stages[k + 1], d, k, rows, g, now);
    }
  }

  lemma SettledStage(d: Decision, a: Decision, b: Decision, k: nat, rows: seq<Row>, now: Instant)
    requires d.state == Open && k < Halt(d.rows) && rows == Settle(d, Below(Halt(d.rows)), now).rows
    requires a == Settle(d, Below(k), now) && b == Settle(d, Below(k + 1), now)
    ensures Stage(a, b, d, k, rows, now)
  {
    ScanRow(d, k, now);
  }

  lemma ScanIsPass(w: World, id: string, d: Decision, now: Instant)
    requires id in w.decisions && d.state == Open && w.decisions[id] == Settle(d, Below(0), now)
    ensures var e := Settle(d, Below(Halt(d.rows)), now); ScansTo(w, id, d, 0, e.rows, Ended(d, e), now)
  {
    var n := Halt(d.rows);
    var e, stages := Settle(d, Below(n), now), Stages(d, n, now);
    SettledStages(d, stages, e.rows, now);
    forall u: World | id in u.decisions && u.decisions[id] == e ensures ScansTo(u, id, d, n, e.rows, Ended(d, e), now) { LastScansTo(u, id, d, e, now); }
    ScanThrough(w, id, d, 0, stages, e.rows, Ended(d, e), now);
  }

  /** The decision as the rows are settled one after the other. */
  function Stages(d: Decision, n: nat, now: Instant): (r: seq<Decision>)
    ensures |r| == n + 1 && forall x :: 0 <= x <= n ==> r[x] == Settle(d, Below(x), now)
  {
    seq(n + 1, x requires 0 <= x <= n => Settle(d, Below(x), now))
  }

  lemma SettledStages(d: Decision, stages: seq<Decision>, rows: seq<Row>, now: Instant)
    requires d.state == Open && stages == Stages(d, Halt(d.rows), now) && rows == Settle(d, Below(Halt(d.rows)), now).rows
    ensures forall x :: 0 <= x < |stages| - 1 ==> Stage(stages[x], stages[x + 1], d, x, rows, now)
  {
    forall x | 0 <= x < |stages| - 1 ensures Stage(stages[x], stages[x + 1], d, x, rows, now) {
      SettledStage(d, stages[x], stages[x + 1], x, rows, now);
    }
  }

  lemma LastScansTo(u: World, id: string, d: Decision, e: Decision, now: Instant)
    requires d.state == Open && e == Settle(d, Below(Halt(d.rows)), now) && id in u.decisions && u.decisions[id] == e
    ensures ScansTo(u, id, d, Halt(d.rows), e.rows, Ended(d, e), now)
  {
    var n := Halt(d.rows);
    if n < |d.rows| { ScanHalts(u, id, d, Met(e.rows[..n]), Lost(e.rows[..n]), now); } else { ScanEnds(u, id, d, now); }
  }

  /** A pass run alone is the settle pass. */
  lemma PassAloneIsAdvance(w: World, id: string, now: Instant)
    requires id in w.decisions && Filed(w.decisions[id])
    ensures SameStore(Pass(w, id, now), Put(w, id, Advance(w.decisions[id], now), now))
  {
    var d := w.decisions[id];
    if d.state == Open && !IsExpired(d, now) {
      SettledNone(d, now);
      var e := Settle(d, Below(Halt(d.rows)), now);
      assert e.rows[..0] == [];
      ScanIsPass(w, id, d, now);
    }
  }

  // ---- a submission ----

  /** The transactions of an accepted submission. */
  function Recorded(w: World, id: string, phase: Phase, now: Instant): (r: World)
    requires id in w.decisions && (phase.Voting? || phase.Marking?)
    ensures id in r.decisions
  {
    var d := w.decisions[id];
    match phase
    case Voting(i, approver, hash) =>
      if i >= |d.rows| || !d.rows[i].detail.QuorumDetail? then w
      else
        var voted := Put(w, id, RecordApproval(d, i, approver, hash), now);
        var state := if Have(voted.decisions[id], i) >= d.rows[i].detail.threshold then Satisfied else Pending;
        Put(voted, id, WriteRow(voted.decisions[id], i, state, d.rows[i].detail, d.rows[i].evidence), now)
    case Marking(i, state, detail, evidence) => Put(w, id, WriteRow(d, i, state, detail, evidence), now)
  }

  /** And the pass behind them. */
  function Submission(w: World, id: string, phase: Phase, now: Instant): World
    requires id in w.decisions && (phase.Voting? || phase.Marking?)
  {
    Pass(Recorded(w, id, phase, now), id, now)
  }

  lemma AcceptedIsSubmit(d: Decision, i: nat, dep: Deployment, s: Subject, p: Payload, now: Instant)
    ensures Accepted(d, i, dep, s, p, now).Ok? <==> Submit(d, i, dep, s, p, now, false).Ok?
    ensures Accepted(d, i, dep, s, p, now).Err? ==> Accepted(d, i, dep, s, p, now).fault == Submit(d, i, dep, s, p, now, false).fault
    ensures Accepted(d, i, dep, s, p, now).Ok? ==>
              var e := Submit(d, i, dep, s, p, now, false).value;
              match Accepted(d, i, dep, s, p, now).value
              case Voting(x, approver, hash) =>
                && x == i && d.rows[i].detail.QuorumDetail?
                && var voted := RecordApproval(d, i, approver, hash);
                   e == WriteRow(voted, i, if Have(voted, i) >= d.rows[i].detail.threshold then Satisfied else Pending, d.rows[i].detail, d.rows[i].evidence)
              case Marking(x, state, detail, evidence) => x == i && e == WriteRow(d, i, state, detail, evidence)
              case _ => false
  {
  }

  lemma SubmitIsFiled(d: Decision, i: nat, dep: Deployment, s: Subject, p: Payload, now: Instant)
    requires Filed(d) && Submit(d, i, dep, s, p, now, false).Ok?
    ensures d.state == Open && Submit(d, i, dep, s, p, now, false).value.state == Open && Filed(Submit(d, i, dep, s, p, now, false).value)
  {
  }

  /** A submission puts no row out of a pass's reach, and none back in it. */
  lemma SubmitHaltsAlike(d: Decision, i: nat, dep: Deployment, s: Subject, p: Payload, now: Instant)
    ensures Submit(d, i, dep, s, p, now, false).Ok? ==> (Halts(Submit(d, i, dep, s, p, now, false).value, now) <==> Halts(d, now))
  {
    if Submit(d, i, dep, s, p, now, false).Ok? {
      var e := Submit(d, i, dep, s, p, now, false).value;
      assert forall k :: 0 <= k < |d.rows| ==> (Stuck(e.rows[k]) <==> Stuck(d.rows[k]));
    }
  }

  /** Writes that leave a decision open, then a pass. */
  lemma WriteThenPass(w: World, v: World, id: string, e: Decision, now: Instant)
    requires id in w.decisions && w.decisions[id].state == Open && e.state == Open && Filed(e) && SameStore(v, Put(w, id, e, now))
    ensures SameStore(Pass(v, id, now), Put(w, id, Advance(e, now), now))
  {
    PassAloneIsAdvance(v, id, now);
    PutAgain(v, Put(w, id, e, now), id, Advance(e, now), now);
    PutTwice(w, id, e, Advance(e, now), now);
  }

  /** A submission run alone is the submission of the pure model and then its pass. */
  lemma SubmissionAloneIsSubmit(w: World, id: string, i: nat, dep: Deployment, s: Subject, p: Payload, now: Instant)
    requires id in w.decisions && Filed(w.decisions[id]) && Accepted(w.decisions[id], i, dep, s, p, now).Ok?
    ensures Submit(w.decisions[id], i, dep, s, p, now, false).Ok?
    ensures Accepted(w.decisions[id], i, dep, s, p, now).value.Voting? || Accepted(w.decisions[id], i, dep, s, p, now).value.Marking?
    ensures SameStore(Submission(w, id, Accepted(w.decisions[id], i, dep, s, p, now).value, now),
                      Put(w, id, Advance(Submit(w.decisions[id], i, dep, s, p, now, false).value, now), now))
  {
    var d := w.decisions[id];
    AcceptedIsSubmit(d, i, dep, s, p, now);
    SubmitIsFiled(d, i, dep, s, p, now);
    var e, phase := Submit(d, i, dep, s, p, now, false).value, Accepted(d, i, dep, s, p, now).value;
    RecordedIsSubmit(w, id, i, dep, s, p, now);
    WriteThenPass(w, Recorded(w, id, phase, now), id, e, now);
  }

  lemma RecordedIsSubmit(w: World, id: string, i: nat, dep: Deployment, s: Subject, p: Payload, now: Instant)
    requires id in w.decisions && Accepted(w.decisions[id], i, dep, s, p, now).Ok?
    ensures Submit(w.decisions[id], i, dep, s, p, now, false).Ok?
    ensures Accepted(w.decisions[id], i, dep, s, p, now).value.Voting? || Accepted(w.decisions[id], i, dep, s, p, now).value.Marking?
    ensures var v, e := Recorded(w, id, Accepted(w.decisions[id], i, dep, s, p, now).value, now), Submit(w.decisions[id], i, dep, s, p, now, false).value;
            SameStore(v, Put(w, id, e, now)) && v.decisions[id] == e
  {
    var d := w.decisions[id];
    AcceptedIsSubmit(d, i, dep, s, p, now);
    var e, phase := Submit(d, i, dep, s, p, now, false).value, Accepted(d, i, dep, s, p, now).value;
    PutHolds(w, id, e, now);
    if phase.Voting? {
      var voted := RecordApproval(d, i, phase.approver, phase.hash);
      PutHolds(w, id, voted, now);
      PutTwice(w, id, voted, e, now);
    }
  }

  lemma RecordedHaltsAlike(w: World, id: string, i: nat, dep: Deployment, s: Subject, p: Payload, now: Instant)
    requires id in w.decisions && Accepted(w.decisions[id], i, dep, s, p, now).Ok?
    ensures Accepted(w.decisions[id], i, dep, s, p, now).value.Voting? || Accepted(w.decisions[id], i, dep, s, p, now).value.Marking?
    ensures var v := Recorded(w, id, Accepted(w.decisions[id], i, dep, s, p, now).value, now);
            v.decisions[id].context == w.decisions[id].context && (Halts(v.decisions[id], now) <==> Halts(w.decisions[id], now))
  {
    RecordedIsSubmit(w, id, i, dep, s, p, now);
    SubmitHaltsAlike(w.decisions[id], i, dep, s, p, now);
  }

  lemma PutHolds(w: World, id: string, e: Decision, at: Instant)
    requires id in w.decisions
    ensures id in Put(w, id, e, at).decisions && Put(w, id, e, at).decisions[id] == e
  {
  }

  // ---- as the runs have it ----

  /** The same operation continued a number of times. */
  function Continued(n: nat, steps: nat): seq<Event> {
    if steps == 0 then [] else Continued(n, steps - 1) + [Works(n)]
  }

  lemma {:induction false} RunsChain(w: World, a: seq<Event>, b: seq<Event>)
    ensures Run(w, a + b) == Run(Run(w, a), b)
    decreases |b|
  {
    if b == [] {
      assert a + b == a;
    } else {
      var m := |b| - 1;
      RunsChain(w, a, b[..m]);
      RunOneMore(w, a + b[..m], b[m]);
      RunOneMore(Run(w, a), b[..m], b[m]);
      assert b[..m] + [b[m]] == b && (a + b[..m]) + [b[m]] == a + b;
    }
  }

  lemma ScanOneReadsItsRow(w: World, id: string, a: Decision, b: Decision, k: nat, now: Instant)
    requires id in w.decisions && k < |a.rows| && k < |b.rows| && a.rows[k] == b.rows[k]
    ensures ScanOne(w, id, a, k, now) == ScanOne(w, id, b, k, now)
  {
  }

  /** What is left of a scan does not depend on the rows behind it. */
  lemma {:induction false} ScanReadsAhead(w: World, id: string, a: Decision, b: Decision, k: nat, met: nat, lost: nat, now: Instant)
    requires id in w.decisions && |a.rows| == |b.rows| && forall i :: k <= i < |a.rows| ==> a.rows[i] == b.rows[i]
    ensures Scan(w, id, a, k, met, lost, now) == Scan(w, id, b, k, met, lost, now)
    decreases |a.rows| - k
  {
    if k < |a.rows| && !Ends(w.decisions[id], a, k, now) {
      var counted := Counted(Settled(a.rows[k], Have(w.decisions[id], k), now).state);
      ScanOneReadsItsRow(w, id, a, b, k, now);
      ScanReadsAhead(ScanOne(w, id, a, k, now), id, a, b, k + 1, met + counted.0, lost + counted.1, now);
    }
  }

  ghost predicate SameButJob(v: World, u: World, n: nat) {
    v.decisions == u.decisions && v.log == u.log && v.claims == u.claims && v.stamps == u.stamps && n in v.jobs && v.jobs[n].phase.Done?
  }

  /** The world with the operation itself set aside. */
  function Besides(w: World, jobs: map<nat, Job>): World {
    w.(jobs := jobs)
  }

  lemma ScanOneIgnoresJobs(w: World, id: string, copy: Decision, k: nat, now: Instant, jobs: map<nat, Job>)
    requires id in w.decisions && k < |copy.rows|
    ensures ScanOne(Besides(w, jobs), id, copy, k, now) == Besides(ScanOne(w, id, copy, k, now), jobs)
  {
  }

  lemma {:induction false} ScanIgnoresJobs(w: World, id: string, copy: Decision, k: nat, met: nat, lost: nat, now: Instant, jobs: map<nat, Job>)
    requires id in w.decisions
    ensures Scan(Besides(w, jobs), id, copy, k, met, lost, now) == Besides(Scan(w, id, copy, k, met, lost, now), jobs)
    decreases |copy.rows| - k
  {
    if k < |copy.rows| && !Ends(w.decisions[id], copy, k, now) {
      var counted := Counted(Settled(copy.rows[k], Have(w.decisions[id], k), now).state);
      ScanOneIgnoresJobs(w, id, copy, k, now, jobs);
      ScanIgnoresJobs(ScanOne(w, id, copy, k, now), id, copy, k + 1, met + counted.0, lost + counted.1, now, jobs);
    }
  }

  /** An operation continued a number of times. */
  function WorkOn(w: World, n: nat, steps: nat): World
    decreases steps
  {
    if steps == 0 then w else WorkOn(Step(w, Works(n)), n, steps - 1)
  }

  lemma {:induction false} WorkOnChains(w: World, n: nat, a: nat, b: nat)
    ensures WorkOn(w, n, a + b) == WorkOn(WorkOn(w, n, a), n, b)
    decreases a
  {
    if a > 0 { WorkOnChains(Step(w, Works(n)), n, a - 1, b); }
  }

  lemma RunOneMore(w: World, events: seq<Event>, ev: Event)
    ensures Run(w, events + [ev]) == Step(Run(w, events), ev)
  {
    assert (events + [ev])[..|events + [ev]| - 1] == events;
  }

  lemma WorkOnOneMore(w: World, n: nat, steps: nat)
    ensures WorkOn(w, n, steps + 1) == Step(WorkOn(w, n, steps), Works(n))
  {
    WorkOnChains(w, n, steps, 1);
    var v := WorkOn(w, n, steps);
    assert WorkOn(Step(v, Works(n)), n, 0) == Step(v, Works(n));
  }

  lemma {:induction false} WorkOnRuns(w: World, n: nat, steps: nat)
    ensures WorkOn(w, n, steps) == Run(w, Continued(n, steps))
    decreases steps
  {
    if steps > 0 {
      WorkOnRuns(w, n, steps - 1);
      WorkOnOneMore(w, n, steps - 1);
      RunOneMore(w, Continued(n, steps - 1), Works(n));
    }
  }

  lemma OneWork(w: World, n: nat)
    requires n in w.jobs && w.jobs[n].id in w.decisions
    ensures WorkOn(w, n, 1) == Work(w, n)
  {
    assert WorkOn(Step(w, Works(n)), n, 0) == Step(w, Works(n));
  }

  lemma TwoWorks(w: World, n: nat)
    requires n in w.jobs && w.jobs[n].id in w.decisions && n in Work(w, n).jobs && Work(w, n).jobs[n].id in Work(w, n).decisions
    ensures WorkOn(w, n, 2) == Work(Work(w, n), n)
  {
    OneWork(w, n);
    OneWork(Work(w, n), n);
    WorkOnChains(w, n, 1, 1);
  }

  ghost predicate IsScanning(w: World, n: nat, k: nat, met: nat, lost: nat) {
    n in w.jobs && w.jobs[n].id in w.decisions && w.jobs[n].phase == Scanning(k, met, lost)
  }

  /** The operation is at a row, and goes past it. */
  ghost predicate Goes(w: World, n: nat, k: nat, met: nat, lost: nat) {
    && IsScanning(w, n, k, met, lost) && k < |w.jobs[n].copy.rows|
    && !Ends(w.decisions[w.jobs[n].id], w.jobs[n].copy, k, w.jobs[n].now)
  }

  /** The operation is a row further on, and the store has that row's write. */
  ghost predicate RowTaken(w: World, v: World, n: nat, k: nat, met: nat, lost: nat)
    requires IsScanning(w, n, k, met, lost) && k < |w.jobs[n].copy.rows|
  {
    var j := w.jobs[n];
    var counted := Counted(Settled(j.copy.rows[k], Have(w.decisions[j.id], k), j.now).state);
    && v == Besides(ScanOne(w, j.id, j.copy, k, j.now), v.jobs)
    && IsScanning(v, n, k + 1, met + counted.0, lost + counted.1) && v.jobs[n].id == j.id && v.jobs[n].now == j.now
    && |v.jobs[n].copy.rows| == |j.copy.rows| && forall i :: k < i < |j.copy.rows| ==> v.jobs[n].copy.rows[i] == j.copy.rows[i]
  }

  lemma QuietRow(w: World, n: nat, k: nat, met: nat, lost: nat)
    requires Goes(w, n, k, met, lost)
    requires var j := w.jobs[n]; Settled(j.copy.rows[k], Have(w.decisions[j.id], k), j.now).state == j.copy.rows[k].state
    ensures RowTaken(w, Work(w, n), n, k, met, lost)
  {
  }

  /** Deciding a row, and then writing it. */
  lemma WrittenRow(w: World, n: nat, k: nat, met: nat, lost: nat)
    requires Goes(w, n, k, met, lost)
    requires var j := w.jobs[n]; Settled(j.copy.rows[k], Have(w.decisions[j.id], k), j.now).state != j.copy.rows[k].state
    ensures n in Work(w, n).jobs && Work(w, n).jobs[n].id in Work(w, n).decisions
    ensures RowTaken(w, Work(Work(w, n), n), n, k, met, lost)
  {
    var j, u := w.jobs[n], Work(w, n);
    var row := Settled(j.copy.rows[k], Have(w.decisions[j.id], k), j.now);
    assert u == Besides(w, w.jobs[n := j.(phase := Storing(k, row.state, row.evidence, met, lost))]);
    var v := Work(u, n);
    assert v == Besides(ScanOne(w, j.id, j.copy, k, j.now), v.jobs);
  }

  /** One row of a scanning operation takes one transaction, or two where it writes. */
  lemma RowTakes(w: World, n: nat, k: nat, met: nat, lost: nat) returns (steps: nat)
    requires Goes(w, n, k, met, lost)
    ensures RowTaken(w, WorkOn(w, n, steps), n, k, met, lost)
  {
    var j := w.jobs[n];
    if Settled(j.copy.rows[k], Have(w.decisions[j.id], k), j.now).state == j.copy.rows[k].state {
      steps := 1;
      QuietRow(w, n, k, met, lost);
      OneWork(w, n);
    } else {
      steps := 2;
      WrittenRow(w, n, k, met, lost);
      TwoWorks(w, n);
    }
  }

  /** What is left of a scanning operation. */
  function ScanJob(w: World, n: nat): World
    requires n in w.jobs && w.jobs[n].id in w.decisions && w.jobs[n].phase.Scanning?
  {
    var j := w.jobs[n];
    Scan(w, j.id, j.copy, j.phase.k, j.phase.met, j.phase.lost, j.now)
  }

  lemma LastWork(w: World, n: nat, k: nat, met: nat, lost: nat)
    requires IsScanning(w, n, k, met, lost) && k == |w.jobs[n].copy.rows|
    ensures SameButJob(Work(w, n), ScanJob(w, n), n)
  {
    PutSame(w, w.jobs[n].id, w.jobs[n].now);
  }

  lemma ScanCloses(w: World, id: string, copy: Decision, met: nat, lost: nat, now: Instant)
    requires id in w.decisions
    ensures Scan(w, id, copy, |copy.rows|, met, lost, now) ==
            if lost > 0 then Put(w, id, Close(w.decisions[id], Fail), now)
            else if met == |copy.rows| then Put(w, id, Close(w.decisions[id], Satisfy), now) else w
  {
  }

  /** A pass over the copy has come to a row, with so many counted, and from there comes to
      the whole. */
  ghost predicate Midway(w: World, id: string, copy: Decision, k: nat, met: nat, lost: nat, now: Instant, whole: World) {
    && id in w.decisions && w.decisions[id].context.id == id && |w.decisions[id].rows| == |copy.rows|
    && Scan(w, id, copy, k, met, lost, now) == whole
  }

  lemma ScanStops(w: World, id: string, copy: Decision, k: nat, met: nat, lost: nat, now: Instant)
    requires id in w.decisions && k < |copy.rows| && Ends(w.decisions[id], copy, k, now)
    ensures Scan(w, id, copy, k, met, lost, now) == w
  {
  }

  lemma ScanUnfolds(w: World, id: string, copy: Decision, k: nat, met: nat, lost: nat, now: Instant)
    requires id in w.decisions && k < |copy.rows| && !Ends(w.decisions[id], copy, k, now)
    ensures var counted := Counted(Settled(copy.rows[k], Have(w.decisions[id], k), now).state);
            Scan(w, id, copy, k, met, lost, now) == Scan(ScanOne(w, id, copy, k, now), id, copy, k + 1, met + counted.0, lost + counted.1, now)
  {
  }

  lemma ScanOnAt(w: World, u: World, jobs: map<nat, Job>, id: string, copy: Decision, other: Decision, k: nat, x: World, met: nat, lost: nat, now: Instant)
    requires id in u.decisions && x == Scan(u, id, copy, k, met, lost, now)
    requires |copy.rows| == |other.rows| && forall i :: k <= i < |copy.rows| ==> other.rows[i] == copy.rows[i]
    ensures Scan(Besides(u, jobs), id, other, k, met, lost, now) == Besides(x, jobs)
  {
    ScanReadsAhead(Besides(u, jobs), id, other, copy, k, met, lost, now);
    ScanIgnoresJobs(u, id, copy, k, met, lost, now, jobs);
  }

  /** The rest of a scan, seen from a row further on. */
  lemma ScanOn(w: World, v: World, n: nat, k: nat, met: nat, lost: nat)
    requires Goes(w, n, k, met, lost) && RowTaken(w, v, n, k, met, lost)
    ensures ScanJob(v, n) == Besides(ScanJob(w, n), v.jobs)
  {
    var j, p := w.jobs[n], v.jobs[n].phase;
    var u := ScanOne(w, j.id, j.copy, k, j.now);
    ScanUnfolds(w, j.id, j.copy, k, met, lost, j.now);
    ScanOnAt(w, u, v.jobs, j.id, j.copy, v.jobs[n].copy, k + 1, ScanJob(w, n), p.met, p.lost, j.now);
  }

  lemma ScanComesToEnd(w: World, n: nat, k: nat, met: nat, lost: nat)
    requires IsScanning(w, n, k, met, lost) && k == |w.jobs[n].copy.rows|
    ensures SameButJob(WorkOn(w, n, 1), ScanJob(w, n), n)
  {
    OneWork(w, n);
    LastWork(w, n, k, met, lost);
  }

  /** At a row it cannot read the operation ends at once, and where its row is gone when it
      comes to write it. */
  lemma ScanBreaksOff(w: World, n: nat, k: nat, met: nat, lost: nat) returns (steps: nat)
    requires IsScanning(w, n, k, met, lost) && k < |w.jobs[n].copy.rows| && !Goes(w, n, k, met, lost)
    ensures SameButJob(WorkOn(w, n, steps), ScanJob(w, n), n)
  {
    OneWork(w, n);
    if Stuck(w.jobs[n].copy.rows[k]) {
      steps := 1;
      StuckWork(w, n, k, met, lost);
    } else {
      steps := 2;
      GoneWorks(w, n, k, met, lost);
      TwoWorks(w, n);
    }
  }

  lemma StuckWork(w: World, n: nat, k: nat, met: nat, lost: nat)
    requires IsScanning(w, n, k, met, lost) && k < |w.jobs[n].copy.rows| && Stuck(w.jobs[n].copy.rows[k])
    ensures SameButJob(Work(w, n), ScanJob(w, n), n)
  {
  }

  lemma GoneWorks(w: World, n: nat, k: nat, met: nat, lost: nat)
    requires IsScanning(w, n, k, met, lost) && k < |w.jobs[n].copy.rows| && !Goes(w, n, k, met, lost) && !Stuck(w.jobs[n].copy.rows[k])
    ensures n in Work(w, n).jobs && Work(w, n).jobs[n].id in Work(w, n).decisions
    ensures SameButJob(Work(Work(w, n), n), ScanJob(w, n), n)
  {
    var j, u := w.jobs[n], Work(w, n);
    var row := Settled(j.copy.rows[k], Have(w.decisions[j.id], k), j.now);
    assert u == Besides(w, w.jobs[n := j.(phase := Storing(k, row.state, row.evidence, met, lost))]);
  }

  /** A row taken, and what is left. */
  lemma TakeRow(w: World, n: nat, k: nat, met: nat, lost: nat) returns (steps: nat, v: World)
    requires Goes(w, n, k, met, lost)
    ensures v == WorkOn(w, n, steps) && n in v.jobs && v.jobs[n].phase.Scanning?
    ensures var p := v.jobs[n].phase; IsScanning(v, n, k + 1, p.met, p.lost) && |v.jobs[n].copy.rows| == |w.jobs[n].copy.rows|
    ensures ScanJob(v, n) == Besides(ScanJob(w, n), v.jobs)
  {
    steps := RowTakes(w, n, k, met, lost);
    v := WorkOn(w, n, steps);
    ScanOn(w, v, n, k, met, lost);
  }

  lemma {:induction false} JobScans(w: World, n: nat, k: nat, met: nat, lost: nat, u: World) returns (steps: nat, v: World)
    requires IsScanning(w, n, k, met, lost) && k <= |w.jobs[n].copy.rows| && ScanJob(w, n) == u
    ensures v == WorkOn(w, n, steps)
    ensures SameButJob(v, u, n)
    decreases |w.jobs[n].copy.rows| - k
  {
    if k == |w.jobs[n].copy.rows| {
      steps := 1;
      v := WorkOn(w, n, 1);
      ScanComesToEnd(w, n, k, met, lost);
    } else if Ends(w.decisions[w.jobs[n].id], w.jobs[n].copy, k, w.jobs[n].now) {
      steps := ScanBreaksOff(w, n, k, met, lost);
      v := WorkOn(w, n, steps);
    } else {
      var first, x := TakeRow(w, n, k, met, lost);
      var rest;
      rest, v := JobScans(x, n, k + 1, x.jobs[n].phase.met, x.jobs[n].phase.lost, Besides(u, x.jobs));
      steps := first + rest;
      WorkOnChains(w, n, first, rest);
    }
  }

  /** In any world, a pass begun and continued with nothing in between comes to the
      settle pass: the same decisions and the same log. */
  lemma PassInRun(w: World, n: nat, id: string, now: Instant) returns (steps: nat)
    requires Tracked(w) && id in w.decisions && n !in w.jobs
    ensures var v := Run(w, [Passes(n, id, now)] + Continued(n, steps));
            var u := Put(w, id, Advance(w.decisions[id], now), now);
            v.decisions == u.decisions && v.log == u.log && n in v.jobs && v.jobs[n].phase.Done?
  {
    var d, begun := w.decisions[id], Step(w, Passes(n, id, now));
    assert [Passes(n, id, now)][..0] == [];
    assert Run(w, [Passes(n, id, now)]) == begun;
    PassAloneIsAdvance(w, id, now);
    if begun.jobs[n].phase.Done? {
      steps := 0;
      assert [Passes(n, id, now)] + Continued(n, 0) == [Passes(n, id, now)];
    } else {
      var v;
      steps, v := JobScans(begun, n, 0, 0, 0, ScanJob(begun, n));
      WorkOnRuns(begun, n, steps);
      RunsChain(w, [Passes(n, id, now)], Continued(n, steps));
      ScanIgnoresJobs(w, id, d, 0, 0, 0, now, begun.jobs);
      assert begun == Besides(w, begun.jobs);
    }
  }
}
