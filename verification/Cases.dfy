/** Concrete runs and requests at which something one might expect fails: writes that
    land on what somebody else changed since the writer read, a wait its own timer
    fails, and a wait no pass can meet. */
module Cases {
  import opened Basics
  import opened Approvers
  import opened Policy
  import opened Challenges
  import opened Decisions
  import opened Revision
  import opened Runs
  import opened Alone
  import opened Delays

  // ---- a decision gated on one approval ----

  const BLANK := FrozenEntity("", "", map[])
  const CONTENT := Context("d", "caller", "", "", "act", "p", FrozenInput("act", BLANK, BLANK, BLANK), map[], [])
  const SITE := Deployment(Directory("i", false, map[]), map[])
  const APPROVER := Subject(User, "i", "a", Some(map["c" := BoolClaim(true)]))

  function Asking(claim: string): Spec {
    QuorumSpec(1, ApproverSet([], claim, None))
  }

  function NoDraws(): nat -> Draw {
    n => Draw("", true, "", Ok(""))
  }

  function Terms(claim: string): ApproverTerms {
    ClaimTerms("i", claim)
  }

  function Asked(c: Context, claim: string, hash: Digest): Row {
    Row(QuorumKind, Pending, None, QuorumDetail(1, Terms(claim), Some(hash)), NoEvidence)
  }

  /** The decision as it is opened, expiring at 1000. */
  function Opened1(): Decision {
    Decision(CONTENT, 1, Open, 1000, [Asked(CONTENT, "c", BindingHash(CONTENT, Terms("c")))], map[], Some(1000))
  }

  function Opening(): Event {
    Opens(Proposal(CONTENT, 1, 1000, [Asking("c")]), SITE, NoDraws(), 0)
  }

  function Approving(): Event {
    Submits(1, "d", 0, SITE, APPROVER, Approval(None), 1)
  }

  function Vote(): Phase {
    Voting(0, "a", BindingHash(CONTENT, Terms("c")))
  }

  lemma OpeningOpens()
    ensures Step(EMPTY, Opening()) == EMPTY.(decisions := map["d" := Opened1()])
  {
    var specs := [Asking("c")];
    assert specs[..0] == [];
    assert OpenRows([], CONTENT, SITE, NoDraws(), 0, 1000) == Ok(Opened([], 1000));
    assert Issue(Asking("c"), CONTENT, SITE, NoDraws()(0), 0) == Ok(Issued(Pending, QuorumDetail(1, Terms("c"), Some(BindingHash(CONTENT, Terms("c")))), None, false));
    var rows := [Asked(CONTENT, "c", BindingHash(CONTENT, Terms("c")))];
    assert [] + rows == rows;
    assert OpenRows(specs, CONTENT, SITE, NoDraws(), 0, 1000) == Ok(Opened(rows, 1000));
    assert StoredContext(CONTENT) == CONTENT by { assert StoredMap(map[]) == map[]; }
    assert NextDeadline(1000, rows[1..]) == 1000;
    assert NextDeadline(1000, rows) == 1000;
  }

  lemma ApprovingReads()
    ensures var w := EMPTY.(decisions := map["d" := Opened1()]);
            Step(w, Approving()) == w.(jobs := map[1 := Job("d", 1, Opened1(), 0, Vote())])
  {
    assert IsTarget(Terms("c"), APPROVER);
  }

  // ---- a vote that lands after the decision is over ----

  function Expiry(): Claim {
    Claim(Opened1(), 1000)
  }

  function SoFar(): World {
    EMPTY.(decisions := map["d" := Opened1()], jobs := map[1 := Job("d", 1, Opened1(), 0, Vote())])
  }

  function Over(): World {
    Put(SoFar().(claims := {Expiry()}), "d", Close(Opened1(), Expire), 1000)
  }

  lemma ReadSoFar()
    ensures Run(EMPTY, [Opening(), Approving()]) == SoFar()
  {
    OpeningOpens();
    ApprovingReads();
    RunOneMore(EMPTY, [], Opening());
    RunOneMore(EMPTY, [Opening()], Approving());
    assert [] + [Opening()] == [Opening()] && [Opening()] + [Approving()] == [Opening(), Approving()];
  }

  lemma SweptOver()
    ensures Run(SoFar(), [Claims("d", 1000), Sweeps(2, Expiry())]) == Over()
  {
    var w := SoFar();
    assert Step(w, Claims("d", 1000)) == w.(claims := {} + {Expiry()}) == w.(claims := {Expiry()});
    assert Step(w.(claims := {Expiry()}), Sweeps(2, Expiry())) == Over();
    RunOneMore(w, [], Claims("d", 1000));
    RunOneMore(w, [Claims("d", 1000)], Sweeps(2, Expiry()));
    assert [] + [Claims("d", 1000)] == [Claims("d", 1000)] && [Claims("d", 1000)] + [Sweeps(2, Expiry())] == [Claims("d", 1000), Sweeps(2, Expiry())];
  }

  // ---- following one operation ----

  ghost predicate Holds(w: World, d: Decision) {
    w.decisions == map["d" := d]
  }

  ghost predicate Doing(w: World, n: nat, now: Instant, copy: Decision, phase: Phase) {
    n in w.jobs && w.jobs[n] == Job("d", now, copy, w.jobs[n].stamp, phase)
  }

  /** One transaction, in terms of the operation's own functions. */
  lemma WorkWrites(w: World, n: nat)
    requires n in w.jobs && w.jobs[n].id in w.decisions && !w.jobs[n].phase.Reading?
    ensures var j := w.jobs[n];
            var d, v := w.decisions[j.id], Step(w, Works(n));
            v.decisions == w.decisions[j.id := Written(d, j)] && v.jobs == w.jobs[n := NextJob(d, j)]
  {
  }

  lemma WorkOnce(w: World, n: nat, now: Instant, d: Decision, copy: Decision, phase: Phase)
    requires Holds(w, d) && Doing(w, n, now, copy, phase) && !phase.Reading?
    ensures var v, j := Step(w, Works(n)), Job("d", now, copy, 0, phase);
            && Holds(v, Written(d, j)) && Doing(v, n, now, Written(copy, j), NextPhase(d, j))
            && forall m :: m in w.jobs && m != n ==> m in v.jobs && v.jobs[m] == w.jobs[m]
  {
    WorkWrites(w, n);
    var j, k := w.jobs[n], Job("d", now, copy, 0, phase);
    assert Written(d, j) == Written(d, k) && Written(copy, j) == Written(copy, k) && NextPhase(d, j) == NextPhase(d, k) by { PhaseDecides(d, copy, j, k); }
  }

  lemma PhaseDecides(d: Decision, copy: Decision, j: Job, k: Job)
    requires j.copy == k.copy == copy && j.phase == k.phase && j.now == k.now
    ensures Written(d, j) == Written(d, k) && Written(copy, j) == Written(copy, k) && NextPhase(d, j) == NextPhase(d, k)
  {
  }

  function Voted(d: Decision): Decision {
    d.(approvals := map[(0, "a") := BindingHash(CONTENT, Terms("c"))])
  }

  /** The vote of the submission under way, on a decision as it now is. */
  lemma VoteLands(w: World, d: Decision)
    requires Holds(w, d) && Doing(w, 1, 1, Opened1(), Vote()) && |d.rows| == 1 && d.approvals == map[]
    ensures var v := Step(w, Works(1)); Holds(v, Voted(d)) && Doing(v, 1, 1, Voted(Opened1()), Counting(0))
    ensures d.state != Open ==> Step(w, Works(1)).log == w.log
  {
    WorkOnce(w, 1, 1, d, Opened1(), Vote());
  }

  lemma OverIsOver()
    ensures Holds(Over(), Close(Opened1(), Expire)) && Over().log == [Entry(Expired, 1000, Close(Opened1(), Expire))]
    ensures Doing(Over(), 1, 1, Opened1(), Vote())
  {
    assert EMPTY.log + [Entry(Expired, 1000, Close(Opened1(), Expire))] == [Entry(Expired, 1000, Close(Opened1(), Expire))];
  }

  const ENDED := [Opening(), Approving()] + [Claims("d", 1000), Sweeps(2, Expiry())]

  /** A submission reads, a sweep expires the decision, the submission writes: the
      approval is recorded on a decision that was over, and its log row no longer says
      what the decision is. */
  lemma AVoteAfterTheEnd()
    ensures Run(EMPTY, ENDED).decisions == map["d" := Close(Opened1(), Expire)] && Close(Opened1(), Expire).state == Expired
    ensures Run(EMPTY, ENDED + [Works(1)]).decisions == map["d" := Voted(Close(Opened1(), Expire))]
    ensures Run(EMPTY, ENDED + [Works(1)]).log == [Entry(Expired, 1000, Close(Opened1(), Expire))] && Voted(Close(Opened1(), Expire)) != Close(Opened1(), Expire)
  {
    ReadSoFar();
    SweptOver();
    OverIsOver();
    RunsChain(EMPTY, [Opening(), Approving()], [Claims("d", 1000), Sweeps(2, Expiry())]);
    RunOneMore(EMPTY, ENDED, Works(1));
    VoteLands(Over(), Close(Opened1(), Expire));
    assert (0, "a") in Voted(Close(Opened1(), Expire)).approvals;
  }

  // ---- a vote that lands after a revision ----

  function Stricter(): Judgment {
    Kept("q", 2, map[], [], [Asking("e")])
  }

  const OUTSIDE := Setting(SITE, NoDraws(), true, _ => true)

  function Revising(): Event {
    Revises(["d"], _ => Stricter(), _ => OUTSIDE, 2)
  }

  const REWRITTEN := CONTENT.(policy := "q")

  /** Under another policy, wanting another claim. */
  function Revised1(): Decision {
    Opened1().(context := REWRITTEN, version := 2, rows := [Asked(REWRITTEN, "e", BindingHash(REWRITTEN, Terms("e")))])
  }

  lemma RevaluatesTo()
    ensures Revaluate(Opened1(), Stricter(), OUTSIDE, 2) == Ok(Revised1())
  {
    RebindsToStricter();
    StricterIsFiled();
    RebindingDecides(Opened1(), Stricter(), OUTSIDE, 2, [Rebound(Revised1().rows[0], true, false)], Revised1());
  }

  /** A same-shape revision whose rebound decision is filed as it is and undecided. */
  lemma RebindingDecides(d: Decision, j: Judgment, env: Setting, now: Instant, rebound: seq<Rebound>, e: Decision)
    requires j.Kept? && SameShape(Rejudged(d, j).rows, j.specs) && RebindRows(Rejudged(d, j), j.specs, env, now, |j.specs|) == Ok(rebound)
    requires Rebind(Rejudged(d, j), rebound) == e == Refiled(e) && Verdict(e.rows) == None
    ensures Revaluate(d, j, env, now) == Ok(e)
  {
  }

  lemma StricterIsFiled()
    ensures var e := Revised1(); Refiled(e) == e && Verdict(e.rows) == None && Rebind(Rejudged(Opened1(), Stricter()), [Rebound(e.rows[0], true, false)]) == e
  {
    var e := Revised1();
    var f := Rebind(Rejudged(Opened1(), Stricter()), [Rebound(e.rows[0], true, false)]);
    assert f.rows == e.rows && f.approvals == map[];
    assert StoredMap(map[]) == map[];
    assert e.rows[0].state == Pending;
  }

  lemma RebindsToStricter()
    ensures var d, specs := Rejudged(Opened1(), Stricter()), Stricter().specs;
            SameShape(d.rows, specs) && RebindRows(d, specs, OUTSIDE, 2, 1) == Ok([Rebound(Revised1().rows[0], true, false)])
  {
    var d, specs, row := Rejudged(Opened1(), Stricter()), Stricter().specs, Revised1().rows[0];
    assert Issue(Asking("e"), REWRITTEN, SITE, NoDraws()(0), 2) == Ok(Issued(Pending, row.detail, None, false));
    assert RebindRow(d, 0, specs[0], OUTSIDE, 2) == Ok(Rebound(row, true, false));
    assert RebindRows(d, specs, OUTSIDE, 2, 0) == Ok([]);
    assert [] + [Rebound(row, true, false)] == [Rebound(row, true, false)];
  }

  /** A revision of one decision. */
  lemma RevisesOne(w: World, ev: Event, id: string, e: Decision)
    requires ev.Revises? && ev.ids == [id] && id in w.decisions && w.decisions[id].state == Open && !IsExpired(w.decisions[id], ev.now)
    requires Revaluate(w.decisions[id], ev.judge(w.decisions[id].context), ev.envs(id), ev.now) == Ok(e)
    ensures Step(w, ev) == Put(w, id, e, ev.now)
  {
    assert ev.ids[1..] == [];
    assert ReviseWorld(Put(w, id, e, ev.now), [], ev.judge, ev.envs, ev.now) == Ok(Put(w, id, e, ev.now));
  }

  lemma RevisingRevises()
    ensures Step(SoFar(), Revising()) == Put(SoFar(), "d", Revised1(), 2)
  {
    RevaluatesTo();
    RevisesOne(SoFar(), Revising(), "d", Revised1());
  }

  function Overwritten(): Decision {
    Voted(Revised1()).(rows := [Asked(CONTENT, "c", BindingHash(CONTENT, Terms("c"))).(state := Satisfied)])
  }

  lemma MarksOver()
    ensures var d := Opened1().rows[0].detail; WriteRow(Voted(Revised1()), 0, Satisfied, d, NoEvidence) == Overwritten()
  {
    var rows := Overwritten().rows;
    assert Voted(Revised1()).rows[0 := rows[0]] == rows;
    assert NextDeadline(1000, rows[1..]) == 1000 && NextDeadline(1000, rows) == 1000;
  }

  /** The submission after the revision, write by write, up to its pass. */
  lemma VoteOverRevision(w: World)
    requires Holds(w, Revised1()) && Doing(w, 1, 1, Opened1(), Vote())
    ensures Holds(WorkOn(w, 1, 1), Voted(Revised1()))
    ensures Holds(WorkOn(w, 1, 3), Overwritten()) && exists copy :: Doing(WorkOn(w, 1, 3), 1, 1, copy, Reading)
  {
    var row := Opened1().rows[0];
    VoteLands(w, Revised1());
    var w1 := Step(w, Works(1));
    WorkOnce(w1, 1, 1, Voted(Revised1()), Voted(Opened1()), Counting(0));
    var w2 := Step(w1, Works(1));
    assert Voters(Voted(Revised1()).approvals, 0) == {(0, "a")};
    assert Doing(w2, 1, 1, Voted(Opened1()), Marking(0, Satisfied, row.detail, NoEvidence));
    WorkOnce(w2, 1, 1, Voted(Revised1()), Voted(Opened1()), Marking(0, Satisfied, row.detail, NoEvidence));
    MarksOver();
    WorkOnOneMore(w, 1, 0);
    WorkOnOneMore(w, 1, 1);
    WorkOnOneMore(w, 1, 2);
  }

  /** Its pass then allows the decision. */
  lemma PassOverRevision(w: World, copy: Decision)
    requires Holds(w, Overwritten()) && Doing(w, 1, 1, copy, Reading)
    ensures Holds(WorkOn(w, 1, 3), Close(Overwritten(), Satisfy))
  {
    var d := Overwritten();
    var w1 := Step(w, Works(1));
    assert Holds(w1, d);
    assert d.context.id == "d" && w1.jobs[1] == StartPass(d, Stamp(w, "d"), 1);
    assert Doing(w1, 1, 1, d, Scanning(0, 0, 0));
    WorkOnce(w1, 1, 1, d, d, Scanning(0, 0, 0));
    var w2 := Step(w1, Works(1));
    assert Doing(w2, 1, 1, d, Scanning(1, 1, 0));
    WorkOnce(w2, 1, 1, d, d, Scanning(1, 1, 0));
    WorkOnOneMore(w, 1, 0);
    WorkOnOneMore(w, 1, 1);
    WorkOnOneMore(w, 1, 2);
  }

  const READ := [Opening(), Approving()]

  lemma ReadThenRevised()
    ensures Run(EMPTY, READ + [Revising()]) == Put(SoFar(), "d", Revised1(), 2)
  {
    ReadSoFar();
    RevisingRevises();
    RunOneMore(EMPTY, READ, Revising());
  }

  /** A submission reads, a revision gives the quorum other terms, the submission writes.
      Its vote stands under a hash the row does not carry; then it writes the row it had
      read over the revised one, and its pass allows the decision on terms the revision
      had replaced. */
  lemma AVoteAcrossARevision()
    ensures var revised := READ + [Revising()];
            var w, v, u := Run(EMPTY, revised), Run(EMPTY, revised + Continued(1, 1)), Run(EMPTY, revised + Continued(1, 6));
            && w.decisions == map["d" := Revised1()] && Revised1().rows[0].detail.terms == Terms("e")
            && v.decisions == map["d" := Voted(Revised1())] && Some(Voted(Revised1()).approvals[(0, "a")]) != Revised1().rows[0].detail.hash
            && u.decisions == map["d" := Close(Overwritten(), Satisfy)] && Close(Overwritten(), Satisfy).state == Allowed
            && Overwritten().rows[0].detail.terms == Terms("c")
            && Overwritten().rows[0].detail.hash != Some(BindingHash(Overwritten().context, Terms("c")))
  {
    ReadThenRevised();
    var w := Put(SoFar(), "d", Revised1(), 2);
    assert Holds(w, Revised1()) && Doing(w, 1, 1, Opened1(), Vote());
    VoteOverRevision(w);
    var copy :| Doing(WorkOn(w, 1, 3), 1, 1, copy, Reading);
    PassOverRevision(WorkOn(w, 1, 3), copy);
    WorkOnChains(w, 1, 3, 3);
    WorkOnRuns(w, 1, 1);
    WorkOnRuns(w, 1, 6);
    RunsChain(EMPTY, READ + [Revising()], Continued(1, 1));
    RunsChain(EMPTY, READ + [Revising()], Continued(1, 6));
  }

  // ---- a cancellation and a pass ----

  /** A wait of two microseconds, open for five, that the claim may cancel. */
  function Waiting(): Decision {
    Decision(CONTENT, 1, Open, 5000, [Row(DelayKind, Pending, Some(2000), DelayDetail(2000, 2000, Some(Terms("c")), None), NoEvidence)], map[], Some(2000))
  }

  function OpeningWait(): Event {
    Opens(Proposal(CONTENT, 1, 5000, [DelaySpec(2000, Some(ApproverSet([], "c", None)))]), SITE, NoDraws(), 0)
  }

  function Cancelling(): Event {
    Submits(1, "d", 0, SITE, APPROVER, CancelWait, 1000)
  }

  const CANCELLED := DelayDetail(2000, 2000, Some(Terms("c")), Some(Cancellation(CallerId(APPROVER), 1000)))

  function Cancel(): Phase {
    Marking(0, Failed, CANCELLED, NoEvidence)
  }

  lemma OpeningWaitOpens()
    ensures Step(EMPTY, OpeningWait()) == EMPTY.(decisions := map["d" := Waiting()])
  {
    var specs, rows := OpeningWait().proposal.specs, Waiting().rows;
    assert specs[..0] == [];
    assert OpenRows([], CONTENT, SITE, NoDraws(), 0, 5000) == Ok(Opened([], 5000));
    assert Issue(specs[0], CONTENT, SITE, NoDraws()(0), 0) == Ok(Issued(Pending, rows[0].detail, Some(2000), false));
    assert [] + rows == rows;
    assert OpenRows(specs, CONTENT, SITE, NoDraws(), 0, 5000) == Ok(Opened(rows, 5000));
    assert StoredContext(CONTENT) == CONTENT by { assert StoredMap(map[]) == map[]; }
    assert NextDeadline(5000, rows[1..]) == 5000;
    assert NextDeadline(5000, rows) == 2000;
  }

  /** A cancellation and a pass have both read the wait. */
  function BothRead(): World {
    EMPTY.(decisions := map["d" := Waiting()],
           jobs := map[1 := Job("d", 1000, Waiting(), 0, Cancel()), 2 := Job("d", 2000, Waiting(), 0, Scanning(0, 0, 0))])
  }

  const READS := [OpeningWait(), Cancelling(), Passes(2, "d", 2000)]

  lemma RunThree(w: World, a: Event, b: Event, c: Event)
    ensures Run(w, [a, b, c]) == Step(Step(Step(w, a), b), c)
  {
    assert [] + [a] == [a] && [a] + [b] == [a, b] && [a, b] + [c] == [a, b, c];
    RunOneMore(w, [], a);
    RunOneMore(w, [a], b);
    RunOneMore(w, [a, b], c);
  }

  lemma CancellingReads()
    ensures var w := EMPTY.(decisions := map["d" := Waiting()]); Step(w, Cancelling()) == w.(jobs := map[1 := Job("d", 1000, Waiting(), 0, Cancel())])
  {
    assert IsTarget(Terms("c"), APPROVER);
  }

  lemma ReadsBoth()
    ensures Run(EMPTY, READS) == BothRead()
  {
    var w := EMPTY.(decisions := map["d" := Waiting()]);
    OpeningWaitOpens();
    CancellingReads();
    assert Step(w.(jobs := map[1 := Job("d", 1000, Waiting(), 0, Cancel())]), Passes(2, "d", 2000)) == BothRead();
    RunThree(EMPTY, OpeningWait(), Cancelling(), Passes(2, "d", 2000));
  }

  /** The wait as the pass leaves it, and as the cancellation does. */
  function Met1(): Decision {
    Waiting().(rows := [Waiting().rows[0].(state := Satisfied, evidence := Waited(2000, 2000))], next := Some(5000))
  }

  function Lost1(): Decision {
    Waiting().(rows := [Waiting().rows[0].(state := Failed, detail := CANCELLED)], next := Some(5000))
  }

  function Store1(): Phase {
    Storing(0, Satisfied, Waited(2000, 2000), 0, 0)
  }

  lemma RowsWritten(d: Decision)
    requires d == Waiting() || d == Met1() || d == Lost1()
    ensures WriteRow(d, 0, Failed, CANCELLED, NoEvidence) == Lost1()
    ensures WriteRow(d, 0, Satisfied, Waiting().rows[0].detail, Waited(2000, 2000)) == Met1()
  {
    assert d.rows[0 := Met1().rows[0]] == Met1().rows && d.rows[0 := Lost1().rows[0]] == Lost1().rows;
    assert NextDeadline(5000, Met1().rows[1..]) == 5000 && NextDeadline(5000, Met1().rows) == 5000;
    assert NextDeadline(5000, Lost1().rows[1..]) == 5000 && NextDeadline(5000, Lost1().rows) == 5000;
  }

  lemma RunFour(w: World, a: Event, b: Event, c: Event, d: Event)
    ensures Run(w, [a, b, c, d]) == Step(Step(Step(Step(w, a), b), c), d)
  {
    assert [a, b, c] + [d] == [a, b, c, d];
    RunThree(w, a, b, c);
    RunOneMore(w, [a, b, c], d);
  }

  lemma CancelLands(w: World, d: Decision)
    requires Holds(w, d) && Doing(w, 1, 1000, Waiting(), Cancel()) && 2 in w.jobs && (d == Waiting() || d == Met1())
    ensures var v := Step(w, Works(1)); Holds(v, Lost1()) && 2 in v.jobs && v.jobs[2] == w.jobs[2]
  {
    RowsWritten(d);
    WorkOnce(w, 1, 1000, d, Waiting(), Cancel());
  }

  lemma ScanLands(w: World, d: Decision)
    requires Holds(w, d) && Doing(w, 2, 2000, Waiting(), Scanning(0, 0, 0)) && 1 in w.jobs
    ensures var v := Step(w, Works(2)); Holds(v, d) && Doing(v, 2, 2000, Waiting(), Store1()) && 1 in v.jobs && v.jobs[1] == w.jobs[1]
  {
    WorkOnce(w, 2, 2000, d, Waiting(), Scanning(0, 0, 0));
  }

  lemma StoreLands(w: World, d: Decision)
    requires Holds(w, d) && Doing(w, 2, 2000, Waiting(), Store1()) && 1 in w.jobs && (d == Waiting() || d == Lost1())
    ensures var v := Step(w, Works(2)); Holds(v, Met1()) && Doing(v, 2, 2000, Met1(), Scanning(1, 1, 0)) && 1 in v.jobs && v.jobs[1] == w.jobs[1]
  {
    RowsWritten(d);
    RowsWritten(Waiting());
    WorkOnce(w, 2, 2000, d, Waiting(), Store1());
  }

  lemma ResolutionLands(w: World, d: Decision)
    requires Holds(w, d) && Doing(w, 2, 2000, Met1(), Scanning(1, 1, 0))
    ensures Holds(Step(w, Works(2)), Close(d, Satisfy))
  {
    WorkOnce(w, 2, 2000, d, Met1(), Scanning(1, 1, 0));
  }

  lemma CancelledBetween()
    ensures Run(BothRead(), [Works(2), Works(2), Works(1), Works(2)]).decisions == map["d" := Close(Lost1(), Satisfy)]
  {
    var w, d := BothRead(), Waiting();
    ScanLands(w, d);
    var w1 := Step(w, Works(2));
    StoreLands(w1, d);
    var w2 := Step(w1, Works(2));
    CancelLands(w2, Met1());
    ResolutionLands(Step(w2, Works(1)), Lost1());
    RunFour(w, Works(2), Works(2), Works(1), Works(2));
  }

  /** A pass counts the wait met, a cancellation read earlier is recorded and fails it,
      the pass resolves on its count: an allowed decision with a failed, cancelled
      row. */
  lemma AnAllowOverACancellation()
    ensures Run(EMPTY, READS + [Works(2), Works(2), Works(1), Works(2)]).decisions == map["d" := Close(Lost1(), Satisfy)]
    ensures Close(Lost1(), Satisfy).state == Allowed && Lost1().rows[0].state == Failed && Lost1().rows[0].detail.cancelled.Some?
  {
    ReadsBoth();
    CancelledBetween();
    RunsChain(EMPTY, READS, [Works(2), Works(2), Works(1), Works(2)]);
  }

  lemma StoredBetween()
    ensures Step(BothRead(), Works(1)).decisions == map["d" := Lost1()]
    ensures Run(BothRead(), [Works(1), Works(2), Works(2), Works(2)]).decisions == map["d" := Close(Met1(), Satisfy)]
  {
    var w := BothRead();
    CancelLands(w, Waiting());
    var w1 := Step(w, Works(1));
    WorkOnce(w, 1, 1000, Waiting(), Waiting(), Cancel());
    ScanLands(w1, Lost1());
    var w2 := Step(w1, Works(2));
    StoreLands(w2, Lost1());
    ResolutionLands(Step(w2, Works(2)), Met1());
    RunFour(w, Works(1), Works(2), Works(2), Works(2));
  }

  /** The other way round: the cancellation is recorded, and a pass that had read the
      wait before it writes its own copy over it. The record is gone. */
  lemma ACancellationUndone()
    ensures Run(EMPTY, READS + [Works(1)]).decisions == map["d" := Lost1()]
    ensures Run(EMPTY, READS + [Works(1), Works(2), Works(2), Works(2)]).decisions == map["d" := Close(Met1(), Satisfy)]
    ensures Lost1().rows[0].detail.cancelled.Some? && Met1().rows[0].detail.cancelled.None? && Close(Met1(), Satisfy).state == Allowed
  {
    ReadsBoth();
    StoredBetween();
    RunOneMore(EMPTY, READS, Works(1));
    RunsChain(EMPTY, READS, [Works(1), Works(2), Works(2), Works(2)]);
  }

  // ---- a wait its own timer fails, and one no pass can meet ----

  function Waits1(duration: int, expiresAt: Instant): Event {
    Opens(Proposal(CONTENT, 1, expiresAt, [DelaySpec(duration, None)]), SITE, NoDraws(), 0)
  }

  function OffTheColumn(): Decision {
    Decision(CONTENT, 1, Open, 5000, [Row(DelayKind, Pending, Some(1000), DelayDetail(1500, 1500, None, None), NoEvidence)], map[], Some(1000))
  }

  lemma OffTheColumnOpens()
    ensures Run(EMPTY, [Waits1(1500, 5000)]) == EMPTY.(decisions := map["d" := OffTheColumn()])
  {
    var specs, rows := Waits1(1500, 5000).proposal.specs, OffTheColumn().rows;
    assert specs[..0] == [];
    assert OpenRows([], CONTENT, SITE, NoDraws(), 0, 5000) == Ok(Opened([], 5000));
    assert Issue(specs[0], CONTENT, SITE, NoDraws()(0), 0) == Ok(Issued(Pending, rows[0].detail, Some(1500), false));
    assert [] + rows == rows;
    assert OpenRows(specs, CONTENT, SITE, NoDraws(), 0, 5000) == Ok(Opened(rows, 5000));
    assert StoredContext(CONTENT) == CONTENT by { assert StoredMap(map[]) == map[]; }
    assert NextDeadline(5000, rows[1..]) == 5000;
    assert NextDeadline(5000, rows) == 1000;
    RunOneMore(EMPTY, [], Waits1(1500, 5000));
    assert [] + [Waits1(1500, 5000)] == [Waits1(1500, 5000)];
  }

  lemma OffTheColumnPasses()
    ensures var e := Advance(OffTheColumn(), 1000); e.state == Denied && |e.rows| == 1 && e.rows[0].state == Failed
    ensures Advance(OffTheColumn(), 1500).state == Allowed
  {
    var d := OffTheColumn();
    var e, f := Settle(d, Below(1), 1000), Settle(d, Below(1), 1500);
    assert e.rows[0].state == Failed && Verdict(e.rows) == Some(Fail);
    assert f.rows[0].state == Satisfied && Verdict(f.rows) == Some(Satisfy);
  }

  /** A wait of a microsecond and a half, on a decision that lives for five. A pass run
      when its column falls due, half a microsecond early, fails the wait and denies the
      decision; a first pass half a microsecond later would have allowed it. */
  lemma AWaitTheTimerFails() returns (steps: nat)
    ensures var w := Run(EMPTY, [Waits1(1500, 5000)] + ([Passes(1, "d", 1000)] + Continued(1, steps)));
            && "d" in w.decisions && |w.decisions["d"].rows| == 1
            && w.decisions["d"].rows[0].state == Failed && w.decisions["d"].state == Denied
    ensures Advance(OffTheColumn(), 1500).state == Allowed
  {
    OffTheColumnOpens();
    OffTheColumnPasses();
    var w := Run(EMPTY, [Waits1(1500, 5000)]);
    RunTracks(EMPTY, [Waits1(1500, 5000)]);
    steps := PassInRun(w, 1, "d", 1000);
    RunsChain(EMPTY, [Waits1(1500, 5000)], [Passes(1, "d", 1000)] + Continued(1, steps));
  }

  /** Fifteen minutes: the lifetime a decision is given when nothing else is said. */
  const DEFAULT_TTL := 900_000_000_000

  /** A wait of an hour under that lifetime: no pass at any instant allows it. */
  lemma AWaitNobodyCanMeet()
    ensures var p := Proposal(CONTENT, 1, DEFAULT_TTL, [DelaySpec(4 * DEFAULT_TTL, None)]);
            var r := Create(p, SITE, NoDraws(), 0);
            r.Ok? && r.value.Some? && forall t: Instant :: Advance(r.value.value, t).state != Allowed
  {
    var p := Proposal(CONTENT, 1, DEFAULT_TTL, [DelaySpec(4 * DEFAULT_TTL, None)]);
    assert p.specs[..0] == [] && OpenRows([], CONTENT, SITE, NoDraws(), 0, DEFAULT_TTL).Ok?;
    assert OpenRows(p.specs, CONTENT, SITE, NoDraws(), 0, DEFAULT_TTL).Ok?;
    SoleWaitCanBeMetExactly(p, SITE, NoDraws(), 0);
  }
}
