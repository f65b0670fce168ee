/** Three runs in which a vote overlaps with another or with a revision: one that ends
    allowed with its quorum row pending, one that ends allowed with no vote at all, and
    one that ends allowed on a step-up nobody completed, although every write found the
    terms it was read under. */
module Overlaps {
  import opened Basics
  import opened Approvers
  import opened Policy
  import opened Challenges
  import opened Decisions
  import opened Revision
  import opened Runs
  import opened Alone
  import opened Binding
  import opened Kinds
  import opened Cases

  // ---- a decision gated on one quorum ----

  function About(policy: string): Context {
    CONTENT.(policy := policy)
  }

  function Wanted(policy: string, claim: string, need: int): Detail {
    QuorumDetail(need, Terms(claim), Some(BindingHash(About(policy), Terms(claim))))
  }

  function Gate(policy: string, claim: string, need: int, version: int, approvals: map<(nat, string), Digest>, state: Progress): Decision {
    Decision(About(policy), version, Open, 1000, [Row(QuorumKind, state, None, Wanted(policy, claim, need), NoEvidence)], approvals, Some(1000))
  }

  function Voter(id: string, claim: string): Subject {
    Subject(User, "i", id, Some(map[claim := BoolClaim(true)]))
  }

  function Asks(claim: string, need: int): Spec {
    QuorumSpec(need, ApproverSet([], claim, None))
  }

  function OpensGate(need: int): Event {
    Opens(Proposal(About("p"), 1, 1000, [Asks("c", need)]), SITE, NoDraws(), 0)
  }

  function Votes(n: nat, id: string, claim: string): Event {
    Submits(n, "d", 0, SITE, Voter(id, claim), Approval(None), 1)
  }

  function Hash(policy: string, claim: string): Digest {
    BindingHash(About(policy), Terms(claim))
  }

  lemma VotersAreTargets()
    ensures IsTarget(Terms("c"), Voter("a", "c")) && IsTarget(Terms("c"), Voter("b", "c")) && IsTarget(Terms("e"), Voter("b", "e"))
  {
  }

  lemma GateOpens(need: int)
    requires need == 1 || need == 2
    ensures Step(EMPTY, OpensGate(need)) == EMPTY.(decisions := map["d" := Gate("p", "c", need, 1, map[], Pending)])
  {
    var specs, rows := [Asks("c", need)], Gate("p", "c", need, 1, map[], Pending).rows;
    assert specs[..0] == [] && OpenRows([], About("p"), SITE, NoDraws(), 0, 1000) == Ok(Opened([], 1000));
    assert Issue(Asks("c", need), About("p"), SITE, NoDraws()(0), 0) == Ok(Issued(Pending, Wanted("p", "c", need), None, false));
    assert [] + rows == rows;
    assert OpenRows(specs, About("p"), SITE, NoDraws(), 0, 1000) == Ok(Opened(rows, 1000));
    assert StoredContext(About("p")) == About("p") by { assert StoredMap(map[]) == map[]; }
    assert NextDeadline(1000, rows[1..]) == 1000 && NextDeadline(1000, rows) == 1000;
  }

  // ---- each step ----

  lemma GateReads(w: World, n: nat, id: string, policy: string, claim: string, need: int, version: int, approvals: map<(nat, string), Digest>)
    requires Holds(w, Gate(policy, claim, need, version, approvals, Pending)) && n !in w.jobs && IsTarget(Terms(claim), Voter(id, claim))
    ensures var d, v := Gate(policy, claim, need, version, approvals, Pending), Step(w, Votes(n, id, claim));
            && Holds(v, d) && Doing(v, n, 1, d, Voting(0, id, Hash(policy, claim))) && v.jobs.Keys == w.jobs.Keys + {n}
            && forall m :: m in w.jobs ==> m in v.jobs && v.jobs[m] == w.jobs[m]
  {
    var d := Gate(policy, claim, need, version, approvals, Pending);
    assert Accepted(d, 0, SITE, Voter(id, claim), Approval(None), 1) == Ok(Voting(0, id, Hash(policy, claim)));
  }

  /** A vote, wherever it lands. */
  lemma GateCasts(w: World, n: nat, id: string, hash: Digest, d: Decision, copy: Decision)
    requires Holds(w, d) && Doing(w, n, 1, copy, Voting(0, id, hash)) && |d.rows| == 1 && (0, id) !in d.approvals && (0, id) !in copy.approvals && |copy.rows| == 1
    ensures var v := Step(w, Works(n));
            && Holds(v, d.(approvals := d.approvals[(0, id) := hash])) && Doing(v, n, 1, copy.(approvals := copy.approvals[(0, id) := hash]), Counting(0))
            && v.jobs.Keys == w.jobs.Keys
            && forall m :: m in w.jobs && m != n ==> m in v.jobs && v.jobs[m] == w.jobs[m]
  {
    WorkOnce(w, n, 1, d, copy, Voting(0, id, hash));
    WorkWrites(w, n);
  }

  lemma GateCounts(w: World, n: nat, d: Decision, copy: Decision, state: Progress)
    requires Holds(w, d) && Doing(w, n, 1, copy, Counting(0)) && |copy.rows| == 1 && copy.rows[0].detail.QuorumDetail? && copy.rows[0].evidence == NoEvidence
    requires state == if Have(d, 0) >= copy.rows[0].detail.threshold then Satisfied else Pending
    ensures var v := Step(w, Works(n));
            && Holds(v, d) && Doing(v, n, 1, copy, Marking(0, state, copy.rows[0].detail, NoEvidence))
            && forall m :: m in w.jobs && m != n ==> m in v.jobs && v.jobs[m] == w.jobs[m]
  {
    WorkOnce(w, n, 1, d, copy, Counting(0));
  }

  lemma GateWrites(policy: string, claim: string, need: int, version: int, approvals: map<(nat, string), Digest>, was: Progress, state: Progress)
    ensures WriteRow(Gate(policy, claim, need, version, approvals, was), 0, state, Wanted(policy, claim, need), NoEvidence) ==
            Gate(policy, claim, need, version, approvals, state)
  {
    var d, e := Gate(policy, claim, need, version, approvals, was), Gate(policy, claim, need, version, approvals, state);
    assert d.rows[0 := e.rows[0]] == e.rows;
    assert NextDeadline(1000, e.rows[1..]) == 1000 && NextDeadline(1000, e.rows) == 1000;
  }

  lemma GateMarks(w: World, n: nat, copy: Decision, policy: string, claim: string, need: int, version: int, approvals: map<(nat, string), Digest>, was: Progress, state: Progress)
    requires Holds(w, Gate(policy, claim, need, version, approvals, was)) && Doing(w, n, 1, copy, Marking(0, state, Wanted(policy, claim, need), NoEvidence))
    ensures var v := Step(w, Works(n));
            && Holds(v, Gate(policy, claim, need, version, approvals, state)) && (exists c :: Doing(v, n, 1, c, Reading))
            && forall m :: m in w.jobs && m != n ==> m in v.jobs && v.jobs[m] == w.jobs[m]
  {
    WorkOnce(w, n, 1, Gate(policy, claim, need, version, approvals, was), copy, Marking(0, state, Wanted(policy, claim, need), NoEvidence));
    GateWrites(policy, claim, need, version, approvals, was, state);
  }

  lemma GateStarts(w: World, n: nat, c: Decision, d: Decision)
    requires Holds(w, d) && Doing(w, n, 1, c, Reading) && d.context.id == "d" && d.state == Open && d.expiresAt == 1000
    ensures var v := Step(w, Works(n));
            && Holds(v, d) && Doing(v, n, 1, d, Scanning(0, 0, 0))
            && forall m :: m in w.jobs && m != n ==> m in v.jobs && v.jobs[m] == w.jobs[m]
  {
    var v := Step(w, Works(n));
    assert v.jobs == w.jobs[n := StartPass(d, Stamp(w, "d"), 1)];
  }

  lemma GateScans(w: World, n: nat, d: Decision, copy: Decision)
    requires Holds(w, d) && Doing(w, n, 1, copy, Scanning(0, 0, 0)) && |copy.rows| == 1 && copy.rows[0].state == Satisfied
    ensures var v := Step(w, Works(n));
            && Holds(v, d) && Doing(v, n, 1, copy, Scanning(1, 1, 0))
            && forall m :: m in w.jobs && m != n ==> m in v.jobs && v.jobs[m] == w.jobs[m]
  {
    WorkOnce(w, n, 1, d, copy, Scanning(0, 0, 0));
  }

  lemma GateResolves(w: World, n: nat, d: Decision, copy: Decision)
    requires Holds(w, d) && Doing(w, n, 1, copy, Scanning(1, 1, 0)) && |copy.rows| == 1
    ensures Holds(Step(w, Works(n)), Close(d, Satisfy))
  {
    WorkOnce(w, n, 1, d, copy, Scanning(1, 1, 0));
  }

  // ---- two votes at once ----

  function Pair(approvals: map<(nat, string), Digest>, state: Progress): Decision {
    Gate("p", "c", 2, 1, approvals, state)
  }

  const H := Hash("p", "c")
  const BOTH: map<(nat, string), Digest> := map[(0, "a") := H, (0, "b") := H]

  const TWO_READ := [OpensGate(2), Votes(1, "a", "c"), Votes(2, "b", "c")]
  const FIRST_COUNTS := [Works(1), Works(1)]
  const SECOND_COUNTS := [Works(2), Works(2), Works(2)]
  const SECOND_TALLIES := [Works(2), Works(2)]

  lemma BothVotersRead()
    ensures var w := Run(EMPTY, TWO_READ);
            Holds(w, Pair(map[], Pending)) && Doing(w, 1, 1, Pair(map[], Pending), Voting(0, "a", H)) && Doing(w, 2, 1, Pair(map[], Pending), Voting(0, "b", H))
  {
    GateOpens(2);
    var w1 := Step(EMPTY, OpensGate(2));
    PairReads(w1, 1, "a");
    PairReads(Step(w1, Votes(1, "a", "c")), 2, "b");
    RunThree(EMPTY, OpensGate(2), Votes(1, "a", "c"), Votes(2, "b", "c"));
  }

  lemma PairReads(w: World, n: nat, id: string)
    requires Holds(w, Pair(map[], Pending)) && n !in w.jobs && (id == "a" || id == "b")
    ensures var v := Step(w, Votes(n, id, "c"));
            && Holds(v, Pair(map[], Pending)) && Doing(v, n, 1, Pair(map[], Pending), Voting(0, id, H)) && v.jobs.Keys == w.jobs.Keys + {n}
            && forall m :: m in w.jobs ==> m in v.jobs && v.jobs[m] == w.jobs[m]
  {
    VotersAreTargets();
    GateReads(w, n, id, "p", "c", 2, 1, map[]);
  }

  lemma FirstVoterCounts(w: World)
    requires Holds(w, Pair(map[], Pending)) && Doing(w, 1, 1, Pair(map[], Pending), Voting(0, "a", H)) && 2 in w.jobs
    ensures var v := Run(w, FIRST_COUNTS);
            && Holds(v, Pair(map[(0, "a") := H], Pending)) && Doing(v, 1, 1, Pair(map[(0, "a") := H], Pending), Marking(0, Pending, Wanted("p", "c", 2), NoEvidence))
            && 2 in v.jobs && v.jobs[2] == w.jobs[2]
  {
    var d := Pair(map[], Pending);
    GateCasts(w, 1, "a", H, d, d);
    var one := Pair(map[(0, "a") := H], Pending);
    assert d.(approvals := d.approvals[(0, "a") := H]) == one;
    var w1 := Step(w, Works(1));
    assert Voters(one.approvals, 0) == {(0, "a")};
    GateCounts(w1, 1, one, one, Pending);
    RunTwo(w, Works(1), Works(1));
  }

  lemma RunTwo(w: World, a: Event, b: Event)
    ensures Run(w, [a, b]) == Step(Step(w, a), b)
  {
    assert [] + [a] == [a] && [a] + [b] == [a, b];
    RunOneMore(w, [], a);
    RunOneMore(w, [a], b);
  }

  lemma SecondVoterCounts(w: World)
    requires Holds(w, Pair(map[(0, "a") := H], Pending)) && Doing(w, 2, 1, Pair(map[], Pending), Voting(0, "b", H)) && 1 in w.jobs
    ensures var v := Run(w, SECOND_COUNTS);
            Holds(v, Pair(BOTH, Satisfied)) && (exists c :: Doing(v, 2, 1, c, Reading)) && 1 in v.jobs && v.jobs[1] == w.jobs[1]
  {
    var d, copy := Pair(map[(0, "a") := H], Pending), Pair(map[], Pending);
    GateCasts(w, 2, "b", H, d, copy);
    var w1 := Step(w, Works(2));
    assert d.(approvals := d.approvals[(0, "b") := H]) == Pair(BOTH, Pending);
    var own := Pair(map[(0, "b") := H], Pending);
    assert copy.(approvals := copy.approvals[(0, "b") := H]) == own;
    assert Voters(BOTH, 0) == {(0, "a"), (0, "b")};
    GateCounts(w1, 2, Pair(BOTH, Pending), own, Satisfied);
    GateMarks(Step(w1, Works(2)), 2, own, "p", "c", 2, 1, BOTH, Pending, Satisfied);
    RunThree(w, Works(2), Works(2), Works(2));
  }

  lemma SecondVoterTallies(w: World)
    requires Holds(w, Pair(BOTH, Satisfied)) && (exists c :: Doing(w, 2, 1, c, Reading)) && 1 in w.jobs
    ensures var v := Run(w, SECOND_TALLIES);
            Holds(v, Pair(BOTH, Satisfied)) && Doing(v, 2, 1, Pair(BOTH, Satisfied), Scanning(1, 1, 0)) && 1 in v.jobs && v.jobs[1] == w.jobs[1]
  {
    var c :| Doing(w, 2, 1, c, Reading);
    GateStarts(w, 2, c, Pair(BOTH, Satisfied));
    GateScans(Step(w, Works(2)), 2, Pair(BOTH, Satisfied), Pair(BOTH, Satisfied));
    RunTwo(w, Works(2), Works(2));
  }

  lemma FirstVoterMarks(w: World, copy: Decision)
    requires Holds(w, Pair(BOTH, Satisfied)) && Doing(w, 1, 1, copy, Marking(0, Pending, Wanted("p", "c", 2), NoEvidence))
    requires Doing(w, 2, 1, Pair(BOTH, Satisfied), Scanning(1, 1, 0))
    ensures Holds(Run(w, [Works(1), Works(2)]), Close(Pair(BOTH, Pending), Satisfy))
  {
    GateMarks(w, 1, copy, "p", "c", 2, 1, BOTH, Satisfied, Pending);
    GateResolves(Step(w, Works(1)), 2, Pair(BOTH, Pending), Pair(BOTH, Satisfied));
    RunTwo(w, Works(1), Works(2));
  }

  const TWO_AT_ONCE := TWO_READ + FIRST_COUNTS + SECOND_COUNTS + SECOND_TALLIES + [Works(1), Works(2)]

  /** A quorum of two. Both voters read; the first votes and counts one; the second votes,
      counts two, marks the row satisfied, and its pass tallies; the first's late mark
      writes the row pending; the pass resolves on its count. Both votes are there and
      the decision is allowed, with its quorum row pending. */
  lemma TwoVotesAtOnce()
    ensures Run(EMPTY, TWO_AT_ONCE).decisions == map["d" := Close(Pair(BOTH, Pending), Satisfy)]
    ensures Close(Pair(BOTH, Pending), Satisfy).state == Allowed && Pair(BOTH, Pending).rows[0].state == Pending && Have(Pair(BOTH, Pending), 0) == 2
  {
    BothVotersRead();
    var w0 := Run(EMPTY, TWO_READ);
    FirstVoterCounts(w0);
    var w1 := Run(w0, FIRST_COUNTS);
    SecondVoterCounts(w1);
    var w2 := Run(w1, SECOND_COUNTS);
    SecondVoterTallies(w2);
    FirstVoterMarks(Run(w2, SECOND_TALLIES), Pair(map[(0, "a") := H], Pending));
    RunFiveParts(TWO_READ, FIRST_COUNTS, SECOND_COUNTS, SECOND_TALLIES, [Works(1), Works(2)]);
    assert Voters(BOTH, 0) == {(0, "a"), (0, "b")};
  }

  lemma RunFiveParts(a: seq<Event>, b: seq<Event>, c: seq<Event>, d: seq<Event>, e: seq<Event>)
    ensures Run(EMPTY, a + b + c + d + e) == Run(Run(Run(Run(Run(EMPTY, a), b), c), d), e)
  {
    RunsChain(EMPTY, a, b);
    RunsChain(EMPTY, a + b, c);
    RunsChain(EMPTY, a + b + c, d);
    RunsChain(EMPTY, a + b + c + d, e);
  }

  // ---- a count across two revisions ----

  function Reworks(policy: string, claim: string, version: int): Event {
    Revises(["d"], _ => Kept(policy, version, map[], [], [Asks(claim, 1)]), _ => OUTSIDE, 1)
  }

  /** A revision to another policy and claim drops every vote. */
  lemma GateReissues(policy: string, claim: string, version: int, approvals: map<(nat, string), Digest>, other: string, newClaim: string, next: int)
    requires policy != other && (forall k :: k in approvals ==> k.0 == 0) && (newClaim == "c" || newClaim == "e")
    ensures Revaluate(Gate(policy, claim, 1, version, approvals, Pending), Kept(other, next, map[], [], [Asks(newClaim, 1)]), OUTSIDE, 1) ==
            Ok(Gate(other, newClaim, 1, next, map[], Pending))
  {
    var j := Kept(other, next, map[], [], [Asks(newClaim, 1)]);
    var d, e := Rejudged(Gate(policy, claim, 1, version, approvals, Pending), j), Gate(other, newClaim, 1, next, map[], Pending);
    GateRebinds(policy, claim, version, approvals, other, newClaim, next);
    GateIsFiled(other, newClaim, next);
    RebindingDecides(Gate(policy, claim, 1, version, approvals, Pending), j, OUTSIDE, 1, [Rebound(e.rows[0], true, false)], e);
  }

  lemma GateIsFiled(policy: string, claim: string, version: int)
    ensures var e := Gate(policy, claim, 1, version, map[], Pending); Refiled(e) == e && Verdict(e.rows) == None
  {
    var e := Gate(policy, claim, 1, version, map[], Pending);
    assert StoredMap(map[]) == map[];
    assert e.rows[0].state == Pending;
  }

  lemma GateRebinds(policy: string, claim: string, version: int, approvals: map<(nat, string), Digest>, other: string, newClaim: string, next: int)
    requires policy != other && (forall k :: k in approvals ==> k.0 == 0) && (newClaim == "c" || newClaim == "e")
    ensures var d, e := Rejudged(Gate(policy, claim, 1, version, approvals, Pending), Kept(other, next, map[], [], [Asks(newClaim, 1)])), Gate(other, newClaim, 1, next, map[], Pending);
            var rebound := [Rebound(e.rows[0], true, false)];
            SameShape(d.rows, [Asks(newClaim, 1)]) && RebindRows(d, [Asks(newClaim, 1)], OUTSIDE, 1, 1) == Ok(rebound) && Rebind(d, rebound) == e
  {
    var specs := [Asks(newClaim, 1)];
    var d, e := Rejudged(Gate(policy, claim, 1, version, approvals, Pending), Kept(other, next, map[], [], specs)), Gate(other, newClaim, 1, next, map[], Pending);
    var rebound := [Rebound(e.rows[0], true, false)];
    assert Issue(Asks(newClaim, 1), About(other), SITE, NoDraws()(0), 1) == Ok(Issued(Pending, Wanted(other, newClaim, 1), None, false));
    assert RebindRow(d, 0, specs[0], OUTSIDE, 1) == Ok(rebound[0]);
    assert RebindRows(d, specs, OUTSIDE, 1, 0) == Ok([]) && [] + rebound == rebound;
    var f := Rebind(d, rebound);
    assert f.rows == e.rows && f.approvals == map[];
  }

  lemma GateIsRevised(w: World, policy: string, claim: string, version: int, approvals: map<(nat, string), Digest>, other: string, newClaim: string, next: int)
    requires policy != other && (forall k :: k in approvals ==> k.0 == 0) && (newClaim == "c" || newClaim == "e")
    requires Holds(w, Gate(policy, claim, 1, version, approvals, Pending))
    ensures var v := Step(w, Reworks(other, newClaim, next)); Holds(v, Gate(other, newClaim, 1, next, map[], Pending)) && v.jobs == w.jobs
    ensures InTerms(w, Reworks(other, newClaim, next), "d")
  {
    GateReissues(policy, claim, version, approvals, other, newClaim, next);
    RevisedHolds(w, Reworks(other, newClaim, next), Gate(policy, claim, 1, version, approvals, Pending), Gate(other, newClaim, 1, next, map[], Pending));
    RevisionIsInTerms(w, Gate(policy, claim, 1, version, approvals, Pending), policy, other, newClaim, next);
  }

  lemma RevisedHolds(w: World, ev: Event, d: Decision, e: Decision)
    requires Holds(w, d) && d.state == Open && ev.Revises? && ev.ids == ["d"] && ev.now < d.expiresAt
    requires Revaluate(d, ev.judge(d.context), ev.envs("d"), ev.now) == Ok(e)
    ensures var v := Step(w, ev); Holds(v, e) && v.jobs == w.jobs
  {
    RevisesOne(w, ev, "d", e);
  }

  lemma RevisionIsInTerms(w: World, d: Decision, policy: string, other: string, newClaim: string, next: int)
    requires Holds(w, d) && d.context == About(policy)
    ensures InTerms(w, Reworks(other, newClaim, next), "d")
  {
    assert StoredContext(About(other)) == About(other) by { assert StoredMap(map[]) == map[]; }
  }

  /** The run so far, and that every write found its terms. */
  ghost predicate Going(events: seq<Event>, d: Decision) {
    AllInTerms(events, "d") && Holds(Run(EMPTY, events), d)
  }

  lemma GoOn(events: seq<Event>, ev: Event)
    requires AllInTerms(events, "d") && InTerms(Run(EMPTY, events), ev, "d")
    ensures AllInTerms(events + [ev], "d") && Run(EMPTY, events + [ev]) == Step(Run(EMPTY, events), ev)
  {
    var evs := events + [ev];
    RunOneMore(EMPTY, events, ev);
    forall m | 0 <= m < |evs| ensures InTerms(Run(EMPTY, evs[..m]), evs[m], "d") {
      if m < |events| {
        assert evs[..m] == events[..m] && evs[m] == events[m];
      } else {
        assert evs[..m] == events;
      }
    }
  }

  lemma WorkIsInTerms(w: World, n: nat, d: Decision, now: Instant, copy: Decision, phase: Phase)
    requires Holds(w, d) && Doing(w, n, now, copy, phase) && (phase.Reading? || WriteInTerms(d, Job("d", now, copy, 0, phase)))
    ensures InTerms(w, Works(n), "d")
  {
  }

  lemma ReadIsInTerms(w: World, n: nat, id: string, claim: string)
    ensures InTerms(w, Votes(n, id, claim), "d")
  {
  }

  const LAX := [OpensGate(1), Votes(1, "a", "c"), Works(1)]
  const STRICT := LAX + [Reworks("q", "e", 2)] + [Votes(2, "b", "e")] + [Works(2)]
  const COUNTED := STRICT + [Works(1)] + [Reworks("p", "c", 3)]
  const MARKED := COUNTED + [Works(1)]
  const VOTELESS := MARKED + [Works(1)] + [Works(1)] + [Works(1)]

  const ONE: map<(nat, string), Digest> := map[(0, "a") := H]

  lemma OpensInTerms()
    ensures Going([OpensGate(1)], Gate("p", "c", 1, 1, map[], Pending)) && Run(EMPTY, [OpensGate(1)]).jobs == map[]
  {
    GateOpens(1);
    assert StoredContext(About("p")) == About("p") by { assert StoredMap(map[]) == map[]; }
    assert AllInTerms([], "d");
    GoOn([], OpensGate(1));
    assert [] + [OpensGate(1)] == [OpensGate(1)];
  }

  lemma FirstReads(w: World)
    requires Holds(w, Gate("p", "c", 1, 1, map[], Pending)) && w.jobs == map[]
    ensures var d, v := Gate("p", "c", 1, 1, map[], Pending), Step(w, Votes(1, "a", "c")); Holds(v, d) && Doing(v, 1, 1, d, Voting(0, "a", H)) && v.jobs.Keys == {1}
  {
    VotersAreTargets();
    GateReads(w, 1, "a", "p", "c", 1, 1, map[]);
  }

  lemma SecondReads(w: World)
    requires Holds(w, Gate("q", "e", 1, 2, map[], Pending)) && w.jobs.Keys == {1}
    ensures var d, v := Gate("q", "e", 1, 2, map[], Pending), Step(w, Votes(2, "b", "e"));
            Holds(v, d) && Doing(v, 2, 1, d, Voting(0, "b", Hash("q", "e"))) && 1 in v.jobs && v.jobs[1] == w.jobs[1]
  {
    VotersAreTargets();
    GateReads(w, 2, "b", "q", "e", 1, 2, map[]);
  }

  lemma FirstRead()
    ensures var events := [OpensGate(1), Votes(1, "a", "c")];
            var w, d := Run(EMPTY, events), Gate("p", "c", 1, 1, map[], Pending);
            Going(events, d) && Doing(w, 1, 1, d, Voting(0, "a", H)) && w.jobs.Keys == {1}
  {
    OpensInTerms();
    FirstReads(Run(EMPTY, [OpensGate(1)]));
    ReadIsInTerms(Run(EMPTY, [OpensGate(1)]), 1, "a", "c");
    GoOn([OpensGate(1)], Votes(1, "a", "c"));
    assert [OpensGate(1)] + [Votes(1, "a", "c")] == [OpensGate(1), Votes(1, "a", "c")];
  }

  lemma FirstVote()
    ensures Going(LAX, Gate("p", "c", 1, 1, ONE, Pending))
    ensures Doing(Run(EMPTY, LAX), 1, 1, Gate("p", "c", 1, 1, ONE, Pending), Counting(0)) && Run(EMPTY, LAX).jobs.Keys == {1}
  {
    FirstRead();
    var events, d := [OpensGate(1), Votes(1, "a", "c")], Gate("p", "c", 1, 1, map[], Pending);
    var w := Run(EMPTY, events);
    WorkIsInTerms(w, 1, d, 1, d, Voting(0, "a", H));
    GateCasts(w, 1, "a", H, d, d);
    assert d.(approvals := d.approvals[(0, "a") := H]) == Gate("p", "c", 1, 1, ONE, Pending);
    GoOn(events, Works(1));
    assert events + [Works(1)] == LAX;
  }

  lemma RevisedRead()
    ensures var events := LAX + [Reworks("q", "e", 2)] + [Votes(2, "b", "e")];
            var w, d := Run(EMPTY, events), Gate("q", "e", 1, 2, map[], Pending);
            Going(events, d) && Doing(w, 2, 1, d, Voting(0, "b", Hash("q", "e"))) && Doing(w, 1, 1, Gate("p", "c", 1, 1, ONE, Pending), Counting(0))
  {
    FirstVote();
    GateIsRevised(Run(EMPTY, LAX), "p", "c", 1, ONE, "q", "e", 2);
    GoOn(LAX, Reworks("q", "e", 2));
    var events := LAX + [Reworks("q", "e", 2)];
    SecondReads(Run(EMPTY, events));
    ReadIsInTerms(Run(EMPTY, events), 2, "b", "e");
    GoOn(events, Votes(2, "b", "e"));
  }

  lemma RevisedVote()
    ensures Going(STRICT, Gate("q", "e", 1, 2, map[(0, "b") := Hash("q", "e")], Pending))
    ensures Doing(Run(EMPTY, STRICT), 1, 1, Gate("p", "c", 1, 1, ONE, Pending), Counting(0))
  {
    RevisedRead();
    var events, d := LAX + [Reworks("q", "e", 2)] + [Votes(2, "b", "e")], Gate("q", "e", 1, 2, map[], Pending);
    var w := Run(EMPTY, events);
    WorkIsInTerms(w, 2, d, 1, d, Voting(0, "b", Hash("q", "e")));
    GateCasts(w, 2, "b", Hash("q", "e"), d, d);
    assert d.(approvals := d.approvals[(0, "b") := Hash("q", "e")]) == Gate("q", "e", 1, 2, map[(0, "b") := Hash("q", "e")], Pending);
    GoOn(events, Works(2));
  }

  lemma LateCount()
    ensures Going(COUNTED, Gate("p", "c", 1, 3, map[], Pending))
    ensures Doing(Run(EMPTY, COUNTED), 1, 1, Gate("p", "c", 1, 1, ONE, Pending), Marking(0, Satisfied, Wanted("p", "c", 1), NoEvidence))
  {
    RevisedVote();
    var w0, copy := Run(EMPTY, STRICT), Gate("p", "c", 1, 1, ONE, Pending);
    var theirs: map<(nat, string), Digest> := map[(0, "b") := Hash("q", "e")];
    var d := Gate("q", "e", 1, 2, theirs, Pending);
    assert Voters(theirs, 0) == {(0, "b")};
    WorkIsInTerms(w0, 1, d, 1, copy, Counting(0));
    GateCounts(w0, 1, d, copy, Satisfied);
    GoOn(STRICT, Works(1));
    var e1 := STRICT + [Works(1)];
    GateIsRevised(Run(EMPTY, e1), "q", "e", 2, theirs, "p", "c", 3);
    GoOn(e1, Reworks("p", "c", 3));
  }

  lemma LateMark()
    ensures Going(MARKED, Gate("p", "c", 1, 3, map[], Satisfied)) && exists c :: Doing(Run(EMPTY, MARKED), 1, 1, c, Reading)
  {
    LateCount();
    var w, copy := Run(EMPTY, COUNTED), Gate("p", "c", 1, 1, ONE, Pending);
    WorkIsInTerms(w, 1, Gate("p", "c", 1, 3, map[], Pending), 1, copy, Marking(0, Satisfied, Wanted("p", "c", 1), NoEvidence));
    GateMarks(w, 1, copy, "p", "c", 1, 3, map[], Pending, Satisfied);
    GoOn(COUNTED, Works(1));
  }

  /** A vote is recorded; a revision asks for other approvers and drops it; one of those
      votes; the first submission counts, and finds one vote; a revision asks for the
      first approvers again and drops that one too; the first submission marks the row
      satisfied, and its pass allows the decision. Every write found the terms it was
      read under, and nobody's vote is there: the count did not. */
  lemma AnAllowWithoutVotes()
    ensures AllInTerms(VOTELESS, "d")
    ensures Run(EMPTY, VOTELESS).decisions == map["d" := Close(Gate("p", "c", 1, 3, map[], Satisfied), Satisfy)]
    ensures var e := Close(Gate("p", "c", 1, 3, map[], Satisfied), Satisfy); e.state == Allowed && e.approvals == map[] && e.rows[0].detail.threshold == 1
  {
    LateMark();
    var w0, d := Run(EMPTY, MARKED), Gate("p", "c", 1, 3, map[], Satisfied);
    var c :| Doing(w0, 1, 1, c, Reading);
    WorkIsInTerms(w0, 1, d, 1, c, Reading);
    GateStarts(w0, 1, c, d);
    GoOn(MARKED, Works(1));
    var e1 := MARKED + [Works(1)];
    WorkIsInTerms(Run(EMPTY, e1), 1, d, 1, d, Scanning(0, 0, 0));
    GateScans(Run(EMPTY, e1), 1, d, d);
    GoOn(e1, Works(1));
    var e2 := e1 + [Works(1)];
    WorkIsInTerms(Run(EMPTY, e2), 1, d, 1, d, Scanning(1, 1, 0));
    GateResolves(Run(EMPTY, e2), 1, d, d);
    GoOn(e2, Works(1));
  }

  // ---- a mark across a change of kind ----

  /** The decision once a revision has asked for a step-up instead. */
  function Stepped(state: Progress, detail: Detail): Decision {
    Decision(About("q"), 2, Open, 1000, [Row(MfaKind, state, None, detail, NoEvidence)], map[], Some(1000))
  }

  function AsksStepUp(): Event {
    Revises(["d"], _ => Kept("q", 2, map[], [], [MfaSpec([])]), _ => OUTSIDE, 1)
  }

  const PROMPTED := MfaDetail("", "", None)

  lemma GateIsReshaped()
    ensures Revaluate(Gate("p", "c", 1, 1, ONE, Pending), Kept("q", 2, map[], [], [MfaSpec([])]), OUTSIDE, 1) == Ok(Stepped(Pending, PROMPTED))
  {
    var specs := [MfaSpec([])];
    var d, e := Rejudged(Gate("p", "c", 1, 1, ONE, Pending), Kept("q", 2, map[], [], specs)), Stepped(Pending, PROMPTED);
    assert specs[..0] == [] && ReopenRows([], d, OUTSIDE, 1) == Ok([]);
    assert Issue(specs[0], d.context, SITE, NoDraws()(0), 1) == Ok(Issued(Pending, PROMPTED, None, false));
    assert [] + e.rows == e.rows;
    assert ReopenRows(specs, d, OUTSIDE, 1) == Ok(e.rows);
    assert NextDeadline(1000, e.rows[1..]) == 1000 && NextDeadline(1000, e.rows) == 1000;
    assert d.rows[0].kind != KindOf(specs[0]) && !SameShape(d.rows, specs);
    assert RebindChallenges(d, specs, OUTSIDE, 1) == Ok(e);
    assert StoredContext(About("q")) == About("q") by { assert StoredMap(map[]) == map[]; }
    assert Verdict(e.rows) == None by { assert e.rows[0].state == Pending; }
  }

  lemma StepUpIsAsked(w: World)
    requires Holds(w, Gate("p", "c", 1, 1, ONE, Pending))
    ensures var v := Step(w, AsksStepUp()); Holds(v, Stepped(Pending, PROMPTED)) && v.jobs == w.jobs && InTerms(w, AsksStepUp(), "d")
  {
    GateIsReshaped();
    RevisedHolds(w, AsksStepUp(), Gate("p", "c", 1, 1, ONE, Pending), Stepped(Pending, PROMPTED));
    StepUpIsInTerms(w);
  }

  lemma StepUpIsInTerms(w: World)
    ensures InTerms(w, AsksStepUp(), "d")
  {
  }

  lemma MarkLandsOnStepUp(w: World, copy: Decision)
    requires Holds(w, Stepped(Pending, PROMPTED)) && Doing(w, 1, 1, copy, Marking(0, Satisfied, Wanted("p", "c", 1), NoEvidence))
    ensures var v := Step(w, Works(1)); Holds(v, Stepped(Satisfied, Wanted("p", "c", 1))) && exists c :: Doing(v, 1, 1, c, Reading)
  {
    var d, e := Stepped(Pending, PROMPTED), Stepped(Satisfied, Wanted("p", "c", 1));
    WorkOnce(w, 1, 1, d, copy, Marking(0, Satisfied, Wanted("p", "c", 1), NoEvidence));
    assert d.rows[0 := e.rows[0]] == e.rows;
    assert NextDeadline(1000, e.rows[1..]) == 1000 && NextDeadline(1000, e.rows) == 1000;
  }

  const ASKED := LAX + [Works(1)] + [AsksStepUp()]
  const MISTAKEN := ASKED + [Works(1)]
  const NOBODY := MISTAKEN + [Works(1)] + [Works(1)] + [Works(1)]

  lemma CountedThenReshaped()
    ensures Going(ASKED, Stepped(Pending, PROMPTED))
    ensures exists copy :: Doing(Run(EMPTY, ASKED), 1, 1, copy, Marking(0, Satisfied, Wanted("p", "c", 1), NoEvidence))
  {
    FirstVote();
    var w, d := Run(EMPTY, LAX), Gate("p", "c", 1, 1, ONE, Pending);
    assert Voters(ONE, 0) == {(0, "a")};
    WorkIsInTerms(w, 1, d, 1, d, Counting(0));
    GateCounts(w, 1, d, d, Satisfied);
    GoOn(LAX, Works(1));
    StepUpIsAsked(Run(EMPTY, LAX + [Works(1)]));
    GoOn(LAX + [Works(1)], AsksStepUp());
    assert Doing(Run(EMPTY, ASKED), 1, 1, d, Marking(0, Satisfied, Wanted("p", "c", 1), NoEvidence));
  }

  lemma MarkedAcross()
    ensures Going(MISTAKEN, Stepped(Satisfied, Wanted("p", "c", 1))) && exists c :: Doing(Run(EMPTY, MISTAKEN), 1, 1, c, Reading)
  {
    CountedThenReshaped();
    var w := Run(EMPTY, ASKED);
    var copy :| Doing(w, 1, 1, copy, Marking(0, Satisfied, Wanted("p", "c", 1), NoEvidence));
    WorkIsInTerms(w, 1, Stepped(Pending, PROMPTED), 1, copy, Marking(0, Satisfied, Wanted("p", "c", 1), NoEvidence));
    MarkLandsOnStepUp(w, copy);
    GoOn(ASKED, Works(1));
  }

  /** Its pass counts the row as it is stored. */
  lemma PassAcross()
    ensures AllInTerms(NOBODY, "d") && Holds(Run(EMPTY, NOBODY), Close(Stepped(Satisfied, Wanted("p", "c", 1)), Satisfy))
  {
    MarkedAcross();
    var w0, d := Run(EMPTY, MISTAKEN), Stepped(Satisfied, Wanted("p", "c", 1));
    var c :| Doing(w0, 1, 1, c, Reading);
    WorkIsInTerms(w0, 1, d, 1, c, Reading);
    GateStarts(w0, 1, c, d);
    GoOn(MISTAKEN, Works(1));
    var e1 := MISTAKEN + [Works(1)];
    WorkIsInTerms(Run(EMPTY, e1), 1, d, 1, d, Scanning(0, 0, 0));
    GateScans(Run(EMPTY, e1), 1, d, d);
    GoOn(e1, Works(1));
    var e2 := e1 + [Works(1)];
    WorkIsInTerms(Run(EMPTY, e2), 1, d, 1, d, Scanning(1, 1, 0));
    GateResolves(Run(EMPTY, e2), 1, d, d);
    GoOn(e2, Works(1));
  }

  /** A vote is recorded and counted; a revision asks for a step-up instead of the quorum;
      the submission marks the row satisfied, and its pass allows the decision. Its only
      challenge is a step-up, and no event of the run completed one. */
  lemma AnAllowNobodySteppedUpFor()
    ensures Run(EMPTY, NOBODY).decisions == map["d" := Close(Stepped(Satisfied, Wanted("p", "c", 1)), Satisfy)]
    ensures var e := Close(Stepped(Satisfied, Wanted("p", "c", 1)), Satisfy); e.state == Allowed && e.rows[0].kind == MfaKind && Foreign(e.rows[0])
    ensures forall m :: 0 <= m < |NOBODY| && NOBODY[m].Submits? ==> !NOBODY[m].payload.StepUp?
    ensures AllInTerms(NOBODY, "d") && !AllInKind(NOBODY, "d")
  {
    PassAcross();
    OutOfKind(NOBODY, Close(Stepped(Satisfied, Wanted("p", "c", 1)), Satisfy));
    NobodyStepsUp();
  }

  lemma OutOfKind(events: seq<Event>, e: Decision)
    requires Holds(Run(EMPTY, events), e) && |e.rows| == 1 && Foreign(e.rows[0])
    ensures !AllInKind(events, "d")
  {
    assert events[..|events|] == events;
    if AllInKind(events, "d") { OwnUpTo(events, "d", |events|); }
  }

  lemma NobodyStepsUp()
    ensures forall m :: 0 <= m < |NOBODY| && NOBODY[m].Submits? ==> !NOBODY[m].payload.StepUp?
  {
  }
}
