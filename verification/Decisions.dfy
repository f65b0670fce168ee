/** A decision and its challenge rows: the lifecycle table, the settle pass every
    path goes through, creation, and submission of evidence. */
module Decisions {
  import opened Basics
  import opened Approvers
  import opened Policy
  import opened Challenges

  // ---- lifecycle ----

  /** Open is the stored state "pending"; Withdrawn is "cancelled". */
  datatype DecisionState = Open | Allowed | Denied | Expired | Withdrawn

  datatype Transition = Satisfy | Fail | Revalidate | Expire | Withdraw

  function To(t: Transition): DecisionState {
    match t
    case Satisfy => Allowed
    case Fail => Denied
    case Revalidate => Denied
    case Expire => Expired
    case Withdraw => Withdrawn
  }

  function Next(from: DecisionState, t: Transition): (r: Result<DecisionState>)
    ensures r.Ok? <==> from == Open
    ensures r.Ok? ==> r.value != Open
    ensures r.Err? ==> r.fault == IllegalTransition
  {
    if from == Open then Ok(To(t)) else Err(IllegalTransition)
  }

  // ---- rows ----

  /** History of how a row came to be satisfied; not a stored column. A quorum needs
      none: its approval rows are the evidence. */
  datatype Evidence =
    | NoEvidence
    | Waited(at: Instant, release: Instant)
    | Answered(at: Instant, signature: Signature)
    | SteppedUp(at: Instant)

  /** A challenge row; its ordinal is its index. The kind is a column of its own, and no
      writer checks the detail against it. */
  datatype Row = Row(kind: Kind, state: Progress, deadline: Option<Instant>, detail: Detail, evidence: Evidence)

  /** A row that holds another kind's detail. */
  predicate Foreign(row: Row) {
    DetailKind(row.detail) != row.kind
  }

  /** A row whose handler is asked and cannot read the detail. */
  predicate Stuck(row: Row) {
    row.state == Pending && Foreign(row)
  }

  /** Where a pass over the rows stops: at the first it cannot read, or past the last. */
  function Halt(rows: seq<Row>): (n: nat)
    ensures n <= |rows|
    ensures forall i :: 0 <= i < n ==> !Stuck(rows[i])
    ensures n < |rows| ==> Stuck(rows[n])
  {
    if rows == [] then 0
    else
      var last := |rows| - 1;
      var n := Halt(rows[..last]);
      if n < last || Stuck(rows[last]) then n else |rows|
  }

  datatype Decision = Decision(
    context: Context, version: int, state: DecisionState, expiresAt: Instant,
    rows: seq<Row>, approvals: map<(nat, string), Digest>, next: Option<Instant>)

  predicate IsExpired(d: Decision, now: Instant) {
    d.expiresAt <= now
  }

  /** The approvers counted at an ordinal; (decision, ordinal, approver) is unique. */
  function Voters(approvals: map<(nat, string), Digest>, i: nat): set<(nat, string)> {
    set k | k in approvals.Keys && k.0 == i
  }

  function Have(d: Decision, i: nat): nat {
    |Voters(d.approvals, i)|
  }

  /** The scheduler column: the earliest of the expiry and the pending timers. */
  function NextDeadline(expiresAt: Instant, rows: seq<Row>): Instant {
    if rows == [] then expiresAt
    else
      var rest := NextDeadline(expiresAt, rows[1..]);
      if rows[0].state == Pending && rows[0].deadline.Some? then Min(rows[0].deadline.value, rest) else rest
  }

  function Scheduled(d: Decision): Decision {
    d.(next := if d.state == Open then Some(NextDeadline(d.expiresAt, d.rows)) else d.next)
  }

  lemma {:induction false} NextDeadlineIsEarliest(expiresAt: Instant, rows: seq<Row>, t: Instant)
    ensures NextDeadline(expiresAt, rows) <= t <==>
            expiresAt <= t || exists i :: 0 <= i < |rows| && rows[i].state == Pending && Passed(rows[i].deadline, t)
  {
    if rows != [] {
      NextDeadlineIsEarliest(expiresAt, rows[1..], t);
      var due := (r: Row) => r.state == Pending && Passed(r.deadline, t);
      if i :| 0 <= i < |rows| && due(rows[i]) && i != 0 { assert rows[1..][i - 1] == rows[i]; }
      if i :| 0 <= i < |rows[1..]| && due(rows[1..][i]) { assert rows[i + 1] == rows[1..][i]; }
    }
  }

  /** The column depends only on the timers of the rows that are still pending. */
  lemma {:induction false} NextDeadlineByTimers(expiresAt: Instant, a: seq<Row>, b: seq<Row>)
    requires |a| == |b|
    requires forall i :: 0 <= i < |a| ==> (a[i].state == b[i].state && a[i].deadline == b[i].deadline) || (a[i].deadline.None? && b[i].deadline.None?)
    ensures NextDeadline(expiresAt, a) == NextDeadline(expiresAt, b)
  {
    if a != [] { NextDeadlineByTimers(expiresAt, a[1..], b[1..]); }
  }

  // ---- the settle pass ----

  /** One row brought up to date. The handler is asked first; a row that is still
      pending after its own timer has run out of time. A stored terminal state is taken
      as it is, whatever the detail. */
  function Settled(row: Row, have: nat, now: Instant): Row {
    if row.state != Pending || Foreign(row) then row
    else
      var st := Status(row.detail, Pending, row.deadline, have, now);
      if st == Pending then
        if Passed(row.deadline, now) then row.(state := Failed) else row
      else if st == Satisfied && row.detail.DelayDetail? then
        row.(state := Satisfied, evidence := Waited(now, row.detail.releaseAt))
      else row.(state := st)
  }

  /** The decision after the rows in `done` were brought up to date: an interrupted
      pass when `done` is a part of them, in whatever order they were written. */
  function Settle(d: Decision, done: set<nat>, now: Instant): Decision {
    Scheduled(d.(rows := seq(|d.rows|, i requires 0 <= i < |d.rows| =>
      if i in done then Settled(d.rows[i], Have(d, i), now) else d.rows[i])))
  }

  function Below(n: nat): (r: set<nat>)
    ensures forall i: nat :: i in r <==> i < n
  {
    if n == 0 then {} else Below(n - 1) + {n - 1}
  }

  predicate Failing(row: Row) {
    row.state == Failed || row.state == Cancelled
  }

  /** What a tally of the rows says about the decision. */
  function Verdict(rows: seq<Row>): Option<Transition> {
    if exists i :: 0 <= i < |rows| && Failing(rows[i]) then Some(Fail)
    else if forall i :: 0 <= i < |rows| ==> rows[i].state == Satisfied then Some(Satisfy)
    else None
  }

  /** The conditional update on a pending row. */
  function Close(d: Decision, t: Transition): Decision {
    if d.state == Open then d.(state := To(t), next := None) else d
  }

  function CloseBy(d: Decision, t: Option<Transition>): Decision {
    if t.Some? then Close(d, t.value) else d
  }

  /** What a pass over `d` makes of it once its rows are settled as in `e`. */
  function Ended(d: Decision, e: Decision): Decision {
    if Halt(d.rows) < |d.rows| then e else CloseBy(e, Verdict(e.rows))
  }

  /** Service.advance. A resolved or expired decision is left alone; at a row it cannot
      read the pass ends in an error, with the rows before it settled. */
  function Advance(d: Decision, now: Instant): Decision {
    if d.state != Open || IsExpired(d, now) then d else Ended(d, Settle(d, Below(Halt(d.rows)), now))
  }

  predicate Halts(d: Decision, now: Instant) {
    d.state == Open && !IsExpired(d, now) && Halt(d.rows) < |d.rows|
  }

  // ---- creation ----

  /** What Decide froze before it opened any challenge. */
  datatype Proposal = Proposal(context: Context, version: int, expiresAt: Instant, specs: seq<Spec>)

  datatype Opened = Opened(rows: seq<Row>, expiresAt: Instant) | Shed

  /** The issue loop: rows are stored pending with timers cut to a microsecond, and
      the decision's lifetime is stretched to the longest of them. */
  function OpenRows(specs: seq<Spec>, c: Context, dep: Deployment, draws: nat -> Draw, now: Instant, expiresAt: Instant): (r: Result<Opened>)
  {
    if specs == [] then Ok(Opened([], expiresAt))
    else
      var n := |specs| - 1;
      var before :- OpenRows(specs[..n], c, dep, draws, now, expiresAt);
      if before.Shed? then Ok(Shed) else OpenOne(before, specs[n], c, dep, draws(n), now)
  }

  function OpenOne(before: Opened, spec: Spec, c: Context, dep: Deployment, draw: Draw, now: Instant): (r: Result<Opened>)
    requires before.Opened?
  {
    var issued :- Issue(spec, c, dep, draw, now);
    if issued.shed && issued.state == Failed then Ok(Shed)
    else
      var stretched := if issued.deadline.Some? then Max(issued.deadline.value, before.expiresAt) else before.expiresAt;
      var timer := if issued.deadline.Some? then Some(Micros(issued.deadline.value)) else None;
      Ok(Opened(before.rows + [Row(KindOf(spec), Pending, timer, issued.detail, NoEvidence)], stretched))
  }

  /** Decide after the evaluation: open every challenge, then write the row. None is
      a shed issuance, which writes nothing. */
  function Create(p: Proposal, dep: Deployment, draws: nat -> Draw, now: Instant): (r: Result<Option<Decision>>)
  {
    var outcome :- OpenRows(p.specs, p.context, dep, draws, now, p.expiresAt);
    if outcome.Shed? then Ok(None)
    else
      Ok(Some(Scheduled(Decision(StoredContext(p.context), p.version, Open, Micros(outcome.expiresAt), outcome.rows, map[], None))))
  }

  // ---- submission ----

  /** stillCollecting: the decision is open, and so is the challenge. */
  function StillCollecting(d: Decision, i: nat, now: Instant): Result<()>
    requires i < |d.rows|
  {
    if IsExpired(d, now) then Err(DecisionExpired)
    else if d.state != Open then Err(NotPending)
    else if d.rows[i].state != Pending then Err(NotPending)
    else if Passed(d.rows[i].deadline, now) then Err(DecisionExpired)
    else Ok(())
  }

  function SetRow(d: Decision, i: nat, row: Row): Decision
    requires i < |d.rows|
  {
    Scheduled(d.(rows := d.rows[i := row]))
  }

  /** SetChallengeState: the state and detail of whatever row is there now, found by its
      ordinal alone. */
  function WriteRow(d: Decision, i: nat, state: Progress, detail: Detail, evidence: Evidence): Decision {
    if i < |d.rows| then SetRow(d, i, d.rows[i].(state := state, detail := detail, evidence := evidence)) else d
  }

  /** The approval row alone; a repeat is a conflict and changes nothing. */
  function RecordApproval(d: Decision, i: nat, approver: string, hash: Digest): Decision {
    if (i, approver) in d.approvals then d else d.(approvals := d.approvals[(i, approver) := hash])
  }

  /** Submit up to and including the challenge row, for a caller with standing. With
      `interrupted`, a quorum stops after its approval row. */
  function Submit(d: Decision, i: nat, dep: Deployment, s: Subject, p: Payload, now: Instant, interrupted: bool): (r: Result<Decision>)
    ensures r.Ok? ==> i < |d.rows| && StillCollecting(d, i, now).Ok? && !Foreign(d.rows[i])
  {
    if i >= |d.rows| then Err(NoSuchChallenge)
    else
      var _ :- StillCollecting(d, i, now);
      var row := d.rows[i];
      if Foreign(row) then Err(InvalidPayload) else
      match row.detail
      case QuorumDetail(threshold, _, _) =>
        var vote :- Approve(row.detail, d.context, s, p);
        var voted := RecordApproval(d, i, vote.0, vote.1);
        if interrupted then Ok(voted)
        else Ok(SetRow(voted, i, row.(state := if Have(voted, i) >= threshold then Satisfied else Pending)))
      case DelayDetail(_, _, _, _) =>
        var detail :- CancelDelay(row.detail, s, p, now);
        Ok(SetRow(d, i, row.(state := Failed, detail := detail)))
      case ExternalDetail(_, _, _, _, _) =>
        var detail :- AcceptCallback(row.detail, d.context.id, i, dep, p);
        Ok(SetRow(d, i, row.(state := ExternalState(detail.verdict), detail := detail, evidence := Answered(now, p.signature))))
      case MfaDetail(_, _, _) =>
        var detail :- CompleteMfa(row.detail, p, now);
        Ok(SetRow(d, i, row.(state := Satisfied, detail := detail, evidence := SteppedUp(now))))
  }
}
