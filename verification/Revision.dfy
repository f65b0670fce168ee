/** What a policy revision does to a decision that is still open: the four
    rebinding rules, the rebuilt list when the shape changed, and the tally. */
module Revision {
  import opened Basics
  import opened Approvers
  import opened Policy
  import opened Challenges
  import opened Decisions

  /** How the revised policy set judged a decision's frozen request and facts.
      `facts` is the snapshot after anything newly reached was added to it. */
  datatype Judgment =
    | Refused
    | Kept(policy: string, version: int, facts: map<string, Json>, obligations: seq<Json>, specs: seq<Spec>)

  /** The outside of one revision: the deployment, the draw at each ordinal, whether a
      re-encoded detail equal to the stored one is also equal byte for byte, and
      whether each mfa row still binds and still asks for the same classes. */
  datatype Setting = Setting(dep: Deployment, draws: nat -> Draw, sameBytes: bool, mfaKept: nat -> bool)

  /** PreservesApprovals: two digests, both present and equal. */
  predicate PreservesApprovals(stored: Detail, reissued: Detail) {
    && stored.QuorumDetail? && reissued.QuorumDetail?
    && stored.hash.Some? && stored.hash == reissued.hash
  }

  /** A rebound row, and whether its approvals went. */
  datatype Rebound = Rebound(row: Row, dropped: bool, timerMoved: bool)

  predicate SameShape(rows: seq<Row>, specs: seq<Spec>) {
    |rows| == |specs| && forall i :: 0 <= i < |rows| ==> rows[i].kind == KindOf(specs[i])
  }

  /** A quorum is re-issued over whatever the row holds; another kind's detail carries no
      digest, and so keeps no approval. */
  function RebindQuorum(row: Row, have: nat, spec: Spec, c: Context, env: Setting, i: nat, now: Instant): (r: Result<Rebound>)
    requires row.kind == QuorumKind && spec.QuorumSpec?
  {
    var issued :- Issue(spec, c, env.dep, env.draws(i), now);
    var kept := PreservesApprovals(row.detail, issued.detail);
    if kept && row.detail == issued.detail && env.sameBytes then Ok(Rebound(row, false, false))
    else
      var count := if kept then have else 0;
      var state := if count >= issued.detail.threshold > 0 then Satisfied else Pending;
      Ok(Rebound(row.(detail := issued.detail, state := state, evidence := NoEvidence), !kept, false))
  }

  /** A detail this handler cannot read stops the revision. A failed round trip's it can:
      both name their failure alike, and nothing else is asked of a failed step-up. */
  function RebindMfa(row: Row, spec: Spec, c: Context, env: Setting, i: nat, now: Instant): (r: Result<Rebound>)
    requires row.kind == MfaKind && spec.MfaSpec?
  {
    if Foreign(row) && !(row.detail.ExternalDetail? && row.detail.failure != "") then Err(Fault.Broken)
    else if !Foreign(row) && env.mfaKept(i) then Ok(Rebound(row, false, false))
    else
      var issued :- Issue(spec, c, env.dep, env.draws(i), now);
      if row.detail == issued.detail && env.sameBytes then Ok(Rebound(row, false, false))
      else Ok(Rebound(row.(detail := issued.detail, state := Pending, evidence := NoEvidence), false, false))
  }

  /** A running wait is moved, never restarted: a revised duration counts from the
      instant the wait opened. */
  function RebindDelay(row: Row, spec: Spec, expiresAt: Instant, dep: Deployment, now: Instant): (r: Result<Rebound>)
    requires row.kind == DelayKind && spec.DelaySpec?
  {
    if spec.duration <= 0 then Err(UnsupportedSpec)
    else if Foreign(row) then Err(Fault.Broken)
    else
      var stored := row.detail;
      var moved := stored.duration != spec.duration;
      var timed := if moved then stored.(releaseAt := stored.releaseAt - stored.duration + spec.duration, duration := spec.duration) else stored;
      var authority :- if spec.cancellableBy.None? then Ok(None) else
        var a :- ResolveAuthority(dep.dir, spec.cancellableBy.value); Ok(Some(a));
      var detail := timed.(cancellableBy := authority);
      if !moved then Ok(Rebound(row.(detail := detail), false, false))
      else
        var state := Status(detail, row.state, Some(detail.releaseAt), 0, now);
        var evidence := if row.state == Pending && state == Satisfied then Waited(now, detail.releaseAt) else row.evidence;
        Ok(Rebound(Row(DelayKind, state, Some(Micros(Min(detail.releaseAt, expiresAt))), detail, evidence), false, true))
  }

  /** A round trip that is already out keeps its correlator, or fails if the revision
      pointed it somewhere else. */
  function RebindExternal(row: Row, spec: Spec): (r: Result<Rebound>)
    requires row.kind == ExternalKind && spec.ExternalSpec?
  {
    if Foreign(row) then Err(Fault.Broken)
    else if TrimSpace(spec.target) == row.detail.target || row.detail.failure != "" then Ok(Rebound(row, false, false))
    else Ok(Rebound(Row(ExternalKind, Failed, None, row.detail.(failure := RETARGETED), row.evidence), false, true))
  }

  function RebindRow(d: Decision, i: nat, spec: Spec, env: Setting, now: Instant): (r: Result<Rebound>)
    requires i < |d.rows|
    requires d.rows[i].kind == KindOf(spec)
  {
    match spec
    case QuorumSpec(_, _) => RebindQuorum(d.rows[i], Have(d, i), spec, d.context, env, i, now)
    case MfaSpec(_) => RebindMfa(d.rows[i], spec, d.context, env, i, now)
    case DelaySpec(_, _) => RebindDelay(d.rows[i], spec, d.expiresAt, env.dep, now)
    case ExternalSpec(_) => RebindExternal(d.rows[i], spec)
  }

  /** The rebinding loop up to an ordinal; the first refusal stops the revision. */
  function RebindRows(d: Decision, specs: seq<Spec>, env: Setting, now: Instant, n: nat): (r: Result<seq<Rebound>>)
    requires SameShape(d.rows, specs) && n <= |specs|
    ensures r.Ok? ==> |r.value| == n
    ensures r.Ok? ==> forall i :: 0 <= i < n ==> RebindRow(d, i, specs[i], env, now) == Ok(r.value[i])
  {
    if n == 0 then Ok([])
    else
      var before :- RebindRows(d, specs, env, now, n - 1);
      var last :- RebindRow(d, n - 1, specs[n - 1], env, now);
      Ok(before + [last])
  }

  /** The rebound decision: each row replaced, and the dropped approvals gone. */
  function Rebind(d: Decision, rebound: seq<Rebound>): Decision
    requires |rebound| == |d.rows|
  {
    var rows := seq(|rebound|, i requires 0 <= i < |rebound| => rebound[i].row);
    var approvals := map k | k in d.approvals && (k.0 < |rebound| ==> !rebound[k.0].dropped) :: d.approvals[k];
    var e := d.(rows := rows, approvals := approvals);
    if exists i :: 0 <= i < |rebound| && rebound[i].timerMoved then Scheduled(e) else e
  }

  /** Revalidator.issue: a reopened challenge may not outlive its decision, and its
      row is stored in the state it opened in. */
  function ReopenRows(specs: seq<Spec>, d: Decision, env: Setting, now: Instant): (r: Result<seq<Row>>)
    ensures r.Ok? ==> |r.value| == |specs|
  {
    if specs == [] then Ok([])
    else
      var n := |specs| - 1;
      var before :- ReopenRows(specs[..n], d, env, now);
      var issued :- Issue(specs[n], d.context, env.dep, env.draws(n), now);
      var timer := if issued.deadline.Some? then Some(Micros(Min(issued.deadline.value, d.expiresAt))) else None;
      Ok(before + [Row(KindOf(specs[n]), issued.state, timer, issued.detail, NoEvidence)])
  }

  /** rebindChallenges. Deleting the rows deletes their approvals. */
  function RebindChallenges(d: Decision, specs: seq<Spec>, env: Setting, now: Instant): (r: Result<Decision>)
  {
    if SameShape(d.rows, specs) then
      var rebound :- RebindRows(d, specs, env, now, |specs|);
      Ok(Rebind(d, rebound))
    else
      var rows :- ReopenRows(specs, d, env, now);
      Ok(Scheduled(d.(rows := rows, approvals := map[])))
  }

  /** The decision row as the revision rewrites it, before its challenges. */
  function Rejudged(d: Decision, j: Judgment): Decision
    requires j.Kept?
  {
    d.(version := j.version, context := d.context.(policy := j.policy, facts := j.facts, obligations := j.obligations))
  }

  /** Revalidator.revaluate for one open, unexpired decision. */
  function Revaluate(d: Decision, j: Judgment, env: Setting, now: Instant): (r: Result<Decision>)
  {
    if j.Refused? then Ok(Close(d, Revalidate))
    else
      var e :- RebindChallenges(Rejudged(d, j), j.specs, env, now);
      Ok(CloseBy(Refiled(e), Verdict(e.rows)))
  }

  /** The rewritten decision as its row gives it back. */
  function Refiled(d: Decision): Decision {
    d.(context := StoredContext(d.context))
  }

  /** Apply as one decision sees it: only an open, unexpired decision is touched, and a
      refusal rolls it back. */
  function Revise(d: Decision, j: Judgment, env: Setting, now: Instant): Decision {
    if d.state != Open || IsExpired(d, now) then d
    else
      var e := Revaluate(d, j, env, now);
      if e.Ok? then e.value else d
  }
}
