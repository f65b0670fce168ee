/** The invariant of a decision row, and that every step of its life keeps it: the
    binding of each countable approval, the evidence behind each satisfied row, and
    the scheduler column. */
module Soundness {
  import opened Basics
  import opened Approvers
  import opened Policy
  import opened Challenges
  import opened Decisions
  import opened Revision

  // ---- the invariant ----

  /** What a satisfied row rests on, by kind. */
  ghost predicate Supported(row: Row, id: string, i: nat, have: nat) {
    match row.detail
    case QuorumDetail(threshold, _, _) => 1 <= threshold <= have
    case DelayDetail(_, _, _, _) => row.evidence.Waited? && row.evidence.release <= row.evidence.at
    case ExternalDetail(_, nonce, _, _, verdict) =>
      && verdict == APPROVED && row.evidence.Answered?
      && row.evidence.signature == Signature(row.evidence.signature.secret, id, i, nonce, APPROVED)
    case MfaDetail(_, _, consumedAt) => consumedAt.Some? && row.evidence == SteppedUp(consumedAt.value)
  }

  ghost predicate RowSound(row: Row, c: Context, expiresAt: Instant, i: nat, have: nat) {
    && !Foreign(row) && (row.state == Satisfied ==> Supported(row, c.id, i, have))
    && match row.detail
       case QuorumDetail(threshold, terms, hash) =>
         && row.deadline.None? && threshold >= 1 && !Failing(row)
         && Hashed(terms) == terms && hash == Some(BindingHash(c, terms))
       case DelayDetail(_, releaseAt, _, cancelled) =>
         && row.deadline == Some(Min(Micros(releaseAt), expiresAt))
         && (cancelled.Some? ==> row.state == Failed)
       case ExternalDetail(_, _, _, _, verdict) =>
         && (row.deadline.Some? ==> row.deadline.value <= expiresAt)
         && (row.state == Pending ==> verdict == "")
       case MfaDetail(_, _, consumedAt) =>
         && row.deadline.None?
         && (row.state == Pending ==> consumedAt.None?)
  }

  /** A countable approval is bound to the hash its row carries now and, where the
      set is a list, was given by one of its members. */
  ghost predicate ApprovalSound(d: Decision, k: (nat, string)) {
    && k in d.approvals && k.0 < |d.rows|
    && var detail := d.rows[k.0].detail;
       && detail.QuorumDetail? && detail.hash == Some(d.approvals[k])
       && (!detail.terms.ClaimTerms? ==> k.1 in detail.terms.members)
  }

  ghost predicate Sound(d: Decision) {
    && Micros(d.expiresAt) == d.expiresAt && Storable(d.context)
    && d.next == (if d.state == Open then Some(NextDeadline(d.expiresAt, d.rows)) else None)
    && (forall i :: 0 <= i < |d.rows| ==> RowSound(d.rows[i], d.context, d.expiresAt, i, Have(d, i)))
    && (forall k :: k in d.approvals ==> ApprovalSound(d, k))
  }

  /** What holds of a row however its writers interleave: the scheduler column is the
      earliest pending timer, and only waits and round trips have timers. */
  ghost predicate Filed(d: Decision) {
    && d.next == (if d.state == Open then Some(NextDeadline(d.expiresAt, d.rows)) else None)
    && forall i :: 0 <= i < |d.rows| && Untimed(d.rows[i].kind) ==> d.rows[i].deadline.None?
  }

  predicate Untimed(kind: Kind) {
    kind == QuorumKind || kind == MfaKind
  }

  lemma SoundIsFiled(d: Decision)
    requires Sound(d)
    ensures Filed(d)
  {
    forall i | 0 <= i < |d.rows| && Untimed(d.rows[i].kind) ensures d.rows[i].deadline.None? {
      assert RowSound(d.rows[i], d.context, d.expiresAt, i, Have(d, i));
    }
  }

  // ---- counting votes ----

  lemma VotesOnlyGrow(a: map<(nat, string), Digest>, b: map<(nat, string), Digest>, i: nat)
    requires a.Keys <= b.Keys
    ensures |Voters(a, i)| <= |Voters(b, i)|
  {
    SubsetIsSmaller(Voters(a, i), Voters(b, i));
  }

  // ---- the settle pass ----

  lemma SettledRowIsSound(row: Row, c: Context, expiresAt: Instant, i: nat, have: nat, now: Instant)
    requires RowSound(row, c, expiresAt, i, have)
    ensures RowSound(Settled(row, have, now), c, expiresAt, i, have)
  {
  }

  lemma SettleIsSound(d: Decision, done: set<nat>, now: Instant)
    requires Sound(d) && d.state == Open
    ensures Sound(Settle(d, done, now))
  {
    var e := Settle(d, done, now);
    forall i | 0 <= i < |e.rows|
      ensures RowSound(e.rows[i], e.context, e.expiresAt, i, Have(e, i))
    {
      assert RowSound(d.rows[i], d.context, d.expiresAt, i, Have(d, i));
      SettledRowIsSound(d.rows[i], d.context, d.expiresAt, i, Have(d, i), now);
    }
    forall k | k in e.approvals ensures ApprovalSound(e, k) { assert ApprovalSound(d, k); }
  }

  /** A sound decision has no row a pass cannot read. */
  lemma SoundIsLegible(d: Decision)
    requires Sound(d)
    ensures Halt(d.rows) == |d.rows|
  {
    if Halt(d.rows) < |d.rows| { assert RowSound(d.rows[Halt(d.rows)], d.context, d.expiresAt, Halt(d.rows), Have(d, Halt(d.rows))); }
  }

  lemma AdvanceIsSound(d: Decision, now: Instant)
    requires Sound(d)
    ensures Sound(Advance(d, now))
  {
    SoundIsLegible(d);
    if d.state == Open && !IsExpired(d, now) {
      SettleIsSound(d, Below(|d.rows|), now);
      var e := Settle(d, Below(|d.rows|), now);
      if Verdict(e.rows).Some? { CloseIsSound(e, Verdict(e.rows).value); }
    }
  }

  lemma CloseIsSound(d: Decision, t: Transition)
    requires Sound(d)
    ensures Sound(Close(d, t))
  {
    var e := Close(d, t);
    assert e.rows == d.rows && e.approvals == d.approvals && e.context == d.context;
    forall k | k in e.approvals ensures ApprovalSound(e, k) { assert ApprovalSound(d, k); }
  }

  // ---- submission ----

  /** Replacing one row and adding votes to it, everything else framed. */
  lemma UpdateIsSound(d: Decision, i: nat, row: Row, approvals: map<(nat, string), Digest>)
    requires Sound(d) && d.state == Open && i < |d.rows|
    requires d.approvals.Keys <= approvals.Keys && forall k :: k in d.approvals ==> approvals[k] == d.approvals[k]
    requires forall k :: k in approvals && k !in d.approvals ==> k.0 == i
    requires RowSound(row, d.context, d.expiresAt, i, |Voters(approvals, i)|)
    requires forall k :: k in approvals && k.0 == i ==> ApprovalSound(SetRow(d.(approvals := approvals), i, row), k)
    ensures Sound(SetRow(d.(approvals := approvals), i, row))
  {
    var e := SetRow(d.(approvals := approvals), i, row);
    forall j | 0 <= j < |e.rows|
      ensures RowSound(e.rows[j], e.context, e.expiresAt, j, Have(e, j))
    {
      assert RowSound(d.rows[j], d.context, d.expiresAt, j, Have(d, j));
      if j != i { assert Voters(approvals, j) == Voters(d.approvals, j); }
    }
    forall k | k in e.approvals ensures ApprovalSound(e, k) {
      if k.0 != i { assert ApprovalSound(d, k); }
    }
  }

  /** A vote by a target, bound to the hash the row carries. */
  lemma RecordIsSound(d: Decision, i: nat, approver: string, hash: Digest)
    requires Sound(d) && d.state == Open && i < |d.rows| && d.rows[i].detail.QuorumDetail?
    requires d.rows[i].detail.hash == Some(hash)
    requires !d.rows[i].detail.terms.ClaimTerms? ==> approver in d.rows[i].detail.terms.members
    ensures Sound(RecordApproval(d, i, approver, hash))
  {
    var row, e := d.rows[i], RecordApproval(d, i, approver, hash);
    assert RowSound(row, d.context, d.expiresAt, i, Have(d, i));
    ApprovalsOfRow(d, i);
    VotesOnlyGrow(d.approvals, e.approvals, i);
    assert d.rows[i := row] == d.rows;
    UpdateIsSound(d, i, row, e.approvals);
    assert e == SetRow(e, i, row);
  }

  /** A vote recorded late, against a hash read earlier, is bound exactly when the row
      still carries that hash: what a submission and a revision must not interleave
      for. */
  lemma LateVoteIsBound(d: Decision, i: nat, approver: string, hash: Digest)
    requires Sound(d) && d.state == Open && i < |d.rows| && d.rows[i].detail.QuorumDetail? && (i, approver) !in d.approvals
    requires !d.rows[i].detail.terms.ClaimTerms? ==> approver in d.rows[i].detail.terms.members
    ensures Sound(RecordApproval(d, i, approver, hash)) <==> d.rows[i].detail.hash == Some(hash)
  {
    var e := RecordApproval(d, i, approver, hash);
    if Sound(e) { assert ApprovalSound(e, (i, approver)); }
    if d.rows[i].detail.hash == Some(hash) { RecordIsSound(d, i, approver, hash); }
  }

  /** A quorum row written late, with the detail and count read earlier and a vote of its
      own there, is sound exactly when the row still carries the hash that was read and
      the votes that were counted are still there. */
  lemma LateMarkIsBound(d: Decision, i: nat, state: Progress, detail: Detail, read: Context)
    requires Sound(d) && d.state == Open && i < |d.rows| && d.rows[i].detail.QuorumDetail? && Have(d, i) > 0
    requires detail.QuorumDetail? && detail.threshold >= 1 && Hashed(detail.terms) == detail.terms && detail.hash == Some(BindingHash(read, detail.terms))
    requires state == Pending || state == Satisfied
    ensures Sound(WriteRow(d, i, state, detail, d.rows[i].evidence)) <==>
            detail.hash == d.rows[i].detail.hash && (state == Satisfied ==> Have(d, i) >= detail.threshold)
  {
    var e := WriteRow(d, i, state, detail, d.rows[i].evidence);
    assert RowSound(d.rows[i], d.context, d.expiresAt, i, Have(d, i));
    assert e.approvals == d.approvals && e.rows[i].detail == detail;
    if Sound(e) {
      var k :| k in Voters(d.approvals, i);
      assert ApprovalSound(d, k) && ApprovalSound(e, k);
      assert RowSound(e.rows[i], e.context, e.expiresAt, i, Have(e, i));
    }
    if detail.hash == d.rows[i].detail.hash && (state == Satisfied ==> Have(d, i) >= detail.threshold) {
      ApprovalsOfRow(d, i);
      UpdateIsSound(d, i, e.rows[i], d.approvals);
      assert d.(approvals := d.approvals) == d;
    }
  }

  /** A quorum row may be given any open state its votes support. */
  lemma StateIsSound(d: Decision, i: nat, state: Progress)
    requires Sound(d) && d.state == Open && i < |d.rows| && d.rows[i].detail.QuorumDetail?
    requires state == Pending || (state == Satisfied && Have(d, i) >= d.rows[i].detail.threshold)
    ensures Sound(SetRow(d, i, d.rows[i].(state := state)))
  {
    assert RowSound(d.rows[i], d.context, d.expiresAt, i, Have(d, i));
    ApprovalsOfRow(d, i);
    UpdateIsSound(d, i, d.rows[i].(state := state), d.approvals);
  }

  lemma VoteIsSound(d: Decision, i: nat, dep: Deployment, s: Subject, p: Payload, now: Instant, interrupted: bool)
    requires Sound(d) && Submit(d, i, dep, s, p, now, interrupted).Ok? && d.rows[i].detail.QuorumDetail?
    ensures Sound(Submit(d, i, dep, s, p, now, interrupted).value)
  {
    var row := d.rows[i];
    var vote := Approve(row.detail, d.context, s, p).value;
    var voted := RecordApproval(d, i, vote.0, vote.1);
    RecordIsSound(d, i, vote.0, vote.1);
    if !interrupted { StateIsSound(voted, i, if Have(voted, i) >= row.detail.threshold then Satisfied else Pending); }
  }

  lemma SubmitIsSound(d: Decision, i: nat, dep: Deployment, s: Subject, p: Payload, now: Instant, interrupted: bool)
    requires Sound(d) && Submit(d, i, dep, s, p, now, interrupted).Ok?
    ensures Sound(Submit(d, i, dep, s, p, now, interrupted).value)
  {
    if d.rows[i].detail.QuorumDetail? {
      VoteIsSound(d, i, dep, s, p, now, interrupted);
    } else {
      var e := Submit(d, i, dep, s, p, now, interrupted).value;
      assert RowSound(d.rows[i], d.context, d.expiresAt, i, Have(d, i));
      ApprovalsOfRow(d, i);
      UpdateIsSound(d, i, e.rows[i], d.approvals);
    }
  }

  lemma ApprovalsOfRow(d: Decision, i: nat)
    requires Sound(d) && i < |d.rows|
    ensures forall k :: k in d.approvals && k.0 == i ==> ApprovalSound(d, k)
  {
  }

  // ---- creation ----

  ghost predicate Fresh(row: Row, c: Context) {
    && row.state == Pending && !Foreign(row)
    && match row.detail
       case QuorumDetail(threshold, terms, hash) => row.deadline.None? && threshold >= 1 && Hashed(terms) == terms && hash == Some(BindingHash(c, terms))
       case DelayDetail(_, releaseAt, _, cancelled) => row.deadline == Some(Micros(releaseAt)) && cancelled.None?
       case ExternalDetail(_, _, _, _, verdict) => verdict == ""
       case MfaDetail(_, _, consumedAt) => row.deadline.None? && consumedAt.None?
  }

  lemma IssuedIsFresh(spec: Spec, c: Context, dep: Deployment, draw: Draw, now: Instant)
    requires Issue(spec, c, dep, draw, now).Ok?
    ensures var issued := Issue(spec, c, dep, draw, now).value;
            Fresh(Row(KindOf(spec), Pending, if issued.deadline.Some? then Some(Micros(issued.deadline.value)) else None, issued.detail, NoEvidence), c)
  {
  }

  lemma CutKeepsOrder(a: Instant, b: Instant)
    requires a <= b
    ensures Micros(a) <= Micros(b)
  {
  }

  ghost predicate AllFresh(rows: seq<Row>, c: Context, expiresAt: Instant) {
    forall i :: 0 <= i < |rows| ==> Fresh(rows[i], c) && (rows[i].deadline.Some? ==> rows[i].deadline.value <= Micros(expiresAt))
  }

  lemma OpenOneIsFresh(before: Opened, spec: Spec, c: Context, dep: Deployment, draw: Draw, now: Instant)
    requires before.Opened? && AllFresh(before.rows, c, before.expiresAt)
    requires OpenOne(before, spec, c, dep, draw, now).Ok? && OpenOne(before, spec, c, dep, draw, now).value.Opened?
    ensures var o := OpenOne(before, spec, c, dep, draw, now).value;
            |o.rows| == |before.rows| + 1 && before.expiresAt <= o.expiresAt && AllFresh(o.rows, c, o.expiresAt)
  {
    var o := OpenOne(before, spec, c, dep, draw, now).value;
    var issued := Issue(spec, c, dep, draw, now).value;
    IssuedIsFresh(spec, c, dep, draw, now);
    CutKeepsOrder(before.expiresAt, o.expiresAt);
    if issued.deadline.Some? { CutKeepsOrder(issued.deadline.value, o.expiresAt); }
  }

  lemma {:induction false} OpenRowsAreFresh(specs: seq<Spec>, c: Context, dep: Deployment, draws: nat -> Draw, now: Instant, expiresAt: Instant)
    requires OpenRows(specs, c, dep, draws, now, expiresAt).Ok? && OpenRows(specs, c, dep, draws, now, expiresAt).value.Opened?
    ensures var o := OpenRows(specs, c, dep, draws, now, expiresAt).value;
            |o.rows| == |specs| && expiresAt <= o.expiresAt && AllFresh(o.rows, c, o.expiresAt)
  {
    if specs != [] {
      var n := |specs| - 1;
      OpenRowsAreFresh(specs[..n], c, dep, draws, now, expiresAt);
      OpenOneIsFresh(OpenRows(specs[..n], c, dep, draws, now, expiresAt).value, specs[n], c, dep, draws(n), now);
    }
  }

  /** A created decision is sound exactly when its content is what its row gives back,
      or no challenge of it is bound to that content. */
  lemma CreateIsSoundExactly(p: Proposal, dep: Deployment, draws: nat -> Draw, now: Instant)
    requires Create(p, dep, draws, now).Ok? && Create(p, dep, draws, now).value.Some?
    ensures var d := Create(p, dep, draws, now).value.value;
            Sound(d) <==> Storable(p.context) || forall i :: 0 <= i < |d.rows| ==> !d.rows[i].detail.QuorumDetail?
  {
    OpenRowsAreFresh(p.specs, p.context, dep, draws, now, p.expiresAt);
    StoredIsStorable(p.context);
    var d := Create(p, dep, draws, now).value.value;
    forall i | 0 <= i < |d.rows|
      ensures RowSound(d.rows[i], d.context, d.expiresAt, i, Have(d, i)) <==> Storable(p.context) || !d.rows[i].detail.QuorumDetail?
    {
      assert Fresh(d.rows[i], p.context);
    }
    if !Storable(p.context) && Sound(d) {
      assert forall i :: 0 <= i < |d.rows| ==> RowSound(d.rows[i], d.context, d.expiresAt, i, Have(d, i));
    }
  }

  // ---- revision ----

  /** One row, rebound under a rewritten context: sound again, with the votes that
      survive it. */
  lemma RebindRowIsSound(d: Decision, c: Context, i: nat, spec: Spec, env: Setting, now: Instant)
    requires i < |d.rows| && d.rows[i].kind == KindOf(spec)
    requires Micros(d.expiresAt) == d.expiresAt && c.id == d.context.id
    requires RowSound(d.rows[i], c, d.expiresAt, i, Have(d, i))
    requires RebindRow(d, i, spec, env, now).Ok?
    ensures var r := RebindRow(d, i, spec, env, now).value;
            RowSound(r.row, d.context, d.expiresAt, i, if r.dropped then 0 else Have(d, i))
  {
  }

  lemma VotesAfterRebind(d: Decision, rebound: seq<Rebound>, i: nat)
    requires |rebound| == |d.rows| && i < |rebound|
    ensures Have(Rebind(d, rebound), i) == if rebound[i].dropped then 0 else Have(d, i)
  {
    var e := Rebind(d, rebound);
    if rebound[i].dropped {
      assert Voters(e.approvals, i) == {};
    } else {
      assert Voters(e.approvals, i) == Voters(d.approvals, i);
    }
  }

  ghost predicate Rebinds(d: Decision, c: Context, specs: seq<Spec>, env: Setting, now: Instant, rebound: seq<Rebound>) {
    && SameShape(d.rows, specs)
    && d.state == Open && c.id == d.context.id && Storable(d.context) && Sound(d.(context := c))
    && RebindRows(d, specs, env, now, |specs|) == Ok(rebound)
  }

  lemma ReboundRow(d: Decision, c: Context, specs: seq<Spec>, env: Setting, now: Instant, rebound: seq<Rebound>, i: nat)
    requires Rebinds(d, c, specs, env, now, rebound) && i < |rebound|
    ensures RowSound(d.rows[i], c, d.expiresAt, i, Have(d, i))
    ensures RebindRow(d, i, specs[i], env, now) == Ok(rebound[i])
    ensures RowSound(rebound[i].row, d.context, d.expiresAt, i, Have(Rebind(d, rebound), i))
  {
    assert RowSound(d.rows[i], c, d.expiresAt, i, Have(d.(context := c), i));
    RebindRowIsSound(d, c, i, specs[i], env, now);
    VotesAfterRebind(d, rebound, i);
  }

  /** A round trip already out keeps its correlator through any revision, and is failed
      exactly when a live one is pointed somewhere else. */
  lemma RoundTripKeepsCorrelator(row: Row, spec: Spec)
    requires row.kind == ExternalKind && row.detail.ExternalDetail? && spec.ExternalSpec?
    ensures RebindExternal(row, spec).Ok?
    ensures var r := RebindExternal(row, spec).value.row;
            && r.detail.ExternalDetail? && r.detail.nonce == row.detail.nonce && r.detail.verdict == row.detail.verdict && r.evidence == row.evidence
            && (r == row <==> TrimSpace(spec.target) == row.detail.target || row.detail.failure != "")
            && (r != row ==> r.state == Failed && r.detail.failure == RETARGETED)
  {
  }

  /** Votes are kept only under the very terms they were given under. */
  lemma KeptTerms(row: Row, c: Context, expiresAt: Instant, i: nat, have: nat, spec: Spec, now: Instant, env: Setting, e: Context)
    requires row.kind == QuorumKind && spec.QuorumSpec? && RowSound(row, c, expiresAt, i, have)
    requires RebindQuorum(row, have, spec, e, env, i, now).Ok? && !RebindQuorum(row, have, spec, e, env, i, now).value.dropped
    ensures var r := RebindQuorum(row, have, spec, e, env, i, now).value.row.detail;
            r.QuorumDetail? && r.hash == row.detail.hash && r.terms == row.detail.terms
  {
  }

  lemma RebindKeeps(d: Decision, rebound: seq<Rebound>, k: (nat, string))
    requires |rebound| == |d.rows| && k in Rebind(d, rebound).approvals && k.0 < |rebound|
    ensures k in d.approvals && Rebind(d, rebound).approvals[k] == d.approvals[k] && !rebound[k.0].dropped
    ensures |Rebind(d, rebound).rows| == |rebound| && Rebind(d, rebound).rows[k.0] == rebound[k.0].row
  {
  }

  lemma RebindDrops(d: Decision, rebound: seq<Rebound>)
    requires |rebound| == |d.rows|
    ensures forall k :: k in Rebind(d, rebound).approvals ==> k in d.approvals
  {
  }

  lemma ReboundTerms(d: Decision, c: Context, specs: seq<Spec>, env: Setting, now: Instant, rebound: seq<Rebound>, i: nat)
    requires Rebinds(d, c, specs, env, now, rebound) && i < |rebound| && d.rows[i].detail.QuorumDetail? && !rebound[i].dropped
    ensures var r := rebound[i].row.detail; r.QuorumDetail? && r.hash == d.rows[i].detail.hash && r.terms == d.rows[i].detail.terms
  {
    ReboundRow(d, c, specs, env, now, rebound, i);
    KeptTerms(d.rows[i], c, d.expiresAt, i, Have(d, i), specs[i], now, env, d.context);
  }

  /** A vote that is still there is bound to the hash its row carries now. */
  lemma ReboundApproval(d: Decision, c: Context, specs: seq<Spec>, env: Setting, now: Instant, rebound: seq<Rebound>, k: (nat, string))
    requires Rebinds(d, c, specs, env, now, rebound) && k in Rebind(d, rebound).approvals
    ensures ApprovalSound(Rebind(d, rebound), k)
  {
    RebindDrops(d, rebound);
    assert ApprovalSound(d.(context := c), k);
    RebindKeeps(d, rebound, k);
    ReboundTerms(d, c, specs, env, now, rebound, k.0);
  }

  lemma ReboundRowIsFiled(d: Decision, i: nat, spec: Spec, env: Setting, now: Instant)
    requires i < |d.rows| && d.rows[i].kind == KindOf(spec) && RebindRow(d, i, spec, env, now).Ok?
    requires Untimed(d.rows[i].kind) ==> d.rows[i].deadline.None?
    ensures var r := RebindRow(d, i, spec, env, now).value;
            && r.row.kind == d.rows[i].kind && (Untimed(r.row.kind) ==> r.row.deadline.None?)
            && (!r.timerMoved ==>
                 (r.row.state == d.rows[i].state && r.row.deadline == d.rows[i].deadline) || (r.row.deadline.None? && d.rows[i].deadline.None?))
  {
  }

  /** A rebound list of one shape keeps the scheduler column right, whether or not the
      column was recomputed. */
  lemma RebindIsFiled(d: Decision, specs: seq<Spec>, env: Setting, now: Instant, rebound: seq<Rebound>)
    requires Filed(d) && d.state == Open && SameShape(d.rows, specs) && RebindRows(d, specs, env, now, |specs|) == Ok(rebound)
    ensures Filed(Rebind(d, rebound))
  {
    var rows := seq(|rebound|, i requires 0 <= i < |rebound| => rebound[i].row);
    forall i | 0 <= i < |rows|
      ensures Untimed(rows[i].kind) ==> rows[i].deadline.None?
      ensures !rebound[i].timerMoved ==>
                (rows[i].state == d.rows[i].state && rows[i].deadline == d.rows[i].deadline) || (rows[i].deadline.None? && d.rows[i].deadline.None?)
    {
      assert RebindRow(d, i, specs[i], env, now) == Ok(rebound[i]);
      ReboundRowIsFiled(d, i, specs[i], env, now);
    }
    if !exists i :: 0 <= i < |rebound| && rebound[i].timerMoved { NextDeadlineByTimers(d.expiresAt, rows, d.rows); }
  }

  lemma {:induction false} ReopenedAreFiled(specs: seq<Spec>, d: Decision, env: Setting, now: Instant)
    requires ReopenRows(specs, d, env, now).Ok?
    ensures var rows := ReopenRows(specs, d, env, now).value;
            forall i :: 0 <= i < |rows| && Untimed(rows[i].kind) ==> rows[i].deadline.None?
  {
    if specs != [] { ReopenedAreFiled(specs[..|specs| - 1], d, env, now); }
  }

  lemma RevaluateIsFiled(d: Decision, j: Judgment, env: Setting, now: Instant)
    requires Filed(d) && d.state == Open && Revaluate(d, j, env, now).Ok?
    ensures Filed(Revaluate(d, j, env, now).value)
  {
    if j.Kept? {
      var r := Rejudged(d, j);
      if SameShape(r.rows, j.specs) {
        RebindIsFiled(r, j.specs, env, now, RebindRows(r, j.specs, env, now, |j.specs|).value);
      } else {
        ReopenedAreFiled(j.specs, r, env, now);
      }
    }
  }

  lemma RebindIsSound(d: Decision, c: Context, specs: seq<Spec>, env: Setting, now: Instant, rebound: seq<Rebound>)
    requires Rebinds(d, c, specs, env, now, rebound)
    ensures Sound(Rebind(d, rebound))
  {
    var e := Rebind(d, rebound);
    forall i | 0 <= i < |e.rows| ensures RowSound(e.rows[i], e.context, e.expiresAt, i, Have(e, i)) {
      ReboundRow(d, c, specs, env, now, rebound, i);
    }
    forall k | k in e.approvals ensures ApprovalSound(e, k) { ReboundApproval(d, c, specs, env, now, rebound, k); }
    SoundIsFiled(d.(context := c));
    RebindIsFiled(d, specs, env, now, rebound);
  }

  lemma {:induction false} ReopenedRowsAreSound(specs: seq<Spec>, d: Decision, env: Setting, now: Instant)
    requires Micros(d.expiresAt) == d.expiresAt
    requires ReopenRows(specs, d, env, now).Ok?
    ensures forall i :: 0 <= i < |specs| ==> RowSound(ReopenRows(specs, d, env, now).value[i], d.context, d.expiresAt, i, 0)
  {
    if specs != [] { ReopenedRowsAreSound(specs[..|specs| - 1], d, env, now); }
  }

  /** The rewritten, rebound decision, before its tally is read. */
  lemma ReboundIsSound(d: Decision, j: Judgment, env: Setting, now: Instant)
    requires Sound(d) && d.state == Open && j.Kept? && RebindChallenges(Rejudged(d, j), j.specs, env, now).Ok?
    requires Storable(Rejudged(d, j).context)
    ensures Sound(RebindChallenges(Rejudged(d, j), j.specs, env, now).value)
  {
    var r := Rejudged(d, j);
    var e := RebindChallenges(r, j.specs, env, now).value;
    if SameShape(r.rows, j.specs) {
      assert r.(context := d.context) == d.(version := j.version);
      assert Sound(r.(context := d.context)) by { VersionIsNotCovered(d, j.version); }
      RebindIsSound(r, d.context, j.specs, env, now, RebindRows(r, j.specs, env, now, |j.specs|).value);
    } else {
      ReopenedRowsAreSound(j.specs, r, env, now);
      assert forall i: nat :: Voters(e.approvals, i) == {};
    }
  }

  lemma RevaluateIsSound(d: Decision, j: Judgment, env: Setting, now: Instant)
    requires Sound(d) && d.state == Open && Revaluate(d, j, env, now).Ok?
    requires j.Kept? ==> Storable(Rejudged(d, j).context)
    ensures Sound(Revaluate(d, j, env, now).value)
  {
    if j.Refused? {
      CloseIsSound(d, Revalidate);
    } else {
      ReboundIsSound(d, j, env, now);
      var e := RebindChallenges(Rejudged(d, j), j.specs, env, now).value;
      RebindKeepsFrame(Rejudged(d, j), j.specs, env, now);
      assert Refiled(e) == e;
      if Verdict(e.rows).Some? { CloseIsSound(e, Verdict(e.rows).value); }
    }
  }

  lemma RebindKeepsFrame(d: Decision, specs: seq<Spec>, env: Setting, now: Instant)
    requires RebindChallenges(d, specs, env, now).Ok?
    ensures var e := RebindChallenges(d, specs, env, now).value; e.context == d.context && e.expiresAt == d.expiresAt && e.state == d.state
  {
  }

  /** A revision never adds an approval, and never changes the one it keeps. */
  lemma ApprovalsOnlyShrink(d: Decision, j: Judgment, env: Setting, now: Instant)
    requires Revaluate(d, j, env, now).Ok?
    ensures var e := Revaluate(d, j, env, now).value; forall k :: k in e.approvals ==> k in d.approvals && e.approvals[k] == d.approvals[k]
  {
  }

  lemma VersionIsNotCovered(d: Decision, version: int)
    requires Sound(d)
    ensures Sound(d.(version := version))
  {
    var e := d.(version := version);
    assert forall i: nat :: Have(e, i) == Have(d, i);
    forall k | k in e.approvals ensures ApprovalSound(e, k) { assert ApprovalSound(d, k); }
  }
}
