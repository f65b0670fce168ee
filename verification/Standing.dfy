/** Who may learn anything about a decision: the creator and the targets of its
    challenges. Everybody else is answered as if it did not exist. */
module Standing {
  import opened Basics
  import opened Approvers
  import opened Policy
  import opened Challenges
  import opened Decisions
  import opened Runs

  // ---- targets ----

  /** Whether a challenge names this identity. An external challenge names nobody: its
      counterparty is a system holding a signature. */
  predicate IsTargetOf(detail: Detail, c: Context, s: Subject) {
    match detail
    case QuorumDetail(_, terms, _) => IsTarget(terms, s)
    case DelayDetail(_, _, cancellableBy, _) => cancellableBy.Some? && IsTarget(cancellableBy.value, s)
    case MfaDetail(_, _, _) => s.kind == User && s.id != "" && s.id == TrimSpace(c.subject)
    case ExternalDetail(_, _, _, _, _) => false
  }

  /** What a row's handler answers. A detail of another kind it mostly cannot read; a
      failed round trip passes for a step-up of nobody's, and nobody but an approver gets
      as far as the mode a quorum does not know. */
  function TargetOf(row: Row, c: Context, s: Subject): Result<bool> {
    if row.kind == ExternalKind then Ok(false)
    else if !Foreign(row) then Ok(IsTargetOf(row.detail, c, s))
    else if row.kind == MfaKind && row.detail.ExternalDetail? && row.detail.failure != "" then Ok(false)
    else if row.kind == QuorumKind && row.detail.MfaDetail? && !CanApprove(s) then Ok(false)
    else Err(InvalidPayload)
  }

  /** The rows from one on, for the handlers this build has: the first to name the caller,
      or to be unreadable, decides. */
  function NamedFrom(s: Subject, d: Decision, handlers: set<Kind>, i: nat): (r: Result<bool>)
    requires i <= |d.rows|
    ensures r.Err? ==> r.fault == InvalidPayload
    decreases |d.rows| - i
  {
    if i == |d.rows| then Ok(false)
    else if d.rows[i].kind !in handlers then NamedFrom(s, d, handlers, i + 1)
    else
      var named :- TargetOf(d.rows[i], d.context, s);
      if named then Ok(true) else NamedFrom(s, d, handlers, i + 1)
  }

  /** The read rule. */
  function MayAccess(s: Subject, d: Decision, handlers: set<Kind>): Result<bool> {
    if CallerId(s) == d.context.caller then Ok(true) else NamedFrom(s, d, handlers, 0)
  }

  /** The submit rule: the read rule, or a workload at a challenge that names no
      targets. */
  function MayActOn(s: Subject, d: Decision, i: nat, handlers: set<Kind>): Result<bool>
    requires i < |d.rows|
  {
    var may :- MayAccess(s, d, handlers);
    Ok(may || (ExternalKind in handlers && d.rows[i].kind == ExternalKind && s.kind != User))
  }

  /** Service.mayAccess, challenge by challenge. */
  method CheckAccess(s: Subject, d: Decision, handlers: set<Kind>) returns (may: Result<bool>)
    ensures may == MayAccess(s, d, handlers)
  {
    if CallerId(s) == d.context.caller { return Ok(true); }
    for i := 0 to |d.rows|
      invariant NamedFrom(s, d, handlers, i) == NamedFrom(s, d, handlers, 0)
    {
      if d.rows[i].kind in handlers {
        var named := TargetOf(d.rows[i], d.context, s);
        if named != Ok(false) { return named; }
      }
    }
    may := Ok(false);
  }

  /** A challenge this build can handle gives this answer. */
  ghost predicate Says(s: Subject, d: Decision, handlers: set<Kind>, i: nat, r: Result<bool>) {
    i < |d.rows| && d.rows[i].kind in handlers && TargetOf(d.rows[i], d.context, s) == r
  }

  ghost predicate AllSay(s: Subject, d: Decision, handlers: set<Kind>, from: nat, to: nat) {
    forall k: nat :: from <= k < to && k < |d.rows| && d.rows[k].kind in handlers ==> TargetOf(d.rows[k], d.context, s) == Ok(false)
  }

  lemma {:induction false} NamedExactly(s: Subject, d: Decision, handlers: set<Kind>, i: nat, r: Result<bool>)
    requires i <= |d.rows| && r != Ok(false)
    ensures NamedFrom(s, d, handlers, i) == Ok(false) <==> AllSay(s, d, handlers, i, |d.rows|)
    ensures NamedFrom(s, d, handlers, i) == r <==> exists k: nat :: i <= k && Says(s, d, handlers, k, r) && AllSay(s, d, handlers, i, k)
    decreases |d.rows| - i
  {
    if i < |d.rows| {
      NamedExactly(s, d, handlers, i + 1, r);
      var here := if d.rows[i].kind in handlers then TargetOf(d.rows[i], d.context, s) else Ok(false);
      if here == Ok(false) {
        forall k: nat | i < k ensures AllSay(s, d, handlers, i, k) <==> AllSay(s, d, handlers, i + 1, k) {}
      } else {
        assert Says(s, d, handlers, i, here) && AllSay(s, d, handlers, i, i);
        forall k: nat | i < k ensures !AllSay(s, d, handlers, i, k) {}
      }
    }
  }

  /** Access is granted exactly to the creator and to whoever a challenge names, where
      every challenge before it can be read; refused exactly to those whom every
      challenge can be read not to name; and otherwise fails. */
  lemma AccessExactly(s: Subject, d: Decision, handlers: set<Kind>)
    ensures MayAccess(s, d, handlers) == Ok(true) <==>
            CallerId(s) == d.context.caller || exists k: nat :: Says(s, d, handlers, k, Ok(true)) && AllSay(s, d, handlers, 0, k)
    ensures MayAccess(s, d, handlers) == Ok(false) <==> CallerId(s) != d.context.caller && AllSay(s, d, handlers, 0, |d.rows|)
    ensures MayAccess(s, d, handlers).Err? ==> MayAccess(s, d, handlers) == Err(InvalidPayload)
  {
    NamedExactly(s, d, handlers, 0, Ok(true));
  }

  // ---- the two operations, up to their answers ----

  datatype Store = Store(decisions: map<string, Decision>, dep: Deployment, handlers: set<Kind>)

  function SubmitTo(st: Store, id: string, i: nat, s: Subject, p: Payload, now: Instant): Result<Decision> {
    if id !in st.decisions then Err(NotFound)
    else
      var d := st.decisions[id];
      if i >= |d.rows| then Err(NoSuchChallenge)
      else
        var may :- MayActOn(s, d, i, st.handlers);
        if !may then Err(NotAuthorized)
        else
          var _ :- StillCollecting(d, i, now);
          if d.rows[i].kind !in st.handlers then Err(NoHandler) else Submit(d, i, st.dep, s, p, now, false)
  }

  /** What an approver is shown. */
  datatype Review = Review(state: Progress, have: nat, need: int, terms: ApproverTerms, hash: Option<Digest>, context: Context)

  function ReviewOf(st: Store, id: string, i: nat, s: Subject, now: Instant): Result<Review> {
    if id !in st.decisions then Err(NotFound)
    else
      var d := st.decisions[id];
      if i >= |d.rows| || d.rows[i].kind != QuorumKind then Err(NotFound)
      else
        var named :- TargetOf(d.rows[i], d.context, s);
        var q := d.rows[i].detail;
        if !named then Err(NotTarget)
        else if IsExpired(d, now) then Err(DecisionExpired)
        else Ok(Review(d.rows[i].state, Have(d, i), q.threshold, q.terms, q.hash, d.context))
  }

  // ---- the answer on the wire ----

  datatype Reply<T> = Reply(status: int, code: string, message: string) | Success(value: T)

  /** approvalError. The two payload refusals quote the error; its text is a function
      of the fault here. */
  function ApprovalError<T>(f: Fault): Reply<T> {
    match f
    case Unauthenticated => Reply(401, "unauthenticated", "this endpoint requires an end-user credential")
    case NotTarget => Reply(404, "not_found", "no such decision or challenge")
    case NotAuthorized => Reply(404, "not_found", "no such decision or challenge")
    case NoSuchChallenge => Reply(404, "not_found", "no such decision or challenge")
    case NotFound => Reply(404, "not_found", "no such decision or challenge")
    case DecisionExpired => Reply(409, "expired", "this decision has expired")
    case NotPending => Reply(409, "not_collecting", "this challenge is not collecting submissions")
    case NotSubmittable => Reply(409, "not_collecting", "this challenge is not collecting submissions")
    case BindingChanged => Reply(409, "material_changed", "the decision changed since it was shown to you; review it again")
    case VerdictUnsupported => Reply(400, "unsupported_verdict", "")
    case InvalidPayload => Reply(400, "invalid_submission", "")
    case GroupSourceUnsupported => Reply(501, "unsupported_challenge", "this build cannot collect submissions for that challenge")
    case UnsupportedSpec => Reply(501, "unsupported_challenge", "this build cannot collect submissions for that challenge")
    case NoHandler => Reply(501, "unsupported_challenge", "this build cannot collect submissions for that challenge")
    case _ => Reply(500, "internal_error", "the submission could not be processed")
  }

  function Answered<T>(r: Result<T>): Reply<T> {
    if r.Ok? then Success(r.value) else ApprovalError(r.fault)
  }

  // ---- non-interference ----

  /** An end user with nothing to do with a decision whose every challenge can be read, or
      asking after one that is not there. */
  ghost predicate Stranger(st: Store, id: string, s: Subject) {
    s.kind == User && (id in st.decisions ==> MayAccess(s, st.decisions[id], st.handlers) == Ok(false))
  }

  /** Standing is a matter of the creator and of the terms challenges carry: states,
      timers, votes, expiry and version do not enter into it. */
  lemma StandingIsByTerms(s: Subject, d: Decision, e: Decision, handlers: set<Kind>)
    requires SameTargets(d, e)
    ensures MayAccess(s, d, handlers) == MayAccess(s, e, handlers)
  {
    NamedByTerms(s, d, e, handlers, 0);
  }

  lemma {:induction false} NamedByTerms(s: Subject, d: Decision, e: Decision, handlers: set<Kind>, i: nat)
    requires SameTargets(d, e) && i <= |d.rows|
    ensures NamedFrom(s, d, handlers, i) == NamedFrom(s, e, handlers, i)
    decreases |d.rows| - i
  {
    if i < |d.rows| {
      assert d.rows[i].kind == e.rows[i].kind && NamesAlike(d.rows[i].detail, e.rows[i].detail);
      assert TargetOf(d.rows[i], d.context, s) == TargetOf(e.rows[i], e.context, s);
      NamedByTerms(s, d, e, handlers, i + 1);
    }
  }

  ghost predicate NamesAlike(a: Detail, b: Detail) {
    && DetailKind(a) == DetailKind(b)
    && (a.QuorumDetail? ==> a.terms == b.terms) && (a.DelayDetail? ==> a.cancellableBy == b.cancellableBy)
    && (a.ExternalDetail? ==> a.failure == b.failure)
  }

  ghost predicate SameTargets(d: Decision, e: Decision) {
    && d.context.caller == e.context.caller && d.context.subject == e.context.subject && |d.rows| == |e.rows|
    && forall i :: 0 <= i < |d.rows| ==> d.rows[i].kind == e.rows[i].kind && NamesAlike(d.rows[i].detail, e.rows[i].detail)
  }

  lemma TargetsChain(a: Decision, b: Decision, c: Decision)
    requires SameTargets(a, b) && SameTargets(b, c)
    ensures SameTargets(a, c)
  {
  }

  /** What an operation under way still has to write names the same people. */
  ghost predicate JobAlike(d: Decision, j: Job) {
    && SameTargets(d, j.copy)
    && (j.phase.Marking? && j.phase.i < |d.rows| ==> NamesAlike(d.rows[j.phase.i].detail, j.phase.detail))
  }

  /** No operation under way on the decision read it before its terms last changed. */
  ghost predicate JobsAlike(w: World, id: string) {
    id in w.decisions && forall n :: n in w.jobs && w.jobs[n].id == id ==> JobAlike(w.decisions[id], w.jobs[n])
  }

  lemma WrittenKeepsTargets(d: Decision, e: Decision, j: Job)
    requires JobAlike(d, j) && SameTargets(d, e)
    ensures SameTargets(d, Written(e, j))
  {
    match j.phase
    case Marking(i, _, detail, _) => if i < |e.rows| { assert NamesAlike(d.rows[i].detail, detail); }
    case Storing(k, _, _, _, _) => if k < |e.rows| { assert NamesAlike(d.rows[k].detail, j.copy.rows[k].detail); }
    case _ =>
  }

  lemma NextIsAlike(d: Decision, j: Job)
    requires JobAlike(d, j)
    ensures JobAlike(d, NextJob(d, j))
  {
    WrittenKeepsTargets(d, j.copy, j);
  }

  lemma AcceptedIsAlike(d: Decision, i: nat, dep: Deployment, s: Subject, p: Payload, now: Instant, stamp: nat)
    requires Accepted(d, i, dep, s, p, now).Ok?
    ensures JobAlike(d, Job(d.context.id, now, d, stamp, Accepted(d, i, dep, s, p, now).value))
  {
  }

  /** Every event but a revision of it moves nobody in or out of a decision. */
  lemma StepKeepsTargets(w: World, ev: Event, id: string)
    requires JobsAlike(w, id) && !(ev.Revises? && id in ev.ids)
    ensures id in Step(w, ev).decisions && SameTargets(w.decisions[id], Step(w, ev).decisions[id])
  {
    StepMakes(w, ev, id);
    if WorksOn(w, ev, id) { WrittenKeepsTargets(w.decisions[id], w.decisions[id], w.jobs[ev.n]); }
  }

  lemma JobStaysAlike(w: World, ev: Event, id: string, n: nat, j: Job)
    requires Tracked(w) && JobsAlike(w, id) && Starts(w, ev, n, j) && j.id == id
    ensures JobAlike(w.decisions[id], j)
  {
    if n in w.jobs && j == w.jobs[n] {
    } else if Continues(w, ev, n, j) {
      NextIsAlike(w.decisions[id], w.jobs[n]);
    } else {
      FreshCopies(w, ev, n, j);
      if Begun(w, ev, n, j) { AcceptedIsAlike(w.decisions[id], ev.ordinal, ev.dep, ev.caller, ev.payload, ev.now, Stamp(w, id)); }
    }
  }

  lemma AlikeByTargets(d: Decision, e: Decision, j: Job)
    requires SameTargets(d, e) && JobAlike(d, j)
    ensures JobAlike(e, j)
  {
    TargetsChain(e, d, j.copy);
    if j.phase.Marking? && j.phase.i < |d.rows| { assert NamesAlike(d.rows[j.phase.i].detail, e.rows[j.phase.i].detail); }
  }

  lemma StepStaysAlike(w: World, ev: Event, id: string)
    requires Tracked(w) && JobsAlike(w, id) && !(ev.Revises? && id in ev.ids)
    ensures JobsAlike(Step(w, ev), id)
  {
    StepKeepsTargets(w, ev, id);
    var v := Step(w, ev);
    forall n | n in v.jobs && v.jobs[n].id == id ensures JobAlike(v.decisions[id], v.jobs[n]) {
      StepStarts(w, ev, n);
      JobStaysAlike(w, ev, id, n, v.jobs[n]);
      AlikeByTargets(w.decisions[id], v.decisions[id], v.jobs[n]);
    }
  }

  ghost predicate Unrevised(events: seq<Event>, id: string) {
    forall i :: 0 <= i < |events| && events[i].Revises? ==> id !in events[i].ids
  }

  lemma {:induction false} RunKeepsTargets(w: World, events: seq<Event>, id: string)
    requires Tracked(w) && JobsAlike(w, id) && Unrevised(events, id)
    ensures JobsAlike(Run(w, events), id) && SameTargets(w.decisions[id], Run(w, events).decisions[id])
    decreases |events|
  {
    if events != [] {
      var n := |events| - 1;
      var v := Run(w, events[..n]);
      RunKeepsTargets(w, events[..n], id);
      RunTracks(w, events[..n]);
      StepKeepsTargets(v, events[n], id);
      StepStaysAlike(v, events[n], id);
      TargetsChain(w.decisions[id], v.decisions[id], Step(v, events[n]).decisions[id]);
    }
  }

  /** A stranger's submission gets one answer, the same bytes, in any two stores at
      any two instants whatever the payload, whether or not the identifier names a
      decision and whatever state, timers and votes it has. */
  lemma StrangersSubmitInVain(a: Store, b: Store, id: string, other: string, i: nat, j: nat, s: Subject, p: Payload, q: Payload, now: Instant, later: Instant)
    requires Stranger(a, id, s) && Stranger(b, other, s)
    ensures Answered(SubmitTo(a, id, i, s, p, now)) == Answered(SubmitTo(b, other, j, s, q, later)) == Reply(404, "not_found", "no such decision or challenge")
  {
  }

  /** The review screen names the approvers of one quorum; a stranger to the decision
      is a stranger to it too. */
  lemma StrangersReviewInVain(a: Store, b: Store, id: string, other: string, i: nat, j: nat, s: Subject, now: Instant, later: Instant)
    requires Stranger(a, id, s) && Stranger(b, other, s) && QuorumKind in a.handlers && QuorumKind in b.handlers
    ensures Answered(ReviewOf(a, id, i, s, now)) == Answered(ReviewOf(b, other, j, s, later)) == Reply(404, "not_found", "no such decision or challenge")
  {
    NoReview(a, id, i, s, now);
    NoReview(b, other, j, s, later);
  }

  lemma NoReview(st: Store, id: string, i: nat, s: Subject, now: Instant)
    requires Stranger(st, id, s) && QuorumKind in st.handlers
    ensures ReviewOf(st, id, i, s, now).Err? && ReviewOf(st, id, i, s, now).fault in {NotFound, NotTarget}
  {
    if id in st.decisions {
      AccessExactly(s, st.decisions[id], st.handlers);
    }
  }

  /** So whatever befalls a decision between two revisions, however its writers
      interleave, an end user without standing at the start is answered the same at the
      start and at the end, whatever they submit or ask to review and whenever. */
  lemma StrangersSeeNothingHappen(w: World, events: seq<Event>, id: string, dep: Deployment, handlers: set<Kind>, s: Subject,
                                  i: nat, p: Payload, now: Instant, j: nat, q: Payload, later: Instant)
    requires Tracked(w) && JobsAlike(w, id) && Unrevised(events, id) && QuorumKind in handlers
    requires Stranger(Store(w.decisions, dep, handlers), id, s)
    ensures var a, b := Store(w.decisions, dep, handlers), Store(Run(w, events).decisions, dep, handlers);
            && Answered(SubmitTo(a, id, i, s, p, now)) == Answered(SubmitTo(b, id, j, s, q, later)) == Reply(404, "not_found", "no such decision or challenge")
            && Answered(ReviewOf(a, id, i, s, now)) == Answered(ReviewOf(b, id, j, s, later)) == Reply(404, "not_found", "no such decision or challenge")
  {
    RunKeepsTargets(w, events, id);
    StandingIsByTerms(s, w.decisions[id], Run(w, events).decisions[id], handlers);
    var a, b := Store(w.decisions, dep, handlers), Store(Run(w, events).decisions, dep, handlers);
    StrangersSubmitInVain(a, b, id, id, i, j, s, p, q, now, later);
    StrangersReviewInVain(a, b, id, id, i, j, s, now, later);
  }

  /** The partner: an end user who is told anything but that one answer has standing, or
      asked after a decision with a challenge that cannot be read. */
  lemma AnswersTellStanding(st: Store, id: string, i: nat, s: Subject, p: Payload, now: Instant)
    requires s.kind == User && Answered(SubmitTo(st, id, i, s, p, now)) != Reply(404, "not_found", "no such decision or challenge")
    ensures id in st.decisions && MayAccess(s, st.decisions[id], st.handlers) != Ok(false)
  {
  }

  /** An end user who is neither the creator nor named by any challenge that can be read is
      answered as of a decision that never was exactly when every challenge can be read;
      a late write of another kind's detail lets them tell the two apart. */
  lemma UnnamedAreAnsweredExactly(st: Store, id: string, i: nat, s: Subject, p: Payload, now: Instant)
    requires s.kind == User && id in st.decisions && i < |st.decisions[id].rows| && CallerId(s) != st.decisions[id].context.caller
    requires forall k: nat :: !Says(s, st.decisions[id], st.handlers, k, Ok(true))
    ensures Answered(SubmitTo(st, id, i, s, p, now)) ==
            if forall k: nat :: !Says(s, st.decisions[id], st.handlers, k, Err(InvalidPayload))
            then Reply(404, "not_found", "no such decision or challenge") else Reply(400, "invalid_submission", "")
  {
    var d := st.decisions[id];
    AccessExactly(s, d, st.handlers);
    assert AllSay(s, d, st.handlers, 0, |d.rows|) <==> forall k: nat :: !Says(s, d, st.handlers, k, Err(InvalidPayload)) by {
      forall k: nat | k < |d.rows| && d.rows[k].kind in st.handlers ensures Says(s, d, st.handlers, k, TargetOf(d.rows[k], d.context, s)) {}
    }
  }

  /** And standing is enough to be told that one is late. */
  lemma LateIsSaidToTargets(st: Store, id: string, i: nat, s: Subject, p: Payload, now: Instant)
    requires id in st.decisions && i < |st.decisions[id].rows| && MayAccess(s, st.decisions[id], st.handlers) == Ok(true) && IsExpired(st.decisions[id], now)
    ensures Answered(SubmitTo(st, id, i, s, p, now)) == Reply(409, "expired", "this decision has expired")
  {
  }

  /** So on a decision that is over, an end user is told that it is exactly when they have
      standing, and is otherwise told what they would be of one that never was, unless
      there is a challenge that cannot be read. */
  lemma LatenessTellsStanding(st: Store, id: string, i: nat, s: Subject, p: Payload, now: Instant)
    requires s.kind == User && id in st.decisions && i < |st.decisions[id].rows| && IsExpired(st.decisions[id], now)
    ensures Answered(SubmitTo(st, id, i, s, p, now)) ==
            match MayAccess(s, st.decisions[id], st.handlers)
            case Ok(true) => Reply(409, "expired", "this decision has expired")
            case Ok(false) => Reply(404, "not_found", "no such decision or challenge")
            case Err(_) => Reply(400, "invalid_submission", "")
  {
    AccessExactly(s, st.decisions[id], st.handlers);
    if MayAccess(s, st.decisions[id], st.handlers) == Ok(true) {
      LateIsSaidToTargets(st, id, i, s, p, now);
    } else if MayAccess(s, st.decisions[id], st.handlers) == Ok(false) {
      StrangersSubmitInVain(st, st, id, id, i, i, s, p, p, now, now);
    }
  }
}
