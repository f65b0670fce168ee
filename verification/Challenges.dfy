/** The challenge handlers: what each kind freezes when it opens, what evidence it
    accepts, and where it stands at an instant. */
module Challenges {
  import opened Basics
  import opened Approvers
  import opened Policy

  datatype Progress = Pending | Satisfied | Failed | Cancelled

  // ---- the material an approval is bound to ----

  /** A decision's frozen identity and content: everything the binding hash covers
      about it, and none of its timestamps or its policy version. */
  datatype Context = Context(
    id: string, caller: string, subject: string, resource: string, action: string, policy: string,
    request: FrozenInput, facts: map<string, Json>, obligations: seq<Json>)

  /** The content as the decision row gives it back. */
  function StoredContext(c: Context): Context {
    c.(request := StoredInput(c.request), facts := StoredMap(c.facts), obligations := StoredAll(c.obligations))
  }

  /** Content the row gives back unchanged: no number in it is a negative zero. */
  ghost predicate Storable(c: Context) {
    StoredContext(c) == c
  }

  lemma StoredIsStorable(c: Context)
    ensures Storable(StoredContext(c))
  {
    StoredMapIsStored(c.request.subject.attributes);
    StoredMapIsStored(c.request.resource.attributes);
    StoredMapIsStored(c.request.context.attributes);
    StoredMapIsStored(c.facts);
    StoredAllIsStored(c.obligations);
  }

  /** SHA-256 idealized as injective: a digest is its material. */
  datatype Digest = Digest(context: Context, approvers: ApproverTerms)

  function BindingHash(c: Context, terms: ApproverTerms): Digest {
    Digest(c, Hashed(terms))
  }

  /** HMAC idealized as injective in the key and in the terminated field list. */
  datatype Signature = Signature(secret: string, id: string, ordinal: nat, nonce: string, verdict: string)

  // ---- details ----

  datatype Cancellation = Cancellation(caller: string, at: Instant)

  /** What a challenge persists on its row. Empty text means an unset field. */
  datatype Detail =
    | QuorumDetail(threshold: int, terms: ApproverTerms, hash: Option<Digest>)
    | DelayDetail(duration: int, releaseAt: Instant, cancellableBy: Option<ApproverTerms>, cancelled: Option<Cancellation>)
    | ExternalDetail(target: string, nonce: string, respondBy: Option<Instant>, failure: string, verdict: string)
    | MfaDetail(prompt: string, refusal: string, consumedAt: Option<Instant>)

  function DetailKind(d: Detail): Kind {
    match d
    case QuorumDetail(_, _, _) => QuorumKind
    case DelayDetail(_, _, _, _) => DelayKind
    case ExternalDetail(_, _, _, _, _) => ExternalKind
    case MfaDetail(_, _, _) => MfaKind
  }

  const APPROVED := "approved"
  const DENIED := "denied"
  const RETARGETED := "retargeted"
  const RATE_LIMITED := "rate_limited"

  // ---- deployment, and the outcomes of calls that leave the process ----

  datatype Target = Target(secret: string, respondWithin: int)

  datatype Deployment = Deployment(dir: Directory, targets: map<string, Target>)

  /** What one issuance drew from outside: a correlator, whether the issue budget
      had room, how the outbound leg ended ("" is acknowledged), and the prompt an
      mfa handler opened. */
  datatype Draw = Draw(nonce: string, budget: bool, outbound: string, prompt: Result<string>)

  // ---- issue ----

  datatype Issued = Issued(state: Progress, detail: Detail, deadline: Option<Instant>, shed: bool)

  function Issue(spec: Spec, c: Context, dep: Deployment, draw: Draw, now: Instant): (r: Result<Issued>)
    ensures r.Ok? ==> DetailKind(r.value.detail) == KindOf(spec)
    ensures r.Ok? && (spec.QuorumSpec? || spec.MfaSpec?) ==> r.value.deadline.None?
    ensures r.Ok? && spec.QuorumSpec? ==>
              && r.value.detail.threshold == spec.threshold >= 1
              && Hashed(r.value.detail.terms) == r.value.detail.terms
              && r.value.detail.hash == Some(BindingHash(c, r.value.detail.terms))
    ensures r.Ok? && spec.DelaySpec? ==>
              && r.value.deadline == Some(r.value.detail.releaseAt)
              && r.value.detail.releaseAt - r.value.detail.duration == now
              && r.value.detail.cancelled.None?
    ensures r.Ok? && spec.ExternalSpec? ==>
              r.value.detail.verdict == "" && (r.value.state == Failed <==> r.value.detail.failure != "")
    ensures r.Ok? && spec.MfaSpec? ==> r.value.detail.consumedAt.None?
    ensures r.Ok? && r.value.shed ==> r.value.state == Failed
    ensures r.Ok? ==> r.value.state == Pending || r.value.state == Failed
  {
    match spec
    case QuorumSpec(threshold, approvers) =>
      var terms :- ResolveQuorum(dep.dir, threshold, approvers);
      Ok(Issued(Pending, QuorumDetail(threshold, terms, Some(BindingHash(c, terms))), None, false))
    case DelaySpec(duration, cancellableBy) =>
      if duration <= 0 then Err(UnsupportedSpec)
      else if cancellableBy.None? then
        Ok(Issued(Pending, DelayDetail(duration, now + duration, None, None), Some(now + duration), false))
      else
        var authority :- ResolveAuthority(dep.dir, cancellableBy.value);
        Ok(Issued(Pending, DelayDetail(duration, now + duration, Some(authority), None), Some(now + duration), false))
    case ExternalSpec(target) =>
      var name := TrimSpace(target);
      if name !in dep.targets then Err(UnsupportedSpec)
      else
        var within := dep.targets[name].respondWithin;
        var answerBy := if within > 0 then Some(now + within) else None;
        if TrimSpace(c.subject) != "" && !draw.budget then
          Ok(Issued(Failed, ExternalDetail(name, draw.nonce, answerBy, RATE_LIMITED, ""), None, true))
        else if draw.outbound != "" then
          Ok(Issued(Failed, ExternalDetail(name, draw.nonce, answerBy, draw.outbound, ""), None, false))
        else Ok(Issued(Pending, ExternalDetail(name, draw.nonce, answerBy, "", ""), answerBy, false))
    case MfaSpec(_) =>
      var prompt :- draw.prompt;
      if draw.budget then Ok(Issued(Pending, MfaDetail(prompt, "", None), None, false))
      else Ok(Issued(Failed, MfaDetail(prompt, RATE_LIMITED, None), None, true))
  }

  // ---- status ----

  predicate Passed(deadline: Option<Instant>, now: Instant) {
    deadline.Some? && deadline.value <= now
  }

  /** Where a challenge stands. A stored terminal state is never walked back; an
      elapsed timer is met for a delay and missed for every other kind. */
  function Status(d: Detail, stored: Progress, deadline: Option<Instant>, have: nat, now: Instant): (r: Progress)
    ensures stored != Pending ==> r == stored
  {
    if stored != Pending then stored
    else match d
      case QuorumDetail(threshold, _, _) =>
        if have >= threshold then Satisfied else if Passed(deadline, now) then Failed else Pending
      case DelayDetail(_, releaseAt, _, cancelled) =>
        if cancelled.Some? then Failed else if releaseAt <= now then Satisfied else Pending
      case ExternalDetail(_, _, respondBy, failure, verdict) =>
        if failure != "" then Failed
        else if verdict != "" then ExternalState(verdict)
        else if Passed(if respondBy.Some? then respondBy else deadline, now) then Failed
        else Pending
      case MfaDetail(_, refusal, consumedAt) =>
        if refusal != "" then Failed
        else if consumedAt.Some? then Satisfied
        else if Passed(deadline, now) then Failed
        else Pending
  }

  function ExternalState(verdict: string): Progress {
    if verdict == APPROVED then Satisfied else Failed
  }

  // ---- submissions ----

  /** A submission body as the handlers decode it. */
  datatype Payload =
    | Approval(echo: Option<Digest>)
    | Rejection
    | CancelWait
    | Callback(nonce: string, verdict: string, signature: Signature)
    | StepUp(verified: bool)
    | Unreadable

  /** Quorum.Submit up to the approval row: who approves, and against which hash. */
  function Approve(d: Detail, c: Context, s: Subject, p: Payload): (r: Result<(string, Digest)>)
    requires d.QuorumDetail?
    ensures r.Ok? <==> p.Approval? && IsTarget(d.terms, s) && d.hash == Some(BindingHash(c, d.terms)) && (p.echo.Some? ==> p.echo == d.hash)
    ensures r.Ok? ==> r.value.0 == s.id && d.hash == Some(r.value.1)
  {
    if p == Rejection then Err(VerdictUnsupported)
    else if !p.Approval? then Err(InvalidPayload)
    else if !IsTarget(d.terms, s) then Err(NotTarget)
    else
      var sum := BindingHash(c, d.terms);
      if d.hash != Some(sum) || (p.echo.Some? && p.echo.value != sum) then Err(BindingChanged)
      else Ok((s.id, sum))
  }

  /** Delay.Submit: a cancellation by somebody who holds the authority. */
  function CancelDelay(d: Detail, s: Subject, p: Payload, now: Instant): (r: Result<Detail>)
    requires d.DelayDetail?
    ensures r.Ok? ==> r.value == d.(cancelled := Some(Cancellation(CallerId(s), now)))
    ensures r.Ok? <==> d.cancellableBy.Some? && p.CancelWait? && IsTarget(d.cancellableBy.value, s)
  {
    if d.cancellableBy.None? then Err(NotSubmittable)
    else if !p.CancelWait? then Err(InvalidPayload)
    else if !IsTarget(d.cancellableBy.value, s) then Err(NotTarget)
    else Ok(d.(cancelled := Some(Cancellation(CallerId(s), now))))
  }

  /** External.Submit: the correlator and the signature stand in for a credential. */
  function AcceptCallback(d: Detail, id: string, ordinal: nat, dep: Deployment, p: Payload): (r: Result<Detail>)
    requires d.ExternalDetail?
    ensures r.Ok? <==>
              && d.target in dep.targets && p.Callback? && p.nonce == d.nonce != "" && p.verdict in {APPROVED, DENIED}
              && p.signature == Signature(dep.targets[d.target].secret, id, ordinal, d.nonce, p.verdict)
    ensures r.Ok? ==> r.value == d.(verdict := p.verdict)
  {
    if d.target !in dep.targets then Err(UnsupportedSpec)
    else if !p.Callback? || p.nonce == "" || p.verdict !in {APPROVED, DENIED} then Err(InvalidPayload)
    else if p.nonce != d.nonce then Err(NotTarget)
    else if p.signature != Signature(dep.targets[d.target].secret, id, ordinal, d.nonce, p.verdict) then Err(NotTarget)
    else Ok(d.(verdict := p.verdict))
  }

  /** Delegated.Submit, with its checks of the completion reduced to one verdict. */
  function CompleteMfa(d: Detail, p: Payload, now: Instant): (r: Result<Detail>)
    requires d.MfaDetail?
    ensures r.Ok? <==> p == StepUp(true) && d.refusal == "" && d.consumedAt.None?
    ensures r.Ok? ==> r.value == d.(consumedAt := Some(now))
  {
    if d.refusal != "" then Err(NotSubmittable)
    else if !p.StepUp? then Err(InvalidPayload)
    else if !p.verified || d.consumedAt.Some? then Err(NotTarget)
    else Ok(d.(consumedAt := Some(now)))
  }
}
