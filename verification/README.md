# STAMP: a verified model of the decision lifecycle

STAMP is a stateful authorization engine. A request that a policy gates behind
challenges becomes a *decision*: a row with a list of challenge rows (quorum,
delay, external, mfa) that collects evidence, is settled by submissions and by
sweepers, expires, and is re-judged by every policy revision that lands while it
is still open. This project models that life and proves what holds over all of it,
together with four components it leans on: the policy evaluation and its frozen
facts, the audit buffer, the fact cache with its key encoding, and the guard in
front of an issuer's key set.

| module | what it models |
|---|---|
| `Basics`, `Text` | results and faults; rendering numbers and strings so that they split back |
| `Approvers`, `Policy` | approver sets and their normal form; types, conditions, policies, requests |
| `CallKeys`, `Engine`, `Evaluation` | naming a fact call; conditions over a fact table; one evaluation behind check and decide |
| `Freezing`, `FrozenFacts`, `Replay`, `AskedAgain` | what a jsonb column keeps; answering from a frozen snapshot; re-judging a decision; two requests it fetches for |
| `Challenges`, `Decisions`, `Revision` | the four handlers; rows, settle pass, creation, submission; what a revision does to them |
| `Soundness`, `Settling` | the invariant of a decision; stopped passes |
| `Runs` | whole runs of the store, one transaction at a time, and what holds however they interleave |
| `Always`, `Witnesses`, `Allows` | what every run keeps of rows and copies; the event behind every piece of evidence; who allows a decision, and on what |
| `Binding`, `Kinds`, `Undisturbed` | exactly when approvals stay bound; exactly when rows hold details of their own kinds; a decision nobody writes over, and exactly when a resolved one stands |
| `Alone`, `Delays` | an operation run without interruption; the life of a wait |
| `Cases`, `Overlaps` | runs in which something one might expect fails |
| `Sweeping`, `Service` | stale claims and the due set; the operations write by write on a mutable store |
| `Standing`, `Idempotency` | who is told anything; Decide attempts interleaved under a key |
| `Audit`, `CacheKeys`, `FactCache`, `KeyGuard` | the audit buffer; the cache key; the TTL cache; the token bucket and negative cache |

Pure code is functions and lemmas. Code that works by writes is a class whose methods
are proved equal to those functions: `Service.DecisionStore`, `FrozenFacts.FrozenPlane`,
`Audit.AuditBuffer`, `FactCache.Cache`, `KeyGuard.Guard`, and the loops of
`Evaluation` and `Standing`.

## What the model takes for granted

- Resolution is a conditional update on an open row, (caller, key) is unique among
  keyed rows, (decision, ordinal, approver) is unique among approvals, and deleting a
  challenge row deletes its approvals (internal/store/decisions.go:557-607,
  internal/store/migrations/000002_decisions.up.sql,
  internal/store/migrations/000009_decision_idempotency_index.up.sql).
- A run interleaves single transactions. A submission and a pass each read a copy and
  then write it back one transaction at a time, whatever others did in between, and may
  stop after any of them; a sweep acts on a claim taken earlier; a Decide attempt is
  split into its steps. Three things are one step: the read of a decision with its rows,
  the opening of a decision, and a revision, which holds every row it touches locked.
- A result holds of every run, however it interleaves, unless its row names a condition.
  Each condition is on one decision only, and on what an event finds when it comes to it:
  a decision is *in terms* (`Binding.AllInTerms`) when every vote for it, and everything
  written over a quorum row of it, was read from a quorum of the hash it finds there, and
  content hashed for it holds no negative zero; it is *in kind* (`Kinds.AllInKind`) when
  every row written late is of the kind it was read under; its *counts* are in terms
  (`Allows.CountsInTerms`) when votes are counted at a row carrying the hash they are
  counted for; it is *undisturbed* (`Undisturbed.AllOrderly`) when every write finds it as
  the operation read it.
- SHA-256 and HMAC (section 2 of RFC 2104) are injective, as datatype constructors. The
  formatting of doubles and instants is a parameter with the properties named in
  `CallKeys.Faithful`, which `CallKeys.FaithfulIsPossible` shows can be met.
- The clock, random nonces, group directories, the outbound webhook, the identity
  provider's checks of an mfa completion and the issue budgets are parameters. A
  revision in a run is any function from a decision's frozen context to a judgment;
  `Replay.Judge` is the one the code computes.
- Time is whole nanoseconds, and a stored timestamp is cut to a microsecond as the
  store does.

## Where the code and its documentation differ

- A delay is documented to report satisfied and never failed when its timer runs out
  (internal/challenge/delay.go:331-341, internal/challenge/delay_test.go:132-135). The timer column is cut to a
  microsecond and the release in the detail is not, so a pass inside the last
  microsecond finds the timer due and the release not reached, and fails the wait.
  `Delays.TimerFailsExactly` and `Delays.NeverFailsByTimerExactly` give the exact
  condition, `Cases.AWaitTheTimerFails` a run, and `Delays.FailsOnlyByCancellation`
  says exactly when the property is as promised where durations and openings are whole
  microseconds.
- Decide stretches a decision's lifetime to its longest timer so that a long delay can be
  met (internal/decision/service.go:559-566). It is stretched to the timer and not past
  it, and an expired decision is not settled, so a wait can be met exactly when its
  release lies before the expiry (`Delays.CanBeMetExactly`,
  `Delays.SoleWaitCanBeMetExactly`). An hour's delay under the default lifetime of
  fifteen minutes can never be met (`Cases.AWaitNobodyCanMeet`).
- A revision is documented to make an approval submitted while it lands wait, rather than
  count against terms about to change (internal/decision/revalidate.go:1068-1073). The
  rows it locks are locked against writers only: a submission that has already read goes
  on to write the vote and the row it read. `Cases.AVoteAcrossARevision` is a run in which
  that vote stands under a hash the row does not carry, the revised row is then
  overwritten, and the decision is allowed on terms that had been replaced.
  `Binding.ApprovalsStayBound` gives the exact condition over whole runs, and
  `Soundness.LateVoteIsBound` and `Soundness.LateMarkIsBound` of one late write. The
  condition on writes is not enough for the count: `Overlaps.AnAllowWithoutVotes` is a run
  that meets it and ends allowed with no vote at all, the votes having been counted
  between two revisions.
- Terminal states are absorbing, and no more than the state is
  (`Runs.LeavesOpenOnce`): rows and approvals of a resolved decision can still be written
  (`Cases.AVoteAfterTheEnd`), a cancellation can land between the count and the resolution
  of a pass (`Cases.AnAllowOverACancellation`), a recorded cancellation can be written
  over by a pass that read before it (`Cases.ACancellationUndone`), and of two voters at
  once the slower can leave an allowed decision with its quorum row pending
  (`Overlaps.TwoVotesAtOnce`). `Undisturbed.ResolvedStandsExactly` and
  `Delays.AWaitStaysExactly` say exactly when none of this happens to a decision.
- A decision is documented to be allowed when its challenges are all satisfied
  (internal/decision/lifecycle.go:110-111). What a pass counts is a stored state:
  a row's kind is a column that no write of its state and detail looks at
  (internal/store/decisions.go:479-512), and a stored terminal row is counted without
  asking its handler (internal/decision/service.go:950-957). A submission or pass that read
  before a revision changed the list of challenges still writes, and its write lands on a
  challenge of another kind. `Overlaps.AnAllowNobodySteppedUpFor` is a run that ends allowed
  on a step-up nobody completed. Each satisfied row behind an allow holds a detail that was
  earned (`Allows.EveryAllowIsEarned`), and holds it for a challenge of that kind where the
  decision is in kind; `Kinds.KindsAgreeExactly` gives that condition for every run. The
  same writes can take a quorum's hash (`Binding.ApprovalsStayBound`), fail a wait nobody
  cancelled (`Delays.FailsOnlyByCancellation`) and leave a pending row no handler can read.
  Such a row keeps every pass from resolving its decision and every revision to the same
  list from applying (`Kinds.StuckStaysStuck`), ends a sweep in an error
  (`Service.DecisionStore.SweepOnce`), and lets a stranger tell its decision from none
  (`Standing.UnnamedAreAnsweredExactly`).
- Re-evaluating a decision is documented not to fetch what it holds. Replaying the same
  policy set asks for exactly the calls of the restored request that were not collected
  and answered the first time (`Replay.ReplayAsksExactly`). A call whose error another
  operand absorbed was never frozen (`AskedAgain.AnAbsorbedErrorIsAskedAgain`), and a
  negative zero in a call's argument comes back from jsonb without its sign, under
  another name (`AskedAgain.ANegativeZeroIsAskedAgain`).
- The approval hash is issued over the content as it was evaluated and recomputed over the
  content as the row gives it back. The two differ when the content holds a negative zero,
  and then no approval is accepted until a revision rebinds the decision
  (`Soundness.CreateIsSoundExactly`, `Binding.UnstorableWaitsForARevision`,
  `Binding.RevisionTakesApprovalsExactly`).
- Frozen integers come back through a double: exactly the integers that are multiples of
  the spacing at their magnitude survive (`Freezing.IntegersThatSurvive`,
  `Freezing.AnIntegerThatDoesNot`).

## Model

| member | source | states |
|---|---|---|
| `Allows.EveryAllowIsEarned` | internal/decision/service.go:919-1005 | in every run, however it interleaves, a logged allow was written before expires_at by a pass or a revision whose every challenge was stored satisfied with a detail that events of the run earned: each quorum by at least threshold distinct votes in the store at one moment, each submitted by somebody who was then a target, claim mode included; each delay by a pass or revision whose clock had passed the release the stored row carried; each external by an approved callback with the issued nonce signed under the secret of the row's target in the deployment it came in to; each mfa by its accepted completion; where every late write before it was in kind, and always for a revision, each challenge is of the kind of that detail; and where nobody else wrote the decision between the pass's read and its resolution, the log row shows those rows |
| `Allows.EveryAllowIsInTerms` | internal/challenge/quorum.go:318-384 | where the decision and its counts are in terms, the votes behind each quorum of such an allow were all given under the hash that quorum carried |
| `Allows.CountIsInTermsExactly` | internal/challenge/quorum.go:397-418 | on a bound decision a count that reaches the threshold is of votes under the counted detail's own hash if and only if the row counted at carries that hash |
| `Binding.ApprovalsStayBound` | internal/challenge/quorum.go:699-758 | in every run, for each decision: after every event each row of quorum kind holds a quorum's detail with the hash recomputed from the stored decision and terms, every approval is at such a row and carries its hash and, in the list modes, names a current member, and only revisions change the terms in force, if and only if the decision is in terms |
| `Binding.ApprovalsAreBound` | internal/challenge/quorum.go:242-257 | what that says of the decision as it stands, written out |
| `Runs.LeavesOpenOnce` | internal/decision/service.go:1054-1067 | in every run, however copies go stale and transactions interleave, a decision has exactly one logged resolution if it left the open state and none otherwise, its log row agrees with its state and was written in time, and nothing that runs later changes its state, its expiry or the log before |
| `Runs.RunTracks` | internal/decision/service.go:389-1067 | every run keeps the unconditional invariant: scheduler columns right, one true log entry per resolved decision, claims and copies with the right expiry; the log only grows and no decision disappears |
| `Undisturbed.UndisturbedIsSound` | internal/decision/service.go:389-1067 | a decision undisturbed by late writes, whatever happens to others, is sound at every moment, and once resolved its one log row is the decision as it stands, an allow with every row satisfied and supported |
| `Undisturbed.ResolvedStandsExactly` | internal/store/decisions.go:557-607 | from any state, through any events, a resolved decision stays as it is in every stored column, rows of whatever kind and approvals included, if and only if each operation still writing to it finds the vote recorded, the row already in that state with that detail, or no such row |
| `Undisturbed.LateWriteStandsExactly` | internal/store/decisions.go:479-512 | one late transaction leaves a resolved decision as it was if and only if it was not needed |
| `Witnesses.EvidenceIsWitnessed` | internal/challenge/external.go:538-570 | in every run, however it interleaves, each vote, signature, completion and ended wait in the store and in every copy under way has the event that handed it in |
| `Undisturbed.RevaluateMoves` | internal/decision/revalidate.go:338-448 | a revision keeps the invariant and resolves an open, unexpired decision only on supported rows or to denied, where the content it writes comes back as written |
| `Always.EveryRunIsSteady` | internal/decision/service.go:389-1067 | in every run state, detail and evidence of each row agree in the store and in every copy, a pending row that holds another kind's detail holds a quorum's, each pass has counted its own copy, and a copy whose stamp is current is the stored decision |
| `Alone.PassAloneIsAdvance` | internal/decision/service.go:919-1005 | the reads and writes of a pass with nothing in between come to the settle pass, and to one log entry at most |
| `Alone.PassInRun` | internal/decision/service.go:919-1005 | in any world a pass begun and continued without interruption ends with the decisions and the log of the settle pass |
| `Alone.SubmissionAloneIsSubmit` | internal/decision/service.go:698-764 | the writes of a submission with nothing in between come to the accepted submission followed by a settle pass |
| `Cases.AVoteAcrossARevision` | internal/decision/revalidate.go:1068-1073 | a run in which a submission reads, a revision replaces the terms, and the submission's vote, row and pass allow the decision on the replaced terms |
| `Cases.AVoteAfterTheEnd` | internal/store/decisions.go:727-787 | a run in which an approval is recorded on a decision that has expired |
| `Cases.AnAllowOverACancellation` | internal/decision/service.go:935-1005 | a run that ends allowed with a failed, cancelled row |
| `Cases.ACancellationUndone` | internal/store/decisions.go:479-512 | a run in which a recorded cancellation is written over and the decision allowed |
| `Overlaps.TwoVotesAtOnce` | internal/decision/service.go:751-764 | a run of two overlapping votes on a quorum of two that ends allowed with the quorum row pending |
| `Overlaps.AnAllowWithoutVotes` | internal/challenge/quorum.go:318-384 | a run that is in terms, with a count between two revisions, that ends allowed with no approval |
| `Overlaps.AnAllowNobodySteppedUpFor` | internal/decision/service.go:950-957 | a run that is in terms and not in kind: a vote is counted, a revision asks for a step-up instead, the mark lands on it and the pass allows, with no completion in the run |
| `Kinds.KindsAgreeExactly` | internal/store/decisions.go:479-512 | in every run, for each decision: after every event every row holds a detail of its own kind if and only if every late row write finds a row of the kind it was read under |
| `Kinds.RevaluatedIsOwn` | internal/decision/revalidate.go:531-646 | a revision that keeps a decision asking leaves every row with a detail of its own kind, whatever it found |
| `Kinds.StuckStaysStuck` | internal/decision/service.go:958-962 | a pending row that holds another kind's detail takes no submission, survives every pass with its decision open, and makes every same-shape revision fail |
| `Binding.ReadApartIsReadWhole` | internal/decision/service.go:804-816 | a submission whose decision and rows were read on two sides of a revision is taken only as the rows' own decision would take it, and a vote only where both carry the same content |
| `Soundness.CreateIsSoundExactly` | internal/store/decisions.go:178-312 | a created decision satisfies the invariant (deadlines at most expires_at, hashes bound, scheduler column the earliest timer) if and only if its content comes back from its row unchanged or it has no quorum |
| `Binding.UnstorableWaitsForARevision` | internal/challenge/quorum.go:318-384 | a decision opened over content its row does not give back has no approval, and refuses every target's, through any events until a revision reaches it |
| `Binding.RevisionTakesApprovalsExactly` | internal/decision/revalidate.go:531-693 | after a revision, whatever was there before, a target's approval is accepted if and only if the content it wrote comes back from the row |
| `Soundness.SettleIsSound` | internal/decision/service.go:935-1005 | settling any set of rows keeps the invariant |
| `Soundness.AdvanceIsSound` | internal/decision/service.go:919-1005 | a pass keeps the invariant |
| `Soundness.SubmitIsSound` | internal/decision/service.go:698-764 | an accepted submission, stopped or not, keeps the invariant |
| `Soundness.RecordIsSound` | internal/store/decisions.go:727-787 | recording a vote by a member against the row's own hash keeps every approval bound |
| `Soundness.LateVoteIsBound` | internal/challenge/quorum.go:318-384 | a vote recorded against a hash read earlier keeps the invariant if and only if the row still carries that hash |
| `Soundness.LateMarkIsBound` | internal/decision/service.go:751-764 | a quorum row written late with the detail and count read earlier keeps the invariant if and only if the row still carries the hash that was read and the counted votes are still there |
| `Soundness.RebindIsSound` | internal/decision/revalidate.go:531-584 | rebinding a list of one shape under rewritten content keeps the invariant |
| `Soundness.RebindRowIsSound` | internal/decision/revalidate.go:654-940 | each kind's rebinding rule leaves a sound row with the votes that survive it |
| `Soundness.ReopenedRowsAreSound` | internal/decision/revalidate.go:617-646 | reopened rows are sound and do not outlive their decision |
| `Soundness.RevaluateIsSound` | internal/decision/revalidate.go:338-448 | a whole revision of one decision keeps the invariant |
| `Soundness.RevaluateIsFiled` | internal/decision/revalidate.go:531-646 | whatever was written over a row before, a revision leaves the scheduler column at the earliest pending timer |
| `Soundness.ApprovalsOnlyShrink` | internal/decision/revalidate.go:531-584 | a revision adds no approval and changes none it keeps |
| `Soundness.ReboundApproval` | internal/decision/revalidate.go:128-141 | an approval left after a revision is bound to the hash its row carries now |
| `Soundness.KeptTerms` | internal/decision/revalidate.go:654-693 | votes are kept only under the very terms and hash they were given under |
| `Soundness.RoundTripKeepsCorrelator` | internal/decision/revalidate.go:904-940 | a revision keeps an outstanding round trip's nonce, verdict and evidence, and fails it exactly when it is live and its target moved |
| `Decisions.Next` | internal/decision/lifecycle.go:155-166 | a transition is legal exactly from the open state and never leads back to it |
| `Decisions.NextDeadlineIsEarliest` | internal/store/decisions.go:534-553 | the scheduler column is due exactly when the decision is over or a pending timer has passed |
| `Challenges.Issue` | internal/challenge/quorum.go:242-257 | what each kind freezes: kind, threshold, normalized terms and bound hash, release minus duration equal to now, failed externals with their failure, shed only when failed |
| `Challenges.Approve` | internal/challenge/quorum.go:318-384 | an approval is accepted exactly from a target, on the stored hash recomputed, with a matching echo |
| `Challenges.CancelDelay` | internal/challenge/delay.go:298-329 | a cancellation is accepted exactly from a holder of the authority, and records who and when |
| `Challenges.AcceptCallback` | internal/challenge/external.go:538-570 | a callback is accepted exactly with the issued nonce and a signature over id, ordinal, nonce and verdict under the target's secret |
| `Challenges.CompleteMfa` | internal/challenge/mfa/delegated.go:595-659 | a completion is accepted exactly when its checks, taken as one verdict, pass on a prompt that was opened and not yet consumed |
| `Settling.RerunReachesTheSame` | internal/decision/service.go:935-1005 | a pass stopped after any of its writes in any order and run again at the same instant reaches the decision an uninterrupted pass reaches |
| `Settling.AnyOrderIsFull` | internal/decision/service.go:950-990 | a full pass equals its rows before the first it cannot read written in any order, repeats included, then the verdict if it could read them all |
| `Settling.PassDecidesExactly` | internal/decision/service.go:935-1005 | a pass settles exactly the rows before the first it cannot read, allows exactly when every row then stands satisfied, and denies exactly when it could read them all and one has failed |
| `Settling.PassIsFixpoint` | internal/decision/service.go:919-1005 | a completed pass is a fixpoint |
| `Settling.StoppedVoteIsFinished` | internal/decision/service.go:736-763 | a quorum submission stopped after its approval row is finished by the next pass, at any later unexpired instant, as if it had not been, if and only if the pass gets as far as its row or more votes are needed |
| `Delays.AWaitIsNeverRestarted` | internal/decision/revalidate.go:775-855 | in every run, however it interleaves, while no revision changes the list of kinds every wait's release minus its duration stays the instant its decision was opened |
| `Delays.AWaitStaysExactly` | internal/challenge/delay.go:298-360 | through any events with same-shape revisions, a wait stays a wait, met or failed as it is, and keeps its cancellation at every step if and only if everything written late over it was read from a wait, every late settle finds no cancellation and nothing settled the other way, and every late cancellation finds it not met and uncancelled |
| `Delays.LateSettleKeepsCancellationExactly` | internal/store/decisions.go:479-512 | a late settle keeps a recorded cancellation if and only if the wait it lands on carries none |
| `Delays.WaitsAreTimed` | internal/decision/revalidate.go:775-855 | in every run a pending wait's timer is min(release, expires_at) unless a late write left it a quorum's detail, which does not happen to a decision in kind; and a cancelled wait has failed |
| `Delays.TimerFailsExactly` | internal/challenge/delay.go:342-360 | a pass fails a pending wait by its timer if and only if it runs in the last microsecond before the release |
| `Delays.NeverFailsByTimerExactly` | internal/decision/service.go:962-968 | no pass can fail a wait by its timer if and only if the release is a whole microsecond or the decision is over by then |
| `Cases.AWaitTheTimerFails` | internal/store/decisions.go:337-343 | a run from the empty store in which a pass when the column falls due fails a wait and denies its decision, where a pass at the release would have allowed it |
| `Delays.FailsOnlyByCancellation` | internal/challenge/delay.go:298-360 | in every run in which a decision's openings, revisions and durations are whole microseconds, after every event each failed wait of it was cancelled if and only if no late write failed a wait with another kind's detail; so always for a decision in kind |
| `Delays.CanBeMetExactly` | internal/challenge/delay.go:342-360 | some pass can satisfy a pending wait if and only if its release lies before expires_at |
| `Delays.SoleWaitCanBeMetExactly` | internal/decision/service.go:559-566 | a decision opened with one wait has a pass that allows it if and only if the wait ends before the lifetime it was given |
| `Cases.AWaitNobodyCanMeet` | internal/decision/service.go:146-148 | an hour's wait under the default lifetime: no pass at any instant allows it |
| `Sweeping.LateSweepTracks` | internal/decision/sweeper.go:147-193 | whatever others do before each claimed decision is taken up, nothing resolved changes state, nothing is logged twice and nothing is expired before its time; interleaving within a pass is covered by Runs.RunTracks |
| `Sweeping.DueExactly` | internal/store/decisions.go:617-647 | a decision is due exactly when it is over or holds a pending challenge whose timer has passed |
| `Sweeping.SweptIsDueExactly` | internal/decision/sweeper.go:160-193 | after its own sweep a decision is still due at that instant if and only if it is not over and a challenge at or behind the first row the pass could not read is out of time |
| `Sweeping.SweepShrinks` | internal/decision/sweeper.go:116-193 | alone at one instant, a sweep that meets no row it cannot read takes exactly its batch out of the due set and changes no other decision |
| `Service.DecisionStore.Resolve` | internal/decision/service.go:1054-1067 | the row is resolved and logged exactly when the copy and the row are both open; an illegal transition or a lost race changes nothing |
| `Service.DecisionStore.SetChallengeState` | internal/store/decisions.go:479-512 | the state and detail of the row at the ordinal, whatever its kind, and the scheduler column with it |
| `Service.DecisionStore.Advance` | internal/decision/service.go:919-1005 | one read, the loop over that copy, then the resolution on its own count; an error exactly when there is no such decision, or it is collecting and has a row that cannot be read |
| `Service.DecisionStore.SettleRows` | internal/decision/service.go:935-990 | the loop up to the first row that cannot be read: one write per row that changed, and the tally |
| `Service.DecisionStore.Submit` | internal/decision/service.go:698-764 | the writes of an accepted submission in their order: the approval, the row with the detail that was read, then a pass, whose error is returned with the writes standing; a refused one changes nothing |
| `Service.DecisionStore.ClaimDue` | internal/store/decisions.go:617-647 | distinct current copies of due decisions nobody else has locked, soonest first, a full batch or all of them |
| `Service.DecisionStore.SweepOnce` | internal/decision/sweeper.go:147-193 | with others writing before each claimed decision, it takes them up in order until a pass ends in an error; without one claimed = expired + advanced + skipped, with one the three add up to the decisions before it, and the store is that of the sweep so far |
| `Service.DecisionStore.SweepItem` | internal/decision/sweeper.go:160-193 | one claimed copy is swept against the row as it is now, and counted once unless its pass ends in an error |
| `Service.DecisionStore.Drain` | internal/decision/sweeper.go:116-135 | alone at one instant it terminates, without an error if and only if no due decision has a row its pass cannot read, and then leaves no open decision past expires_at and none with a pending timer passed; every decision that was not due is untouched |
| `Service.DecisionStore.ApplyRevision` | internal/decision/revalidate.go:267-315 | one transaction over the listed decisions, put back whole if one cannot be re-judged |
| `Service.IssueChallenges` | internal/decision/service.go:500-573 | the issue loop, its early exits and its stretching of the lifetime |
| `Service.RebindEach` | internal/decision/revalidate.go:531-584 | the rebinding loop, stopping at the first refusal |
| `Settling.TallyIsVerdict` | internal/decision/revalidate.go:1159-1169 | counting failed and satisfied rows decides as the rows themselves do |
| `Replay.ReplayAnswersAlike` | internal/engine/eval.go:242-309 | re-evaluating the same set on the frozen request and facts gives the same verdict, policy and gates and asks for nothing, whatever the live sources say now |
| `Replay.ReplayFetchesNothing` | internal/decision/revalidate.go:1210-1247 | where nothing of the request was lost in its row, replay fetches nothing if and only if every collected call was answered at decide time |
| `Replay.ReplayAsksExactly` | internal/decision/revalidate.go:1210-1247 | on any request, replay is ready and asks for exactly the calls of the restored request that were not collected and answered at decide time |
| `AskedAgain.ANegativeZeroIsAskedAgain` | internal/engine/compile.go:80-103 | a request with a negative zero, its only call answered, asks again |
| `AskedAgain.AnAbsorbedErrorIsAskedAgain` | internal/engine/invariant.go:200-223 | a policy that holds over an unanswered call opens a decision and asks again |
| `Replay.SnapshotOnlyGrows` | internal/decision/revalidate.go:1278-1293 | a revision changes no frozen value, asks only for calls the snapshot lacks, adds exactly those, is unchanged exactly when it asked for none, and then asks no more |
| `Replay.SurvivesExactly` | internal/decision/revalidate.go:654-693 | an approval survives a same-shape revision if and only if policy, facts, obligations and resolved terms are unchanged, whatever the threshold |
| `Replay.FetchingLosesAll` | internal/decision/revalidate.go:363-401 | if anything was fetched no earlier approval survives |
| `Replay.UnstorableLosesAll` | internal/decision/revalidate.go:654-693 | nor does one survive a revision whose material does not come back from the row as written |
| `Replay.UnchangedKeepsAll` | internal/decision/revalidate.go:654-693 | if nothing was fetched and policy, obligations and terms are unchanged every approval survives |
| `Replay.TermsAreBySet` | internal/challenge/quorum.go:260-309 | member lists naming the same people resolve to the same terms, whatever the order, repeats, spacing and threshold |
| `Replay.FrozenForGood` | internal/decision/revalidate.go:338-448 | over any sequence of revisions no frozen fact changes value, and an approval still there never outlived a fetch and is bound to what the decision carries |
| `Replay.FactsOnlyGrow` | internal/decision/revalidate.go:1278-1293 | in every run, from any moment on, while revisions judge as the code does, each decision's frozen facts only grow |
| `Replay.OutcomesAgree` | internal/engine/compile.go:197-219 | two tables agreeing on a plan's collected calls give every condition one outcome |
| `Replay.CollectedAreDeclared` | internal/engine/compile.go:244-272 | every collected call names a declared source |
| `FrozenFacts.SnapshotAnswers` | internal/engine/invariant.go:200-223 | a snapshot holds exactly the answered calls, each with its own value |
| `FrozenFacts.ResolveAnswers` | internal/decision/revalidate.go:1210-1247 | a frozen call is answered with its frozen value and only a missing one with a live value |
| `FrozenFacts.FrozenPlane.ResolveSources` | internal/decision/revalidate.go:1210-1247 | the two loops compute that table and collect exactly the fetched values |
| `FrozenFacts.FrozenPlane.Sort` | internal/decision/revalidate.go:1210-1225 | held calls restored, missing calls set aside in order |
| `FrozenFacts.FrozenPlane.Fetch` | internal/decision/revalidate.go:1236-1246 | every missing call answered, or no table |
| `FrozenFacts.Missing` | internal/decision/revalidate.go:1212-1223 | the calls the snapshot does not name, and no others |
| `Freezing.IntegersThatSurvive` | internal/decision/revalidate.go:1386-1394 | an integer survives the double if and only if it is a multiple of the spacing at its magnitude, as every one up to 2^53 is |
| `Freezing.AnIntegerThatDoesNot` | internal/decision/revalidate.go:1386-1394 | 2^53 + 1 does not |
| `Freezing.RestoreInvertsFreeze` | internal/decision/revalidate.go:1367-1421 | a typed value always restores from its column to its type, and to itself if and only if its integers survive and it holds no negative zero |
| `Freezing.EntityRoundTrips` | internal/decision/revalidate.go:1331-1363 | a frozen entity restores under its own schema and binds as it did if and only if nothing was lost |
| `Freezing.InputRoundTrips` | internal/decision/revalidate.go:1304-1329 | the same of a whole request |
| `Evaluation.CheckAndDecideAgree` | internal/engine/eval.go:335-413 | check allows exactly when decide allows, says requires_decision exactly when decide challenges, with the same policy and otherwise the same reason |
| `Evaluation.OrderDoesNotDecide` | internal/engine/eval.go:157-194 | reordering or repeating policies changes neither verdict nor reason nor the set of gates |
| `Evaluation.GatesOnlyTighten` | internal/engine/eval.go:328-352 | adding a gated policy anywhere never turns a check that did not allow into one that does |
| `Evaluation.ShrinksTo` | internal/engine/eval.go:242-291 | with fewer policies, what applied and is still there applies, and nothing new does |
| `Evaluation.Evaluate` | internal/engine/eval.go:242-291 | match, collect once per key, run every condition: the applicable policies, none matched, or untold |
| `Evaluation.MatchEntries` | internal/engine/eval.go:157-185 | the matching policies in order |
| `Evaluation.GatherAll` | internal/engine/eval.go:251-271 | the collection loop over policies, failing exactly when one cannot be collected |
| `Evaluation.GatherCalls` | internal/engine/compile.go:197-219 | one call per key, first occurrence kept |
| `Evaluation.RunConditions` | internal/engine/eval.go:281-290 | the holding policies in order, or untold if any condition errs |
| `Evaluation.CollectAllGathers` | internal/engine/compile.go:244-272 | exactly the calls some condition can reach are collected |
| `Evaluation.AnswerCheck` | internal/engine/eval.go:346-366 | the first gated policy wins, then the first ungated |
| `Evaluation.AnswerDecide` | internal/engine/eval.go:393-412 | every gate contributes, then the first ungated |
| `Engine.FoldMeansItsOperands` | internal/policy/validate.go:866-903 | the balanced tree means one deciding operand decides, else one error is an error |
| `Engine.NodeReadsItsSites` | internal/engine/compile.go:244-272 | a condition reads the table only at its collected calls, whatever short-circuiting would skip |
| `Engine.BindEntity` | internal/engine/compile.go:322-355 | an entity binds to its own attributes, all declared and typed |
| `CallKeys.KeyIsInjective` | internal/engine/compile.go:68-103 | two calls share a lookup key if and only if they are one call |
| `CallKeys.NameIsInjective` | internal/engine/compile.go:57-103 | two calls share a snapshot key if and only if they are one call |
| `CallKeys.FaithfulIsPossible` | internal/engine/compile.go:80-103 | the properties asked of the formatting library can be met |
| `Approvers.NormalizationIsBySet` | internal/challenge/quorum.go:822-831 | two member lists normalize alike if and only if they name the same set |
| `Approvers.NormalizedMembers` | internal/challenge/quorum.go:822-831 | the normal form is strictly ascending and names exactly the set |
| `Approvers.NormalizeIsIdempotent` | internal/challenge/quorum.go:822-831 | a frozen list is its own normal form |
| `Approvers.ResolveQuorum` | internal/challenge/quorum.go:260-309 | a resolved set is normalized, qualified by an issuer and, as a list, large enough for its threshold |
| `Approvers.ResolveAuthority` | internal/challenge/delay.go:242-295 | a resolved cancel authority is qualified by an issuer and, as a list, names somebody |
| `Standing.StrangersSubmitInVain` | internal/decision/service.go:698-729 | an end user whom the read rule refuses gets the same status, code and message in any two stores at any instants with any payloads, decision or no decision |
| `Standing.StrangersReviewInVain` | internal/challenge/quorum.go:506-543 | the same of the review screen |
| `Standing.AnswersTellStanding` | internal/api/approvals.go:368-416 | an end user told anything else is the creator or a target, or asked after a decision with a challenge that cannot be read |
| `Standing.AccessExactly` | internal/decision/service.go:1190-1218 | access is granted exactly to the creator and to whom a challenge names that has none unreadable before it, refused exactly to those whom every challenge can be read not to name, and an error otherwise |
| `Standing.UnnamedAreAnsweredExactly` | internal/decision/service.go:1190-1218 | an end user who is not the creator and whom no readable challenge names gets the stranger's 404 if and only if every challenge can be read, and else a 400 |
| `Standing.LatenessTellsStanding` | internal/api/approvals.go:389-399 | on an expired decision an end user is told so if and only if the read rule grants them access, gets the stranger's answer if and only if it refuses it, and a 400 where a challenge cannot be read |
| `Standing.StrangersSeeNothingHappen` | internal/decision/service.go:680-729 | over any events but a revision of it, however they interleave, an end user whom the read rule refuses gets the same 404 from Submit and Review before and after |
| `Standing.CheckAccess` | internal/decision/service.go:1190-1218 | the loop over challenges decides the read rule, stopping at the first that names the caller or cannot be read |
| `Idempotency.KeyNamesOneDecision` | internal/decision/service.go:408-425 | however attempts interleave, a key names one decision of its caller, and all attempts that return under it return that one with its fingerprint |
| `Idempotency.NoSubstitution` | internal/decision/service.go:1523-1533 | no attempt with another fingerprint is handed a keyed decision |
| `Idempotency.RetryOpensNothing` | internal/decision/service.go:408-438 | an attempt arriving after the row exists opens no challenge and is not capped: it returns the row or is told the key is spent |
| `Idempotency.RunKeeps` | internal/store/decisions.go:178-312 | every interleaving keeps (caller, key) unique and every attempt honest, and never rewrites a row |
| `Audit.NothingIsLostSilently` | internal/api/audit.go:317-459 | over every interleaving: offered = flushed + dropped + queued + in flight, the queue is bounded, leaves are an in-order part of what was offered, the chain never under-reports, and an unmarked loss past the threshold keeps fail-closed on |
| `Audit.BooksBalance` | internal/api/audit.go:374-459 | where no erroring append lands, dropped = written gap counts + pending + in flight, and flushed = leaves |
| `Audit.AlertClearsOnlyAtRest` | internal/api/audit.go:450-456 | the alert turns off only at the end of a flush with nothing pending and the queue at most half full |
| `Audit.TakeConserves` | internal/api/audit.go:349-459 | every critical section keeps the books and the alarm |
| `Audit.TakeKeepsOrder` | internal/api/audit.go:374-448 | every critical section keeps the order |
| `Audit.AuditBuffer.Enqueue` | internal/api/audit.go:317-329 | one record, queued or dropped |
| `Audit.AuditBuffer.DropLocked` | internal/api/audit.go:349-367 | a loss counted, the window widened, the alert raised at the threshold |
| `Audit.AuditBuffer.TakeQueue` | internal/api/audit.go:375-380 | the queue and the unmarked loss are taken together |
| `Audit.AuditBuffer.MarkGap` | internal/api/audit.go:383-408 | a marker not acknowledged is put back |
| `Audit.AuditBuffer.CountChunk` | internal/api/audit.go:425-447 | a chunk is flushed or lost whole |
| `Audit.AuditBuffer.Settle` | internal/api/audit.go:450-456 | the end of a flush |
| `Audit.AuditBuffer.Flush` | internal/api/audit.go:374-459 | a flush with records arriving during every append ends, and is a run of the critical sections |
| `CacheKeys.CacheKeyIsInjective` | internal/fact/cache.go:112-175 | two lookups share a key if and only if names are equal and arguments are equal up to the spelling of an instant and the sign of zero, separators in strings included |
| `CacheKeys.ScalarSplits` | internal/fact/cache.go:149-173 | an encoded scalar is read back to its normal form and its end |
| `CacheKeys.ArgsSplit` | internal/fact/cache.go:112-147 | an encoded argument list is read back to its normal form |
| `FactCache.HitsAreLatestPuts` | internal/fact/cache.go:44-56 | in any run every hit is the latest value put under its key with a positive ttl, less than that ttl ago |
| `FactCache.RunRefines` | internal/fact/cache.go:44-93 | the bounded cache is at every point a part of the unbounded map of last puts |
| `FactCache.BoundHolds` | internal/fact/cache.go:59-93 | after every operation at most max entries |
| `FactCache.RoomyCacheIsExact` | internal/fact/cache.go:44-69 | where no put had to make room, the cache hits exactly when the unbounded map does |
| `FactCache.LastPutIsLatest` | internal/fact/cache.go:59-69 | the unbounded map holds the latest positive-ttl put under each key |
| `FactCache.EvictionMakesRoom` | internal/fact/cache.go:75-93 | eviction adds nothing and leaves room for one |
| `FactCache.Cache.Get` | internal/fact/cache.go:44-56 | a live entry, or a miss that removes an expired one |
| `FactCache.Cache.Put` | internal/fact/cache.go:59-69 | the new entry is there and the bound holds |
| `FactCache.Cache.Evict` | internal/fact/cache.go:75-93 | expired entries first, then one closest to expiring |
| `FactCache.Cache.Lookup` | internal/fact/source.go:613-650 | a live entry or the fetched answer; a failed fetch is never covered by a stale entry; a fetched answer with a positive ttl is stored under its key until the fetch plus that ttl |
| `KeyGuard.FetchesAreBounded` | internal/identity/oidc.go:601-619 | over any stretch of any run the fetches granted are at most the burst plus the time spanned over the interval |
| `KeyGuard.BudgetHolds` | internal/identity/oidc.go:601-619 | fetches and balance together never exceed the balance before plus what time earned |
| `KeyGuard.ServedIsAdmitted` | internal/identity/oidc.go:580-665 | no key is both served and negatively cached, the negative cache is bounded, and a served key is always admitted |
| `KeyGuard.Guard.CheckAdmission` | internal/identity/oidc.go:580-599 | served, known unknown, or subject to the budget |
| `KeyGuard.Guard.RefillLocked` | internal/identity/oidc.go:601-606 | the balance at the instant, the first reading earning nothing |
| `KeyGuard.Guard.TrySpend` | internal/identity/oidc.go:610-620 | one token for one fetch, or none |
| `KeyGuard.Guard.NoteFailure` | internal/identity/oidc.go:626-634 | only a key that is not served is remembered, with room made for it |
| `KeyGuard.Guard.EvictLocked` | internal/identity/oidc.go:636-652 | nothing while there is room, then the expired, then any until there is room |
| `KeyGuard.Guard.TakeKeySet` | internal/identity/oidc.go:657-665 | the listed keys are served and no longer unknown |

## Left out

- HTTP handlers, routes, listeners, the console, the CLI, webhook delivery and egress: plumbing, apart from the error table behind standing.
- The mfa handler's own checks of a completion, and how a revision compares its bindings: one verdict each, given as parameters.
- cel-go: conditions are evaluated by a small semantics with errors as a third value; its type checker is not modelled, so an ordering between unlike types is an error when it is evaluated.
- The compile cache and the duplicate-version check of the policy snapshot: easy members.
- Detail documents that decode as no kind: every detail here is some kind's, though not always its row's.
- Which subjects a quorum row holding a step-up's detail is an error to: to every approver here, in the code to those of the issuer the detail names.
- The order in which open decisions are revised: any order is covered, the ordering itself is not stated.
- The grandfathering mode of a revision, which leaves decisions alone: easy member.
- The outstanding cap's count: whether the cap is full is a parameter of an attempt.
- Audit reasons, actor strings, metrics counters, merkle roots and the hash chain.
- The loss window of a gap row: it is carried, and nothing is claimed of it, because a failed chunk widens it by its last event's time only.
- More than one flusher on one audit buffer: the service runs one.
- Rounding of the token bucket: tokens are exact reals.
- Conversion of a double of exactly 2^63 back to a 64-bit integer, which differs by platform.
- Challenges.CompleteMfa: the correlator, subject, issuer, class, method, time, nonce and context checks of a completion are one verdict given as a parameter.
- Sweeping.LateSweepTracks: others write before each claimed decision is taken up and not within its pass; every interleaving within a pass is in Runs.RunTracks, where a sweep's pass is one like any other.
- Service.DecisionStore.SweepOnce: the same.
- The read of a decision and the read of its rows as two queries: a run reads both at once; Binding.ReadApartIsReadWhole is about a submission that does not.
