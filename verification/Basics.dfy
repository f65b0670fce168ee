/** Shared vocabulary: optional values, results, and the sentinel errors of the
    decision, challenge and store packages. */
module Basics {

  datatype Option<+T> = None | Some(value: T)

  /** The sentinels an operation can answer with. */
  datatype Fault =
    | Unauthenticated
    | NotAuthorized
    | NotPending
    | NoSuchChallenge
    | KeyReused
    | NotFound
    | Conflict
    | DecisionExpired
    | NotSubmittable
    | NotTarget
    | InvalidPayload
    | UnsupportedSpec
    | GroupSourceUnsupported
    | ApproverIssuerUndesignated
    | BindingChanged
    | VerdictUnsupported
    | NoHandler
    | IllegalTransition
    | UnresolvedFact
    | Broken

  datatype Result<+T> = Ok(value: T) | Err(fault: Fault) {
    predicate IsFailure() { Err? }

    function PropagateFailure<U>(): Result<U>
      requires Err?
    {
      Err(fault)
    }

    function Extract(): T
      requires Ok?
    {
      value
    }
  }

  /** Instants are nanoseconds, the resolution of the service clock. */
  type Instant = int

  /** The resolution of a timestamp column: a whole microsecond, rounded down. */
  function Micros(t: Instant): Instant {
    t - t % 1000
  }

  function Min(a: int, b: int): int {
    if a <= b then a else b
  }

  function Max(a: int, b: int): int {
    if a >= b then a else b
  }

  lemma {:induction false} SubsetIsSmaller<T>(a: set<T>, b: set<T>)
    requires a <= b
    ensures |a| <= |b|
  {
    if a != {} {
      var x :| x in a;
      SubsetIsSmaller(a - {x}, b - {x});
    }
  }
}
