/** Vocabulary shared by every module: optional values, identifiers, the service's
    error values, and a deterministic table scan. */
module Basics {

  datatype Option<+T> = None | Some(value: T)

  /** Identifiers and opaque tokens. A row's id and the token that names it are drawn
      together and never reused, so one number stands for both. */
  type Id = nat

  /** Times are counted in nanoseconds. */
  const NANOS_PER_SECOND: nat := 1_000_000_000

  /** The errors of errors.go, the repositories' own errors, and `Infra` for every
      failure of a port or library. */
  datatype Error =
    | InvalidCredentials
    | InvalidRefreshToken
    | OtpInvalid
    | OtpLocked
    | SetupTokenInvalid
    | ChallengeInvalid
    | CurrentPasswordInvalid
    | FlowInvalid
    | ResetTokenInvalid
    | EmailTaken
    | NotFound
    | Infra

  datatype Reply<+T> = Ok(value: T) | Err(error: Error) {
    predicate IsFailure() {
      Err?
    }

    function PropagateFailure<U>(): Reply<U>
      requires Err?
    {
      Err(error)
    }

    function Extract(): T
      requires Ok?
    {
      value
    }
  }

  /** The first identifier below `bound` that satisfies `p`: a lookup on a unique column. */
  function Scan(p: Id -> bool, bound: Id): (found: Option<Id>)
    ensures found.Some? ==> found.value < bound && p(found.value) && forall k: Id | k < found.value :: !p(k)
    ensures found.None? ==> forall k: Id | k < bound :: !p(k)
  {
    if bound == 0 then None
    else
      var earlier := Scan(p, bound - 1);
      if earlier.Some? then earlier
      else if p(bound - 1) then Some(bound - 1)
      else None
  }

  function Max(a: nat, b: nat): nat {
    if a < b then b else a
  }
}
