/** Time-based one-time codes: the 30-second step window with forward-only skew. */
module Totp {
  import opened Basics

  const PERIOD: nat := 30
  const FORWARD_SKEW: nat := 1

  /** What the HOTP library answers for one counter. A malformed code or secret is an
      error there, and the window search goes on to the next counter. */
  datatype Check = Match | NoMatch | Malformed

  /** HOTP itself is not modelled: code, counter and secret determine the answer. */
  type Hotp = (string, int, Id) -> Check

  function UnixSeconds(t: nat): nat {
    t / NANOS_PER_SECOND
  }

  /** The time step (counter) that is current at time t. */
  function Step(t: nat): nat {
    UnixSeconds(t) / PERIOD
  }

  /** The least counter in low..high whose code matches. */
  function FirstMatch(hotp: Hotp, code: string, secret: Id, low: nat, high: nat): (counter: Option<nat>)
    requires low <= high + 1
    ensures counter.Some? ==>
              && low <= counter.value <= high
              && hotp(code, counter.value, secret).Match?
              && forall c | low <= c < counter.value :: !hotp(code, c, secret).Match?
    ensures counter.None? ==> forall c | low <= c <= high :: !hotp(code, c, secret).Match?
    decreases high + 1 - low
  {
    if high < low then None
    else if hotp(code, low, secret).Match? then Some(low)
    else FirstMatch(hotp, code, secret, low + 1, high)
  }

  function Matched(hotp: Hotp, code: string, secret: Id, t: nat): Option<nat> {
    FirstMatch(hotp, code, secret, Step(t), Step(t) + FORWARD_SKEW)
  }

  /** Steps are thirty seconds long and start at the epoch. */
  lemma StepIsThirtySeconds(t: nat)
    ensures Step(t) * 30_000_000_000 <= t < (Step(t) + 1) * 30_000_000_000
  {
    var seconds := UnixSeconds(t);
    assert seconds * 1_000_000_000 <= t < (seconds + 1) * 1_000_000_000;
    assert Step(t) * 30 <= seconds < (Step(t) + 1) * 30;
  }

  /** A code is accepted for the step it is checked in or, failing that, for the next one, and for
      no other. */
  lemma MatchedExactly(hotp: Hotp, code: string, secret: Id, t: nat)
    ensures var s := Step(t);
            Matched(hotp, code, secret, t)
            == if hotp(code, s, secret).Match? then Some(s)
               else if hotp(code, s + 1, secret).Match? then Some(s + 1)
               else None
  {
    hide Step;
    var s := Step(t);
    assert FirstMatch(hotp, code, secret, s + 2, s + 1) == None;
  }

  /** Searches the current step and the one after it, in that order. The counter is 0
      when nothing matches. */
  method ValidateAt(hotp: Hotp, code: string, secret: Id, t: nat) returns (ok: bool, matchedCounter: nat)
    ensures ok <==> Matched(hotp, code, secret, t).Some?
    ensures matchedCounter == if ok then Matched(hotp, code, secret, t).value else 0
  {
    var current := Step(t);
    for i := 0 to FORWARD_SKEW + 1
      invariant FirstMatch(hotp, code, secret, current, current + FORWARD_SKEW)
             == FirstMatch(hotp, code, secret, current + i, current + FORWARD_SKEW)
    {
      var counter := current + i;
      var check := hotp(code, counter, secret);
      if check.Malformed? {
        continue;
      }
      if check.Match? {
        return true, counter;
      }
    }
    return false, 0;
  }
}
