/** One forgot-password attempt, from request to confirmation. */
module ResetFlows {
  import opened Basics

  /** The single-use reset token; its hash and expiry are always set together. */
  datatype ResetToken = ResetToken(token: Id, expiresAt: int)

  /** One row of password_reset_flows. `user` is None for an ineligible request. */
  datatype FlowRow = FlowRow(
    user: Option<Id>,
    expiresAt: int,
    otpVerified: bool,
    otpAttempts: nat,
    reset: Option<ResetToken>,
    consumed: bool)
  {
    predicate IsExpired(now: int) {
      now > expiresAt
    }

    predicate IsOTPLocked(maxAttempts: int) {
      otpAttempts >= maxAttempts
    }

    predicate IsResetTokenValid(now: int) {
      reset.Some? && now < reset.value.expiresAt
    }

    function AfterFailure(): FlowRow {
      this.(otpAttempts := otpAttempts + 1)
    }

    function AfterVerified(token: Id, expiresAt: int): FlowRow {
      this.(otpVerified := true, reset := Some(ResetToken(token, expiresAt)))
    }

    function AfterConsumed(): FlowRow {
      this.(consumed := true)
    }
  }

  function NewRow(user: Option<Id>, expiresAt: int): FlowRow {
    FlowRow(user, expiresAt, false, 0, None, false)
  }

  /** The in-memory copy of a row that a request mutates before writing it back. */
  class PasswordResetFlow {
    const id: Id
    const user: Option<Id>
    const expiresAt: int
    var otpVerified: bool
    var otpAttempts: nat
    var reset: Option<ResetToken>
    var consumed: bool

    function Row(): FlowRow
      reads this
    {
      FlowRow(user, expiresAt, otpVerified, otpAttempts, reset, consumed)
    }

    constructor New(id: Id, user: Option<Id>, now: int, ttl: int)
      ensures this.id == id && Row() == NewRow(user, now + ttl)
    {
      this.id := id;
      this.user := user;
      expiresAt := now + ttl;
      otpVerified := false;
      otpAttempts := 0;
      reset := None;
      consumed := false;
    }

    constructor Load(id: Id, row: FlowRow)
      ensures this.id == id && Row() == row
    {
      this.id := id;
      user := row.user;
      expiresAt := row.expiresAt;
      otpVerified := row.otpVerified;
      otpAttempts := row.otpAttempts;
      reset := row.reset;
      consumed := row.consumed;
    }

    method RecordOTPFailure(maxAttempts: int) returns (locked: bool)
      modifies this
      ensures Row() == old(Row()).AfterFailure()
      ensures locked == Row().IsOTPLocked(maxAttempts)
    {
      otpAttempts := otpAttempts + 1;
      locked := otpAttempts >= maxAttempts;
    }

    method MarkOTPVerified()
      modifies this
      ensures Row() == old(Row()).(otpVerified := true)
    {
      otpVerified := true;
    }

    method IssueResetToken(token: Id, now: int, ttl: int)
      modifies this
      ensures Row() == old(Row()).(reset := Some(ResetToken(token, now + ttl)))
    {
      reset := Some(ResetToken(token, now + ttl));
    }

    method Consume()
      modifies this
      ensures Row() == old(Row()).AfterConsumed()
    {
      consumed := true;
    }
  }
}
