/** A user's TOTP enrolment: lockout and anti-replay state. */
module Credentials {
  import opened Basics

  /** The pending setup challenge; its token and expiry are always set and cleared together. */
  datatype Setup = Setup(token: Id, expiresAt: int)

  /** One row of two_factor_credentials. The secret stands for its own ciphertext. */
  datatype CredentialRow = CredentialRow(
    secret: Id,
    enabled: bool,
    setup: Option<Setup>,
    failedAttempts: nat,
    lockedUntil: Option<int>,
    lastUsedCounter: Option<int>)
  {
    predicate IsLocked(now: int) {
      lockedUntil.Some? && now < lockedUntil.value
    }

    predicate IsSetupTokenExpired(now: int) {
      setup.None? || now > setup.value.expiresAt
    }

    predicate IsCodeConsumed(counter: int) {
      lastUsedCounter.Some? && counter <= lastUsedCounter.value
    }

    function Restarted(newSecret: Id, token: Id, expiresAt: int): CredentialRow {
      this.(secret := newSecret, setup := Some(Setup(token, expiresAt)), enabled := false,
            failedAttempts := 0, lockedUntil := None)
    }

    function AsEnabled(): CredentialRow {
      this.(enabled := true, setup := None)
    }

    function AfterFailure(maxAttempts: int, lockoutFor: int, now: int): CredentialRow {
      if failedAttempts + 1 >= maxAttempts
      then this.(lockedUntil := Some(now + lockoutFor), failedAttempts := 0)
      else this.(failedAttempts := failedAttempts + 1)
    }

    function AfterSuccess(counter: int): CredentialRow {
      this.(failedAttempts := 0, lockedUntil := None, lastUsedCounter := Some(counter))
    }

    function WithCodeUsed(counter: int): CredentialRow {
      this.(lastUsedCounter := Some(counter))
    }
  }

  function NewRow(secret: Id, token: Id, expiresAt: int): CredentialRow {
    CredentialRow(secret, false, Some(Setup(token, expiresAt)), 0, None, None)
  }

  /** The in-memory copy of a row that a request mutates before writing it back. */
  class Credential {
    const userId: Id
    var secret: Id
    var enabled: bool
    var setup: Option<Setup>
    var failedAttempts: nat
    var lockedUntil: Option<int>
    var lastUsedCounter: Option<int>

    function Row(): CredentialRow
      reads this
    {
      CredentialRow(secret, enabled, setup, failedAttempts, lockedUntil, lastUsedCounter)
    }

    constructor New(userId: Id, secret: Id, setupToken: Id, now: int, setupTTL: int)
      ensures this.userId == userId
      ensures Row() == NewRow(secret, setupToken, now + setupTTL)
    {
      this.userId := userId;
      this.secret := secret;
      enabled := false;
      setup := Some(Setup(setupToken, now + setupTTL));
      failedAttempts := 0;
      lockedUntil := None;
      lastUsedCounter := None;
    }

    constructor Load(userId: Id, row: CredentialRow)
      ensures this.userId == userId && Row() == row
    {
      this.userId := userId;
      secret := row.secret;
      enabled := row.enabled;
      setup := row.setup;
      failedAttempts := row.failedAttempts;
      lockedUntil := row.lockedUntil;
      lastUsedCounter := row.lastUsedCounter;
    }

    method BeginSetup(newSecret: Id, setupToken: Id, now: int, setupTTL: int)
      modifies this
      ensures Row() == old(Row()).Restarted(newSecret, setupToken, now + setupTTL)
    {
      secret := newSecret;
      setup := Some(Setup(setupToken, now + setupTTL));
      enabled := false;
      failedAttempts := 0;
      lockedUntil := None;
    }

    method Enable()
      modifies this
      ensures Row() == old(Row()).AsEnabled()
    {
      enabled := true;
      setup := None;
    }

    method RecordFailure(maxAttempts: int, lockoutFor: int, now: int)
      modifies this
      ensures Row() == old(Row()).AfterFailure(maxAttempts, lockoutFor, now)
    {
      failedAttempts := failedAttempts + 1;
      if failedAttempts >= maxAttempts {
        lockedUntil := Some(now + lockoutFor);
        failedAttempts := 0;
      }
    }

    method RecordSuccess(counter: int)
      modifies this
      ensures Row() == old(Row()).AfterSuccess(counter)
    {
      failedAttempts := 0;
      lockedUntil := None;
      MarkCodeUsed(counter);
    }

    method MarkCodeUsed(counter: int)
      modifies this
      ensures Row() == old(Row()).WithCodeUsed(counter)
    {
      lastUsedCounter := Some(counter);
    }
  }
}
