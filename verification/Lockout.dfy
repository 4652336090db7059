/** When an account is locked out, told from the history alone. */
module Lockout {
  import opened Basics
  import opened Credentials
  import opened Store
  import opened AuthSpec
  import opened Protocol
  import opened Guessing
  import opened Outcomes

  predicate StartsOver(e: Effect, user: Id) {
    e.WriteCredential? && e.user == user && (e.why.Passed? || e.why.Started?)
  }

  /** How many failures the log ends with since the user's last accepted code, new setup or
      lockout; a lockout is the failure that makes them `cap`. */
  function Streak(cap: int, log: seq<Entry>, user: Id): nat {
    if log == [] then 0
    else
      var n := |log| - 1;
      var before := Streak(cap, log[..n], user);
      if StartsOver(log[n].what, user) then 0
      else if !IsFailure(log[n].what, user) then before
      else if before + 1 >= cap then 0
      else before + 1
  }

  predicate Counted(s: Tables, user: Id, streak: nat) {
    user in s.credentials ==> s.credentials[user].failedAttempts == streak
  }

  lemma CountedStep(cfg: Config, s: Tables, at: nat, e: Effect, user: Id, streak: nat)
    requires Counted(s, user, streak) && Enabled(cfg, s, at, e)
    ensures var next := if StartsOver(e, user) then 0
                        else if !IsFailure(e, user) then streak
                        else if streak + 1 >= cfg.otpMaxAttempts then 0
                        else streak + 1;
            Counted(Apply(s, at, e), user, next)
  {
    hide UsersAfter, TokensAfter, ChallengesAfter, FlowsAfter, MarkersAfter, JobsAfter, Bound, InWindow;
  }

  lemma {:induction false} AlwaysCounted(cfg: Config, log: seq<Entry>, user: Id)
    requires Legal(cfg, log)
    ensures Counted(Replay(log), user, Streak(cfg.otpMaxAttempts, log, user))
  {
    hide Enabled, Apply, StartsOver, IsFailure;
    if log != [] {
      var n := |log| - 1;
      AlwaysCounted(cfg, log[..n], user);
      CountedStep(cfg, Replay(log[..n]), log[n].at, log[n].what, user, Streak(cfg.otpMaxAttempts, log[..n], user));
    }
  }

  /** A failure locks the account exactly if it is the cap-th since the last accepted code, new
      setup or lockout. The lock then runs for exactly the lockout time from the failure; any
      other failure leaves the account as unlocked as it was. */
  lemma LocksExactly(cfg: Config, log: seq<Entry>, k: nat, user: Id)
    requires Legal(cfg, log) && k < |log| && IsFailure(log[k].what, user)
    ensures user in Replay(log[..k]).credentials && user in Replay(log[..k + 1]).credentials
    ensures var before, after := Replay(log[..k]).credentials[user], Replay(log[..k + 1]).credentials[user];
            var failedAt := log[k].what.why.failedAt;
            if Streak(cfg.otpMaxAttempts, log[..k], user) + 1 >= cfg.otpMaxAttempts
            then forall t: int :: after.IsLocked(t) <==> t < failedAt + cfg.otpLockout
            else && (forall t: int :: after.IsLocked(t) <==> before.IsLocked(t))
                 && forall t: int :: t >= failedAt ==> !after.IsLocked(t)
  {
    hide Legal, Replay, UsersAfter, TokensAfter, ChallengesAfter, FlowsAfter, MarkersAfter, JobsAfter, Bound, Streak;
    EntryEnabled(cfg, log, k);
    AlwaysCounted(cfg, log[..k], user);
  }

  /** When the account's lock ends, if one was set since its last accepted code or new setup: the
      lockout time after the failure that was the cap-th. */
  function LockEnd(cfg: Config, log: seq<Entry>, user: Id): Option<int> {
    if log == [] then None
    else
      var n, e := |log| - 1, log[|log| - 1].what;
      if StartsOver(e, user) then None
      else if IsFailure(e, user) && Streak(cfg.otpMaxAttempts, log[..n], user) + 1 >= cfg.otpMaxAttempts
      then Some(e.why.failedAt + cfg.otpLockout)
      else LockEnd(cfg, log[..n], user)
  }

  predicate LockedUntil(s: Tables, user: Id, until: Option<int>) {
    user in s.credentials ==> s.credentials[user].lockedUntil == until
  }

  lemma LockStep(cfg: Config, s: Tables, at: nat, e: Effect, user: Id, streak: nat, until: Option<int>)
    requires Counted(s, user, streak) && LockedUntil(s, user, until) && Enabled(cfg, s, at, e)
    ensures var next := if StartsOver(e, user) then None
                        else if IsFailure(e, user) && streak + 1 >= cfg.otpMaxAttempts
                        then Some(e.why.failedAt + cfg.otpLockout)
                        else until;
            LockedUntil(Apply(s, at, e), user, next)
  {
    hide UsersAfter, TokensAfter, ChallengesAfter, FlowsAfter, MarkersAfter, JobsAfter, Bound, InWindow;
  }

  /** At every micro-step, the lock that stands is the one the history tells. */
  lemma {:induction false} LockedExactly(cfg: Config, log: seq<Entry>, user: Id)
    requires Legal(cfg, log)
    ensures LockedUntil(Replay(log), user, LockEnd(cfg, log, user))
  {
    hide Enabled, Apply, StartsOver, IsFailure, Counted;
    if log != [] {
      var n := |log| - 1;
      LockedExactly(cfg, log[..n], user);
      AlwaysCounted(cfg, log[..n], user);
      LockStep(cfg, Replay(log[..n]), log[n].at, log[n].what, user, Streak(cfg.otpMaxAttempts, log[..n], user),
               LockEnd(cfg, log[..n], user));
    }
  }

  /** The failures in entries i.. of the log, and no start over or lockout among them. */
  lemma {:induction false} StreakSince(cap: int, log: seq<Entry>, i: nat, user: Id)
    requires i < |log| && StartsOver(log[i].what, user)
    requires forall m | i < m < |log| :: !StartsOver(log[m].what, user)
    requires Failures(log, i + 1, user) < cap
    ensures Streak(cap, log, user) == Failures(log, i + 1, user)
    decreases |log|
  {
    hide StartsOver, IsFailure;
    var n := |log| - 1;
    if i < n {
      StreakSince(cap, log[..n], i, user);
    }
  }

  /** Fewer failures than the cap since an accepted code or a new setup lock nobody out. */
  lemma {:induction false} FewFailuresNoLock(cfg: Config, log: seq<Entry>, i: nat, user: Id)
    requires i < |log| && StartsOver(log[i].what, user)
    requires forall m | i < m < |log| :: !StartsOver(log[m].what, user)
    requires Failures(log, i + 1, user) < cfg.otpMaxAttempts
    ensures LockEnd(cfg, log, user).None?
    decreases |log|
  {
    hide StartsOver, IsFailure;
    var n := |log| - 1;
    if i < n {
      FewFailuresNoLock(cfg, log[..n], i, user);
      StreakSince(cfg.otpMaxAttempts, log[..n], i, user);
    }
  }

  /** After fewer consecutive failures than the cap, a right code is still accepted. */
  lemma RightCodeStillOpens(cfg: Config, w: World, i: nat, email: string, user: Id, code: string, purpose: Purpose)
    requires WorldOk(cfg, [], w) && NoFaults(w.plan) && user in w.tables.credentials
    requires i < |w.tables.log| && StartsOver(w.tables.log[i].what, user)
    requires forall m | i < m < |w.tables.log| :: !StartsOver(w.tables.log[m].what, user)
    requires Failures(w.tables.log, i + 1, user) < cfg.otpMaxAttempts
    requires AcceptedAs(cfg, w.tables.credentials[user], email, code, ClockAt(w, 1)).Some?
    ensures VerifyOTP(cfg, w, email, user, w.tables.credentials[user], code, purpose).r.Ok?
  {
    hide Legal, Replay, StartsOver, Failures, AcceptedAs, VerifyOTP, ClockAt, SameButCredential;
    FewFailuresNoLock(cfg, w.tables.log, i, user);
    LockedExactly(cfg, w.tables.log, user);
    LaterReads(w, 0);
    GateExactly(cfg, w, w, 0, email, user, w.tables.credentials[user], code, purpose);
  }
}
