/** Accepted codes are never accepted again (section 5.2 of RFC 6238), and at most two more
    codes are accepted in a time window than it has full steps. */
module AntiReplay {
  import opened Basics
  import opened Credentials
  import opened Store
  import opened AuthSpec
  import opened Protocol
  import opened Structure
  import Totp

  /** A write that records an accepted time-based code of the user: at setup, login, password
      change, deletion or password reset. */
  predicate RecordsCode(e: Effect, user: Id) {
    && e.WriteCredential? && e.user == user
    && ((e.why.Passed? && !e.why.demo) || e.why.UsedByReset?)
  }

  predicate RecordsDemo(e: Effect, user: Id) {
    e.WriteCredential? && e.user == user && e.why.Passed? && e.why.demo
  }

  function CounterOf(e: Effect): nat
    requires e.WriteCredential? && (e.why.Passed? || e.why.UsedByReset?)
  {
    if e.why.Passed? then e.why.counter else e.why.usedCounter
  }

  function CheckedAt(e: Effect): nat
    requires e.WriteCredential? && (e.why.Passed? || e.why.UsedByReset?)
  {
    if e.why.Passed? then e.why.checkedAt else e.why.usedAt
  }

  predicate NoDemo(log: seq<Entry>, user: Id) {
    forall i | 0 <= i < |log| :: !RecordsDemo(log[i].what, user)
  }

  /** The credential has recorded a counter no smaller than `counter`, or is gone for good. */
  predicate Burned(s: Tables, user: Id, counter: nat) {
    && user < s.top
    && (user in s.credentials ==> s.credentials[user].IsCodeConsumed(counter))
    && (user !in s.credentials ==> user !in s.users)
  }

  lemma BurnedStep(cfg: Config, s: Tables, at: nat, e: Effect, user: Id, counter: nat)
    requires Burned(s, user, counter) && Enabled(cfg, s, at, e) && !RecordsDemo(e, user)
    ensures Burned(Apply(s, at, e), user, counter)
  {
    hide TokensAfter, ChallengesAfter, FlowsAfter, MarkersAfter, JobsAfter, InWindow;
  }

  lemma BurnedBy(cfg: Config, log: seq<Entry>, i: nat, user: Id)
    requires Legal(cfg, log) && i < |log| && RecordsCode(log[i].what, user)
    ensures Burned(Replay(log[..i + 1]), user, CounterOf(log[i].what))
    ensures InWindow(CounterOf(log[i].what), CheckedAt(log[i].what))
  {
    hide Legal, Replay, InWindow;
    EntryEnabled(cfg, log, i);
    Structural(cfg, log[..i]);
  }

  lemma {:induction false} BurnedLater(cfg: Config, log: seq<Entry>, i: nat, j: nat, user: Id)
    requires Legal(cfg, log) && i < j <= |log| && RecordsCode(log[i].what, user)
    requires NoDemo(log[i..j], user)
    ensures Burned(Replay(log[..j]), user, CounterOf(log[i].what))
    decreases j
  {
    hide Legal, Replay, Enabled, Apply, Burned, RecordsDemo;
    if j == i + 1 {
      BurnedBy(cfg, log, i, user);
    } else {
      assert log[i..j][..j - 1 - i] == log[i..j - 1];
      assert log[i..j][j - 1 - i] == log[j - 1];
      BurnedLater(cfg, log, i, j - 1, user);
      EntryEnabled(cfg, log, j - 1);
      BurnedStep(cfg, Replay(log[..j - 1]), log[j - 1].at, log[j - 1].what, user, CounterOf(log[i].what));
    }
  }

  /** Between two acceptances of an account's codes with no demo acceptance in between, the
      counter strictly increases, across every use case and every new secret. */
  lemma CountersIncrease(cfg: Config, log: seq<Entry>, i: nat, j: nat, user: Id)
    requires Legal(cfg, log) && i < j < |log| && RecordsCode(log[i].what, user) && RecordsCode(log[j].what, user)
    requires NoDemo(log[i..j], user)
    ensures CounterOf(log[i].what) < CounterOf(log[j].what)
  {
    hide Legal, Replay, Apply, InWindow;
    BurnedLater(cfg, log, i, j, user);
    EntryEnabled(cfg, log, j);
  }

  // ----- the rate bound -----

  predicate AcceptedWithin(e: Effect, user: Id, t0: nat, t1: nat) {
    RecordsCode(e, user) && t0 <= CheckedAt(e) <= t1
  }

  function Acceptances(log: seq<Entry>, user: Id, t0: nat, t1: nat): nat {
    if log == [] then 0
    else
      var n := |log| - 1;
      Acceptances(log[..n], user, t0, t1) + if AcceptedWithin(log[n].what, user, t0, t1) then 1 else 0
  }

  /** The counter of the latest acceptance within the window; below its first step if none. */
  function Latest(log: seq<Entry>, user: Id, t0: nat, t1: nat): int {
    if log == [] then Totp.Step(t0) - 1
    else
      var n := |log| - 1;
      if AcceptedWithin(log[n].what, user, t0, t1) then CounterOf(log[n].what) else Latest(log[..n], user, t0, t1)
  }

  lemma {:induction false} LatestIsAcceptance(cfg: Config, log: seq<Entry>, user: Id, t0: nat, t1: nat)
    requires Legal(cfg, log) && NoDemo(log, user)
    ensures Latest(log, user, t0, t1) == Totp.Step(t0) - 1
            || exists i | 0 <= i < |log| ::
                 AcceptedWithin(log[i].what, user, t0, t1) && CounterOf(log[i].what) == Latest(log, user, t0, t1)
  {
    hide Legal, Replay, Apply, Enabled, Totp.Step, RecordsDemo;
    if log != [] {
      var n := |log| - 1;
      PrefixLegal(cfg, log, n);
      LatestIsAcceptance(cfg, log[..n], user, t0, t1);
      if !AcceptedWithin(log[n].what, user, t0, t1) && Latest(log, user, t0, t1) != Totp.Step(t0) - 1 {
        var i :| 0 <= i < n && AcceptedWithin(log[..n][i].what, user, t0, t1)
              && CounterOf(log[..n][i].what) == Latest(log, user, t0, t1);
        assert AcceptedWithin(log[i].what, user, t0, t1);
      }
    }
  }

  lemma StepMonotone(t: nat, t': nat)
    requires t <= t'
    ensures Totp.Step(t) <= Totp.Step(t')
  {
    var s, s' := Totp.UnixSeconds(t), Totp.UnixSeconds(t');
    assert s <= s';
  }

  lemma {:induction false} CountBelowLatest(cfg: Config, log: seq<Entry>, user: Id, t0: nat, t1: nat)
    requires Legal(cfg, log) && NoDemo(log, user) && t0 <= t1
    ensures Acceptances(log, user, t0, t1) <= Latest(log, user, t0, t1) - Totp.Step(t0) + 1
    ensures Totp.Step(t0) - 1 <= Latest(log, user, t0, t1) <= Totp.Step(t1) + 1
  {
    hide Legal, Replay, Apply, Enabled, Totp.Step, RecordsDemo;
    StepMonotone(t0, t1);
    if log != [] {
      var n := |log| - 1;
      PrefixLegal(cfg, log, n);
      CountBelowLatest(cfg, log[..n], user, t0, t1);
      if AcceptedWithin(log[n].what, user, t0, t1) {
        NextCounter(cfg, log, user, t0, t1);
      }
    }
  }

  lemma NextCounter(cfg: Config, log: seq<Entry>, user: Id, t0: nat, t1: nat)
    requires Legal(cfg, log) && NoDemo(log, user) && t0 <= t1 && log != []
    requires var n := |log| - 1; AcceptedWithin(log[n].what, user, t0, t1)
    ensures var n := |log| - 1;
            && Latest(log[..n], user, t0, t1) < CounterOf(log[n].what)
            && Totp.Step(t0) <= CounterOf(log[n].what) <= Totp.Step(t1) + 1
  {
    hide Legal, Replay, Apply, Enabled, Totp.Step, RecordsDemo, Latest;
    var n := |log| - 1;
    PrefixLegal(cfg, log, n);
    BurnedBy(cfg, log, n, user);
    StepMonotone(t0, CheckedAt(log[n].what));
    StepMonotone(CheckedAt(log[n].what), t1);
    LatestIsAcceptance(cfg, log[..n], user, t0, t1);
    if Latest(log[..n], user, t0, t1) != Totp.Step(t0) - 1 {
      var i :| 0 <= i < n && AcceptedWithin(log[..n][i].what, user, t0, t1)
            && CounterOf(log[..n][i].what) == Latest(log[..n], user, t0, t1);
      CountersIncrease(cfg, log, i, n, user);
    }
  }

  /** In any window t0..t1, an account that never used the demo code has at most
      Step(t1) - Step(t0) + 2 codes accepted. */
  lemma RateBound(cfg: Config, log: seq<Entry>, user: Id, t0: nat, t1: nat)
    requires Legal(cfg, log) && NoDemo(log, user) && t0 <= t1
    ensures Acceptances(log, user, t0, t1) <= Totp.Step(t1) - Totp.Step(t0) + 2
  {
    hide Legal, Totp.Step, Acceptances, Latest;
    CountBelowLatest(cfg, log, user, t0, t1);
  }

  // ----- the demo account -----

  /** The fixed demo code erases the anti-replay memory: once it has been accepted, the
      demo account's next ordinary code is accepted exactly when its counter is positive,
      whatever had been accepted before. */
  lemma DemoForgetsCounters(cfg: Config, w: World, user: Id, row: CredentialRow, code: string, purpose: Purpose,
                            next: Purpose)
    requires NoFaults(w.plan) && user in w.tables.credentials && w.tables.credentials[user] == row
    requires !row.IsLocked(w.clock) && code != DEMO_CODE
    ensures var demo := VerifyOTP(cfg, w, DEMO_EMAIL, user, row, DEMO_CODE, purpose);
            && demo.r == Ok(row.AfterSuccess(0))
            && var matched := Totp.Matched(cfg.hotp, code, row.secret, Turn(demo.w).clock);
            (VerifyOTP(cfg, demo.w, DEMO_EMAIL, user, demo.r.value, code, next).r.Ok? <==>
               matched.Some? && matched.value > 0)
  {
    hide Turn, Totp.Matched, Apply;
    TurnNoFaults(w);
    var demo := VerifyOTP(cfg, w, DEMO_EMAIL, user, row, DEMO_CODE, purpose);
    WriteStores(w, user, row.AfterSuccess(0), Passed(0, w.clock, true, purpose));
    TurnNoFaults(demo.w);
    TurnNoFaults(Turn(demo.w));
  }

  lemma WriteStores(w: World, user: Id, row: CredentialRow, why: CredentialWrite)
    requires NoFaults(w.plan)
    ensures var o := Store.Write(w, WriteCredential(user, row, why));
            && o.r.Ok? && o.w.plan == Turn(w).plan && NoFaults(o.w.plan)
            && user in o.w.tables.credentials && o.w.tables.credentials[user] == row
  {
    TurnNoFaults(w);
  }

  /** An ordinary account's code is accepted exactly when it matches a counter later than
      every one recorded, at the time it is checked. */
  lemma OrdinaryRemembersCounters(cfg: Config, w: World, email: string, user: Id, row: CredentialRow, code: string,
                                  purpose: Purpose)
    requires NoFaults(w.plan) && user in w.tables.credentials && w.tables.credentials[user] == row
    requires !row.IsLocked(w.clock) && (email != DEMO_EMAIL || code != DEMO_CODE)
    ensures var matched := Totp.Matched(cfg.hotp, code, row.secret, Turn(w).clock);
            VerifyOTP(cfg, w, email, user, row, code, purpose).r.Ok? <==>
              matched.Some? && (row.lastUsedCounter.None? || matched.value > row.lastUsedCounter.value)
  {
    hide Turn, Totp.Matched, Apply;
    TurnNoFaults(w);
    TurnNoFaults(Turn(w));
  }
}
