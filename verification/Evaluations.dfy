/** Wrong codes that the gate evaluates, recorded or not: the guessing bound for all of them. */
module Evaluations {
  import opened Basics
  import opened Credentials
  import opened Store
  import opened Repositories
  import opened AuthSpec
  import opened Protocol
  import opened Conformance
  import opened Guessing
  import Totp

  /** A request at the gate: the world in which it gets there, and whose code it presents. */
  datatype Gate = Gate(w: World, email: string, user: Id, row: CredentialRow, code: string, purpose: Purpose) {
    function Verdict(cfg: Config): Out<Verdict> {
      ValidateOTP(cfg, w, email, row, code)
    }

    /** The code is evaluated, and it is wrong. */
    predicate IsWrong(cfg: Config) {
      !row.IsLocked(w.clock) && Verdict(cfg).r.Ok? && !Accepts(row, Verdict(cfg).r.value)
    }

    /** How the store answers the write that follows the evaluation. */
    function WriteAnswer(cfg: Config): Kind {
      Head(Verdict(cfg).w.plan).kind
    }

    function Verified(cfg: Config): Out<CredentialRow> {
      VerifyOTP(cfg, w, email, user, row, code, purpose)
    }
  }

  /** Where a request of one of the four callers reaches the gate, if it does. */
  function GateOf(cfg: Config, w: World, request: Request): Option<Gate> {
    match request
    case DoSetupVerify(token, code) =>
      var o1 := GetBySetupToken(w, token);
      if o1.r.Err? || o1.w.tables.credentials[o1.r.value].IsSetupTokenExpired(o1.w.clock) then None
      else
        var user := o1.r.value;
        var o2 := GetUser(o1.w, user);
        if o2.r.Err? then None
        else Some(Gate(o2.w, o2.r.value.email, user, o1.w.tables.credentials[user], code, ForSetup))
    case DoLoginVerify(challenge, code) =>
      var o1 := GetChallenge(w, challenge);
      if o1.r.Err? || o1.r.value.IsExpired(o1.w.clock) || o1.r.value.consumed then None
      else
        var user := o1.r.value.user;
        var o2 := GetCredential(o1.w, user);
        var o3 := GetUser(o2.w, user);
        if o2.r.Err? || o3.r.Err? then None
        else Some(Gate(o3.w, o3.r.value.email, user, o2.r.value, code, ForLogin))
    case DoChangePassword(user, current, code, _) =>
      var o1 := GetUser(w, user);
      var o2 := GetCredential(o1.w, user);
      if o1.r.Err? || o1.r.value.password != current || o2.r.Err? then None
      else Some(Gate(o2.w, o1.r.value.email, user, o2.r.value, code, ForPasswordChange))
    case DoDelete(user, code) =>
      var o1 := GetUser(w, user);
      var o2 := GetCredential(o1.w, user);
      if o1.r.Err? || o2.r.Err? then None
      else Some(Gate(o2.w, o1.r.value.email, user, o2.r.value, code, ForDeletion))
    case _ => None
  }

  /** A request reaches the gate with the rows as they were, and when the gate rejects it the
      call ends there, with the gate's error. */
  lemma GateDecides(cfg: Config, w: World, request: Request)
    requires GateOf(cfg, w, request).Some?
    ensures var g := GateOf(cfg, w, request).value;
            && g.w.tables == w.tables
            && g.user in w.tables.credentials && w.tables.credentials[g.user] == g.row
            && (g.Verified(cfg).r.Err? ==>
                  Perform(cfg, w, request) == Out(g.Verified(cfg).w, Err(g.Verified(cfg).r.error)))
  {
    hide VerifyOTP, Enrol, Admit, RequestDeletion, RevokeAllForUser, UpdatePassword, EndSession, UserWithSetup;
  }

  /** A call of one of the four that does not reach the gate ends in an error and changes no table. */
  lemma NoGateNoWrite(cfg: Config, w: World, request: Request)
    requires request.DoSetupVerify? || request.DoLoginVerify? || request.DoChangePassword? || request.DoDelete?
    requires GateOf(cfg, w, request).None?
    ensures var o := Perform(cfg, w, request); o.r.Err? && o.w.tables == w.tables
  {
    hide VerifyOTP, Enrol, Admit, RequestDeletion, RevokeAllForUser, UpdatePassword, EndSession, UserWithSetup;
  }

  /** The failure that a wrong code is written down as. */
  function FailureOf(cfg: Config, g: Gate): Effect {
    var at := g.Verdict(cfg).w.clock;
    WriteCredential(g.user, g.row.AfterFailure(cfg.otpMaxAttempts, cfg.otpLockout, at), Failed(at))
  }

  /** Whichever of the four callers evaluates a wrong code: it is recorded, as exactly one failure,
      if and only if the store does not refuse the write; a refused write changes no table, and
      whenever the write does not answer normally the caller learns only of an infrastructure
      failure. */
  lemma WrongCodeRecorded(cfg: Config, w: World, request: Request)
    requires GateOf(cfg, w, request).Some? && GateOf(cfg, w, request).value.IsWrong(cfg)
    ensures var g := GateOf(cfg, w, request).value;
            var o := Perform(cfg, w, request);
            && IsFailure(FailureOf(cfg, g), g.user)
            && (if g.WriteAnswer(cfg).Refused? then o.w.tables == w.tables
                else o.w.tables == Apply(w.tables, Turn(g.Verdict(cfg).w).clock, FailureOf(cfg, g)))
            && (if g.WriteAnswer(cfg).Done? then IsOtpError(o.r) else o.r == Err(Infra))
  {
    hide Totp.Matched, Perform, GateOf, Apply;
    var g := GateOf(cfg, w, request).value;
    GateDecides(cfg, w, request);
    ValidateOnlyReads(cfg, g);
  }

  lemma ValidateOnlyReads(cfg: Config, g: Gate)
    ensures g.Verdict(cfg).w.tables == g.w.tables
  {
    hide Totp.Matched;
  }

  // ----- over a run -----

  /** The call evaluates a wrong code of the user. */
  predicate Evaluates(cfg: Config, w: World, call: Call, user: Id) {
    var g := GateOf(cfg, Enter(w, call), call.request);
    g.Some? && g.value.user == user && g.value.IsWrong(cfg)
  }

  /** And the store refuses to record it. */
  predicate Forgets(cfg: Config, w: World, call: Call, user: Id) {
    Evaluates(cfg, w, call, user) && GateOf(cfg, Enter(w, call), call.request).value.WriteAnswer(cfg).Refused?
  }

  function WrongCodes(cfg: Config, w: World, calls: seq<Call>, user: Id): nat
    decreases |calls|
  {
    if calls == [] then 0
    else
      WrongCodes(cfg, Exec(cfg, w, calls[0]).w, calls[1..], user)
      + if Evaluates(cfg, w, calls[0], user) then 1 else 0
  }

  function RefusedWrites(cfg: Config, w: World, calls: seq<Call>, user: Id): nat
    decreases |calls|
  {
    if calls == [] then 0
    else
      RefusedWrites(cfg, Exec(cfg, w, calls[0]).w, calls[1..], user)
      + if Forgets(cfg, w, calls[0], user) then 1 else 0
  }

  lemma EvaluationRecorded(cfg: Config, w: World, call: Call, user: Id)
    requires WorldOk(cfg, [], w) && Evaluates(cfg, w, call, user) && !Forgets(cfg, w, call, user)
    ensures Failures(Exec(cfg, w, call).w.tables.log, |w.tables.log|, user) >= 1
  {
    hide Perform, GateOf, Legal, Replay, IsFailure;
    var w1 := Enter(w, call);
    EnterOneMore(w, call);
    WrongCodeRecorded(cfg, w1, call.request);
    var g := GateOf(cfg, w1, call.request).value;
    var e := FailureOf(cfg, g);
    ApplyAppends(w1.tables, Turn(g.Verdict(cfg).w).clock, e);
    var log := Exec(cfg, w, call).w.tables.log;
    FailuresSplit(log, |w.tables.log|, |w1.tables.log|, user);
    LastFailure(log, |w1.tables.log|, user);
  }

  /** Over any run, the wrong codes evaluated for a user are at most the failures recorded and
      the failure writes refused meanwhile. */
  lemma {:induction false} EvaluationsRecorded(cfg: Config, w: World, calls: seq<Call>, user: Id)
    requires WorldOk(cfg, [], w)
    ensures |w.tables.log| <= |Run(cfg, w, calls).tables.log|
    ensures WrongCodes(cfg, w, calls, user)
            <= Failures(Run(cfg, w, calls).tables.log, |w.tables.log|, user) + RefusedWrites(cfg, w, calls, user)
    decreases |calls|
  {
    hide Legal, Replay, Exec, Evaluates, Forgets, Failures;
    if calls != [] {
      var w1 := Exec(cfg, w, calls[0]).w;
      Rebased(cfg, w);
      ExecOk(cfg, w.tables.log, w, calls[0]);
      Rebased(cfg, w1);
      RunsAreLegal(cfg, w1.tables.log, w1, calls[1..]);
      EvaluationsRecorded(cfg, w1, calls[1..], user);
      var log := Run(cfg, w1, calls[1..]).tables.log;
      if Evaluates(cfg, w, calls[0], user) && !Forgets(cfg, w, calls[0], user) {
        EvaluationRecorded(cfg, w, calls[0], user);
      }
      assert log[..|w1.tables.log|] == w1.tables.log;
      FailuresSplit(log, |w.tables.log|, |w1.tables.log|, user);
    }
  }

  /** The guessing bound for every wrong code that is evaluated, whatever becomes of it: over any
      run that begins with the user's credential enabled and spans time W, at most
      M * (W / L + 1) + (M - 1) * s, and one more for each failure write that is refused. */
  lemma EvaluationsBounded(cfg: Config, w: World, calls: seq<Call>, user: Id)
    requires cfg.otpMaxAttempts >= 1 && cfg.otpLockout > 0 && calls != []
    requires WorldOk(cfg, [], w) && user in w.tables.credentials && w.tables.credentials[user].enabled
    ensures var v, begun := Run(cfg, w, calls), Enter(w, calls[0]).clock;
            && begun <= v.tables.last
            && WrongCodes(cfg, w, calls, user)
               <= cfg.otpMaxAttempts * ((v.tables.last - begun) / cfg.otpLockout + 1)
                  + (cfg.otpMaxAttempts - 1) * Successes(v.tables.log, |w.tables.log|, user)
                  + RefusedWrites(cfg, w, calls, user)
  {
    hide Legal, Replay, Run, Enter, WrongCodes, RefusedWrites, Failures, Successes;
    RunBudget(cfg, w, calls, user);
    EvaluationsRecorded(cfg, w, calls, user);
  }

  // ----- the last term cannot be dropped -----

  const REFUSAL: seq<Answer> := [Answer(Done, 0), Answer(Done, 0), Answer(Done, 0), Answer(Refused, 0)]

  /** At this moment the user's code is wrong, and the account is not locked. */
  predicate Guessable(cfg: Config, w: World, user: Id, code: string) {
    && user in w.tables.users && user in w.tables.credentials
    && var row := w.tables.credentials[user];
    && !row.IsLocked(w.clock)
    && (w.tables.users[user].email != DEMO_EMAIL || code != DEMO_CODE)
    && var matched := Totp.Matched(cfg.hotp, code, row.secret, w.clock);
    (matched.None? || row.IsCodeConsumed(matched.value))
  }

  lemma RefusedGuess(cfg: Config, w: World, user: Id, code: string)
    requires Guessable(cfg, w, user, code)
    ensures var call := Call(w.clock, REFUSAL, DoDelete(user, code));
            && Forgets(cfg, w, call, user)
            && Exec(cfg, w, call).w.tables == Enter(w, call).tables && Exec(cfg, w, call).w.clock == w.clock
  {
    hide Totp.Matched, Apply;
    var call := Call(w.clock, REFUSAL, DoDelete(user, code));
    BeginKeepsRows(w.tables, w.clock);
    var w1 := Enter(w, call);
    RefusalTurns(w1);
  }

  lemma BeginKeepsRows(s: Tables, at: nat)
    ensures var s1 := Apply(s, at, Begin); s1.users == s.users && s1.credentials == s.credentials
  {
  }

  lemma RefusalTurns(w: World)
    requires w.plan == REFUSAL
    ensures Turn(w) == w.(plan := REFUSAL[1..]) && Turn(Turn(w)) == w.(plan := REFUSAL[2..])
    ensures Turn(Turn(Turn(w))) == w.(plan := REFUSAL[3..])
  {
  }

  /** For every n there is a run of n calls in no time at all that evaluates n wrong codes of a
      user and records none of them: the refused writes are not bounded by anything else. */
  lemma {:induction false} UnrecordedGuesses(cfg: Config, w: World, user: Id, code: string, n: nat)
    returns (calls: seq<Call>)
    requires Guessable(cfg, w, user, code)
    ensures |calls| == n && WrongCodes(cfg, w, calls, user) == n == RefusedWrites(cfg, w, calls, user)
    ensures var v := Run(cfg, w, calls);
            && v.clock == w.clock && v.tables.credentials == w.tables.credentials
    decreases n
  {
    hide Perform, Evaluates, Apply, Totp.Matched;
    if n == 0 {
      calls := [];
    } else {
      var call := Call(w.clock, REFUSAL, DoDelete(user, code));
      RefusedGuess(cfg, w, user, code);
      BeginKeepsRows(w.tables, w.clock);
      var w1 := Exec(cfg, w, call).w;
      var rest := UnrecordedGuesses(cfg, w1, user, code, n - 1);
      calls := [call] + rest;
      assert calls[1..] == rest;
    }
  }
}
