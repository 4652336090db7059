/** A reset flow opened for no account cannot be told from one opened for an eligible
    account by anyone who cannot produce an accepted code. */
module ResetPrivacy {
  import opened Basics
  import opened Credentials
  import opened ResetFlows
  import opened Store
  import opened Repositories
  import opened AuthSpec
  import opened Protocol
  import opened Structure
  import opened Conformance
  import opened Lifecycle
  import Totp

  /** In s the flow belongs to nobody, in r to an account that exists and has an enabled
      credential; nothing else about the two flows differs. */
  predicate LookAlike(s: Tables, a: Id, r: Tables, b: Id) {
    && a in s.flows && b in r.flows
    && s.flows[a].user.None?
    && s.flows[a] == r.flows[b].(user := None)
    && r.flows[b].user.Some?
    && var user := r.flows[b].user.value;
    && user in r.users
    && user in r.credentials && r.credentials[user].enabled
  }

  /** The flow still takes codes when it is looked up. */
  predicate TakesCodes(cfg: Config, v: World, b: Id)
    requires b in v.tables.flows
  {
    var f := v.tables.flows[b];
    !f.IsExpired(Turn(v).clock) && !f.consumed && !f.otpVerified && !f.IsOTPLocked(cfg.resetFlowMaxAttempts)
  }

  /** The account accepts the code at the moment it is validated, four port calls in. */
  predicate AccountAccepts(cfg: Config, v: World, user: Id, code: string)
    requires user in v.tables.users && user in v.tables.credentials
  {
    || (v.tables.users[user].email == DEMO_EMAIL && code == DEMO_CODE)
    || (var row := v.tables.credentials[user];
        var matched := Totp.Matched(cfg.hotp, code, row.secret, Turn(Turn(Turn(Turn(v)))).clock);
        matched.Some? && !row.IsCodeConsumed(matched.value))
  }

  /** Whether the code is accepted, without port failures. */
  lemma CheckAnswer(cfg: Config, v: World, f: FlowRow, code: string)
    requires NoFaults(v.plan) && f.user.Some?
    requires f.user.value in v.tables.users
    requires f.user.value in v.tables.credentials && v.tables.credentials[f.user.value].enabled
    ensures var o := CheckResetCode(cfg, v, f, code);
            var row := v.tables.credentials[f.user.value];
            var matched := Totp.Matched(cfg.hotp, code, row.secret, Turn(Turn(Turn(v))).clock);
            var accepted := || (v.tables.users[f.user.value].email == DEMO_EMAIL && code == DEMO_CODE)
                            || (matched.Some? && !row.IsCodeConsumed(matched.value));
            && o.r == Ok(accepted) && NoFaults(o.w.plan)
            && (!accepted ==> o.w.tables == v.tables)
  {
    hide Turn, Ask, Totp.Matched, Apply, NoFaults;
    TurnNoFaults(v);
    TurnNoFaults(Turn(v));
    TurnNoFaults(Turn(Turn(v)));
    var w2 := ValidateOTP(cfg, Turn(Turn(v)), v.tables.users[f.user.value].email, v.tables.credentials[f.user.value],
                          code).w;
    TurnNoFaults(w2);
  }

  lemma MissAnswer(cfg: Config, w: World, flow: Id, f: FlowRow)
    requires NoFaults(w.plan) && flow in w.tables.flows
    ensures var o := UpdateFlow(w, flow, f, Missed);
            && o.r.Ok? && o.w.tables == Apply(w.tables, Turn(w).clock, WriteFlow(flow, f, Missed))
  {
    hide Apply;
    TurnNoFaults(w);
  }

  /** Two look-alike flows, asked at the same time with the same code, answer the same
      exactly when the code is not one the account accepts on a flow that takes codes; and
      then they stay look-alike. */
  lemma SameAnswer(cfg: Config, w: World, a: Id, v: World, b: Id, code: string)
    requires LookAlike(w.tables, a, v.tables, b) && w.clock == v.clock && w.plan == v.plan && NoFaults(w.plan)
    ensures var o, p := VerifyPasswordResetOTP(cfg, w, a, code), VerifyPasswordResetOTP(cfg, v, b, code);
            var accepted := TakesCodes(cfg, v, b) && AccountAccepts(cfg, v, v.tables.flows[b].user.value, code);
            && (o.r == p.r <==> !accepted)
            && (!accepted ==> LookAlike(o.w.tables, a, p.w.tables, b))
  {
    hide Turn, Ask, Totp.Matched, Apply, NoFaults, CheckResetCode, UpdateFlow, Draw;
    TurnNoFaults(w);
    TurnNoFaults(v);
    assert CheckResetCode(cfg, Turn(w), w.tables.flows[a], code) == Out(Turn(w), Ok(false)) by {
      UnownedNeverAccepts(cfg, Turn(w), w.tables.flows[a], code);
    }
    var f, g := w.tables.flows[a], v.tables.flows[b];
    CheckAnswer(cfg, Turn(v), g, code);
    MissAnswer(cfg, Turn(w), a, f.AfterFailure());
    var p2 := CheckResetCode(cfg, Turn(v), g, code);
    if p2.r == Ok(false) {
      MissAnswer(cfg, p2.w, b, g.AfterFailure());
      StillAlike(w.tables, a, v.tables, b, Turn(Turn(w)).clock, Turn(p2.w).clock);
    } else if p2.r == Ok(true) {
      OpenedAnswer(cfg, p2.w, b, g);
    }
  }

  lemma UnownedNeverAccepts(cfg: Config, w: World, f: FlowRow, code: string)
    requires f.user.None?
    ensures CheckResetCode(cfg, w, f, code) == Out(w, Ok(false))
  {
  }

  lemma OpenedAnswer(cfg: Config, w: World, flow: Id, f: FlowRow)
    requires NoFaults(w.plan)
    ensures var o3 := Draw(w);
            && o3.r.Ok?
            && var o4 := UpdateFlow(o3.w, flow, f.AfterVerified(o3.r.value, o3.w.clock + cfg.resetTokenTTL),
                                    Verified(o3.r.value));
            o4.r.Err? ==> o4.r == Err(NotFound)
  {
    hide Apply;
    TurnNoFaults(w);
    TurnNoFaults(Draw(w).w);
  }

  lemma StillAlike(s: Tables, a: Id, r: Tables, b: Id, t: nat, t': nat)
    requires LookAlike(s, a, r, b)
    ensures LookAlike(Apply(s, t, WriteFlow(a, s.flows[a].AfterFailure(), Missed)), a,
                      Apply(r, t', WriteFlow(b, r.flows[b].AfterFailure(), Missed)), b)
  {
  }

  // ----- any sequence of guesses, with other calls in between -----

  /** The flow is as it was, or its account is gone for good. */
  predicate FlowWaits(s: Tables, flow: Id, row: FlowRow) {
    && flow < s.top
    && (flow in s.flows ==> s.flows[flow] == row)
    && (flow !in s.flows ==> row.user.Some? && row.user.value !in s.users)
    && (row.user.Some? ==> row.user.value < s.top)
  }

  predicate WritesFlow(e: Effect, flow: Id) {
    e.WriteFlow? && e.flow == flow
  }

  lemma FlowWaitsStep(cfg: Config, s: Tables, at: nat, e: Effect, flow: Id, row: FlowRow)
    requires FlowWaits(s, flow, row) && Enabled(cfg, s, at, e) && !WritesFlow(e, flow)
    ensures FlowWaits(Apply(s, at, e), flow, row)
  {
    hide TokensAfter, CredentialsAfter, ChallengesAfter, MarkersAfter, JobsAfter;
  }

  lemma FlowWaitsFirst(s: Tables, flow: Id)
    requires Bounded(s) && Anchored(s) && flow in s.flows
    ensures FlowWaits(s, flow, s.flows[flow])
  {
  }

  lemma {:induction false} FlowWaitsOn(cfg: Config, log: seq<Entry>, i: nat, j: nat, flow: Id)
    requires Legal(cfg, log) && i <= j <= |log| && flow in Replay(log[..i]).flows
    requires forall m | i <= m < j :: !WritesFlow(log[m].what, flow)
    ensures FlowWaits(Replay(log[..j]), flow, Replay(log[..i]).flows[flow])
    decreases j
  {
    hide Legal, Replay, Enabled, Apply, FlowWaits, WritesFlow;
    if i == j {
      PrefixLegal(cfg, log, i);
      Structural(cfg, log[..i]);
      FlowWaitsFirst(Replay(log[..i]), flow);
    } else {
      FlowWaitsOn(cfg, log, i, j - 1, flow);
      EntryEnabled(cfg, log, j - 1);
      FlowWaitsStep(cfg, Replay(log[..j - 1]), log[j - 1].at, log[j - 1].what, flow, Replay(log[..i]).flows[flow]);
    }
  }

  /** Calls that do not write the flow: no attempt, verification or confirmation of it. */
  ghost predicate LeavesFlow(cfg: Config, w: World, calls: seq<Call>, flow: Id) {
    var log := Run(cfg, w, calls).tables.log;
    forall m | |w.tables.log| <= m < |log| :: !WritesFlow(log[m].what, flow)
  }

  lemma FlowAfter(cfg: Config, w: World, calls: seq<Call>, flow: Id)
    requires WorldOk(cfg, [], w) && flow in w.tables.flows && LeavesFlow(cfg, w, calls, flow)
    ensures WorldOk(cfg, [], Run(cfg, w, calls))
    ensures FlowWaits(Run(cfg, w, calls).tables, flow, w.tables.flows[flow])
  {
    hide Legal, Replay, Run, WritesFlow, FlowWaits;
    Rebased(cfg, w);
    RunsAreLegal(cfg, [], w, calls);
    RunsAreLegal(cfg, w.tables.log, w, calls);
    var log, i := Run(cfg, w, calls).tables.log, |w.tables.log|;
    assert log[..i] == w.tables.log && log[..|log|] == log;
    FlowWaitsOn(cfg, log, i, |log|, flow);
  }

  lemma StillEnrolled(cfg: Config, w: World, calls: seq<Call>, user: Id)
    requires WorldOk(cfg, [], w) && user in w.tables.credentials && w.tables.credentials[user].enabled
    ensures var s := Run(cfg, w, calls).tables;
            user in s.users ==> user in s.credentials && s.credentials[user].enabled
  {
    hide Legal, Replay, Run;
    Rebased(cfg, w);
    RunsAreLegal(cfg, w.tables.log, w, calls);
    var log, i := Run(cfg, w, calls).tables.log, |w.tables.log|;
    assert log[..i] == w.tables.log && log[..|log|] == log;
    EnrolmentIsStable(cfg, log, i, |log|, user);
  }

  /** Other calls that leave the two flows alone, and after which the account still exists, keep
      the flows look-alike. */
  lemma OthersKeepAlike(cfg: Config, w: World, a: Id, v: World, b: Id, lefts: seq<Call>, rights: seq<Call>)
    requires WorldOk(cfg, [], w) && WorldOk(cfg, [], v) && LookAlike(w.tables, a, v.tables, b)
    requires LeavesFlow(cfg, w, lefts, a) && LeavesFlow(cfg, v, rights, b)
    requires v.tables.flows[b].user.value in Run(cfg, v, rights).tables.users
    ensures LookAlike(Run(cfg, w, lefts).tables, a, Run(cfg, v, rights).tables, b)
    ensures var s := Run(cfg, v, rights).tables; b in s.flows && s.flows[b] == v.tables.flows[b]
    ensures WorldOk(cfg, [], Run(cfg, w, lefts)) && WorldOk(cfg, [], Run(cfg, v, rights))
  {
    hide WorldOk, Run, LeavesFlow;
    FlowAfter(cfg, w, lefts, a);
    FlowAfter(cfg, v, rights, b);
    StillEnrolled(cfg, v, rights, v.tables.flows[b].user.value);
  }

  datatype Guess = Guess(at: nat, plan: seq<Answer>, code: string)

  /** A guess, and the other calls that come before it. */
  datatype Attempt = Attempt(before: seq<Call>, guess: Guess)

  function Asking(guess: Guess, flow: Id): Call {
    Call(guess.at, guess.plan, DoVerifyReset(flow, guess.code))
  }

  /** The same guesses at the same times, which no port fails and which arrive when both worlds
      are idle; none is a code that the account accepts while its flow takes codes. The calls in
      between may differ, fail and do anything but write the two flows or remove the account. */
  ghost predicate Fruitless(cfg: Config, w: World, a: Id, v: World, b: Id, lefts: seq<Attempt>, rights: seq<Attempt>)
    requires b in v.tables.flows && v.tables.flows[b].user.Some?
    decreases |lefts|
  {
    && |lefts| == |rights|
    && (lefts != [] ==>
          var g, user := lefts[0].guess, v.tables.flows[b].user.value;
          var w1, v1 := Run(cfg, w, lefts[0].before), Run(cfg, v, rights[0].before);
          var w2, v2 := Enter(w1, Asking(g, a)), Enter(v1, Asking(g, b));
          && rights[0].guess == g
          && LeavesFlow(cfg, w, lefts[0].before, a) && LeavesFlow(cfg, v, rights[0].before, b)
          && NoFaults(g.plan) && w1.clock <= g.at && v1.clock <= g.at
          && user in v1.tables.users
          && b in v2.tables.flows && user in v2.tables.users && user in v2.tables.credentials
          && !(TakesCodes(cfg, v2, b) && AccountAccepts(cfg, v2, user, g.code))
          && var w3, v3 := Exec(cfg, w1, Asking(g, a)).w, Exec(cfg, v1, Asking(g, b)).w;
          && b in v3.tables.flows && v3.tables.flows[b].user.Some?
          && Fruitless(cfg, w3, a, v3, b, lefts[1..], rights[1..]))
  }

  /** The answers to the guesses. */
  function Answers(cfg: Config, w: World, flow: Id, attempts: seq<Attempt>): seq<Reply<Result>>
    decreases |attempts|
  {
    if attempts == [] then []
    else
      var o := Exec(cfg, Run(cfg, w, attempts[0].before), Asking(attempts[0].guess, flow));
      [o.r] + Answers(cfg, o.w, flow, attempts[1..])
  }

  /** For any times and any codes that are never accepted, and whatever other calls come in
      between, a flow for nobody and a flow for an eligible account give the same answers
      throughout, the lock included. */
  lemma {:induction false} SameAnswers(cfg: Config, w: World, a: Id, v: World, b: Id, lefts: seq<Attempt>,
                                       rights: seq<Attempt>)
    requires WorldOk(cfg, [], w) && WorldOk(cfg, [], v)
    requires LookAlike(w.tables, a, v.tables, b) && Fruitless(cfg, w, a, v, b, lefts, rights)
    ensures Answers(cfg, w, a, lefts) == Answers(cfg, v, b, rights)
    decreases |lefts|
  {
    hide VerifyPasswordResetOTP, TakesCodes, AccountAccepts, NoFaults, LookAlike, Apply, WorldOk, Run, LeavesFlow;
    if lefts != [] {
      var g := lefts[0].guess;
      var w1, v1 := Run(cfg, w, lefts[0].before), Run(cfg, v, rights[0].before);
      OthersKeepAlike(cfg, w, a, v, b, lefts[0].before, rights[0].before);
      EnterLookAlike(w1, a, v1, b, Asking(g, a), Asking(g, b));
      SameAnswer(cfg, Enter(w1, Asking(g, a)), a, Enter(v1, Asking(g, b)), b, g.code);
      ExecOk(cfg, [], w1, Asking(g, a));
      ExecOk(cfg, [], v1, Asking(g, b));
      SameAnswers(cfg, Exec(cfg, w1, Asking(g, a)).w, a, Exec(cfg, v1, Asking(g, b)).w, b, lefts[1..], rights[1..]);
    }
  }

  lemma EnterLookAlike(w: World, a: Id, v: World, b: Id, c: Call, d: Call)
    requires LookAlike(w.tables, a, v.tables, b)
    ensures LookAlike(Enter(w, c).tables, a, Enter(v, d).tables, b)
    ensures Enter(v, d).tables.flows == v.tables.flows && Enter(v, d).tables.users == v.tables.users
    ensures Enter(v, d).tables.credentials == v.tables.credentials
  {
  }
}
