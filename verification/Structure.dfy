/** Structural invariants of every reachable state: identifiers in use are below `top`,
    dependent rows belong to existing accounts, emails are unique. */
module Structure {
  import opened Basics
  import opened Store
  import opened AuthSpec
  import opened Protocol

  predicate Bounded(s: Tables) {
    IdsBounded(s) && SetupBounded(s) && ResetBounded(s) && CreatedBounded(s)
  }

  predicate IdsBounded(s: Tables) {
    && (forall t | t in s.tokens :: t < s.top)
    && (forall u | u in s.users :: u < s.top)
    && (forall c | c in s.challenges :: c < s.top)
    && (forall f | f in s.flows :: f < s.top)
    && (forall u | u in s.markers :: s.markers[u].session < s.top)
  }

  predicate SetupBounded(s: Tables) {
    forall u | u in s.credentials && s.credentials[u].setup.Some? :: s.credentials[u].setup.value.token < s.top
  }

  predicate ResetBounded(s: Tables) {
    forall f | f in s.flows && s.flows[f].reset.Some? :: s.flows[f].reset.value.token < s.top
  }

  predicate CreatedBounded(s: Tables) {
    forall i | 0 <= i < |s.log| && s.log[i].what.AddToken? :: s.log[i].what.token < s.top
  }

  /** Rows that reference an account reference an existing one. */
  predicate Anchored(s: Tables) {
    AccountsAnchored(s) && RequestsAnchored(s)
  }

  predicate AccountsAnchored(s: Tables) {
    && (forall u | u in s.credentials :: u in s.users)
    && (forall t | t in s.tokens :: s.tokens[t].user in s.users)
  }

  predicate RequestsAnchored(s: Tables) {
    && (forall c | c in s.challenges :: s.challenges[c].user in s.users)
    && (forall f | f in s.flows && s.flows[f].user.Some? :: s.flows[f].user.value in s.users)
  }

  predicate EmailsUnique(s: Tables) {
    forall u, v | u in s.users && v in s.users && s.users[u].email == s.users[v].email :: u == v
  }

  lemma IdsBoundedStep(cfg: Config, s: Tables, at: nat, e: Effect)
    requires IdsBounded(s) && Enabled(cfg, s, at, e)
    ensures IdsBounded(Apply(s, at, e))
  {
    hide CredentialsAfter, JobsAfter;
  }

  lemma SetupBoundedStep(cfg: Config, s: Tables, at: nat, e: Effect)
    requires SetupBounded(s) && Enabled(cfg, s, at, e)
    ensures SetupBounded(Apply(s, at, e))
  {
    hide UsersAfter, TokensAfter, ChallengesAfter, FlowsAfter, MarkersAfter, JobsAfter;
  }

  lemma ResetBoundedStep(cfg: Config, s: Tables, at: nat, e: Effect)
    requires ResetBounded(s) && Enabled(cfg, s, at, e)
    ensures ResetBounded(Apply(s, at, e))
  {
    hide UsersAfter, TokensAfter, CredentialsAfter, ChallengesAfter, MarkersAfter, JobsAfter;
  }

  lemma CreatedBoundedStep(cfg: Config, s: Tables, at: nat, e: Effect)
    requires IdsBounded(s) && CreatedBounded(s) && Enabled(cfg, s, at, e)
    ensures CreatedBounded(Apply(s, at, e))
  {
    hide UsersAfter, TokensAfter, CredentialsAfter, ChallengesAfter, FlowsAfter, MarkersAfter, JobsAfter;
  }

  lemma AccountsAnchoredStep(cfg: Config, s: Tables, at: nat, e: Effect)
    requires AccountsAnchored(s) && Enabled(cfg, s, at, e)
    ensures AccountsAnchored(Apply(s, at, e))
  {
    hide ChallengesAfter, FlowsAfter, MarkersAfter, JobsAfter;
  }

  lemma RequestsAnchoredStep(cfg: Config, s: Tables, at: nat, e: Effect)
    requires RequestsAnchored(s) && Enabled(cfg, s, at, e)
    ensures RequestsAnchored(Apply(s, at, e))
  {
    hide TokensAfter, CredentialsAfter, MarkersAfter, JobsAfter;
  }

  lemma EmailsUniqueStep(cfg: Config, s: Tables, at: nat, e: Effect)
    requires EmailsUnique(s) && Enabled(cfg, s, at, e)
    ensures EmailsUnique(Apply(s, at, e))
  {
    hide TokensAfter, CredentialsAfter, ChallengesAfter, FlowsAfter, MarkersAfter, JobsAfter;
  }

  lemma {:induction false} Structural(cfg: Config, log: seq<Entry>)
    requires Legal(cfg, log)
    ensures Bounded(Replay(log)) && Anchored(Replay(log)) && EmailsUnique(Replay(log))
  {
    hide Enabled, Apply;
    if log != [] {
      var n := |log| - 1;
      Structural(cfg, log[..n]);
      IdsBoundedStep(cfg, Replay(log[..n]), log[n].at, log[n].what);
      SetupBoundedStep(cfg, Replay(log[..n]), log[n].at, log[n].what);
      ResetBoundedStep(cfg, Replay(log[..n]), log[n].at, log[n].what);
      CreatedBoundedStep(cfg, Replay(log[..n]), log[n].at, log[n].what);
      AccountsAnchoredStep(cfg, Replay(log[..n]), log[n].at, log[n].what);
      RequestsAnchoredStep(cfg, Replay(log[..n]), log[n].at, log[n].what);
      EmailsUniqueStep(cfg, Replay(log[..n]), log[n].at, log[n].what);
    }
  }
}
