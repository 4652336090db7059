/** Writes for different accounts touch different rows: they commute. */
module Independence {
  import opened Basics
  import opened Store

  /** The write concerns only rows of the user; rows it inserts are new. */
  predicate Concerns(s: Tables, e: Effect, user: Id) {
    match e
    case Begin => true
    case RevokeOne(t) => t in s.tokens && s.tokens[t].user == user
    case AddToken(t, row) => t !in s.tokens && row.user == user
    case AddChallenge(c, row) => c !in s.challenges && row.user == user
    case Consume(c) => c in s.challenges && s.challenges[c].user == user
    case AddFlow(f, row) => f !in s.flows && row.user == Some(user)
    case WriteFlow(f, row, _) => f in s.flows && s.flows[f].user == row.user == Some(user)
    case _ => e.user == user
  }

  /** The two writes do not insert a row under the same identifier: identifiers never repeat. */
  predicate DrawnApart(e: Effect, f: Effect) {
    && (e.AddToken? && f.AddToken? ==> e.token != f.token)
    && (e.AddChallenge? && f.AddChallenge? ==> e.challenge != f.challenge)
    && (e.AddFlow? && f.AddFlow? ==> e.flow != f.flow)
  }

  /** The same rows; only the history may be written in another order. */
  predicate SameRows(s: Tables, r: Tables) {
    && s.users == r.users && s.tokens == r.tokens && s.credentials == r.credentials && s.challenges == r.challenges
    && s.flows == r.flows && s.markers == r.markers && s.jobs == r.jobs && s.top == r.top
  }

  lemma TokensCommute(s: Tables, e: Effect, f: Effect, u: Id, v: Id)
    requires u != v && Concerns(s, e, u) && Concerns(s, f, v) && DrawnApart(e, f)
    ensures TokensAfter(TokensAfter(s.tokens, e), f) == TokensAfter(TokensAfter(s.tokens, f), e)
  {
  }

  lemma ChallengesCommute(s: Tables, e: Effect, f: Effect, u: Id, v: Id)
    requires u != v && Concerns(s, e, u) && Concerns(s, f, v) && DrawnApart(e, f)
    ensures ChallengesAfter(ChallengesAfter(s.challenges, e), f) == ChallengesAfter(ChallengesAfter(s.challenges, f), e)
  {
  }

  lemma FlowsCommute(s: Tables, e: Effect, f: Effect, u: Id, v: Id)
    requires u != v && Concerns(s, e, u) && Concerns(s, f, v) && DrawnApart(e, f)
    ensures FlowsAfter(FlowsAfter(s.flows, e), f) == FlowsAfter(FlowsAfter(s.flows, f), e)
  {
  }

  lemma AccountsCommute(s: Tables, e: Effect, f: Effect, u: Id, v: Id)
    requires u != v && Concerns(s, e, u) && Concerns(s, f, v)
    ensures UsersAfter(UsersAfter(s.users, e), f) == UsersAfter(UsersAfter(s.users, f), e)
  {
  }

  lemma CredentialsCommute(s: Tables, e: Effect, f: Effect, u: Id, v: Id)
    requires u != v && Concerns(s, e, u) && Concerns(s, f, v)
    ensures CredentialsAfter(CredentialsAfter(s.credentials, e), f)
            == CredentialsAfter(CredentialsAfter(s.credentials, f), e)
  {
  }

  lemma MarkersCommute(s: Tables, e: Effect, f: Effect, u: Id, v: Id)
    requires u != v && Concerns(s, e, u) && Concerns(s, f, v)
    ensures MarkersAfter(MarkersAfter(s.markers, e), f) == MarkersAfter(MarkersAfter(s.markers, f), e)
  {
  }

  lemma JobsCommute(s: Tables, e: Effect, f: Effect, u: Id, v: Id, at: nat, later: nat)
    requires u != v && Concerns(s, e, u) && Concerns(s, f, v)
    ensures JobsAfter(JobsAfter(s.jobs, at, e), later, f) == JobsAfter(JobsAfter(s.jobs, later, f), at, e)
  {
  }

  /** Two writes for different accounts leave the same rows in either order. */
  lemma WritesCommute(s: Tables, e: Effect, f: Effect, u: Id, v: Id, at: nat, later: nat)
    requires u != v && Concerns(s, e, u) && Concerns(s, f, v) && DrawnApart(e, f)
    ensures SameRows(Apply(Apply(s, at, e), later, f), Apply(Apply(s, later, f), at, e))
  {
    hide UsersAfter, TokensAfter, CredentialsAfter, ChallengesAfter, FlowsAfter, MarkersAfter, JobsAfter, Concerns,
         Bound;
    AccountsCommute(s, e, f, u, v);
    TokensCommute(s, e, f, u, v);
    CredentialsCommute(s, e, f, u, v);
    ChallengesCommute(s, e, f, u, v);
    FlowsCommute(s, e, f, u, v);
    MarkersCommute(s, e, f, u, v);
    JobsCommute(s, e, f, u, v, at, later);
  }

  /** One of them does not stop the other from concerning only its own account. */
  lemma StillConcerns(s: Tables, e: Effect, f: Effect, u: Id, v: Id, at: nat)
    requires u != v && Concerns(s, e, u) && Concerns(s, f, v) && DrawnApart(e, f)
    ensures Concerns(Apply(s, at, e), f, v)
  {
    hide UsersAfter, CredentialsAfter, MarkersAfter, JobsAfter, Bound;
  }

  // ----- the writes of two calls -----

  /** The tables after some writes. */
  function Written(s: Tables, es: seq<Entry>): Tables
    decreases |es|
  {
    if es == [] then s else Written(Apply(s, es[0].at, es[0].what), es[1..])
  }

  /** Every write of a call concerns only rows of the user, when it happens. */
  predicate AllConcern(s: Tables, es: seq<Entry>, user: Id)
    decreases |es|
  {
    es != [] ==> Concerns(s, es[0].what, user) && AllConcern(Apply(s, es[0].at, es[0].what), es[1..], user)
  }

  predicate AllDrawnApart(es: seq<Entry>, fs: seq<Entry>) {
    forall i, j | 0 <= i < |es| && 0 <= j < |fs| :: DrawnApart(es[i].what, fs[j].what)
  }

  lemma SameApplied(s: Tables, r: Tables, at: nat, e: Effect)
    requires SameRows(s, r)
    ensures SameRows(Apply(s, at, e), Apply(r, at, e))
  {
    hide UsersAfter, TokensAfter, CredentialsAfter, ChallengesAfter, FlowsAfter, MarkersAfter, JobsAfter, Bound;
  }

  lemma {:induction false} SameWritten(s: Tables, r: Tables, es: seq<Entry>)
    requires SameRows(s, r)
    ensures SameRows(Written(s, es), Written(r, es))
    decreases |es|
  {
    hide Apply, SameRows;
    if es != [] {
      SameApplied(s, r, es[0].at, es[0].what);
      SameWritten(Apply(s, es[0].at, es[0].what), Apply(r, es[0].at, es[0].what), es[1..]);
    }
  }

  lemma SameConcern(s: Tables, r: Tables, e: Effect, user: Id)
    requires SameRows(s, r) && Concerns(s, e, user)
    ensures Concerns(r, e, user)
  {
  }

  lemma {:induction false} SameAllConcern(s: Tables, r: Tables, es: seq<Entry>, user: Id)
    requires SameRows(s, r) && AllConcern(s, es, user)
    ensures AllConcern(r, es, user)
    decreases |es|
  {
    hide Apply, SameRows, Concerns;
    if es != [] {
      SameConcern(s, r, es[0].what, user);
      SameApplied(s, r, es[0].at, es[0].what);
      SameAllConcern(Apply(s, es[0].at, es[0].what), Apply(r, es[0].at, es[0].what), es[1..], user);
    }
  }

  lemma SameTransitive(s: Tables, r: Tables, q: Tables)
    requires SameRows(s, r) && SameRows(r, q)
    ensures SameRows(s, q)
  {
  }

  /** A write moves behind the writes of another account's call, which go on concerning only that
      account. */
  lemma {:induction false} MoveBehind(s: Tables, at: nat, e: Effect, fs: seq<Entry>, u: Id, v: Id)
    requires u != v && Concerns(s, e, u) && AllConcern(s, fs, v) && AllDrawnApart([Entry(at, e)], fs)
    ensures SameRows(Written(Apply(s, at, e), fs), Apply(Written(s, fs), at, e))
    ensures AllConcern(Apply(s, at, e), fs, v) && Concerns(Written(s, fs), e, u)
    decreases |fs|
  {
    hide Apply, SameRows, Concerns, DrawnApart;
    if fs == [] {
      SameAlways(Apply(s, at, e));
    } else {
      var f, later, rest := fs[0].what, fs[0].at, fs[1..];
      assert DrawnApart([Entry(at, e)][0].what, fs[0].what);
      forall i, j | 0 <= i < 1 && 0 <= j < |rest|
        ensures DrawnApart([Entry(at, e)][i].what, rest[j].what)
      {
        assert rest[j] == fs[j + 1];
      }
      var s1 := Apply(s, later, f);
      WritesCommute(s, e, f, u, v, at, later);
      StillConcerns(s, e, f, u, v, at);
      ApartEither(e, f);
      StillConcerns(s, f, e, v, u, later);
      MoveBehind(s1, at, e, rest, u, v);
      SameEither(Apply(Apply(s, at, e), later, f), Apply(s1, at, e));
      SameWritten(Apply(Apply(s, at, e), later, f), Apply(s1, at, e), rest);
      SameTransitive(Written(Apply(Apply(s, at, e), later, f), rest), Written(Apply(s1, at, e), rest),
                     Apply(Written(s1, rest), at, e));
      SameAllConcern(Apply(s1, at, e), Apply(Apply(s, at, e), later, f), rest, v);
    }
  }

  lemma SameAlways(s: Tables)
    ensures SameRows(s, s)
  {
  }

  lemma SameEither(s: Tables, r: Tables)
    requires SameRows(s, r)
    ensures SameRows(r, s)
  {
  }

  lemma ApartEither(e: Effect, f: Effect)
    requires DrawnApart(e, f)
    ensures DrawnApart(f, e)
  {
  }

  /** The writes of two calls for different accounts leave the same rows whichever call's come
      first. */
  lemma {:induction false} CallsWritesCommute(s: Tables, es: seq<Entry>, fs: seq<Entry>, u: Id, v: Id)
    requires u != v && AllConcern(s, es, u) && AllConcern(s, fs, v) && AllDrawnApart(es, fs)
    ensures SameRows(Written(Written(s, es), fs), Written(Written(s, fs), es))
    decreases |es|
  {
    hide Apply, SameRows, Concerns, DrawnApart;
    if es == [] {
      SameAlways(Written(s, fs));
    } else {
      var e, at, rest := es[0].what, es[0].at, es[1..];
      forall i, j | 0 <= i < 1 && 0 <= j < |fs|
        ensures DrawnApart([Entry(at, e)][i].what, fs[j].what)
      {
        assert DrawnApart(es[0].what, fs[j].what);
      }
      forall i, j | 0 <= i < |rest| && 0 <= j < |fs|
        ensures DrawnApart(rest[i].what, fs[j].what)
      {
        assert rest[i] == es[i + 1];
      }
      var s1 := Apply(s, at, e);
      MoveBehind(s, at, e, fs, u, v);
      CallsWritesCommute(s1, rest, fs, u, v);
      SameWritten(Written(s1, fs), Apply(Written(s, fs), at, e), rest);
      SameTransitive(Written(Written(s1, rest), fs), Written(Written(s1, fs), rest),
                     Written(Apply(Written(s, fs), at, e), rest));
    }
  }
}
