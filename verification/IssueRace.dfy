/** Two issues of a session for one account, their port calls interleaved in any order, each
    answered in any way: exactly when two live tokens are left. */
module IssueRace {
  import opened Basics
  import opened Store
  import opened Sessions
  import opened LogoutRace

  /** A port call of the first or of the second issue. */
  datatype DuelMove = First(kind: Kind, at: nat) | Second(kind: Kind, at: nat)

  datatype Duel = Duel(s: Tables, a: Issue, b: Issue)

  function Advanced(a: Setting, b: Setting, d: Duel, t: DuelMove): Duel {
    match t
    case First(kind, at) => var (s, issue) := IssueStep(a, d.s, d.a, kind, at); Duel(s, issue, d.b)
    case Second(kind, at) => var (s, issue) := IssueStep(b, d.s, d.b, kind, at); Duel(s, d.a, issue)
  }

  function Dueled(a: Setting, b: Setting, s0: Tables, turns: seq<DuelMove>): Duel {
    if turns == [] then Duel(s0, Ready, Ready)
    else
      var n := |turns| - 1;
      Advanced(a, b, Dueled(a, b, s0, turns[..n]), turns[n])
  }

  /** The turn is the other issue's first write, the revocation of the user's tokens, and the
      first issue's token is already stored. */
  predicate KillsFirst(a: Setting, d: Duel, t: DuelMove) {
    t.Second? && !t.kind.Refused? && d.b.Ready? && a.token in d.s.tokens
  }

  predicate KillsSecond(b: Setting, d: Duel, t: DuelMove) {
    t.First? && !t.kind.Refused? && d.a.Ready? && b.token in d.s.tokens
  }

  /** Turn k begins one issue after the other's token is stored. */
  predicate Kills(a: Setting, b: Setting, s0: Tables, turns: seq<DuelMove>, k: nat)
    requires k < |turns|
  {
    var d := Dueled(a, b, s0, turns[..k]);
    KillsFirst(a, d, turns[k]) || KillsSecond(b, d, turns[k])
  }

  /** What is known of an issue's token: it is stored only once the issue is past its activation,
      for its user, and it is revoked exactly if `killed`. */
  predicate TokenIs(x: Setting, s: Tables, issue: Issue, killed: bool) {
    && (issue.Ready? || issue.Killed? || issue.Active? ==> x.token !in s.tokens)
    && (x.token !in s.tokens ==> !killed)
    && (x.token in s.tokens ==> s.tokens[x.token].user == x.user && s.tokens[x.token].revoked == killed)
  }

  /** An issue's own move neither revokes its token nor stores another's. */
  lemma OwnMove(x: Setting, s: Tables, issue: Issue, killed: bool, kind: Kind, at: nat)
    requires TokenIs(x, s, issue, killed)
    ensures var (s1, issue1) := IssueStep(x, s, issue, kind, at); TokenIs(x, s1, issue1, killed)
  {
    hide UsersAfter, CredentialsAfter, ChallengesAfter, FlowsAfter, MarkersAfter, JobsAfter, Bound;
  }

  /** The other issue's move revokes the token exactly if it is the other's first write and the
      token is stored. */
  lemma OtherMove(x: Setting, y: Setting, s: Tables, issue: Issue, other: Issue, killed: bool, kind: Kind, at: nat)
    requires x.user == y.user && x.token != y.token && TokenIs(x, s, issue, killed)
    ensures var s1 := IssueStep(y, s, other, kind, at).0;
            TokenIs(x, s1, issue, killed || (!kind.Refused? && other.Ready? && x.token in s.tokens))
  {
    hide UsersAfter, CredentialsAfter, ChallengesAfter, FlowsAfter, MarkersAfter, JobsAfter, Bound;
  }

  ghost predicate FirstKilled(a: Setting, b: Setting, s0: Tables, turns: seq<DuelMove>) {
    exists k | 0 <= k < |turns| :: KillsFirst(a, Dueled(a, b, s0, turns[..k]), turns[k])
  }

  ghost predicate SecondKilled(a: Setting, b: Setting, s0: Tables, turns: seq<DuelMove>) {
    exists k | 0 <= k < |turns| :: KillsSecond(b, Dueled(a, b, s0, turns[..k]), turns[k])
  }

  lemma KilledOn(a: Setting, b: Setting, s0: Tables, turns: seq<DuelMove>)
    requires turns != []
    ensures var n := |turns| - 1;
            var d := Dueled(a, b, s0, turns[..n]);
            && (FirstKilled(a, b, s0, turns) <==> FirstKilled(a, b, s0, turns[..n]) || KillsFirst(a, d, turns[n]))
            && (SecondKilled(a, b, s0, turns) <==> SecondKilled(a, b, s0, turns[..n]) || KillsSecond(b, d, turns[n]))
  {
    hide Dueled;
    var n := |turns| - 1;
    forall k | 0 <= k < n
      ensures turns[..n][..k] == turns[..k] && turns[..n][k] == turns[k]
    {
    }
    if FirstKilled(a, b, s0, turns[..n]) {
      var k :| 0 <= k < n && KillsFirst(a, Dueled(a, b, s0, turns[..n][..k]), turns[..n][k]);
      assert KillsFirst(a, Dueled(a, b, s0, turns[..k]), turns[k]);
    }
    if SecondKilled(a, b, s0, turns[..n]) {
      var k :| 0 <= k < n && KillsSecond(b, Dueled(a, b, s0, turns[..n][..k]), turns[..n][k]);
      assert KillsSecond(b, Dueled(a, b, s0, turns[..k]), turns[k]);
    }
    if FirstKilled(a, b, s0, turns) {
      var k :| 0 <= k < |turns| && KillsFirst(a, Dueled(a, b, s0, turns[..k]), turns[k]);
      assert k < n ==> KillsFirst(a, Dueled(a, b, s0, turns[..n][..k]), turns[..n][k]);
    }
    if SecondKilled(a, b, s0, turns) {
      var k :| 0 <= k < |turns| && KillsSecond(b, Dueled(a, b, s0, turns[..k]), turns[k]);
      assert k < n ==> KillsSecond(b, Dueled(a, b, s0, turns[..n][..k]), turns[..n][k]);
    }
  }

  lemma {:induction false} TokensAre(a: Setting, b: Setting, s0: Tables, turns: seq<DuelMove>)
    requires a.user == b.user && a.token != b.token && a.token !in s0.tokens && b.token !in s0.tokens
    ensures var d := Dueled(a, b, s0, turns);
            && TokenIs(a, d.s, d.a, FirstKilled(a, b, s0, turns))
            && TokenIs(b, d.s, d.b, SecondKilled(a, b, s0, turns))
  {
    hide IssueStep, FirstKilled, SecondKilled, TokenIs;
    if turns == [] {
      NoneKilled(a, b, s0);
    } else {
      var n := |turns| - 1;
      var d := Dueled(a, b, s0, turns[..n]);
      TokensAre(a, b, s0, turns[..n]);
      KilledOn(a, b, s0, turns);
      var first, second := FirstKilled(a, b, s0, turns[..n]), SecondKilled(a, b, s0, turns[..n]);
      match turns[n]
      case First(kind, at) =>
        OwnMove(a, d.s, d.a, first, kind, at);
        OtherMove(b, a, d.s, d.b, d.a, second, kind, at);
      case Second(kind, at) =>
        OwnMove(b, d.s, d.b, second, kind, at);
        OtherMove(a, b, d.s, d.a, d.b, first, kind, at);
    }
  }

  lemma NoneKilled(a: Setting, b: Setting, s0: Tables)
    requires a.token !in s0.tokens && b.token !in s0.tokens
    ensures TokenIs(a, s0, Ready, FirstKilled(a, b, s0, [])) && TokenIs(b, s0, Ready, SecondKilled(a, b, s0, []))
  {
  }

  /** One live session for each user fails under exactly these interleavings of two issues for
      one account: both tokens have been stored, and neither issue began, by a revocation that
      was not refused, after the other's token was stored. */
  lemma TwoLiveExactly(a: Setting, b: Setting, s0: Tables, turns: seq<DuelMove>)
    requires a.user == b.user && a.token != b.token && a.token !in s0.tokens && b.token !in s0.tokens
    ensures var s := Dueled(a, b, s0, turns).s;
            Live(s, a.token) && Live(s, b.token) <==>
              && a.token in s.tokens && b.token in s.tokens
              && !exists k | 0 <= k < |turns| :: Kills(a, b, s0, turns, k)
  {
    hide Dueled, KillsFirst, KillsSecond;
    TokensAre(a, b, s0, turns);
    if FirstKilled(a, b, s0, turns) {
      var k :| 0 <= k < |turns| && KillsFirst(a, Dueled(a, b, s0, turns[..k]), turns[k]);
      assert Kills(a, b, s0, turns, k);
    }
    if SecondKilled(a, b, s0, turns) {
      var k :| 0 <= k < |turns| && KillsSecond(b, Dueled(a, b, s0, turns[..k]), turns[k]);
      assert Kills(a, b, s0, turns, k);
    }
  }

  /** What the moves of an issue leave for another: users as they were, and its own token live
      once stored. */
  lemma IssueMoves(a: Setting, s: Tables, at: nat, previous: Option<Id>)
    ensures var (s1, issue) := IssueStep(a, s, Ready, Done, at); issue.Killed? && s1.users == s.users
    ensures var (s1, issue) := IssueStep(a, s, Killed, Done, at);
            issue.Active? && s1.users == s.users && s1.tokens == s.tokens
    ensures a.user in s.users ==>
              var s1 := IssueStep(a, s, Active(previous), Done, at).0;
              && s1.users == s.users
              && s1.tokens == s.tokens[a.token := RefreshToken(a.user, a.expiresAt, false)]
  {
    hide CredentialsAfter, ChallengesAfter, FlowsAfter, JobsAfter, Bound, RevokedFor;
  }

  lemma TurnOn(a: Setting, b: Setting, s0: Tables, turns: seq<DuelMove>, t: DuelMove)
    ensures Dueled(a, b, s0, turns + [t]) == Advanced(a, b, Dueled(a, b, s0, turns), t)
  {
    hide Advanced;
    var longer := turns + [t];
    assert longer[..|longer| - 1] == turns;
  }

  /** Such an interleaving: the two issues revoke, activate and store in turns, and nothing
      fails. */
  lemma TwoIssuesTwoTokens(a: Setting, b: Setting, s: Tables, at: nat)
    requires a.user == b.user && a.user in s.users && a.token != b.token
    ensures var f, g := First(Done, at), Second(Done, at);
            var s6 := Dueled(a, b, s, [f] + [g] + [f] + [g] + [f] + [g]).s;
            && Live(s6, a.token) && Live(s6, b.token)
            && s6.tokens[a.token].user == s6.tokens[b.token].user == a.user
  {
    hide IssueStep, Dueled;
    var f, g := First(Done, at), Second(Done, at);
    NotBegun(a, b, s);
    TurnOn(a, b, s, [], f);
    TurnOn(a, b, s, [f], g);
    TurnOn(a, b, s, [f] + [g], f);
    TurnOn(a, b, s, [f] + [g] + [f], g);
    TurnOn(a, b, s, [f] + [g] + [f] + [g], f);
    TurnOn(a, b, s, [f] + [g] + [f] + [g] + [f], g);
    assert [] + [f] == [f];
    var d1 := Dueled(a, b, s, [f]);
    var d2 := Advanced(a, b, d1, g);
    var d3 := Advanced(a, b, d2, f);
    var d4 := Advanced(a, b, d3, g);
    IssueMoves(a, s, at, None);
    IssueMoves(b, d1.s, at, None);
    IssueMoves(a, d2.s, at, None);
    IssueMoves(b, d3.s, at, None);
    IssueMoves(a, d4.s, at, d4.a.previous);
    IssueMoves(b, Advanced(a, b, d4, f).s, at, d4.b.previous);
  }

  lemma NotBegun(a: Setting, b: Setting, s: Tables)
    ensures Dueled(a, b, s, []) == Duel(s, Ready, Ready)
  {
  }
}
