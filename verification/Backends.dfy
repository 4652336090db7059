/** The database, the session store and the environment as an object that requests change in
    place: every operation is one port call, which takes the next answer of the plan. */
module Backends {
  import opened Basics
  import opened Credentials
  import opened ResetFlows
  import opened DeletionJobs
  import opened Store
  import Repositories

  // ----- which tables the two transactions change -----

  lemma OnlyDeletion(s: Tables, at: nat, user: Id)
    requires user in s.users
    ensures Apply(s, at, AskDeletion(user))
            == s.(users := s.users[user := s.users[user].(deletionPending := true)],
                  tokens := RevokedFor(s.tokens, user),
                  jobs := if user in s.jobs then s.jobs else s.jobs[user := NewJob(at)],
                  log := s.log + [Entry(at, AskDeletion(user))], last := at)
  {
    hide RevokedFor, NewJob;
  }

  lemma OnlyRows(s: Tables, at: nat, user: Id)
    ensures Apply(s, at, DropUser(user))
            == s.(users := s.users - {user}, tokens := TokensWithout(s.tokens, user),
                  credentials := s.credentials - {user},
                  challenges := ChallengesWithout(s.challenges, user), flows := FlowsWithout(s.flows, user),
                  log := s.log + [Entry(at, DropUser(user))], last := at)
  {
    hide TokensWithout, ChallengesWithout, FlowsWithout;
  }

  class Backend {
    var users: map<Id, User>
    var tokens: map<Id, RefreshToken>
    var credentials: map<Id, CredentialRow>
    var challenges: map<Id, LoginChallenge>
    var flows: map<Id, FlowRow>
    var markers: map<Id, Marker>
    var jobs: map<Id, Job>
    var top: Id
    var clock: nat
    var plan: seq<Answer>
    var next: Id
    ghost var log: seq<Entry>
    ghost var last: nat

    ghost function State(): World
      reads this
    {
      World(Tables(users, tokens, credentials, challenges, flows, markers, jobs, log, top, last), clock, plan, next)
    }

    constructor ()
      ensures State() == World(EMPTY, 0, [], 0)
    {
      users, tokens, credentials, challenges := map[], map[], map[], map[];
      flows, markers, jobs := map[], map[], map[];
      top, clock, plan, next := 0, 0, [], 0;
      log, last := [], 0;
    }

    /** Takes the next answer; the call lasts as long as it says. */
    method Answer() returns (kind: Kind)
      modifies this`clock, this`plan
      ensures kind == Head(old(plan)).kind && State() == Turn(old(State()))
    {
      if plan == [] {
        return Done;
      }
      kind := plan[0].kind;
      clock := clock + plan[0].wait;
      plan := plan[1..];
    }

    /** Notes a write in the history. */
    method Record(ghost e: Effect, bound: Id)
      requires bound == Bound(e)
      modifies this`log, this`last, this`top
      ensures log == old(log) + [Entry(clock, e)] && last == clock && top == Max(old(top), bound)
    {
      log, last := log + [Entry(clock, e)], clock;
      top := Max(top, bound);
    }

    /** A call into a library, or the database itself, that may fail. */
    method Ask() returns (r: Reply<()>)
      modifies this`clock, this`plan
      ensures Out(State(), r) == Store.Ask(old(State()))
    {
      var kind := Answer();
      return if kind.Done? then Ok(()) else Err(Infra);
    }

    method Draw() returns (r: Reply<Id>)
      modifies this`clock, this`plan, this`next
      ensures Out(State(), r) == Store.Draw(old(State()))
    {
      var _ :- Ask();
      r := Ok(next);
      next := next + 1;
    }

    /** A random row identifier; drawing one cannot fail. */
    method NewId() returns (id: Id)
      modifies this`next
      ensures id == old(next) && State() == old(State()).(next := old(next) + 1)
    {
      id := next;
      next := next + 1;
    }

    method Note(ghost e: Effect)
      requires e.Begin? || e.Schedule? || e.Deliver?
      modifies this`log, this`last, this`top
      ensures State() == Store.Note(old(State()), e)
    {
      Record(e, 0);
    }

    // ----- users -----

    method CreateUser(user: Id, email: string, password: string) returns (r: Reply<()>)
      modifies this
      ensures Out(State(), r) == Repositories.CreateUser(old(State()), user, email, password)
    {
      hide Turn;
      ghost var w := State();
      var kind := Answer();
      if exists u | u in users :: users[u].email == email {
        return if kind.Done? then Err(EmailTaken) else Err(Infra);
      }
      if !kind.Refused? {
        users := users[user := User(email, password, false)];
        Record(AddUser(user, email, password), user + 1);
        assert State() == Store.Note(Turn(w), AddUser(user, email, password));
      }
      return if kind.Done? then Ok(()) else Err(Infra);
    }

    method GetUserByEmail(email: string) returns (r: Reply<Id>)
      modifies this`clock, this`plan
      ensures Out(State(), r) == Repositories.GetUserByEmail(old(State()), email)
    {
      var _ :- Ask();
      var found := Repositories.UserWithEmail(users, email, top);
      return if found.Some? then Ok(found.value) else Err(NotFound);
    }

    method GetUser(user: Id) returns (r: Reply<User>)
      modifies this`clock, this`plan
      ensures Out(State(), r) == Repositories.GetUser(old(State()), user)
    {
      var _ :- Ask();
      return if user in users then Ok(users[user]) else Err(NotFound);
    }

    method UpdatePassword(user: Id, password: string, ghost origin: PasswordChange) returns (r: Reply<()>)
      modifies this
      ensures Out(State(), r) == Repositories.UpdatePassword(old(State()), user, password, origin)
    {
      hide Turn;
      ghost var w := State();
      var kind := Answer();
      if user !in users {
        return if kind.Done? then Err(NotFound) else Err(Infra);
      }
      if !kind.Refused? {
        users := users[user := users[user].(password := password)];
        Record(SetPassword(user, password, origin), 0);
        assert State() == Store.Note(Turn(w), SetPassword(user, password, origin));
      }
      return if kind.Done? then Ok(()) else Err(Infra);
    }

    // ----- credentials -----

    method CreateCredential(credential: Credential, ghost token: Id) returns (r: Reply<()>)
      requires credential.setup.Some? && credential.setup.value.token == token
      modifies this
      ensures Out(State(), r) == Repositories.CreateCredential(old(State()), credential.userId, credential.Row(), token)
    {
      hide Turn;
      ghost var w := State();
      var kind := Answer();
      if credential.userId !in users || credential.userId in credentials {
        return Err(Infra);
      }
      if !kind.Refused? {
        credentials := credentials[credential.userId := credential.Row()];
        Record(WriteCredential(credential.userId, credential.Row(), Started(token)),
               Max(credential.secret, credential.setup.value.token) + 1);
        assert State() == Store.Note(Turn(w), WriteCredential(credential.userId, credential.Row(), Started(token)));
      }
      return if kind.Done? then Ok(()) else Err(Infra);
    }

    /** A fresh in-memory copy of the row. */
    method GetCredential(user: Id) returns (r: Reply<Credential>)
      modifies this`clock, this`plan
      ensures Out(State(), if r.Ok? then Ok(r.value.Row()) else Err(r.error))
              == Repositories.GetCredential(old(State()), user)
      ensures r.Ok? ==> fresh(r.value) && r.value.userId == user
    {
      var _ :- Ask();
      if user !in credentials {
        return Err(NotFound);
      }
      var credential := new Credential.Load(user, credentials[user]);
      return Ok(credential);
    }

    method GetBySetupToken(token: Id) returns (r: Reply<Credential>)
      modifies this`clock, this`plan
      ensures Out(State(), if r.Ok? then Ok(r.value.userId) else Err(r.error))
              == Repositories.GetBySetupToken(old(State()), token)
      ensures r.Ok? ==> fresh(r.value) && r.value.userId in credentials && r.value.Row() == credentials[r.value.userId]
    {
      var _ :- Ask();
      var found := Repositories.UserWithSetup(credentials, token, top);
      if found.None? {
        return Err(NotFound);
      }
      var credential := new Credential.Load(found.value, credentials[found.value]);
      return Ok(credential);
    }

    method UpdateCredential(credential: Credential, ghost why: CredentialWrite, bound: Id) returns (r: Reply<()>)
      requires bound == Bound(WriteCredential(credential.userId, credential.Row(), why))
      modifies this
      ensures Out(State(), r) == Repositories.UpdateCredential(old(State()), credential.userId, credential.Row(), why)
    {
      hide Turn;
      ghost var w := State();
      var kind := Answer();
      if credential.userId !in credentials {
        return if kind.Done? then Err(NotFound) else Err(Infra);
      }
      if !kind.Refused? {
        credentials := credentials[credential.userId := credential.Row()];
        Record(WriteCredential(credential.userId, credential.Row(), why), bound);
        assert State() == Store.Note(Turn(w), WriteCredential(credential.userId, credential.Row(), why));
      }
      return if kind.Done? then Ok(()) else Err(Infra);
    }

    // ----- refresh tokens -----

    method CreateToken(token: Id, row: RefreshToken) returns (r: Reply<()>)
      modifies this
      ensures Out(State(), r) == Repositories.CreateToken(old(State()), token, row)
    {
      hide Turn;
      ghost var w := State();
      var kind := Answer();
      if row.user !in users {
        return Err(Infra);
      }
      if !kind.Refused? {
        tokens := tokens[token := row];
        Record(AddToken(token, row), 0);
        assert State() == Store.Note(Turn(w), AddToken(token, row));
      }
      return if kind.Done? then Ok(()) else Err(Infra);
    }

    method GetToken(token: Id) returns (r: Reply<RefreshToken>)
      modifies this`clock, this`plan
      ensures Out(State(), r) == Repositories.GetToken(old(State()), token)
    {
      var _ :- Ask();
      return if token in tokens then Ok(tokens[token]) else Err(NotFound);
    }

    method Revoke(token: Id) returns (r: Reply<()>)
      modifies this
      ensures Out(State(), r) == Repositories.Revoke(old(State()), token)
    {
      hide Turn;
      ghost var w := State();
      var kind := Answer();
      if token in tokens && !tokens[token].revoked && !kind.Refused? {
        tokens := tokens[token := tokens[token].(revoked := true)];
        Record(RevokeOne(token), 0);
        assert State() == Store.Note(Turn(w), RevokeOne(token));
      }
      return if kind.Done? then Ok(()) else Err(Infra);
    }

    method RevokeAllForUser(user: Id) returns (r: Reply<()>)
      modifies this
      ensures Out(State(), r) == Repositories.RevokeAllForUser(old(State()), user)
    {
      hide Turn;
      ghost var w := State();
      var kind := Answer();
      if !kind.Refused? {
        tokens := RevokedFor(tokens, user);
        Record(RevokeAll(user), 0);
        assert State() == Store.Note(Turn(w), RevokeAll(user));
      }
      return if kind.Done? then Ok(()) else Err(Infra);
    }

    // ----- login challenges -----

    method CreateChallenge(challenge: Id, row: LoginChallenge) returns (r: Reply<()>)
      modifies this
      ensures Out(State(), r) == Repositories.CreateChallenge(old(State()), challenge, row)
    {
      hide Turn;
      ghost var w := State();
      var kind := Answer();
      if row.user !in users {
        return Err(Infra);
      }
      if !kind.Refused? {
        challenges := challenges[challenge := row];
        Record(AddChallenge(challenge, row), challenge + 1);
        assert State() == Store.Note(Turn(w), AddChallenge(challenge, row));
      }
      return if kind.Done? then Ok(()) else Err(Infra);
    }

    method GetChallenge(challenge: Id) returns (r: Reply<LoginChallenge>)
      modifies this`clock, this`plan
      ensures Out(State(), r) == Repositories.GetChallenge(old(State()), challenge)
    {
      var _ :- Ask();
      return if challenge in challenges then Ok(challenges[challenge]) else Err(NotFound);
    }

    method ConsumeChallenge(challenge: Id) returns (r: Reply<()>)
      modifies this
      ensures Out(State(), r) == Repositories.ConsumeChallenge(old(State()), challenge)
    {
      hide Turn;
      ghost var w := State();
      var kind := Answer();
      if challenge in challenges && !challenges[challenge].consumed && !kind.Refused? {
        challenges := challenges[challenge := challenges[challenge].(consumed := true)];
        Record(Consume(challenge), 0);
        assert State() == Store.Note(Turn(w), Consume(challenge));
      }
      return if kind.Done? then Ok(()) else Err(Infra);
    }

    // ----- password-reset flows -----

    /** Inserts or updates one row. */
    method StoreFlow(id: Id, row: FlowRow, ghost e: Effect, bound: Id)
      requires e == AddFlow(id, row) || (e.WriteFlow? && e.flow == id && e.flowRow == row)
      requires bound == Bound(e)
      modifies this`flows, this`log, this`last, this`top
      ensures State() == Store.Note(old(State()), e)
    {
      flows := flows[id := row];
      Record(e, bound);
    }

    method CreateFlow(flow: PasswordResetFlow) returns (r: Reply<()>)
      modifies this
      ensures Out(State(), r) == Repositories.CreateFlow(old(State()), flow.id, flow.Row())
    {
      hide Turn, Apply;
      var kind := Answer();
      if flow.user.Some? && flow.user.value !in users {
        return Err(Infra);
      }
      if !kind.Refused? {
        StoreFlow(flow.id, flow.Row(), AddFlow(flow.id, flow.Row()), flow.id + 1);
      }
      return if kind.Done? then Ok(()) else Err(Infra);
    }

    method GetFlow(id: Id) returns (r: Reply<PasswordResetFlow>)
      modifies this`clock, this`plan
      ensures Out(State(), if r.Ok? then Ok(r.value.Row()) else Err(r.error)) == Repositories.GetFlow(old(State()), id)
      ensures r.Ok? ==> fresh(r.value) && r.value.id == id
    {
      var _ :- Ask();
      if id !in flows {
        return Err(NotFound);
      }
      var flow := new PasswordResetFlow.Load(id, flows[id]);
      return Ok(flow);
    }

    method GetByResetToken(token: Id) returns (r: Reply<PasswordResetFlow>)
      modifies this`clock, this`plan
      ensures Out(State(), if r.Ok? then Ok(r.value.id) else Err(r.error))
              == Repositories.GetByResetToken(old(State()), token)
      ensures r.Ok? ==> fresh(r.value) && r.value.id in flows && r.value.Row() == flows[r.value.id]
    {
      var _ :- Ask();
      var found := Repositories.FlowWithReset(flows, token, top);
      if found.None? {
        return Err(NotFound);
      }
      var flow := new PasswordResetFlow.Load(found.value, flows[found.value]);
      return Ok(flow);
    }

    method UpdateFlow(flow: PasswordResetFlow, ghost why: FlowWrite, bound: Id) returns (r: Reply<()>)
      requires bound == Bound(WriteFlow(flow.id, flow.Row(), why))
      modifies this
      ensures Out(State(), r) == Repositories.UpdateFlow(old(State()), flow.id, flow.Row(), why)
    {
      hide Turn, Apply;
      var kind := Answer();
      if flow.id !in flows {
        return if kind.Done? then Err(NotFound) else Err(Infra);
      }
      if !kind.Refused? {
        StoreFlow(flow.id, flow.Row(), WriteFlow(flow.id, flow.Row(), why), bound);
      }
      return if kind.Done? then Ok(()) else Err(Infra);
    }

    // ----- the active-session marker -----

    /** The session of the user's marker, unless it has lapsed. */
    method Current(user: Id) returns (previous: Option<Id>)
      ensures previous == Repositories.LiveMarker(State(), user, clock)
    {
      return if user in markers && markers[user].IsLive(clock) then Some(markers[user].session) else None;
    }

    method ActivateAndReturnPrevious(user: Id, token: Id, ttl: int) returns (r: Reply<Option<Id>>)
      modifies this
      ensures Out(State(), r) == Repositories.ActivateAndReturnPrevious(old(State()), user, token, ttl)
    {
      hide Turn;
      ghost var w := State();
      var kind := Answer();
      var previous := Current(user);
      if !kind.Refused? {
        markers := markers[user := Marker(token, clock + ttl)];
        Record(Activate(user, token, clock + ttl), token + 1);
        assert State() == Store.Note(Turn(w), Activate(user, token, clock + ttl));
      }
      return if kind.Done? then Ok(previous) else Err(Infra);
    }

    method Deactivate(user: Id) returns (r: Reply<()>)
      modifies this
      ensures Out(State(), r) == Repositories.Deactivate(old(State()), user)
    {
      hide Turn;
      ghost var w := State();
      var kind := Answer();
      if !kind.Refused? {
        markers := markers - {user};
        Record(ClearMarker(user), 0);
        assert State() == Store.Note(Turn(w), ClearMarker(user));
      }
      return if kind.Done? then Ok(()) else Err(Infra);
    }

    method DeactivateIfCurrent(user: Id, token: Id) returns (r: Reply<()>)
      modifies this
      ensures Out(State(), r) == Repositories.DeactivateIfCurrent(old(State()), user, token)
    {
      hide Turn;
      ghost var w := State();
      var kind := Answer();
      if !kind.Refused? {
        if user in markers && markers[user].session == token {
          markers := markers - {user};
        }
        Record(ClearMarkerIf(user, token), 0);
        assert State() == Store.Note(Turn(w), ClearMarkerIf(user, token));
      }
      return if kind.Done? then Ok(()) else Err(Infra);
    }

    method DeactivateAndReturnPrevious(user: Id) returns (r: Reply<Option<Id>>)
      modifies this
      ensures Out(State(), r) == Repositories.DeactivateAndReturnPrevious(old(State()), user)
    {
      hide Turn;
      ghost var w := State();
      var kind := Answer();
      var previous := Current(user);
      if !kind.Refused? {
        markers := markers - {user};
        Record(ClearMarker(user), 0);
        assert State() == Store.Note(Turn(w), ClearMarker(user));
      }
      return if kind.Done? then Ok(previous) else Err(Infra);
    }

    // ----- deletion -----

    /** A repeated request is a no-op; a missing account is an error. */
    method RequestDeletion(user: Id) returns (r: Reply<()>)
      modifies this
      ensures Out(State(), r) == Repositories.RequestDeletion(old(State()), user)
    {
      hide Turn, Apply;
      var kind := Answer();
      if user !in users {
        return Err(Infra);
      }
      if !users[user].deletionPending && !kind.Refused? {
        StartDeletion(user);
      }
      return if kind.Done? then Ok(()) else Err(Infra);
    }

    /** One transaction: the account becomes pending, its tokens are revoked, and its job and
        steps are created unless they exist. */
    method StartDeletion(user: Id)
      requires user in users
      modifies this
      ensures State() == Store.Note(old(State()), AskDeletion(user))
    {
      hide Apply, RevokedFor, NewJob;
      OnlyDeletion(State().tables, clock, user);
      users := users[user := users[user].(deletionPending := true)];
      tokens := RevokedFor(tokens, user);
      InsertJob(user);
      Record(AskDeletion(user), 0);
    }

    /** The job and its steps, unless the user has a job. */
    method InsertJob(user: Id)
      modifies this`jobs
      ensures jobs == if user in old(jobs) then old(jobs) else old(jobs)[user := NewJob(clock)]
    {
      if user !in jobs {
        var steps := InsertSteps();
        jobs := jobs[user := Job(Pending, 0, clock, None, steps)];
      }
    }

    method InsertSteps() returns (steps: map<Service, StepRow>)
      ensures steps == NewJob(clock).steps
    {
      steps := map[];
      for i := 0 to |DELETION_SERVICES|
        invariant forall s :: s in steps <==> s in DELETION_SERVICES[..i]
        invariant forall s | s in steps :: steps[s] == NewStep(clock)
      {
        steps := steps[DELETION_SERVICES[i] := NewStep(clock)];
      }
      assert DELETION_SERVICES[..|DELETION_SERVICES|] == DELETION_SERVICES;
    }

    /** Deletes a user row. */
    method DeleteUser(user: Id) returns (r: Reply<()>)
      modifies this
      ensures user in old(users) ==> Out(State(), r) == Store.Write(old(State()), DropUser(user))
      ensures user !in old(users) ==> State() == Turn(old(State())) && r.Err?
    {
      hide Turn, Apply;
      var kind := Answer();
      if user !in users {
        return if kind.Done? then Err(NotFound) else Err(Infra);
      }
      if !kind.Refused? {
        Cascade(user);
      }
      return if kind.Done? then Ok(()) else Err(Infra);
    }

    /** The user's tokens, credential, challenges and flows go with the row. */
    method Cascade(user: Id)
      modifies this
      ensures State() == Store.Note(old(State()), DropUser(user))
    {
      hide Apply, TokensWithout, ChallengesWithout, FlowsWithout;
      OnlyRows(State().tables, clock, user);
      users := users - {user};
      credentials := credentials - {user};
      tokens := TokensWithout(tokens, user);
      challenges := ChallengesWithout(challenges, user);
      flows := FlowsWithout(flows, user);
      Record(DropUser(user), 0);
    }
  }
}
