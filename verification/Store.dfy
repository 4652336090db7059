/** The database, the session store and the environment the service runs in.

    Every write is an `Effect`. The tables keep the log of all effects so far, so a
    state of the tables is a micro-state of a run: the moment just after one write. */
module Store {
  import opened Basics
  import opened Credentials
  import opened ResetFlows
  import opened DeletionJobs

  datatype User = User(email: string, password: string, deletionPending: bool)

  datatype RefreshToken = RefreshToken(user: Id, expiresAt: int, revoked: bool) {
    predicate IsExpired(now: int) {
      now > expiresAt
    }
  }

  datatype LoginChallenge = LoginChallenge(user: Id, expiresAt: int, consumed: bool) {
    predicate IsExpired(now: int) {
      now > expiresAt
    }
  }

  /** The session store's active-session marker. It lapses once its lifetime is over. */
  datatype Marker = Marker(session: Id, expiresAt: int) {
    predicate IsLive(now: int) {
      now <= expiresAt
    }
  }

  /** Which caller of the shared OTP gate is running. */
  datatype Purpose = ForSetup | ForLogin | ForPasswordChange | ForDeletion

  /** Why a credential row was written. `checkedAt` is the time the code was validated
      against, `failedAt` the time of the failure bookkeeping. */
  datatype CredentialWrite =
    | Started(token: Id)
    | Failed(failedAt: nat)
    | Passed(counter: nat, checkedAt: nat, demo: bool, purpose: Purpose)
    | UsedByReset(usedCounter: nat, usedAt: nat)
    | Enrolled(setupToken: Id)

  datatype FlowWrite = Missed | Verified(resetToken: Id) | Spent

  datatype PasswordChange = ByOwner | ByFlow(flow: Id)

  datatype Via = ViaSetup(token: Id) | ViaChallenge(challenge: Id) | ViaRefresh(parent: Id)

  /** The writes of the service. Begin, Schedule and Deliver write no table: they record
      that a call entered the service, that a session's device data was scheduled for
      cleanup, and that a session was handed to its client. */
  datatype Effect =
    | Begin
    | AddUser(user: Id, email: string, password: string)
    | SetPassword(user: Id, password: string, origin: PasswordChange)
    | DropUser(user: Id)
    | AskDeletion(user: Id)
    | WriteCredential(user: Id, credential: CredentialRow, why: CredentialWrite)
    | RevokeOne(token: Id)
    | RevokeAll(user: Id)
    | Activate(user: Id, token: Id, expiresAt: int)
    | AddToken(token: Id, row: RefreshToken)
    | ClearMarker(user: Id)
    | ClearMarkerIf(user: Id, token: Id)
    | AddChallenge(challenge: Id, challengeRow: LoginChallenge)
    | Consume(challenge: Id)
    | AddFlow(flow: Id, flowRow: FlowRow)
    | WriteFlow(flow: Id, flowRow: FlowRow, whyFlow: FlowWrite)
    | Schedule(user: Id, token: Id)
    | Deliver(token: Id, user: Id, via: Via)

  datatype Entry = Entry(at: nat, what: Effect)

  datatype Tables = Tables(
    users: map<Id, User>,
    tokens: map<Id, RefreshToken>,
    credentials: map<Id, CredentialRow>,
    challenges: map<Id, LoginChallenge>,
    flows: map<Id, FlowRow>,
    markers: map<Id, Marker>,
    jobs: map<Id, Job>,
    log: seq<Entry>,
    top: Id,
    last: nat)

  const EMPTY: Tables := Tables(map[], map[], map[], map[], map[], map[], map[], [], 0, 0)

  /** One past the largest identifier an effect introduces. */
  function Bound(e: Effect): nat {
    match e
    case AddUser(u, _, _) => u + 1
    case WriteCredential(_, row, Started(token)) => Max(row.secret, token) + 1
    case Activate(_, token, _) => token + 1
    case AddChallenge(c, _) => c + 1
    case AddFlow(f, _) => f + 1
    case WriteFlow(_, _, Verified(token)) => token + 1
    case _ => 0
  }

  function RevokedFor(tokens: map<Id, RefreshToken>, user: Id): map<Id, RefreshToken> {
    map t | t in tokens :: if tokens[t].user == user then tokens[t].(revoked := true) else tokens[t]
  }

  // The rows that a deleted user's row does not take with it.

  function TokensWithout(tokens: map<Id, RefreshToken>, user: Id): map<Id, RefreshToken> {
    map t | t in tokens && tokens[t].user != user :: tokens[t]
  }

  function ChallengesWithout(challenges: map<Id, LoginChallenge>, user: Id): map<Id, LoginChallenge> {
    map c | c in challenges && challenges[c].user != user :: challenges[c]
  }

  function FlowsWithout(flows: map<Id, FlowRow>, user: Id): map<Id, FlowRow> {
    map f | f in flows && flows[f].user != Some(user) :: flows[f]
  }

  function UsersAfter(users: map<Id, User>, e: Effect): map<Id, User> {
    match e
    case AddUser(u, email, password) => users[u := User(email, password, false)]
    case SetPassword(u, password, _) => if u in users then users[u := users[u].(password := password)] else users
    case AskDeletion(u) => if u in users then users[u := users[u].(deletionPending := true)] else users
    case DropUser(u) => users - {u}
    case _ => users
  }

  function TokensAfter(tokens: map<Id, RefreshToken>, e: Effect): map<Id, RefreshToken> {
    match e
    case RevokeOne(t) => if t in tokens then tokens[t := tokens[t].(revoked := true)] else tokens
    case RevokeAll(u) => RevokedFor(tokens, u)
    case AskDeletion(u) => RevokedFor(tokens, u)
    case AddToken(t, row) => tokens[t := row]
    case DropUser(u) => TokensWithout(tokens, u)
    case _ => tokens
  }

  function CredentialsAfter(credentials: map<Id, CredentialRow>, e: Effect): map<Id, CredentialRow> {
    match e
    case WriteCredential(u, row, _) => credentials[u := row]
    case DropUser(u) => credentials - {u}
    case _ => credentials
  }

  function ChallengesAfter(challenges: map<Id, LoginChallenge>, e: Effect): map<Id, LoginChallenge> {
    match e
    case AddChallenge(c, row) => challenges[c := row]
    case Consume(c) => if c in challenges then challenges[c := challenges[c].(consumed := true)] else challenges
    case DropUser(u) => ChallengesWithout(challenges, u)
    case _ => challenges
  }

  function FlowsAfter(flows: map<Id, FlowRow>, e: Effect): map<Id, FlowRow> {
    match e
    case AddFlow(f, row) => flows[f := row]
    case WriteFlow(f, row, _) => flows[f := row]
    case DropUser(u) => FlowsWithout(flows, u)
    case _ => flows
  }

  function MarkersAfter(markers: map<Id, Marker>, e: Effect): map<Id, Marker> {
    match e
    case Activate(u, t, expiresAt) => markers[u := Marker(t, expiresAt)]
    case ClearMarker(u) => markers - {u}
    case ClearMarkerIf(u, t) => if u in markers && markers[u].session == t then markers - {u} else markers
    case _ => markers
  }

  function JobsAfter(jobs: map<Id, Job>, at: nat, e: Effect): map<Id, Job> {
    match e
    case AskDeletion(u) => if u in jobs then jobs else jobs[u := NewJob(at)]
    case _ => jobs
  }

  function Apply(s: Tables, at: nat, e: Effect): Tables {
    Tables(
      UsersAfter(s.users, e),
      TokensAfter(s.tokens, e),
      CredentialsAfter(s.credentials, e),
      ChallengesAfter(s.challenges, e),
      FlowsAfter(s.flows, e),
      MarkersAfter(s.markers, e),
      JobsAfter(s.jobs, at, e),
      s.log + [Entry(at, e)],
      Max(s.top, Bound(e)),
      at)
  }

  /** How a port answers: normally, with an error although the write took effect, or with
      an error and no effect. `wait` is the time the call takes. */
  datatype Kind = Done | Lost | Refused
  datatype Answer = Answer(kind: Kind, wait: nat)

  /** The tables, the clock, the answers the ports will give (normal once the plan runs
      out) and the supply of fresh identifiers. */
  datatype World = World(tables: Tables, clock: nat, plan: seq<Answer>, next: Id)

  function Head(plan: seq<Answer>): Answer {
    if plan == [] then Answer(Done, 0) else plan[0]
  }

  function Rest(plan: seq<Answer>): seq<Answer> {
    if plan == [] then [] else plan[1..]
  }

  /** No port fails; each call may still take any time. */
  predicate NoFaults(plan: seq<Answer>) {
    forall a | a in plan :: a.kind.Done?
  }

  /** A new world and a reply. An error leaves the world reached so far behind. */
  datatype Out<+T> = Out(w: World, r: Reply<T>) {
    predicate IsFailure() {
      r.Err?
    }

    function PropagateFailure<U>(): Out<U>
      requires IsFailure()
    {
      Out(w, Err(r.error))
    }

    function Extract(): (World, T)
      requires !IsFailure()
    {
      (w, r.value)
    }

    function NotFoundAs(error: Error): Out<T> {
      if r == Err(NotFound) then Out(w, Err(error)) else this
    }

    function AnyErrorAs(error: Error): Out<T> {
      if r.Err? then Out(w, Err(error)) else this
    }
  }

  /** The clock and plan after one port call. */
  function Turn(w: World): World {
    w.(clock := w.clock + Head(w.plan).wait, plan := Rest(w.plan))
  }

  /** A port call that writes nothing: a read, or a library that may fail. */
  function Ask(w: World): Out<()> {
    Out(Turn(w), if Head(w.plan).kind.Done? then Ok(()) else Err(Infra))
  }

  /** Records an effect that no port can refuse. */
  function Note(w: World, e: Effect): World {
    w.(tables := Apply(w.tables, w.clock, e))
  }

  /** A port call that writes. */
  function Write(w: World, e: Effect): Out<()> {
    var w1 := Turn(w);
    Out(if Head(w.plan).kind.Refused? then w1 else Note(w1, e),
        if Head(w.plan).kind.Done? then Ok(()) else Err(Infra))
  }

  /** A read that finds `found`, if the port answers. */
  function Read<T>(w: World, found: Option<T>): Out<T> {
    var (w1, _) :- Ask(w);
    Out(w1, if found.Some? then Ok(found.value) else Err(NotFound))
  }

  /** Draws a fresh random token. */
  function Draw(w: World): Out<Id> {
    var (w1, _) :- Ask(w);
    Out(w1.(next := w1.next + 1), Ok(w1.next))
  }

  /** A port call that does not fail only takes time. */
  lemma TurnNoFaults(w: World)
    requires NoFaults(w.plan)
    ensures NoFaults(Turn(w).plan) && Turn(w).tables == w.tables && Turn(w).next == w.next
    ensures Ask(w) == Out(Turn(w), Ok(())) && Draw(w) == Out(Turn(w).(next := w.next + 1), Ok(w.next))
    ensures Head(w.plan).kind.Done?
    ensures Turn(w).clock == w.clock + Head(w.plan).wait
  {
  }
}
