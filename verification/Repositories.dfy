/** What each repository and session-store operation does to the world: one port call each. */
module Repositories {
  import opened Basics
  import opened Credentials
  import opened ResetFlows
  import opened Store

  // ----- users -----

  function CreateUser(w: World, user: Id, email: string, password: string): Out<()> {
    if exists u | u in w.tables.users :: w.tables.users[u].email == email then
      var (w1, _) :- Ask(w);
      Out(w1, Err(EmailTaken))
    else
      Write(w, AddUser(user, email, password))
  }

  function UserWithEmail(users: map<Id, User>, email: string, bound: Id): (found: Option<Id>)
    ensures found.Some? ==> found.value in users && users[found.value].email == email
  {
    Scan((u: Id) => u in users && users[u].email == email, bound)
  }

  function GetUserByEmail(w: World, email: string): Out<Id> {
    Read(w, UserWithEmail(w.tables.users, email, w.tables.top))
  }

  function GetUser(w: World, user: Id): Out<User> {
    Read(w, if user in w.tables.users then Some(w.tables.users[user]) else None)
  }

  function UpdatePassword(w: World, user: Id, password: string, origin: PasswordChange): Out<()> {
    if user in w.tables.users then Write(w, SetPassword(user, password, origin))
    else
      var (w1, _) :- Ask(w);
      Out(w1, Err(NotFound))
  }

  // ----- credentials -----

  function CreateCredential(w: World, user: Id, row: CredentialRow, token: Id): Out<()> {
    if user in w.tables.users && user !in w.tables.credentials
    then Write(w, WriteCredential(user, row, Started(token)))
    else
      var (w1, _) :- Ask(w);
      Out(w1, Err(Infra))
  }

  function GetCredential(w: World, user: Id): Out<CredentialRow> {
    Read(w, if user in w.tables.credentials then Some(w.tables.credentials[user]) else None)
  }

  predicate HoldsSetup(row: CredentialRow, token: Id) {
    row.setup.Some? && row.setup.value.token == token
  }

  predicate HasSetup(credentials: map<Id, CredentialRow>, user: Id, token: Id) {
    user in credentials && HoldsSetup(credentials[user], token)
  }

  function UserWithSetup(credentials: map<Id, CredentialRow>, token: Id, bound: Id): (found: Option<Id>)
    ensures found.Some? ==> found.value in credentials && HoldsSetup(credentials[found.value], token)
    ensures found.None? ==> forall u: Id | u < bound :: !HasSetup(credentials, u, token)
  {
    var p := (u: Id) => HasSetup(credentials, u, token);
    assert forall u: Id {:trigger HasSetup(credentials, u, token)} :: p(u) <==> HasSetup(credentials, u, token);
    Scan(p, bound)
  }

  function GetBySetupToken(w: World, token: Id): Out<Id> {
    Read(w, UserWithSetup(w.tables.credentials, token, w.tables.top))
  }

  function UpdateCredential(w: World, user: Id, row: CredentialRow, why: CredentialWrite): Out<()> {
    if user in w.tables.credentials then Write(w, WriteCredential(user, row, why))
    else
      var (w1, _) :- Ask(w);
      Out(w1, Err(NotFound))
  }

  // ----- refresh tokens -----

  function CreateToken(w: World, token: Id, row: RefreshToken): Out<()> {
    if row.user in w.tables.users then Write(w, AddToken(token, row))
    else
      var (w1, _) :- Ask(w);
      Out(w1, Err(Infra))
  }

  function GetToken(w: World, token: Id): Out<RefreshToken> {
    Read(w, if token in w.tables.tokens then Some(w.tables.tokens[token]) else None)
  }

  function Revoke(w: World, token: Id): Out<()> {
    if token in w.tables.tokens && !w.tables.tokens[token].revoked then Write(w, RevokeOne(token))
    else Ask(w)
  }

  function RevokeAllForUser(w: World, user: Id): Out<()> {
    Write(w, RevokeAll(user))
  }

  // ----- login challenges -----

  function CreateChallenge(w: World, challenge: Id, row: LoginChallenge): Out<()> {
    if row.user in w.tables.users then Write(w, AddChallenge(challenge, row))
    else
      var (w1, _) :- Ask(w);
      Out(w1, Err(Infra))
  }

  function GetChallenge(w: World, challenge: Id): Out<LoginChallenge> {
    Read(w, if challenge in w.tables.challenges then Some(w.tables.challenges[challenge]) else None)
  }

  function ConsumeChallenge(w: World, challenge: Id): Out<()> {
    if challenge in w.tables.challenges && !w.tables.challenges[challenge].consumed
    then Write(w, Consume(challenge))
    else Ask(w)
  }

  // ----- password-reset flows -----

  function CreateFlow(w: World, flow: Id, row: FlowRow): Out<()> {
    if row.user.None? || row.user.value in w.tables.users then Write(w, AddFlow(flow, row))
    else
      var (w1, _) :- Ask(w);
      Out(w1, Err(Infra))
  }

  function GetFlow(w: World, flow: Id): Out<FlowRow> {
    Read(w, if flow in w.tables.flows then Some(w.tables.flows[flow]) else None)
  }

  predicate HoldsReset(row: FlowRow, token: Id) {
    row.reset.Some? && row.reset.value.token == token
  }

  predicate HasReset(flows: map<Id, FlowRow>, flow: Id, token: Id) {
    flow in flows && HoldsReset(flows[flow], token)
  }

  function FlowWithReset(flows: map<Id, FlowRow>, token: Id, bound: Id): (found: Option<Id>)
    ensures found.Some? ==> found.value < bound && found.value in flows && HoldsReset(flows[found.value], token)
    ensures forall f: Id | f < (if found.Some? then found.value else bound) :: !HasReset(flows, f, token)
  {
    var p := (f: Id) => HasReset(flows, f, token);
    assert forall f: Id {:trigger HasReset(flows, f, token)} :: p(f) <==> HasReset(flows, f, token);
    Scan(p, bound)
  }

  function GetByResetToken(w: World, token: Id): Out<Id> {
    Read(w, FlowWithReset(w.tables.flows, token, w.tables.top))
  }

  function UpdateFlow(w: World, flow: Id, row: FlowRow, why: FlowWrite): Out<()> {
    if flow in w.tables.flows then Write(w, WriteFlow(flow, row, why))
    else
      var (w1, _) :- Ask(w);
      Out(w1, Err(NotFound))
  }

  // ----- the active-session marker -----

  function LiveMarker(w: World, user: Id, now: nat): Option<Id> {
    if user in w.tables.markers && w.tables.markers[user].IsLive(now)
    then Some(w.tables.markers[user].session) else None
  }

  function ActivateAndReturnPrevious(w: World, user: Id, token: Id, ttl: int): Out<Option<Id>> {
    var now := Turn(w).clock;
    var previous := LiveMarker(w, user, now);
    var (w1, _) :- Write(w, Activate(user, token, now + ttl));
    Out(w1, Ok(previous))
  }

  function Deactivate(w: World, user: Id): Out<()> {
    Write(w, ClearMarker(user))
  }

  function DeactivateIfCurrent(w: World, user: Id, token: Id): Out<()> {
    Write(w, ClearMarkerIf(user, token))
  }

  function DeactivateAndReturnPrevious(w: World, user: Id): Out<Option<Id>> {
    var previous := LiveMarker(w, user, Turn(w).clock);
    var (w1, _) :- Write(w, ClearMarker(user));
    Out(w1, Ok(previous))
  }

  // ----- the deletion request -----

  /** One transaction. A repeated request is a no-op; a missing account is an error. */
  function RequestDeletion(w: World, user: Id): Out<()> {
    if user !in w.tables.users then
      var (w1, _) :- Ask(w);
      Out(w1, Err(Infra))
    else if w.tables.users[user].deletionPending then Ask(w)
    else Write(w, AskDeletion(user))
  }
}
