/** The account machine and the deletion protocol together: registrations and deletion requests
    of the one are the protocol's own, and a row the protocol removes is removed from the
    other. */
module DeletionLink {
  import opened Basics
  import opened DeletionJobs
  import opened Store
  import opened AuthSpec
  import opened Protocol
  import opened Conformance
  import opened Deletion
  import opened DeletionProgress
  import opened DeletionWorkers

  /** What happens next: the account machine writes an entry, or the deletion protocol takes a
      step of its own. */
  datatype Item = Serve(entry: Entry) | Work(event: Event, at: nat)

  datatype Joint = Joint(log: seq<Entry>, d: State)

  /** What the deletion protocol sees of a write of the account machine. */
  function Seen(clients: set<Service>, d: State, e: Effect): State {
    match e
    case AddUser(user, _, _) => After(clients, d, Join(user))
    case AskDeletion(user) => After(clients, d, Request(user))
    case _ => d
  }

  /** Only the protocol removes rows, and only the account machine registers users and requests
      deletions. An entry that the account machine would not write now does not happen. */
  function Step(cfg: Config, clients: set<Service>, j: Joint, item: Item): Joint {
    match item
    case Serve(entry) =>
      var s := Replay(j.log);
      if entry.what.DropUser? || !Enabled(cfg, s, entry.at, entry.what) then j
      else Joint(j.log + [entry], Seen(clients, j.d, entry.what))
    case Work(event, at) =>
      if event.Join? || event.Request? then j
      else
        var user := Removed(j.d, event);
        Joint(if user.Some? then j.log + [Entry(Max(Replay(j.log).last, at), DropUser(user.value))] else j.log,
              After(clients, j.d, event))
  }

  function Woven(cfg: Config, clients: set<Service>, items: seq<Item>): Joint {
    if items == [] then Joint([], NOTHING)
    else
      var n := |items| - 1;
      Step(cfg, clients, Woven(cfg, clients, items[..n]), items[n])
  }

  /** The two machines see the same user rows. */
  predicate Agree(s: Tables, d: State) {
    && (forall u | u in s.users :: u in d.rows && d.rows[u] == s.users[u].deletionPending)
    && d.rows.Keys <= s.users.Keys
    && forall u | u in d.known :: u < s.top
  }

  lemma SeenAgrees(cfg: Config, clients: set<Service>, s: Tables, d: State, at: nat, e: Effect)
    requires Agree(s, d) && Enabled(cfg, s, at, e) && !e.DropUser?
    ensures Agree(Apply(s, at, e), Seen(clients, d, e))
  {
    hide TokensAfter, CredentialsAfter, ChallengesAfter, FlowsAfter, MarkersAfter, JobsAfter;
  }

  lemma SeenSafe(clients: set<Service>, d: State, e: Effect)
    requires Safe(d)
    ensures Safe(Seen(clients, d, e)) && d.jobs.Keys <= Seen(clients, d, e).jobs.Keys
    ensures forall u | u in d.known && u !in d.rows :: u !in Seen(clients, d, e).rows
    ensures d.known <= Seen(clients, d, e).known
  {
    hide JobSafe, WorkerSafe;
    match e
    case AddUser(user, _, _) => OtherEventSafe(clients, d, Join(user));
    case AskDeletion(user) => OtherEventSafe(clients, d, Request(user));
    case _ =>
  }

  lemma EventSafe(clients: set<Service>, d: State, e: Event)
    requires Safe(d)
    ensures Safe(After(clients, d, e))
  {
    hide WorkerStep, JobSafe, WorkerSafe;
    match e
    case Go(w, kind, pick) => WorkerStepSafe(clients, d, w, kind, pick);
    case _ => OtherEventSafe(clients, d, e);
  }

  lemma EventKeepsJobs(clients: set<Service>, d: State, e: Event)
    requires !e.Join? && !e.Request?
    ensures d.jobs.Keys <= After(clients, d, e).jobs.Keys
  {
    hide Arrive, ClaimedSteps, BackOff;
  }

  /** Every user whose row was removed had a job, and the row is gone. */
  ghost predicate Gone(log: seq<Entry>, d: State) {
    forall i | 0 <= i < |log| && log[i].what.DropUser? ::
      log[i].what.user in d.jobs && log[i].what.user in d.known && log[i].what.user !in d.rows
  }

  /** The removal that the protocol performs is one the account machine allows. */
  lemma RemovalEnabled(cfg: Config, s: Tables, d: State, e: Event, at: nat)
    requires Safe(d) && Agree(s, d) && Removed(d, e).Some? && s.last <= at
    ensures var user := Removed(d, e).value;
            && user in d.jobs && user in d.known
            && Enabled(cfg, s, at, DropUser(user))
            && Agree(Apply(s, at, DropUser(user)), d.(rows := d.rows - {user}))
  {
    hide TokensAfter, CredentialsAfter, ChallengesAfter, FlowsAfter, MarkersAfter, JobsAfter;
    var user := Removed(d, e).value;
    assert JobSafe(d, user);
  }

  ghost predicate Good(cfg: Config, j: Joint) {
    Legal(cfg, j.log) && Safe(j.d) && Agree(Replay(j.log), j.d) && Gone(j.log, j.d)
  }

  lemma ServeGood(cfg: Config, clients: set<Service>, j: Joint, entry: Entry)
    requires Good(cfg, j)
    ensures Good(cfg, Step(cfg, clients, j, Serve(entry)))
  {
    hide Enabled, Apply, Seen, Safe;
    var s := Replay(j.log);
    if !entry.what.DropUser? && Enabled(cfg, s, entry.at, entry.what) {
      var log := j.log + [entry];
      assert log[..|log| - 1] == j.log;
      SeenAgrees(cfg, clients, s, j.d, entry.at, entry.what);
      SeenSafe(clients, j.d, entry.what);
    }
  }

  lemma WorkGood(cfg: Config, clients: set<Service>, j: Joint, event: Event, at: nat)
    requires Good(cfg, j)
    ensures Good(cfg, Step(cfg, clients, j, Work(event, at)))
  {
    hide Enabled, Apply, After, Safe, Removed;
    if !event.Join? && !event.Request? {
      var s, user := Replay(j.log), Removed(j.d, event);
      EventSafe(clients, j.d, event);
      EventKeepsJobs(clients, j.d, event);
      RemovedExactly(clients, j.d, event);
      if user.Some? {
        var entry := Entry(Max(s.last, at), DropUser(user.value));
        var log := j.log + [entry];
        assert log[..|log| - 1] == j.log;
        RemovalEnabled(cfg, s, j.d, event, entry.at);
      }
    }
  }

  lemma {:induction false} AlwaysGood(cfg: Config, clients: set<Service>, items: seq<Item>)
    ensures Good(cfg, Woven(cfg, clients, items))
  {
    hide Step, Good;
    if items == [] {
      NothingGood(cfg);
    } else {
      var n := |items| - 1;
      AlwaysGood(cfg, clients, items[..n]);
      match items[n]
      case Serve(entry) => ServeGood(cfg, clients, Woven(cfg, clients, items[..n]), entry);
      case Work(event, at) => WorkGood(cfg, clients, Woven(cfg, clients, items[..n]), event, at);
    }
  }

  lemma NothingGood(cfg: Config)
    ensures Good(cfg, Joint([], NOTHING))
  {
    hide JobSafe;
  }

  /** However the account machine's writes and the deletion protocol's steps alternate: every
      removal of a user row is one the account machine allows, so the log is legal and all that
      is proved of legal logs holds; and every row in the log that is removed belongs to an
      account whose seven services have all answered. */
  lemma RemovalsAreLegal(cfg: Config, clients: set<Service>, items: seq<Item>, i: nat)
    requires i < |Woven(cfg, clients, items).log| && Woven(cfg, clients, items).log[i].what.DropUser?
    ensures var j := Woven(cfg, clients, items);
            && Legal(cfg, j.log)
            && forall service: Service :: (j.log[i].what.user, service) in j.d.answers
  {
    hide Woven, Legal, Replay, Agree;
    AlwaysGood(cfg, clients, items);
    var j := Woven(cfg, clients, items);
    assert JobSafe(j.d, j.log[i].what.user);
  }

  // ----- and every legal log is one of these -----

  lemma WeaveOn(cfg: Config, clients: set<Service>, items: seq<Item>, item: Item)
    ensures Woven(cfg, clients, items + [item]) == Step(cfg, clients, Woven(cfg, clients, items), item)
  {
    hide Step;
    var longer := items + [item];
    assert longer[..|longer| - 1] == items;
  }

  ghost predicate AllIdle(d: State) {
    forall w: Id :: d.WorkerOf(w).Idle?
  }

  ghost predicate OthersIdle(d: State, w: Id) {
    forall v: Id | v != w :: d.WorkerOf(v).Idle?
  }

  lemma CleanIsBusy(d: State, w: Id, user: Id)
    requires Clean(d, w, user)
    ensures d.WorkerOf(w).Busy? && (Removed(d, Go(w, Done, 0)).Some? ==> user in d.rows)
  {
  }

  /** The log that the steps of a clean run leave: the removal of the user's row, if it is there. */
  function LogAfter(j: Joint, user: Id, at: nat): seq<Entry> {
    if user in j.d.rows then j.log + [Entry(Max(Replay(j.log).last, at), DropUser(user))] else j.log
  }

  /** A clean run that is left alone puts exactly that removal into the log. */
  lemma {:induction false} WeaveRun(cfg: Config, items: seq<Item>, w: Id, user: Id, at: nat) returns (longer: seq<Item>)
    requires var d := Woven(cfg, ALL_SERVICES, items).d;
             Clean(d, w, user) && OthersIdle(d, w) && (d.WorkerOf(w).phase.Finishing? ==> user !in d.rows)
    ensures var j := Woven(cfg, ALL_SERVICES, longer);
            j.log == LogAfter(Woven(cfg, ALL_SERVICES, items), user, at) && AllIdle(j.d)
    decreases Rank(Woven(cfg, ALL_SERVICES, items).d.WorkerOf(w))
  {
    hide Woven, After, Clean, Rank, Removed, Replay;
    var j, e := Woven(cfg, ALL_SERVICES, items), Go(w, Done, 0);
    CleanStep(j.d, w, user);
    CleanIsBusy(j.d, w, user);
    WeaveOn(cfg, ALL_SERVICES, items, Work(e, at));
    longer := items + [Work(e, at)];
    var next := Woven(cfg, ALL_SERVICES, longer);
    if next.d.WorkerOf(w).Busy? {
      CleanAdvances(j.d, w, user);
      longer := WeaveRun(cfg, longer, w, user, at);
    } else {
      IdleIsNotClean(next.d, w, user);
    }
  }

  /** Time enough for the job to be claimable. */
  function Patience(d: State, job: Job): nat {
    var due := if job.leaseUntil.Some? then job.leaseUntil.value + 1 else 0;
    var latest := if due < job.nextAttemptAt then job.nextAttemptAt else due;
    if latest <= d.now then 0 else latest - d.now
  }

  /** The row of a pending account can be removed by a worker of its own: it waits, claims the
      job and runs it without a failure. */
  lemma WeaveRemoval(cfg: Config, items: seq<Item>, user: Id, at: nat) returns (longer: seq<Item>)
    requires var j := Woven(cfg, ALL_SERVICES, items);
             && AllIdle(j.d) && user in j.d.rows && user in j.d.jobs && !j.d.jobs[user].status.Completed?
    ensures var j := Woven(cfg, ALL_SERVICES, longer);
            j.log == LogAfter(Woven(cfg, ALL_SERVICES, items), user, at) && AllIdle(j.d)
  {
    hide Woven, Replay, Clean;
    var j := Woven(cfg, ALL_SERVICES, items);
    var wait, claim := Work(Pass(Patience(j.d, j.d.jobs[user])), at), Work(Go(0, Done, user), at);
    WeaveOn(cfg, ALL_SERVICES, items, wait);
    WeaveOn(cfg, ALL_SERVICES, items + [wait], claim);
    var waited := Woven(cfg, ALL_SERVICES, items + [wait]);
    assert forall v: Id :: waited.d.WorkerOf(v) == j.d.WorkerOf(v);
    assert waited.d.WorkerOf(0).Idle?;
    ClaimClean(waited.d, 0, user);
    CleanIsBusy(Woven(cfg, ALL_SERVICES, items + [wait] + [claim]).d, 0, user);
    longer := WeaveRun(cfg, items + [wait] + [claim], 0, user, at);
  }

  lemma SeenIdle(clients: set<Service>, d: State, e: Effect)
    requires AllIdle(d)
    ensures AllIdle(Seen(clients, d, e))
  {
    assert forall w: Id :: Seen(clients, d, e).WorkerOf(w) == d.WorkerOf(w);
  }

  lemma RemovableNow(cfg: Config, j: Joint, at: nat, user: Id)
    requires Good(cfg, j) && Enabled(cfg, Replay(j.log), at, DropUser(user))
    ensures user in j.d.rows && user in j.d.jobs && !j.d.jobs[user].status.Completed? && Replay(j.log).last <= at
  {
    hide Legal, Replay;
    assert user in j.d.jobs ==> JobSafe(j.d, user);
  }

  /** Every legal log, so the log of every run, is woven: whatever removals it holds, the deletion
      protocol has a schedule that performs them between the account machine's writes. */
  lemma {:induction false} LegalLogsAreWoven(cfg: Config, log: seq<Entry>) returns (items: seq<Item>)
    requires Legal(cfg, log)
    ensures Woven(cfg, ALL_SERVICES, items).log == log && AllIdle(Woven(cfg, ALL_SERVICES, items).d)
  {
    hide Woven, Replay, Enabled, AllIdle, Good;
    if log == [] {
      items := NothingWoven(cfg);
    } else {
      var n := |log| - 1;
      var entry := log[n];
      items := LegalLogsAreWoven(cfg, log[..n]);
      var j := Woven(cfg, ALL_SERVICES, items);
      assert log == j.log + [entry];
      if entry.what.DropUser? {
        AlwaysGood(cfg, ALL_SERVICES, items);
        RemovableNow(cfg, j, entry.at, entry.what.user);
        items := WeaveRemoval(cfg, items, entry.what.user, entry.at);
      } else {
        WeaveOn(cfg, ALL_SERVICES, items, Serve(entry));
        SeenIdle(ALL_SERVICES, j.d, entry.what);
        items := items + [Serve(entry)];
      }
    }
  }

  lemma NothingWoven(cfg: Config) returns (none: seq<Item>)
    ensures none == [] && Woven(cfg, ALL_SERVICES, none) == Joint([], NOTHING) && AllIdle(NOTHING)
  {
    none := [];
  }

  /** So the removals of a run of calls are the work of the deletion protocol: there is a schedule
      of it whose steps, woven between the run's writes, give the run's log, and in which the
      seven services have answered for every user whose row the run removes. */
  lemma RunsAreWoven(cfg: Config, calls: seq<Call>) returns (items: seq<Item>)
    ensures var j := Woven(cfg, ALL_SERVICES, items);
            && j.log == Run(cfg, START, calls).tables.log
            && forall i | 0 <= i < |j.log| && j.log[i].what.DropUser? ::
                 forall service: Service :: (j.log[i].what.user, service) in j.d.answers
  {
    hide Woven, Run, Legal, Replay;
    StartOk(cfg);
    RunsAreLegal(cfg, [], START, calls);
    items := LegalLogsAreWoven(cfg, Run(cfg, START, calls).tables.log);
    var j := Woven(cfg, ALL_SERVICES, items);
    forall i | 0 <= i < |j.log| && j.log[i].what.DropUser?
      ensures forall service: Service :: (j.log[i].what.user, service) in j.d.answers
    {
      RemovalsAreLegal(cfg, ALL_SERVICES, items, i);
    }
  }
}
