/** The account-deletion protocol as interleaved steps of any number of workers. Each step
    is one statement of the job store or one call to another service; between two steps of
    one worker anything may happen: other workers' steps, requests, crashes, time passing a
    lease. A claimed job is a snapshot that may be stale at once. */
module Deletion {
  import opened Basics
  import opened DeletionJobs
  import opened Store

  /** Where a worker is in its run: before a step's cleanup call (or, past the last step,
      before removing the user row), after a successful call, after a failed one, between the
      two statements that record the failure, or before marking the job completed. */
  datatype Phase = AtStep | Answered | Failing | Reopening | Finishing

  datatype Worker =
    | Idle
    | Busy(user: Id, steps: seq<ClaimedStep>, position: nat, phase: Phase)

  /** `rows` are the user rows, true when deletion is pending; `answers` are the successful
      cleanup answers so far, in order; `known` are the ids ever given to a user. */
  datatype State = State(
    rows: map<Id, bool>,
    jobs: map<Id, Job>,
    workers: map<Id, Worker>,
    answers: seq<(Id, Service)>,
    known: set<Id>,
    now: nat)
  {
    function WorkerOf(w: Id): Worker {
      if w in workers then workers[w] else Idle
    }

    /** The worker's state after a step; nothing else changes. */
    function With(w: Id, worker: Worker): State {
      this.(workers := workers[w := worker])
    }

    function WithJob(user: Id, job: Job): State {
      this.(jobs := jobs[user := job])
    }
  }

  const NOTHING: State := State(map[], map[], map[], [], {}, 0)

  /** What happens next: time passes, a user registers, a deletion is requested, a worker
      dies, or a worker takes its next step, whose port answers with `kind`. A claim is
      answered with the job of user `pick`, if that is claimable. */
  datatype Event =
    | Pass(time: nat)
    | Join(user: Id)
    | Request(user: Id)
    | Crash(worker: Id)
    | Go(worker: Id, kind: Kind, pick: Id)

  /** The first position from i on whose step was not completed when it was claimed. */
  function Seek(steps: seq<ClaimedStep>, i: nat): (j: nat)
    requires i <= |steps|
    ensures i <= j <= |steps|
    ensures forall k | i <= k < j :: steps[k].done
    ensures j < |steps| ==> !steps[j].done
    decreases |steps| - i
  {
    if i < |steps| && steps[i].done then Seek(steps, i + 1) else i
  }

  /** A worker that has dealt with the steps before position i. A service without a cleanup
      client fails without a call. */
  function Arrive(clients: set<Service>, user: Id, steps: seq<ClaimedStep>, i: nat): Worker
    requires i <= |steps|
  {
    var j := Seek(steps, i);
    Busy(user, steps, j, if j < |steps| && steps[j].service !in clients then Failing else AtStep)
  }

  // ----- a worker's steps -----

  function Claim(clients: set<Service>, s: State, w: Id, kind: Kind, user: Id): State {
    if kind.Refused? || user !in s.jobs || !s.jobs[user].IsClaimable(s.now) then s
    else
      var job := s.jobs[user].AsClaimed(s.now);
      var s1 := s.WithJob(user, job);
      if kind.Lost? then s1 else s1.With(w, Arrive(clients, user, ClaimedSteps(job, CLAIM_ORDER), 0))
  }

  function CallClient(s: State, w: Id, b: Worker, kind: Kind): State
    requires b.Busy? && b.position < |b.steps|
  {
    if kind.Done?
    then s.(answers := s.answers + [(b.user, b.steps[b.position].service)]).With(w, b.(phase := Answered))
    else s.With(w, b.(phase := Failing))
  }

  /** The job's row is updated unless the store refuses; the worker goes on only if told so. */
  function UpdateJob(s: State, w: Id, user: Id, job: Job, next: Worker, kind: Kind): State {
    var s1 := if kind.Refused? then s else s.WithJob(user, job);
    s1.With(w, if kind.Done? then next else Idle)
  }

  /** A missing row is as good as a removed one. */
  function RemoveRow(s: State, w: Id, b: Worker, kind: Kind): State
    requires b.Busy?
  {
    var s1 := if kind.Refused? then s else s.(rows := s.rows - {b.user});
    s1.With(w, if kind.Done? then b.(phase := Finishing) else Idle)
  }

  function WorkerStep(clients: set<Service>, s: State, w: Id, kind: Kind, pick: Id): State {
    var b := s.WorkerOf(w);
    if b.Idle? then Claim(clients, s, w, kind, pick)
    else if b.user !in s.jobs || b.position > |b.steps| then s.With(w, Idle)
    else
      var job := s.jobs[b.user];
      if b.phase.Finishing? then UpdateJob(s, w, b.user, job.Finished(), Idle, kind)
      else if b.position == |b.steps| then RemoveRow(s, w, b, kind)
      else
        var step := b.steps[b.position];
        match b.phase
        case AtStep => CallClient(s, w, b, kind)
        case Answered =>
          UpdateJob(s, w, b.user, job.WithStepCompleted(step.service),
                    Arrive(clients, b.user, b.steps, b.position + 1), kind)
        case Failing =>
          UpdateJob(s, w, b.user, job.WithStepRetried(step.service, step.attempts + 1, s.now),
                    b.(phase := Reopening), kind)
        case _ => UpdateJob(s, w, b.user, job.Reopened(), Idle, kind)
  }

  // ----- requests -----

  /** A repeated request, or one for a missing account, changes nothing. */
  function RequestDeletion(s: State, user: Id): State {
    if user in s.rows && !s.rows[user] then
      s.(rows := s.rows[user := true],
         jobs := if user in s.jobs then s.jobs else s.jobs[user := NewJob(s.now)])
    else s
  }

  /** The state after an event. Events that cannot happen leave the state alone, so every
      sequence of events is a schedule. */
  function After(clients: set<Service>, s: State, e: Event): State {
    match e
    case Pass(time) => s.(now := s.now + time)
    case Join(user) => if user in s.known then s else s.(rows := s.rows[user := false], known := s.known + {user})
    case Request(user) => RequestDeletion(s, user)
    case Crash(w) => s.With(w, Idle)
    case Go(w, kind, pick) => WorkerStep(clients, s, w, kind, pick)
  }

  function Runs(clients: set<Service>, events: seq<Event>): State {
    if events == [] then NOTHING
    else
      var n := |events| - 1;
      After(clients, Runs(clients, events[..n]), events[n])
  }

  // ----- safety -----

  predicate AllAnswered(answers: seq<(Id, Service)>, user: Id) {
    forall service: Service :: (user, service) in answers
  }

  /** Completed steps were answered; a job belongs to a pending account or to one that is
      gone, and then all services answered; a completed job's account is gone. */
  predicate JobSafe(s: State, user: Id)
    requires user in s.jobs
  {
    var job := s.jobs[user];
    && user in s.known
    && job.steps.Keys == ALL_SERVICES
    && (forall service: Service | job.IsDone(service) :: (user, service) in s.answers)
    && (user in s.rows ==> s.rows[user])
    && (user !in s.rows ==> AllAnswered(s.answers, user))
    && (job.status.Completed? ==> user !in s.rows)
  }

  /** Every step a worker has passed was answered. */
  predicate WorkerSafe(s: State, b: Worker) {
    b.Busy? ==>
      && b.user in s.jobs && b.user in s.known
      && |b.steps| == |CLAIM_ORDER| && b.position <= |b.steps|
      && (forall i | 0 <= i < |b.steps| :: b.steps[i].service == CLAIM_ORDER[i])
      && (forall i | 0 <= i < |b.steps| && (i < b.position || b.steps[i].done) ::
            (b.user, b.steps[i].service) in s.answers)
      && (b.phase.Answered? ==> b.position < |b.steps| && (b.user, b.steps[b.position].service) in s.answers)
      && (b.phase.Finishing? ==> b.position == |b.steps| && b.user !in s.rows)
      && (b.phase.Failing? || b.phase.Reopening? ==> b.position < |b.steps|)
  }

  ghost predicate Safe(s: State) {
    && s.rows.Keys <= s.known
    && (forall u | u in s.rows && s.rows[u] :: u in s.jobs)
    && (forall u | u in s.jobs :: JobSafe(s, u))
    && (forall w: Id :: WorkerSafe(s, s.WorkerOf(w)))
  }

  /** What no event takes back. */
  predicate Grows(s: State, s': State) {
    && s.answers <= s'.answers
    && s.known <= s'.known
    && s.jobs.Keys <= s'.jobs.Keys
    && forall u | u in s'.rows && u in s.known :: u in s.rows
  }

  lemma AnswersStay(s: State, s': State, user: Id, service: Service)
    requires Grows(s, s') && (user, service) in s.answers
    ensures (user, service) in s'.answers
  {
    var i :| 0 <= i < |s.answers| && s.answers[i] == (user, service);
    assert s'.answers[i] == s.answers[i];
  }

  lemma StaysSafe(s: State, s': State, b: Worker)
    requires Grows(s, s') && WorkerSafe(s, b)
    ensures WorkerSafe(s', b)
  {
    if b.Busy? {
      forall i | 0 <= i < |b.steps| && (i < b.position || b.steps[i].done || (i == b.position && b.phase.Answered?))
        ensures (b.user, b.steps[i].service) in s'.answers
      {
        AnswersStay(s, s', b.user, b.steps[i].service);
      }
    }
  }

  /** A worker past its last step has an answer of every service. */
  lemma PassedAll(s: State, b: Worker)
    requires WorkerSafe(s, b) && b.Busy? && b.position == |b.steps|
    ensures AllAnswered(s.answers, b.user)
  {
    forall service: Service
      ensures (b.user, service) in s.answers
    {
      var i := ClaimOrderIsComplete(service);
    }
  }

  lemma ArrivesSafe(clients: set<Service>, s: State, b: Worker, i: nat)
    requires WorkerSafe(s, b) && b.Busy? && i <= |b.steps|
    requires forall k | 0 <= k < i :: (b.user, b.steps[k].service) in s.answers
    ensures WorkerSafe(s, Arrive(clients, b.user, b.steps, i))
  {
  }

  /** A job whose row is untouched stays safe while its account's row is untouched too. */
  lemma JobStays(s: State, s': State, user: Id)
    requires user in s.jobs && JobSafe(s, user) && Grows(s, s') && s'.jobs[user] == s.jobs[user]
    requires user in s.rows ==> user in s'.rows && s'.rows[user]
    ensures JobSafe(s', user)
  {
    forall service: Service | (user, service) in s.answers
      ensures (user, service) in s'.answers
    {
      AnswersStay(s, s', user, service);
    }
  }

  /** Safety after a step of worker w on the job of `user`. */
  lemma StepSafe(s: State, s': State, w: Id, user: Id)
    requires Safe(s) && user in s.jobs && Grows(s, s') && s'.known == s.known
    requires s'.jobs == s.jobs[user := s'.jobs[user]] && user in s'.jobs && JobSafe(s', user)
    requires forall u | u != user :: u in s.rows <==> u in s'.rows
    requires forall u | u in s'.rows :: u in s.rows && s'.rows[u] == s.rows[u]
    requires forall v: Id | v != w :: s'.WorkerOf(v) == s.WorkerOf(v)
    requires WorkerSafe(s', s'.WorkerOf(w))
    ensures Safe(s')
  {
    hide WorkerSafe;
    forall u | u in s'.jobs
      ensures JobSafe(s', u)
    {
      if u != user {
        JobStays(s, s', u);
      }
    }
    forall v: Id
      ensures WorkerSafe(s', s'.WorkerOf(v))
    {
      if v != w {
        StaysSafe(s, s', s.WorkerOf(v));
      }
    }
  }

  lemma ClaimSafe(clients: set<Service>, s: State, w: Id, kind: Kind, user: Id)
    requires Safe(s)
    ensures Safe(Claim(clients, s, w, kind, user))
  {
    hide WorkerSafe, Arrive, ClaimedSteps;
    var s' := Claim(clients, s, w, kind, user);
    if s' != s {
      var job := s'.jobs[user];
      assert s.jobs[user].steps == job.steps;
      forall service: Service
        ensures s.jobs[user].IsDone(service) <==> job.IsDone(service)
      {
      }
      if kind.Done? {
        var steps := ClaimedSteps(job, CLAIM_ORDER);
        ClaimReturnsAll(job, CLAIM_ORDER);
        FreshClaimSafe(s', user, steps);
        ArrivesSafe(clients, s', Busy(user, steps, 0, AtStep), 0);
      } else {
        StaysSafe(s, s', s.WorkerOf(w));
      }
      StepSafe(s, s', w, user);
    }
  }

  lemma FreshClaimSafe(s: State, user: Id, steps: seq<ClaimedStep>)
    requires user in s.jobs && JobSafe(s, user) && |steps| == |CLAIM_ORDER|
    requires forall i | 0 <= i < |steps| ::
               steps[i].service == CLAIM_ORDER[i] && steps[i].done == s.jobs[user].IsDone(CLAIM_ORDER[i])
    ensures WorkerSafe(s, Busy(user, steps, 0, AtStep))
  {
  }

  lemma CallSafe(s: State, w: Id, kind: Kind)
    requires Safe(s)
    requires var b := s.WorkerOf(w); b.Busy? && b.position < |b.steps| && b.phase.AtStep?
    ensures Safe(CallClient(s, w, s.WorkerOf(w), kind))
  {
    var b := s.WorkerOf(w);
    var s' := CallClient(s, w, b, kind);
    if kind.Done? {
      assert s'.answers[|s.answers|] == (b.user, b.steps[b.position].service);
    }
    StaysSafe(s, s', b);
    JobStays(s, s', b.user);
    StepSafe(s, s', w, b.user);
  }

  lemma UpdateSafe(s: State, w: Id, user: Id, job: Job, next: Worker, kind: Kind)
    requires Safe(s) && user in s.jobs && JobSafe(s.WithJob(user, job), user)
    requires WorkerSafe(s, next)
    ensures Safe(UpdateJob(s, w, user, job, next, kind))
  {
    hide WorkerSafe, JobSafe;
    var s' := UpdateJob(s, w, user, job, next, kind);
    JobRowOnly(s, s', user);
    StaysSafe(s, s', next);
    IdleSafe(s');
    StepSafe(s, s', w, user);
  }

  lemma IdleSafe(s: State)
    ensures WorkerSafe(s, Idle)
  {
  }

  lemma JobRowOnly(s: State, s': State, user: Id)
    requires Safe(s) && user in s.jobs && user in s'.jobs
    requires s'.rows == s.rows && s'.answers == s.answers && s'.known == s.known
    requires s'.jobs[user] == s.jobs[user] || JobSafe(s.WithJob(user, s'.jobs[user]), user)
    ensures JobSafe(s', user)
  {
  }

  lemma RemoveSafe(s: State, w: Id, kind: Kind)
    requires Safe(s)
    requires var b := s.WorkerOf(w); b.Busy? && b.position == |b.steps|
    ensures Safe(RemoveRow(s, w, s.WorkerOf(w), kind))
  {
    var b := s.WorkerOf(w);
    var s' := RemoveRow(s, w, b, kind);
    PassedAll(s, b);
    StaysSafe(s, s', b);
    StepSafe(s, s', w, b.user);
  }

  /** Each statement of the store keeps its job row safe. */
  lemma StepRowsSafe(s: State, user: Id, service: Service, attempt: nat)
    requires user in s.jobs && JobSafe(s, user)
    ensures (user, service) in s.answers ==> JobSafe(s.WithJob(user, s.jobs[user].WithStepCompleted(service)), user)
    ensures JobSafe(s.WithJob(user, s.jobs[user].WithStepRetried(service, attempt, s.now)), user)
  {
    hide BackOff;
    assert s.jobs[user].WithStepCompleted(service).steps.Keys == ALL_SERVICES;
    assert s.jobs[user].WithStepRetried(service, attempt, s.now).steps.Keys == ALL_SERVICES;
  }

  lemma JobRowsSafe(s: State, user: Id)
    requires user in s.jobs && JobSafe(s, user)
    ensures JobSafe(s.WithJob(user, s.jobs[user].Reopened()), user)
    ensures user !in s.rows ==> JobSafe(s.WithJob(user, s.jobs[user].Finished()), user)
  {
    forall t: Service
      ensures s.jobs[user].Reopened().IsDone(t) <==> s.jobs[user].IsDone(t)
      ensures s.jobs[user].Finished().IsDone(t) <==> s.jobs[user].IsDone(t)
    {
    }
  }

  lemma WorkerStepSafe(clients: set<Service>, s: State, w: Id, kind: Kind, pick: Id)
    requires Safe(s)
    ensures Safe(WorkerStep(clients, s, w, kind, pick))
  {
    hide Claim, CallClient, UpdateJob, RemoveRow, Arrive, JobSafe;
    var b := s.WorkerOf(w);
    if b.Idle? {
      ClaimSafe(clients, s, w, kind, pick);
    } else {
      assert WorkerSafe(s, b);
      var job := s.jobs[b.user];
      IdleSafe(s);
      if b.phase.Finishing? {
        JobRowsSafe(s, b.user);
        UpdateSafe(s, w, b.user, job.Finished(), Idle, kind);
      } else if b.position == |b.steps| {
        RemoveSafe(s, w, kind);
      } else {
        StepwiseSafe(clients, s, w, kind, pick);
      }
    }
  }

  lemma StepwiseSafe(clients: set<Service>, s: State, w: Id, kind: Kind, pick: Id)
    requires Safe(s)
    requires var b := s.WorkerOf(w); b.Busy? && !b.phase.Finishing? && b.user in s.jobs && b.position < |b.steps|
    ensures Safe(WorkerStep(clients, s, w, kind, pick))
  {
    hide Claim, CallClient, UpdateJob, RemoveRow, Arrive, JobSafe, BackOff;
    var b := s.WorkerOf(w);
    assert WorkerSafe(s, b);
    var job := s.jobs[b.user];
    var step := b.steps[b.position];
    StepRowsSafe(s, b.user, step.service, step.attempts + 1);
    JobRowsSafe(s, b.user);
    match b.phase
    case AtStep => CallSafe(s, w, kind);
    case Answered =>
      ArrivesSafe(clients, s, b, b.position + 1);
      UpdateSafe(s, w, b.user, job.WithStepCompleted(step.service),
                 Arrive(clients, b.user, b.steps, b.position + 1), kind);
    case Failing =>
      UpdateSafe(s, w, b.user, job.WithStepRetried(step.service, step.attempts + 1, s.now), b.(phase := Reopening),
                 kind);
    case Reopening =>
      IdleSafe(s);
      UpdateSafe(s, w, b.user, job.Reopened(), Idle, kind);
  }

  lemma OtherEventSafe(clients: set<Service>, s: State, e: Event)
    requires Safe(s) && !e.Go?
    ensures Safe(After(clients, s, e))
  {
    hide WorkerSafe, JobSafe;
    var s' := After(clients, s, e);
    IdleSafe(s');
    forall u | u in s'.jobs
      ensures JobSafe(s', u)
    {
      OtherEventJobSafe(clients, s, e, u);
    }
    forall v: Id
      ensures WorkerSafe(s', s'.WorkerOf(v))
    {
      StaysSafe(s, s', s.WorkerOf(v));
    }
  }

  lemma OtherEventJobSafe(clients: set<Service>, s: State, e: Event, u: Id)
    requires Safe(s) && !e.Go? && u in After(clients, s, e).jobs
    ensures JobSafe(After(clients, s, e), u)
  {
    hide WorkerSafe;
    if u in s.jobs {
      assert JobSafe(s, u);
    }
  }

  lemma {:induction false} AlwaysSafe(clients: set<Service>, events: seq<Event>)
    ensures Safe(Runs(clients, events))
  {
    hide After, WorkerStep, JobSafe, WorkerSafe;
    if events != [] {
      var n := |events| - 1;
      AlwaysSafe(clients, events[..n]);
      var s := Runs(clients, events[..n]);
      match events[n]
      case Go(w, kind, pick) =>
        WorkerStepSafe(clients, s, w, kind, pick);
        GoIsWorkerStep(clients, s, w, kind, pick);
      case _ => OtherEventSafe(clients, s, events[n]);
    } else {
      IdleSafe(NOTHING);
    }
  }

  lemma GoIsWorkerStep(clients: set<Service>, s: State, w: Id, kind: Kind, pick: Id)
    ensures After(clients, s, Go(w, kind, pick)) == WorkerStep(clients, s, w, kind, pick)
  {
  }

  // ----- what every schedule guarantees -----

  /** Event i of the schedule is a call to the service's cleanup for the user that is
      answered with success. */
  predicate IsAnswer(clients: set<Service>, events: seq<Event>, i: nat, user: Id, service: Service)
    requires i < |events|
  {
    && events[i].Go? && events[i].kind.Done?
    && var b := Runs(clients, events[..i]).WorkerOf(events[i].worker);
    b.Busy? && b.user == user && b.phase.AtStep? && b.position < |b.steps| && b.steps[b.position].service == service
  }

  lemma NewAnswer(clients: set<Service>, s: State, e: Event)
    ensures var s' := After(clients, s, e);
            || s'.answers == s.answers
            || (&& e.Go? && e.kind.Done?
                && var b := s.WorkerOf(e.worker);
                && b.Busy? && b.phase.AtStep? && b.position < |b.steps|
                && s'.answers == s.answers + [(b.user, b.steps[b.position].service)])
  {
    hide Arrive, ClaimedSteps, BackOff;
  }

  /** Every recorded answer was given by a call of the schedule. */
  lemma {:induction false} AnsweredBy(clients: set<Service>, events: seq<Event>, user: Id, service: Service)
    returns (i: nat)
    requires (user, service) in Runs(clients, events).answers
    ensures i < |events| && IsAnswer(clients, events, i, user, service)
  {
    hide After;
    var n := |events| - 1;
    var s := Runs(clients, events[..n]);
    NewAnswer(clients, s, events[n]);
    if (user, service) in s.answers {
      i := AnsweredBy(clients, events[..n], user, service);
      assert events[..n][..i] == events[..i];
    } else {
      i := n;
    }
  }

  /** Under every schedule of any number of workers, with crashes, lapsed leases, stale
      snapshots and failing store calls: event k removes a user's row only if deletion of
      that user is pending and each of the seven services has answered success for that user
      before. */
  lemma RemovedOnlyWhenClean(clients: set<Service>, events: seq<Event>, k: nat, user: Id, service: Service)
    returns (i: nat)
    requires k < |events|
    requires user in Runs(clients, events[..k]).rows && user !in Runs(clients, events[..k + 1]).rows
    ensures Runs(clients, events[..k]).rows[user] && user in Runs(clients, events[..k]).jobs
    ensures i < k && IsAnswer(clients, events, i, user, service)
  {
    hide Runs, After, JobSafe, WorkerSafe;
    var before, until := events[..k], events[..k + 1];
    assert until[..k] == before;
    AlwaysSafe(clients, before);
    RunsOn(clients, until);
    RemovedBy(clients, Runs(clients, before), events[k], user);
    PassedAll(Runs(clients, before), Runs(clients, before).WorkerOf(events[k].worker));
    i := AnsweredBy(clients, before, user, service);
    assert before[..i] == events[..i];
  }

  lemma RunsOn(clients: set<Service>, events: seq<Event>)
    requires events != []
    ensures var n := |events| - 1; Runs(clients, events) == After(clients, Runs(clients, events[..n]), events[n])
  {
  }

  /** The user whose row the step removes. */
  function Removed(d: State, e: Event): Option<Id> {
    if !e.Go? || e.kind.Refused? then None
    else
      var b := d.WorkerOf(e.worker);
      if b.Busy? && b.user in d.jobs && !b.phase.Finishing? && b.position == |b.steps| && b.user in d.rows
      then Some(b.user) else None
  }

  /** A step of a worker removes that row and no other. */
  lemma RemovedExactly(clients: set<Service>, d: State, e: Event)
    requires !e.Join? && !e.Request?
    ensures var user := Removed(d, e);
            After(clients, d, e).rows == if user.Some? then d.rows - {user.value} else d.rows
    ensures After(clients, d, e).known == d.known
  {
    hide Arrive, ClaimedSteps, BackOff;
  }

  lemma RemovedBy(clients: set<Service>, s: State, e: Event, user: Id)
    requires Safe(s) && user in s.rows && user !in After(clients, s, e).rows
    ensures s.rows[user] && user in s.jobs && e.Go?
    ensures var b := s.WorkerOf(e.worker); b.Busy? && b.user == user && b.position == |b.steps|
  {
    if !e.Join? && !e.Request? {
      hide After;
      RemovedExactly(clients, s, e);
      assert JobSafe(s, user);
    }
  }

  /** At every moment of every schedule: a job marked completed means that the user row is
      gone; a user row that is gone although it had a job means that all seven services have
      answered; and a job has exactly the seven steps. */
  lemma CompletedMeansGone(clients: set<Service>, events: seq<Event>, user: Id)
    requires user in Runs(clients, events).jobs
    ensures var s := Runs(clients, events);
            && (s.jobs[user].status.Completed? ==> user !in s.rows)
            && (user !in s.rows ==> forall service: Service :: (user, service) in s.answers)
            && s.jobs[user].steps.Keys == ALL_SERVICES
  {
    hide Runs;
    AlwaysSafe(clients, events);
  }

  /** An account is pending exactly when it has a job and is not gone yet, so no request is
      forgotten and no job is made up. */
  lemma PendingMeansJob(clients: set<Service>, events: seq<Event>, user: Id)
    requires user in Runs(clients, events).rows
    ensures var s := Runs(clients, events); s.rows[user] <==> user in s.jobs
  {
    hide Runs;
    AlwaysSafe(clients, events);
  }

  /** Once a user has a job, asking again changes nothing, whatever the workers have done. */
  lemma RequestsAreIdempotent(clients: set<Service>, events: seq<Event>, user: Id)
    requires user in Runs(clients, events).jobs
    ensures After(clients, Runs(clients, events), Request(user)) == Runs(clients, events)
  {
    hide Runs;
    AlwaysSafe(clients, events);
  }
}
