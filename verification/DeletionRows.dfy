/** What the rows of the deletion queue count: a job its claims, a step its failures. */
module DeletionRows {
  import opened Basics
  import opened DeletionJobs
  import opened Store
  import opened Deletion
  import opened DeletionProgress

  // ----- a job counts its claims -----

  lemma UpdateKeepsAttempts(s: State, w: Id, owner: Id, job: Job, next: Worker, kind: Kind, user: Id)
    requires user in s.jobs && (user == owner ==> job.attempts == s.jobs[user].attempts)
    ensures var s' := UpdateJob(s, w, owner, job, next, kind);
            user in s'.jobs && s'.jobs[user].attempts == s.jobs[user].attempts
  {
  }

  lemma GoCountsClaim(clients: set<Service>, s: State, w: Id, kind: Kind, pick: Id, user: Id)
    requires user in s.jobs
    ensures var s' := WorkerStep(clients, s, w, kind, pick);
            && user in s'.jobs
            && s'.jobs[user].attempts
               == s.jobs[user].attempts + if ClaimsJob(s, Go(w, kind, pick), user) then 1 else 0
  {
    hide BackOff, ClaimedSteps, Arrive, UpdateJob;
    var b := s.WorkerOf(w);
    if b.Busy? && b.user in s.jobs && b.position <= |b.steps| {
      var job := s.jobs[b.user];
      UpdateKeepsAttempts(s, w, b.user, job.Finished(), Idle, kind, user);
      UpdateKeepsAttempts(s, w, b.user, job.Reopened(), Idle, kind, user);
      if b.position < |b.steps| {
        var step := b.steps[b.position];
        UpdateKeepsAttempts(s, w, b.user, job.WithStepCompleted(step.service),
                            Arrive(clients, b.user, b.steps, b.position + 1), kind, user);
        UpdateKeepsAttempts(s, w, b.user, job.WithStepRetried(step.service, step.attempts + 1, s.now),
                            b.(phase := Reopening), kind, user);
      }
    }
  }

  lemma NothingClaimed(clients: set<Service>, s: State, w: Id, kind: Kind, pick: Id, user: Id)
    requires user !in s.jobs
    ensures !ClaimsJob(s, Go(w, kind, pick), user) && user !in WorkerStep(clients, s, w, kind, pick).jobs
  {
    hide BackOff, ClaimedSteps, Arrive;
  }

  lemma OthersClaimNothing(clients: set<Service>, s: State, e: Event, user: Id)
    requires !e.Go?
    ensures !ClaimsJob(s, e, user)
    ensures var s' := After(clients, s, e);
            if user in s.jobs then user in s'.jobs && s'.jobs[user] == s.jobs[user]
            else user in s'.jobs ==> s'.jobs[user].attempts == 0
  {
  }

  /** In every schedule of any number of workers, with crashes and lost answers: the attempts of a
      job are the claims of it, those included whose worker never learnt of it. */
  lemma {:induction false} AttemptsAreClaims(clients: set<Service>, events: seq<Event>, user: Id)
    ensures var s := Runs(clients, events);
            if user in s.jobs then s.jobs[user].attempts == Claims(clients, events, user)
            else Claims(clients, events, user) == 0
  {
    hide WorkerStep, ClaimsJob;
    if events != [] {
      var n := |events| - 1;
      AttemptsAreClaims(clients, events[..n], user);
      var s, e := Runs(clients, events[..n]), events[n];
      match e
      case Go(w, kind, pick) =>
        if user in s.jobs {
          GoCountsClaim(clients, s, w, kind, pick, user);
        } else {
          NothingClaimed(clients, s, w, kind, pick, user);
        }
      case _ => OthersClaimNothing(clients, s, e, user);
    }
  }

  // ----- a step counts its failures -----

  /** How often a retry of the user's step for the service was recorded. */
  function Retries(clients: set<Service>, events: seq<Event>, user: Id, service: Service): nat {
    if events == [] then 0
    else
      var n := |events| - 1;
      Retries(clients, events[..n], user, service)
      + if RetriesStep(Runs(clients, events[..n]), events[n], user, service) then 1 else 0
  }

  /** The steps the worker has yet to deal with count what they counted when it claimed them. */
  predicate Current(s: State, b: Worker) {
    b.Busy? && b.user in s.jobs ==>
      forall i | 0 <= i < |b.steps| && (i > b.position || (i == b.position && !b.phase.Reopening?)) ::
        && b.steps[i].service in s.jobs[b.user].steps
        && s.jobs[b.user].steps[b.steps[i].service].attempts == b.steps[i].attempts
  }

  function StepAttempts(s: State, user: Id, service: Service): nat {
    if user in s.jobs && service in s.jobs[user].steps then s.jobs[user].steps[service].attempts else 0
  }

  lemma ClaimIsCurrent(clients: set<Service>, s: State, w: Id, kind: Kind, pick: Id)
    requires Safe(s) && s.WorkerOf(w).Idle?
    ensures var s' := WorkerStep(clients, s, w, kind, pick); Current(s', s'.WorkerOf(w))
  {
    hide BackOff, ClaimedSteps, Seek, WorkerSafe;
    if pick in s.jobs {
      assert JobSafe(s, pick);
      var job := s.jobs[pick].AsClaimed(s.now);
      forall i | 0 <= i < |CLAIM_ORDER|
        ensures CLAIM_ORDER[i] in job.steps
      {
        assert CLAIM_ORDER[i] in ALL_SERVICES;
      }
      ClaimReturnsAll(job, CLAIM_ORDER);
    }
  }

  lemma ClaimKeepsAttempts(clients: set<Service>, s: State, w: Id, kind: Kind, pick: Id, user: Id, service: Service)
    requires s.WorkerOf(w).Idle?
    ensures StepAttempts(WorkerStep(clients, s, w, kind, pick), user, service) == StepAttempts(s, user, service)
    ensures !RetriesStep(s, Go(w, kind, pick), user, service)
  {
    hide BackOff, ClaimedSteps, Seek, Arrive;
  }

  lemma WorkIsCurrent(clients: set<Service>, s: State, w: Id, kind: Kind, pick: Id)
    requires Safe(s) && s.WorkerOf(w).Busy? && Current(s, s.WorkerOf(w))
    ensures var s' := WorkerStep(clients, s, w, kind, pick); Current(s', s'.WorkerOf(w))
  {
    hide BackOff, Seek, JobSafe;
    var b := s.WorkerOf(w);
    assert WorkerSafe(s, b);
    forall i, j | 0 <= i < |b.steps| && 0 <= j < |b.steps| && b.steps[i].service == b.steps[j].service
      ensures i == j
    {
      OrderDistinct(i, j);
    }
  }

  lemma FailingCounts(clients: set<Service>, s: State, w: Id, kind: Kind, pick: Id, user: Id, service: Service)
    requires Safe(s) && Current(s, s.WorkerOf(w))
    requires var b := s.WorkerOf(w); b.Busy? && b.phase.Failing?
    ensures StepAttempts(WorkerStep(clients, s, w, kind, pick), user, service)
            == StepAttempts(s, user, service) + if RetriesStep(s, Go(w, kind, pick), user, service) then 1 else 0
  {
    hide BackOff, JobSafe;
    assert WorkerSafe(s, s.WorkerOf(w));
  }

  lemma OthersCountNothing(clients: set<Service>, s: State, w: Id, kind: Kind, pick: Id, user: Id, service: Service)
    requires var b := s.WorkerOf(w); b.Busy? && !b.phase.Failing?
    ensures StepAttempts(WorkerStep(clients, s, w, kind, pick), user, service) == StepAttempts(s, user, service)
    ensures !RetriesStep(s, Go(w, kind, pick), user, service)
  {
    hide Seek, Arrive;
  }

  lemma OthersAreCurrent(clients: set<Service>, s: State, w: Id, e: Event, user: Id, service: Service)
    requires Safe(s) && !e.Go? && (e.Crash? ==> e.worker == w) && Current(s, s.WorkerOf(w))
    ensures var s' := After(clients, s, e);
            && Current(s', s'.WorkerOf(w)) && StepAttempts(s', user, service) == StepAttempts(s, user, service)
            && !RetriesStep(s, e, user, service)
  {
    hide JobSafe;
    assert WorkerSafe(s, s.WorkerOf(w));
  }

  /** With one worker, whatever fails or crashes, the attempts of a step are the retries recorded
      for it. */
  lemma {:induction false} AttemptsAreRetries(clients: set<Service>, events: seq<Event>, w: Id, user: Id,
                                              service: Service)
    requires OneWorker(events, w)
    ensures var s := Runs(clients, events);
            && Current(s, s.WorkerOf(w))
            && StepAttempts(s, user, service) == Retries(clients, events, user, service)
  {
    hide WorkerStep, RetriesStep, Current, StepAttempts, Safe;
    if events != [] {
      var n := |events| - 1;
      assert forall e | e in events[..n] :: e in events;
      assert events[n] in events;
      AttemptsAreRetries(clients, events[..n], w, user, service);
      AlwaysSafe(clients, events[..n]);
      var s, e := Runs(clients, events[..n]), events[n];
      match e
      case Go(_, kind, pick) =>
        if s.WorkerOf(w).Idle? {
          ClaimIsCurrent(clients, s, w, kind, pick);
          ClaimKeepsAttempts(clients, s, w, kind, pick, user, service);
        } else {
          WorkIsCurrent(clients, s, w, kind, pick);
          if s.WorkerOf(w).phase.Failing? {
            FailingCounts(clients, s, w, kind, pick, user, service);
          } else {
            OthersCountNothing(clients, s, w, kind, pick, user, service);
          }
        }
      case _ => OthersAreCurrent(clients, s, w, e, user, service);
    } else {
      NothingIsCurrent(w, user, service);
    }
  }

  lemma NothingIsCurrent(w: Id, user: Id, service: Service)
    ensures Current(NOTHING, NOTHING.WorkerOf(w)) && StepAttempts(NOTHING, user, service) == 0
  {
  }

  /** A recorded retry puts the step off by one minute, doubled for each failure so far, at most
      eight times. */
  lemma BackOffDoubles(job: Job, service: Service, attempt: nat, now: int)
    requires service in job.steps
    ensures var step := job.WithStepRetried(service, attempt, now).steps[service];
            && step.status.Pending? && step.attempts == attempt
            && step.nextAttemptAt - now == (if attempt == 0 then 60_000_000_000
                                            else if attempt <= 8 then 2 * BackOff(attempt - 1)
                                            else BackOff(8))
  {
  }
}
