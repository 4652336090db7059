/** What one worker achieves on its own: steps complete for good, every claim beyond the
    failing port calls finishes the job, and without store failures each service is asked
    successfully once. */
module DeletionProgress {
  import opened Basics
  import opened DeletionJobs
  import opened Store
  import opened Deletion

  /** All worker events of the schedule are worker w's. */
  predicate OneWorker(events: seq<Event>, w: Id) {
    forall e | e in events :: (e.Go? || e.Crash?) ==> e.worker == w
  }

  // ----- every run of the worker ends -----

  function Rank(b: Worker): nat {
    if b.Idle? then 0
    else if b.phase.Finishing? || b.position > |b.steps| then 1
    else if b.position == |b.steps| then 2
    else
      4 * (|b.steps| - b.position)
      + match b.phase
        case AtStep => 3
        case Answered => 2
        case Failing => 2
        case _ => 1
  }

  /** Each step of a claimed run, however its port answers, brings the worker nearer to idle. */
  lemma EveryStepAdvances(clients: set<Service>, s: State, w: Id, kind: Kind, pick: Id)
    requires s.WorkerOf(w).Busy?
    ensures Rank(WorkerStep(clients, s, w, kind, pick).WorkerOf(w)) < Rank(s.WorkerOf(w))
  {
    hide BackOff;
  }

  // ----- the snapshot of the only worker is never stale -----

  /** The worker's snapshot agrees with the job: steps before its position are completed,
      the others as it saw them. */
  predicate InStep(s: State, b: Worker) {
    b.Busy? ==>
      && b.user in s.jobs
      && var job := s.jobs[b.user];
      && !job.status.Completed?
      && (b.position < |b.steps| ==> !b.steps[b.position].done)
      && forall i | 0 <= i < |b.steps| ::
           job.IsDone(b.steps[i].service) == (i < b.position || b.steps[i].done)
  }

  ghost predicate Alone(s: State, w: Id) {
    && Safe(s)
    && (forall v: Id | v != w :: s.WorkerOf(v).Idle?)
    && InStep(s, s.WorkerOf(w))
  }

  lemma OrderDistinct(i: nat, j: nat)
    requires i < |CLAIM_ORDER| && j < |CLAIM_ORDER| && CLAIM_ORDER[i] == CLAIM_ORDER[j]
    ensures i == j
  {
    var k := ClaimOrderIsComplete(CLAIM_ORDER[i]);
  }

  lemma ArrivesInStep(clients: set<Service>, s: State, user: Id, steps: seq<ClaimedStep>, i: nat)
    requires i <= |steps| && user in s.jobs && !s.jobs[user].status.Completed?
    requires forall k | 0 <= k < |steps| :: s.jobs[user].IsDone(steps[k].service) == (k < i || steps[k].done)
    ensures InStep(s, Arrive(clients, user, steps, i))
  {
  }

  /** The steps done in one state are done in the other. */
  ghost predicate KeepsDone(s: State, s': State) {
    forall u, service: Service | u in s.jobs && s.jobs[u].IsDone(service) :: u in s'.jobs && s'.jobs[u].IsDone(service)
  }

  lemma ClaimInStep(clients: set<Service>, s: State, w: Id, kind: Kind, user: Id)
    requires Alone(s, w) && s.WorkerOf(w).Idle?
    ensures var s' := Claim(clients, s, w, kind, user);
            InStep(s', s'.WorkerOf(w)) && KeepsDone(s, s')
  {
    hide Arrive, ClaimedSteps, InStep;
    var s' := Claim(clients, s, w, kind, user);
    if s'.WorkerOf(w) != Idle {
      assert JobSafe(s, user);
      ClaimReturnsAll(s'.jobs[user], CLAIM_ORDER);
      ArrivesInStep(clients, s', user, ClaimedSteps(s'.jobs[user], CLAIM_ORDER), 0);
    } else {
      IdleInStep(s');
    }
  }

  lemma IdleInStep(s: State)
    ensures InStep(s, Idle)
  {
  }

  /** Which steps are done after each statement of the store. */
  lemma DoneAfter(job: Job, service: Service, attempt: nat, now: int)
    requires service in job.steps
    ensures forall t: Service :: job.WithStepCompleted(service).IsDone(t) == (t == service || job.IsDone(t))
    ensures forall t: Service :: job.WithStepRetried(service, attempt, now).IsDone(t) == (t != service && job.IsDone(t))
  {
    hide BackOff;
  }

  lemma DoneAnyway(job: Job)
    ensures forall t: Service :: job.Reopened().IsDone(t) == job.IsDone(t) && job.Finished().IsDone(t) == job.IsDone(t)
  {
  }

  lemma NextInStep(clients: set<Service>, s: State, b: Worker)
    requires Safe(s) && b.Busy? && WorkerSafe(s, b) && InStep(s, b) && b.position < |b.steps|
    ensures var job := s.jobs[b.user].WithStepCompleted(b.steps[b.position].service);
            InStep(s.WithJob(b.user, job), Arrive(clients, b.user, b.steps, b.position + 1))
  {
    var service := b.steps[b.position].service;
    assert JobSafe(s, b.user) && service in ALL_SERVICES;
    DoneAfter(s.jobs[b.user], service, 0, 0);
    var s' := s.WithJob(b.user, s.jobs[b.user].WithStepCompleted(service));
    forall k | 0 <= k < |b.steps|
      ensures s'.jobs[b.user].IsDone(b.steps[k].service) == (k < b.position + 1 || b.steps[k].done)
    {
      if b.steps[k].service == service {
        OrderDistinct(k, b.position);
      }
    }
    ArrivesInStep(clients, s', b.user, b.steps, b.position + 1);
  }

  lemma FailInStep(s: State, b: Worker, attempt: nat)
    requires Safe(s) && b.Busy? && WorkerSafe(s, b) && InStep(s, b) && b.position < |b.steps|
    ensures var job := s.jobs[b.user].WithStepRetried(b.steps[b.position].service, attempt, s.now);
            InStep(s.WithJob(b.user, job), b.(phase := Reopening))
  {
    hide BackOff;
    var service := b.steps[b.position].service;
    assert JobSafe(s, b.user) && service in ALL_SERVICES;
    DoneAfter(s.jobs[b.user], service, attempt, s.now);
  }

  lemma UpdateKeeps(s: State, w: Id, user: Id, job: Job, next: Worker, kind: Kind)
    requires user in s.jobs && InStep(s.WithJob(user, job), next)
    requires forall t: Service | s.jobs[user].IsDone(t) :: job.IsDone(t)
    ensures var s' := UpdateJob(s, w, user, job, next, kind);
            InStep(s', s'.WorkerOf(w)) && KeepsDone(s, s')
  {
  }

  /** A step of the only worker completes steps or leaves them; it never undoes one. */
  lemma WorkerKeepsDone(clients: set<Service>, s: State, w: Id, kind: Kind, pick: Id)
    requires Alone(s, w)
    ensures var s' := WorkerStep(clients, s, w, kind, pick);
            InStep(s', s'.WorkerOf(w)) && KeepsDone(s, s')
  {
    hide Claim, UpdateJob, BackOff, JobSafe, InStep, Arrive;
    var b := s.WorkerOf(w);
    if b.Idle? {
      ClaimInStep(clients, s, w, kind, pick);
    } else {
      assert WorkerSafe(s, b) && JobSafe(s, b.user);
      var job := s.jobs[b.user];
      if b.phase.Finishing? {
        DoneAnyway(job);
        IdleInStep(s.WithJob(b.user, job.Finished()));
        UpdateKeeps(s, w, b.user, job.Finished(), Idle, kind);
      } else if b.position == |b.steps| {
        OtherWritesKeep(s, WorkerStep(clients, s, w, kind, pick), b);
      } else {
        StepKeepsDone(clients, s, w, kind, pick);
      }
    }
  }

  lemma OtherWritesKeep(s: State, s': State, b: Worker)
    requires s'.jobs == s.jobs && InStep(s, b) && b.Busy?
    ensures InStep(s', Idle) && KeepsDone(s, s')
    ensures InStep(s', b.(phase := Finishing)) && InStep(s', b.(phase := Failing)) && InStep(s', b.(phase := Answered))
  {
  }

  lemma StepKeepsDone(clients: set<Service>, s: State, w: Id, kind: Kind, pick: Id)
    requires Alone(s, w)
    requires var b := s.WorkerOf(w); b.Busy? && !b.phase.Finishing? && b.position < |b.steps|
    ensures var s' := WorkerStep(clients, s, w, kind, pick);
            InStep(s', s'.WorkerOf(w)) && KeepsDone(s, s')
  {
    hide UpdateJob, BackOff, InStep, Arrive, JobSafe;
    var b := s.WorkerOf(w);
    assert WorkerSafe(s, b);
    var job := s.jobs[b.user];
    var step := b.steps[b.position];
    StepIsJobs(s, b);
    DoneAfter(job, step.service, step.attempts + 1, s.now);
    DoneAnyway(job);
    match b.phase
    case AtStep => OtherWritesKeep(s, WorkerStep(clients, s, w, kind, pick), b);
    case Answered =>
      NextInStep(clients, s, b);
      UpdateKeeps(s, w, b.user, job.WithStepCompleted(step.service),
                  Arrive(clients, b.user, b.steps, b.position + 1), kind);
    case Failing =>
      FailInStep(s, b, step.attempts + 1);
      UpdateKeeps(s, w, b.user, job.WithStepRetried(step.service, step.attempts + 1, s.now), b.(phase := Reopening),
                  kind);
    case Reopening =>
      IdleInStep(s.WithJob(b.user, job.Reopened()));
      UpdateKeeps(s, w, b.user, job.Reopened(), Idle, kind);
  }

  /** The step at the worker's position has a row, and it is not completed. */
  lemma StepIsJobs(s: State, b: Worker)
    requires Safe(s) && WorkerSafe(s, b) && InStep(s, b) && b.Busy? && b.position < |b.steps|
    ensures b.steps[b.position].service in s.jobs[b.user].steps && !s.jobs[b.user].IsDone(b.steps[b.position].service)
  {
    assert JobSafe(s, b.user) && CLAIM_ORDER[b.position] in ALL_SERVICES;
  }

  lemma OtherEventKeepsDone(clients: set<Service>, s: State, w: Id, e: Event)
    requires Alone(s, w) && !e.Go? && (e.Crash? ==> e.worker == w)
    ensures var s' := After(clients, s, e);
            InStep(s', s'.WorkerOf(w)) && KeepsDone(s, s')
  {
  }

  lemma OthersStayIdle(clients: set<Service>, s: State, w: Id, e: Event, v: Id)
    requires v != w && s.WorkerOf(v).Idle? && ((e.Go? || e.Crash?) ==> e.worker == w)
    ensures After(clients, s, e).WorkerOf(v).Idle?
  {
    hide Arrive, ClaimedSteps, BackOff;
  }

  lemma AloneStep(clients: set<Service>, s: State, w: Id, e: Event)
    requires Alone(s, w) && ((e.Go? || e.Crash?) ==> e.worker == w) && Safe(After(clients, s, e))
    ensures Alone(After(clients, s, e), w) && KeepsDone(s, After(clients, s, e))
  {
    hide InStep, WorkerStep, JobSafe, WorkerSafe, KeepsDone;
    forall v: Id | v != w
      ensures After(clients, s, e).WorkerOf(v).Idle?
    {
      OthersStayIdle(clients, s, w, e, v);
    }
    match e
    case Go(_, kind, pick) => WorkerKeepsDone(clients, s, w, kind, pick);
    case _ => OtherEventKeepsDone(clients, s, w, e);
  }

  lemma {:induction false} AlwaysAlone(clients: set<Service>, events: seq<Event>, w: Id)
    requires OneWorker(events, w)
    ensures Alone(Runs(clients, events), w)
  {
    hide After, InStep, KeepsDone, Safe;
    AlwaysSafe(clients, events);
    if events != [] {
      var n := |events| - 1;
      assert forall e | e in events[..n] :: e in events;
      assert events[n] in events;
      AlwaysAlone(clients, events[..n], w);
      AloneStep(clients, Runs(clients, events[..n]), w, events[n]);
    } else {
      IdleInStep(NOTHING);
    }
  }

  /** With one worker, whatever fails or crashes, the set of completed steps of a job only
      grows. */
  lemma {:induction false} StepsOnlyGrow(clients: set<Service>, events: seq<Event>, w: Id, k: nat, user: Id,
                                         service: Service)
    requires OneWorker(events, w) && k <= |events|
    requires var s := Runs(clients, events[..k]); user in s.jobs && s.jobs[user].IsDone(service)
    ensures var s := Runs(clients, events); user in s.jobs && s.jobs[user].IsDone(service)
    decreases |events|
  {
    hide After, Safe, InStep;
    var n := |events| - 1;
    if k == |events| {
      assert events[..k] == events;
    } else {
      assert forall e | e in events[..n] :: e in events;
      assert events[n] in events;
      assert events[..n][..k] == events[..k];
      StepsOnlyGrow(clients, events[..n], w, k, user, service);
      AlwaysAlone(clients, events[..n], w);
      AlwaysSafe(clients, events);
      AloneStep(clients, Runs(clients, events[..n]), w, events[n]);
    }
  }

  // ----- claims and failures -----

  /** The event claims the user's job, whether or not the worker learns of it. */
  predicate ClaimsJob(s: State, e: Event, user: Id) {
    && e.Go? && s.WorkerOf(e.worker).Idle? && e.pick == user && !e.kind.Refused?
    && user in s.jobs && s.jobs[user].IsClaimable(s.now)
  }

  predicate WorksOn(b: Worker, user: Id) {
    b.Busy? && b.user == user
  }

  predicate IsFailing(b: Worker) {
    b.Busy? && b.phase.Failing?
  }

  /** The event fails the user's job: a port call for it does not answer normally, a service
      turns out to have no client, or its worker dies. */
  predicate FailsJob(clients: set<Service>, s: State, e: Event, user: Id) {
    match e
    case Crash(w) => WorksOn(s.WorkerOf(w), user)
    case Go(w, kind, _) =>
      var b, b' := s.WorkerOf(w), After(clients, s, e).WorkerOf(w);
      && (WorksOn(b, user) || ClaimsJob(s, e, user))
      && (!kind.Done? || (IsFailing(b') && !IsFailing(b)))
    case _ => false
  }

  function Claims(clients: set<Service>, events: seq<Event>, user: Id): nat {
    if events == [] then 0
    else
      var n := |events| - 1;
      Claims(clients, events[..n], user)
      + if ClaimsJob(Runs(clients, events[..n]), events[n], user) then 1 else 0
  }

  function Failures(clients: set<Service>, events: seq<Event>, user: Id): nat {
    if events == [] then 0
    else
      var n := |events| - 1;
      Failures(clients, events[..n], user)
      + if FailsJob(clients, Runs(clients, events[..n]), events[n], user) then 1 else 0
  }

  /** The job is completed, or a run of it is under way in which nothing has failed. */
  predicate Promising(s: State, w: Id, user: Id) {
    || (user in s.jobs && s.jobs[user].status.Completed?)
    || (var b := s.WorkerOf(w);
        WorksOn(b, user) && !b.phase.Failing? && !b.phase.Reopening?)
  }

  lemma ClaimCounts(clients: set<Service>, s: State, w: Id, kind: Kind, pick: Id, user: Id)
    requires Alone(s, w) && s.WorkerOf(w).Idle?
    ensures var e := Go(w, kind, pick);
            && (!ClaimsJob(s, e, user) ==> (Promising(s, w, user) ==> Promising(After(clients, s, e), w, user)))
            && (ClaimsJob(s, e, user) ==>
                  !Promising(s, w, user) && (FailsJob(clients, s, e, user) || Promising(After(clients, s, e), w, user)))
  {
    hide ClaimedSteps, Safe;
  }

  lemma WorkCounts(clients: set<Service>, s: State, w: Id, kind: Kind, pick: Id, user: Id)
    requires Alone(s, w) && s.WorkerOf(w).Busy?
    ensures var e := Go(w, kind, pick);
            && !ClaimsJob(s, e, user)
            && (Promising(s, w, user) ==> FailsJob(clients, s, e, user) || Promising(After(clients, s, e), w, user))
  {
    hide BackOff, Seek, InStep;
    assert WorkerSafe(s, s.WorkerOf(w));
    BusyMeansOpen(s, w);
  }

  lemma BusyMeansOpen(s: State, w: Id)
    requires Alone(s, w) && s.WorkerOf(w).Busy?
    ensures var b := s.WorkerOf(w); b.user in s.jobs && !s.jobs[b.user].status.Completed?
  {
  }

  lemma OtherEventCounts(clients: set<Service>, s: State, w: Id, e: Event, user: Id)
    requires !e.Go? && (e.Crash? ==> e.worker == w)
    ensures Promising(s, w, user) ==> FailsJob(clients, s, e, user) || Promising(After(clients, s, e), w, user)
  {
  }

  /** With one worker, a job is claimed at most once more often than it fails; and once more
      only while it is promising. */
  lemma {:induction false} ClaimsBounded(clients: set<Service>, events: seq<Event>, w: Id, user: Id)
    requires OneWorker(events, w)
    ensures Claims(clients, events, user)
            <= Failures(clients, events, user) + if Promising(Runs(clients, events), w, user) then 1 else 0
  {
    hide After, Alone, Promising, ClaimsJob, FailsJob;
    if events != [] {
      var n := |events| - 1;
      var s, e := Runs(clients, events[..n]), events[n];
      assert forall f | f in events[..n] :: f in events;
      assert e in events;
      ClaimsBounded(clients, events[..n], w, user);
      AlwaysAlone(clients, events[..n], w);
      match e
      case Go(_, kind, pick) =>
        if s.WorkerOf(w).Idle? {
          ClaimCounts(clients, s, w, kind, pick, user);
        } else {
          WorkCounts(clients, s, w, kind, pick, user);
        }
      case _ =>
        OnlyGoClaims(s, e, user);
        OtherEventCounts(clients, s, w, e, user);
    }
  }

  lemma OnlyGoClaims(s: State, e: Event, user: Id)
    requires !e.Go?
    ensures !ClaimsJob(s, e, user)
  {
  }

  /** With one worker, at most f failures of a job, and f + 1 claims of it or more: as soon as
      the worker is idle again the job is completed, and its account is gone. */
  lemma CompletesWithin(clients: set<Service>, events: seq<Event>, w: Id, user: Id, f: nat)
    requires OneWorker(events, w) && Runs(clients, events).WorkerOf(w).Idle?
    requires Failures(clients, events, user) <= f < Claims(clients, events, user)
    ensures var s := Runs(clients, events);
            user in s.jobs && s.jobs[user].status.Completed? && user !in s.rows
  {
    hide Runs;
    ClaimsBounded(clients, events, w, user);
    AlwaysSafe(clients, events);
  }

  // ----- one successful answer of each service -----

  /** Nothing fails but the calls to the other services. */
  predicate StoreNeverFails(clients: set<Service>, events: seq<Event>) {
    forall i | 0 <= i < |events| :: StoreAnswers(Runs(clients, events[..i]), events[i])
  }

  predicate StoreAnswers(s: State, e: Event) {
    match e
    case Crash(w) => s.WorkerOf(w).Idle?
    case Go(w, kind, _) =>
      var b := s.WorkerOf(w);
      kind.Done? || (b.Busy? && b.phase.AtStep? && b.position < |b.steps|)
    case _ => true
  }

  /** How often the service should have answered: once if its step is completed, or if the
      worker has the answer in hand. */
  function Due(s: State, w: Id, user: Id, service: Service): nat {
    var b := s.WorkerOf(w);
    if user in s.jobs && s.jobs[user].IsDone(service) then 1
    else if WorksOn(b, user) && b.phase.Answered? && b.position < |b.steps|
      && b.steps[b.position].service == service then 1
    else 0
  }

  lemma OneMoreAnswer(answers: seq<(Id, Service)>, a: (Id, Service), b: (Id, Service))
    ensures multiset(answers + [a])[b] == multiset(answers)[b] + if a == b then 1 else 0
  {
  }

  /** The answers grow by exactly what becomes due. */
  predicate Tallies(s: State, s': State, w: Id, user: Id, service: Service) {
    multiset(s'.answers)[(user, service)] + Due(s, w, user, service)
      == multiset(s.answers)[(user, service)] + Due(s', w, user, service)
  }

  lemma TallyClaim(clients: set<Service>, s: State, w: Id, kind: Kind, pick: Id, user: Id, service: Service)
    requires Alone(s, w) && s.WorkerOf(w).Idle? && kind.Done?
    ensures Tallies(s, WorkerStep(clients, s, w, kind, pick), w, user, service)
  {
    hide ClaimedSteps, Safe, Seek;
  }

  lemma TallyCall(s: State, w: Id, kind: Kind, user: Id, service: Service)
    requires var b := s.WorkerOf(w);
             && b.Busy? && b.phase.AtStep? && b.position < |b.steps| && b.user in s.jobs
             && !s.jobs[b.user].IsDone(b.steps[b.position].service)
    ensures Tallies(s, CallClient(s, w, s.WorkerOf(w), kind), w, user, service)
  {
    var b := s.WorkerOf(w);
    OneMoreAnswer(s.answers, (b.user, b.steps[b.position].service), (user, service));
  }

  lemma TallyStep(clients: set<Service>, s: State, w: Id, kind: Kind, pick: Id, user: Id, service: Service)
    requires Alone(s, w)
    requires var b := s.WorkerOf(w); b.Busy? && !b.phase.Finishing? && b.position < |b.steps|
    requires StoreAnswers(s, Go(w, kind, pick))
    ensures Tallies(s, WorkerStep(clients, s, w, kind, pick), w, user, service)
  {
    hide BackOff, Seek, Safe, CallClient, InStep;
    var b := s.WorkerOf(w);
    StepReady(s, w);
    var step := b.steps[b.position];
    if b.phase.AtStep? {
      hide Tallies;
      TallyCall(s, w, kind, user, service);
    } else {
      DoneAfter(s.jobs[b.user], step.service, step.attempts + 1, s.now);
      DoneAnyway(s.jobs[b.user]);
    }
  }

  lemma StepReady(s: State, w: Id)
    requires Alone(s, w)
    requires var b := s.WorkerOf(w); b.Busy? && b.position < |b.steps|
    ensures var b := s.WorkerOf(w);
            && b.user in s.jobs
            && b.steps[b.position].service in s.jobs[b.user].steps
            && !s.jobs[b.user].IsDone(b.steps[b.position].service)
  {
    hide WorkerSafe, JobSafe;
    StepIsJobs(s, s.WorkerOf(w));
  }

  lemma TallyRest(clients: set<Service>, s: State, w: Id, kind: Kind, pick: Id, user: Id, service: Service)
    requires Alone(s, w)
    requires var b := s.WorkerOf(w); b.Busy? && (b.phase.Finishing? || b.position == |b.steps|)
    ensures Tallies(s, WorkerStep(clients, s, w, kind, pick), w, user, service)
  {
    hide BackOff, Seek, InStep;
    var b := s.WorkerOf(w);
    assert WorkerSafe(s, b);
    DoneAnyway(s.jobs[b.user]);
  }

  lemma TallyOther(clients: set<Service>, s: State, w: Id, e: Event, user: Id, service: Service)
    requires !e.Go? && (e.Crash? ==> e.worker == w) && StoreAnswers(s, e)
    ensures Tallies(s, After(clients, s, e), w, user, service)
  {
  }

  lemma TallyGo(clients: set<Service>, s: State, w: Id, kind: Kind, pick: Id, user: Id, service: Service)
    requires Alone(s, w) && StoreAnswers(s, Go(w, kind, pick))
    ensures Tallies(s, After(clients, s, Go(w, kind, pick)), w, user, service)
  {
    hide WorkerStep, Tallies, JobSafe;
    var b := s.WorkerOf(w);
    if b.Idle? {
      TallyClaim(clients, s, w, kind, pick, user, service);
    } else {
      assert WorkerSafe(s, b);
      if b.phase.Finishing? || b.position == |b.steps| {
        TallyRest(clients, s, w, kind, pick, user, service);
      } else {
        TallyStep(clients, s, w, kind, pick, user, service);
      }
    }
  }

  lemma {:induction false} AnswersAreDue(clients: set<Service>, events: seq<Event>, w: Id, user: Id, service: Service)
    requires OneWorker(events, w) && StoreNeverFails(clients, events)
    ensures var s := Runs(clients, events); multiset(s.answers)[(user, service)] == Due(s, w, user, service)
  {
    hide After, Alone, Due, StoreAnswers;
    if events != [] {
      var n := |events| - 1;
      var s, e := Runs(clients, events[..n]), events[n];
      assert forall f | f in events[..n] :: f in events;
      assert e in events;
      assert forall i | 0 <= i < n :: events[..n][..i] == events[..i];
      AnswersAreDue(clients, events[..n], w, user, service);
      AlwaysAlone(clients, events[..n], w);
      assert StoreAnswers(s, e);
      match e
      case Go(_, kind, pick) => TallyGo(clients, s, w, kind, pick, user, service);
      case _ => TallyOther(clients, s, w, e, user, service);
    } else {
      NothingDue(w, user, service);
    }
  }

  lemma NothingDue(w: Id, user: Id, service: Service)
    ensures Due(NOTHING, w, user, service) == 0
  {
  }

  /** With one worker and no store failures, however often the services fail: once a job is
      completed, each service has answered its user's cleanup with success exactly once. */
  lemma EachServiceOnce(clients: set<Service>, events: seq<Event>, w: Id, user: Id, service: Service)
    requires OneWorker(events, w) && StoreNeverFails(clients, events)
    requires var s := Runs(clients, events); user in s.jobs && s.jobs[user].status.Completed?
    ensures multiset(Runs(clients, events).answers)[(user, service)] == 1
  {
    hide Runs, StoreNeverFails;
    AnswersAreDue(clients, events, w, user, service);
    CompletedMeansGone(clients, events, user);
    assert (user, service) in Runs(clients, events).answers;
  }

  // ----- leases -----

  /** A job can be claimed from its request on. A claim keeps it from other claims for exactly two
      minutes; a recorded failure gives it back at once, whatever back-off its step was given. */
  lemma LeaseAndRelease(job: Job, service: Service, attempt: nat, now: int, t: int)
    requires job.IsClaimable(now) && now <= t
    ensures NewJob(now).IsClaimable(t) && !NewJob(t + 1).IsClaimable(t)
    ensures job.AsClaimed(now).IsClaimable(t) <==> t > now + 120_000_000_000
    ensures job.AsClaimed(now).WithStepRetried(service, attempt, now).Reopened().IsClaimable(t)
  {
    hide BackOff;
  }

  // ----- two workers: what is lost -----

  /** The event records, at least in the step's row, a retry of the user's step for the service:
      its worker has a failed call of that step in hand, and the store does not refuse. */
  predicate RetriesStep(s: State, e: Event, user: Id, service: Service) {
    && e.Go? && !e.kind.Refused?
    && var b := s.WorkerOf(e.worker);
    && WorksOn(b, user) && b.phase.Failing?
    && b.position < |b.steps| && b.steps[b.position].service == service
  }

  /** The claim, and what follows the last step, change no step row. */
  lemma QuietKeepsSteps(clients: set<Service>, s: State, w: Id, kind: Kind, pick: Id, user: Id, service: Service)
    requires user in s.jobs
    requires var b := s.WorkerOf(w); b.Busy? ==> b.phase.Finishing? || b.position >= |b.steps|
    ensures var s' := WorkerStep(clients, s, w, kind, pick);
            && user in s'.jobs && (s'.jobs[user].IsDone(service) <==> s.jobs[user].IsDone(service))
  {
    hide Arrive, ClaimedSteps;
  }

  /** A statement on the row of one job changes the steps of no other. */
  lemma UpdateChanges(s: State, w: Id, owner: Id, job: Job, next: Worker, kind: Kind, user: Id)
    requires user in s.jobs
    ensures var s' := UpdateJob(s, w, owner, job, next, kind);
            && user in s'.jobs
            && s'.jobs[user] == if user == owner && !kind.Refused? then job else s.jobs[user]
  {
  }

  lemma StepHasRow(s: State, w: Id)
    requires Safe(s)
    requires var b := s.WorkerOf(w); b.Busy? && b.position < |b.steps|
    ensures var b := s.WorkerOf(w);
            && b.user in s.jobs && b.steps[b.position].service in s.jobs[b.user].steps
  {
    var b := s.WorkerOf(w);
    assert WorkerSafe(s, b) && JobSafe(s, b.user) && CLAIM_ORDER[b.position] in ALL_SERVICES;
  }

  lemma StepRegresses(clients: set<Service>, s: State, w: Id, kind: Kind, pick: Id, user: Id, service: Service)
    requires Safe(s) && user in s.jobs && s.jobs[user].IsDone(service)
    requires var b := s.WorkerOf(w); b.Busy? && !b.phase.Finishing? && b.position < |b.steps|
    ensures var s' := WorkerStep(clients, s, w, kind, pick);
            && user in s'.jobs
            && (!s'.jobs[user].IsDone(service) <==> RetriesStep(s, Go(w, kind, pick), user, service))
  {
    hide BackOff, ClaimedSteps, Arrive, UpdateJob, Safe, Claim, RemoveRow;
    var b := s.WorkerOf(w);
    StepHasRow(s, w);
    var job, step := s.jobs[b.user], b.steps[b.position];
    DoneAfter(job, step.service, step.attempts + 1, s.now);
    DoneAnyway(job);
    match b.phase
    case AtStep =>
    case Answered =>
      UpdateChanges(s, w, b.user, job.WithStepCompleted(step.service),
                    Arrive(clients, b.user, b.steps, b.position + 1), kind, user);
    case Failing =>
      UpdateChanges(s, w, b.user, job.WithStepRetried(step.service, step.attempts + 1, s.now),
                    b.(phase := Reopening), kind, user);
    case Reopening => UpdateChanges(s, w, b.user, job.Reopened(), Idle, kind, user);
  }

  /** Why safety cannot rest on the status columns. With any number of workers a completed step
      is taken back by exactly the events that record a retry of it, and its service has
      answered all the same. */
  lemma RegressesExactly(clients: set<Service>, s: State, e: Event, user: Id, service: Service)
    requires Safe(s) && user in s.jobs && s.jobs[user].IsDone(service)
    ensures var s' := After(clients, s, e);
            && user in s'.jobs
            && (!s'.jobs[user].IsDone(service) <==> RetriesStep(s, e, user, service))
            && (user, service) in s'.answers
  {
    hide WorkerStep;
    assert JobSafe(s, user);
    match e
    case Go(w, kind, pick) =>
      var b := s.WorkerOf(w);
      NewAnswer(clients, s, e);
      if b.Busy? && !b.phase.Finishing? && b.position < |b.steps| {
        StepRegresses(clients, s, w, kind, pick, user, service);
      } else {
        QuietKeepsSteps(clients, s, w, kind, pick, user, service);
      }
    case _ =>
  }

  /** Over a whole schedule: a step that is completed at moment k and pending at the end was
      taken back by a recorded retry in between. */
  lemma {:induction false} RegressionHasRetry(clients: set<Service>, events: seq<Event>, k: nat, user: Id,
                                              service: Service)
    returns (i: nat)
    requires k <= |events|
    requires var s := Runs(clients, events[..k]); user in s.jobs && s.jobs[user].IsDone(service)
    requires var s := Runs(clients, events); user in s.jobs ==> !s.jobs[user].IsDone(service)
    ensures k <= i < |events| && RetriesStep(Runs(clients, events[..i]), events[i], user, service)
  {
    hide After, Safe, RetriesStep;
    assert events[..|events|] == events;
    var n := |events| - 1;
    var s := Runs(clients, events[..n]);
    assert events[..n][..k] == events[..k];
    if user in s.jobs && s.jobs[user].IsDone(service) {
      AlwaysSafe(clients, events[..n]);
      RegressesExactly(clients, s, events[n], user, service);
      i := n;
    } else {
      i := RegressionHasRetry(clients, events[..n], k, user, service);
      assert events[..n][..i] == events[..i];
    }
  }

  /** The event records, in the job's row, that a step of the user's job has failed: the second
      statement of a retry, which the store does not refuse. */
  predicate ReopensJob(s: State, e: Event, user: Id) {
    && e.Go? && !e.kind.Refused?
    && var b := s.WorkerOf(e.worker);
    && WorksOn(b, user) && b.phase.Reopening?
  }

  lemma QuietKeepsStatus(clients: set<Service>, s: State, w: Id, kind: Kind, pick: Id, user: Id)
    requires user in s.jobs && s.jobs[user].status.Completed?
    requires var b := s.WorkerOf(w); b.Busy? ==> b.phase.Finishing? || b.position >= |b.steps|
    ensures var s' := WorkerStep(clients, s, w, kind, pick);
            user in s'.jobs && s'.jobs[user].status.Completed?
  {
    hide Arrive, ClaimedSteps;
  }

  lemma StepReopens(clients: set<Service>, s: State, w: Id, kind: Kind, pick: Id, user: Id)
    requires Safe(s) && user in s.jobs && s.jobs[user].status.Completed?
    requires var b := s.WorkerOf(w); b.Busy? && !b.phase.Finishing? && b.position < |b.steps|
    ensures var s' := WorkerStep(clients, s, w, kind, pick);
            && user in s'.jobs
            && if ReopensJob(s, Go(w, kind, pick), user) then s'.jobs[user] == s.jobs[user].Reopened()
               else s'.jobs[user].status.Completed?
  {
    hide BackOff, ClaimedSteps, Arrive, UpdateJob, Safe, Claim, RemoveRow;
    var b := s.WorkerOf(w);
    StepHasRow(s, w);
    var job, step := s.jobs[b.user], b.steps[b.position];
    match b.phase
    case AtStep =>
    case Answered =>
      UpdateChanges(s, w, b.user, job.WithStepCompleted(step.service),
                    Arrive(clients, b.user, b.steps, b.position + 1), kind, user);
    case Failing =>
      UpdateChanges(s, w, b.user, job.WithStepRetried(step.service, step.attempts + 1, s.now),
                    b.(phase := Reopening), kind, user);
    case Reopening => UpdateChanges(s, w, b.user, job.Reopened(), Idle, kind, user);
  }

  /** Nor is a completed job final. With any number of workers it is taken back by exactly the
      events that record a failure of one of its steps in the job's row; its account is gone all
      the same, and it can then be claimed again as soon as its next attempt is due. */
  lemma ReopensExactly(clients: set<Service>, s: State, e: Event, user: Id, t: int)
    requires Safe(s) && user in s.jobs && s.jobs[user].status.Completed?
    ensures var s' := After(clients, s, e);
            && user in s'.jobs && user !in s'.rows
            && (!s'.jobs[user].status.Completed? <==> ReopensJob(s, e, user))
            && (ReopensJob(s, e, user) ==> (s'.jobs[user].IsClaimable(t) <==> s.jobs[user].nextAttemptAt <= t))
  {
    hide WorkerStep;
    assert JobSafe(s, user);
    match e
    case Go(w, kind, pick) =>
      var b := s.WorkerOf(w);
      RemovedExactly(clients, s, e);
      if b.Busy? && !b.phase.Finishing? && b.position < |b.steps| {
        StepReopens(clients, s, w, kind, pick, user);
      } else {
        assert WorkerSafe(s, b);
        QuietKeepsStatus(clients, s, w, kind, pick, user);
      }
    case _ =>
  }

  lemma Extend(clients: set<Service>, events: seq<Event>, e: Event)
    ensures Runs(clients, events + [e]) == After(clients, Runs(clients, events), e)
  {
    var longer := events + [e];
    assert longer[..|longer| - 1] == events;
  }

  /** A worker that has just claimed the job of user 0, none of whose steps is completed. */
  predicate JustClaimed(b: Worker) {
    b.Busy? && b.user == 0 && b.phase.AtStep? && b.position == 0 && |b.steps| == 7
    && b.steps[0] == ClaimedStep(Apiary, false, 0)
  }

  predicate Untouched(job: Job) {
    job.steps == NewJob(0).steps && !job.status.Completed? && job.nextAttemptAt == 0
  }

  lemma ClaimsFresh(s: State, w: Id)
    requires s.WorkerOf(w).Idle? && 0 in s.jobs && Untouched(s.jobs[0]) && s.jobs[0].IsClaimable(s.now)
    ensures var s' := After(ALL_SERVICES, s, Go(w, Done, 0));
            && JustClaimed(s'.WorkerOf(w)) && 0 in s'.jobs && Untouched(s'.jobs[0])
            && s'.jobs[0].leaseUntil == Some(s.now + LEASE) && s'.now == s.now
            && forall v: Id | v != w :: s'.WorkerOf(v) == s.WorkerOf(v)
  {
    ClaimReturnsAll(s.jobs[0].AsClaimed(s.now), CLAIM_ORDER);
  }

  /** Both workers hold the job: the second answers and completes the step, then the first,
      whose own call failed, retries it. */
  lemma BothHold(s: State, events: seq<Event>) returns (longer: seq<Event>)
    requires s == Runs(ALL_SERVICES, events) && 0 in s.jobs && Untouched(s.jobs[0])
    requires JustClaimed(s.WorkerOf(0)) && JustClaimed(s.WorkerOf(1))
    ensures var t := Runs(ALL_SERVICES, longer);
            && 0 in t.jobs && t.jobs[0].IsDone(Apiary)
            && var b := t.WorkerOf(0);
            b.Busy? && b.user == 0 && b.phase.Failing? && b.position == 0 && |b.steps| == 7
              && b.steps[0].service == Apiary
  {
    hide Runs;
    var call, answer := Go(0, Refused, 0), Go(1, Done, 0);
    Extend(ALL_SERVICES, events, call);
    Extend(ALL_SERVICES, events + [call], answer);
    Extend(ALL_SERVICES, events + [call] + [answer], answer);
    longer := events + [call] + [answer] + [answer];
  }

  /** Such a state is reached: the first worker outlives its lease, the second claims the same
      job and completes its first step, and the first then records a failure of that step. */
  lemma LateRetryHappens() returns (events: seq<Event>)
    ensures |events| > 0
    ensures var n := |events| - 1;
            var before, after := Runs(ALL_SERVICES, events[..n]), Runs(ALL_SERVICES, events);
            && 0 in before.jobs && before.jobs[0].IsDone(Apiary)
            && 0 in after.jobs && !after.jobs[0].IsDone(Apiary)
  {
    hide Runs, WorkerStep;
    var start := NothingRuns();
    Extend(ALL_SERVICES, start, Join(0));
    var joined := start + [Join(0)];
    Extend(ALL_SERVICES, joined, Request(0));
    var requested := joined + [Request(0)];
    Extend(ALL_SERVICES, requested, Go(0, Done, 0));
    ClaimsFresh(Runs(ALL_SERVICES, requested), 0);
    var claimed := requested + [Go(0, Done, 0)];
    assert Runs(ALL_SERVICES, claimed).WorkerOf(1).Idle?;
    Extend(ALL_SERVICES, claimed, Pass(LEASE + 1));
    var lapsed := claimed + [Pass(LEASE + 1)];
    Extend(ALL_SERVICES, lapsed, Go(1, Done, 0));
    ClaimsFresh(Runs(ALL_SERVICES, lapsed), 1);
    var both := lapsed + [Go(1, Done, 0)];
    var answered := BothHold(Runs(ALL_SERVICES, both), both);
    events := answered + [Go(0, Done, 0)];
    Extend(ALL_SERVICES, answered, Go(0, Done, 0));
    AlwaysSafe(ALL_SERVICES, answered);
    RegressesExactly(ALL_SERVICES, Runs(ALL_SERVICES, answered), Go(0, Done, 0), 0, Apiary);
    assert events[..|events| - 1] == answered;
  }

  lemma NothingRuns() returns (none: seq<Event>)
    ensures none == [] && Runs(ALL_SERVICES, none) == NOTHING
  {
    none := [];
  }
}
