/** The deletion worker's run as the program performs it: claim a job, clean up service after
    service, remove the user row, complete the job. The run is the worker's own steps of the
    interleaved protocol, driven until the worker is idle. */
module DeletionWorkers {
  import opened Basics
  import opened DeletionJobs
  import opened Store
  import opened Deletion
  import opened DeletionProgress

  function Next(plan: seq<Kind>): Kind {
    if plan == [] then Done else plan[0]
  }

  function Later(plan: seq<Kind>): seq<Kind> {
    if plan == [] then [] else plan[1..]
  }

  /** The state a run ends in, the answers left over, and whether it returned no error. */
  datatype Finished = Finished(s: State, plan: seq<Kind>, ok: bool)

  /** Does the worker's next step call a port, and does a failure of it surface as an error?
      The failure of a cleanup call is recorded instead. */
  predicate IsCleanupCall(b: Worker) {
    b.Busy? && b.phase.AtStep? && b.position < |b.steps|
  }

  /** The worker's steps from here until it is idle. */
  function Drive(clients: set<Service>, s: State, w: Id, plan: seq<Kind>, ok: bool): Finished
    decreases Rank(s.WorkerOf(w))
  {
    var b := s.WorkerOf(w);
    if b.Idle? then Finished(s, plan, ok)
    else
      var kind := Next(plan);
      EveryStepAdvances(clients, s, w, kind, 0);
      Drive(clients, WorkerStep(clients, s, w, kind, 0), w, Later(plan), kind.Done? || IsCleanupCall(b))
  }

  /** One run of an idle worker, offered the job of user `pick`. */
  function RunSpec(clients: set<Service>, s: State, w: Id, pick: Id, plan: seq<Kind>): Finished {
    Drive(clients, WorkerStep(clients, s, w, Next(plan), pick), w, Later(plan), Next(plan).Done?)
  }

  /** A run is a schedule of the worker's own steps. */
  lemma {:induction false} DriveIsSchedule(clients: set<Service>, s: State, w: Id, plan: seq<Kind>, ok: bool,
                                           before: seq<Event>)
    returns (events: seq<Event>)
    requires Runs(clients, before) == s
    ensures before <= events && Runs(clients, events) == Drive(clients, s, w, plan, ok).s
    ensures forall e | e in events[|before|..] :: e.Go? && e.worker == w
    decreases Rank(s.WorkerOf(w))
  {
    hide WorkerStep, Runs;
    if s.WorkerOf(w).Idle? {
      events := before;
    } else {
      var kind := Next(plan);
      var e := Go(w, kind, 0);
      EveryStepAdvances(clients, s, w, kind, 0);
      Extend(clients, before, e);
      events := DriveIsSchedule(clients, WorkerStep(clients, s, w, kind, 0), w, Later(plan),
                                kind.Done? || IsCleanupCall(s.WorkerOf(w)), before + [e]);
      assert events[|before|..] == [e] + events[|before + [e]|..];
    }
  }

  // ----- a run in which nothing fails -----

  /** The worker runs the user's job, and nothing has failed in this run. */
  predicate Clean(s: State, w: Id, user: Id) {
    var b := s.WorkerOf(w);
    && WorksOn(b, user) && user in s.jobs && b.position <= |b.steps|
    && !b.phase.Failing? && !b.phase.Reopening?
    && (b.phase.Answered? ==> b.position < |b.steps|)
  }

  lemma ArrivesClean(user: Id, steps: seq<ClaimedStep>, i: nat)
    requires i <= |steps|
    ensures var b := Arrive(ALL_SERVICES, user, steps, i);
            b.Busy? && b.user == user && b.phase.AtStep? && b.position <= |b.steps|
  {
    var j := Seek(steps, i);
    if j < |steps| {
      var k := ClaimOrderIsComplete(steps[j].service);
    }
  }

  /** A step that no port fails keeps the run clean or completes the job; it touches no other
      worker, and the user's row only in removing it. */
  lemma CleanStep(s: State, w: Id, user: Id)
    requires Clean(s, w, user)
    ensures var e := Go(w, Done, 0);
            var s' := After(ALL_SERVICES, s, e);
            && (Clean(s', w, user) || (s'.WorkerOf(w).Idle? && user in s'.jobs && s'.jobs[user].status.Completed?))
            && (s'.WorkerOf(w).Idle? ==> s.WorkerOf(w).phase.Finishing?)
            && (Removed(s, e).Some? ==> Removed(s, e).value == user)
            && (s'.WorkerOf(w).Busy? && s'.WorkerOf(w).phase.Finishing? ==> user !in s'.rows)
            && s'.rows == (if Removed(s, e).Some? then s.rows - {user} else s.rows)
            && forall v: Id | v != w :: s'.WorkerOf(v) == s.WorkerOf(v)
  {
    hide BackOff, Arrive;
    var b := s.WorkerOf(w);
    if b.phase.Answered? {
      ArrivesClean(user, b.steps, b.position + 1);
    }
  }

  /** A claim of a claimable job starts a clean run. */
  lemma ClaimClean(s: State, w: Id, user: Id)
    requires s.WorkerOf(w).Idle? && user in s.jobs && s.jobs[user].IsClaimable(s.now)
    ensures var s' := After(ALL_SERVICES, s, Go(w, Done, user));
            && Clean(s', w, user) && !s'.WorkerOf(w).phase.Finishing? && s'.rows == s.rows
            && forall v: Id | v != w :: s'.WorkerOf(v) == s.WorkerOf(v)
  {
    hide Arrive, ClaimedSteps;
    ArrivesClean(user, ClaimedSteps(s.jobs[user].AsClaimed(s.now), CLAIM_ORDER), 0);
  }

  /** A clean run that is left alone completes its job, whatever other workers hold meanwhile. */
  lemma {:induction false} CleanRunCompletes(events: seq<Event>, w: Id, user: Id) returns (longer: seq<Event>)
    requires Clean(Runs(ALL_SERVICES, events), w, user)
    ensures var s := Runs(ALL_SERVICES, longer);
            && user in s.jobs && s.jobs[user].status.Completed?
            && forall v: Id | v != w :: s.WorkerOf(v) == Runs(ALL_SERVICES, events).WorkerOf(v)
    decreases Rank(Runs(ALL_SERVICES, events).WorkerOf(w))
  {
    hide Runs, After, Clean, Rank;
    var s, e := Runs(ALL_SERVICES, events), Go(w, Done, 0);
    CleanStep(s, w, user);
    Extend(ALL_SERVICES, events, e);
    longer := events + [e];
    if Runs(ALL_SERVICES, longer).WorkerOf(w).Busy? {
      CleanAdvances(s, w, user);
      longer := CleanRunCompletes(longer, w, user);
    } else {
      IdleIsNotClean(Runs(ALL_SERVICES, longer), w, user);
    }
  }

  lemma CleanAdvances(s: State, w: Id, user: Id)
    requires Clean(s, w, user)
    ensures Rank(After(ALL_SERVICES, s, Go(w, Done, 0)).WorkerOf(w)) < Rank(s.WorkerOf(w))
  {
    hide WorkerStep;
    EveryStepAdvances(ALL_SERVICES, s, w, Done, 0);
  }

  lemma IdleIsNotClean(s: State, w: Id, user: Id)
    requires s.WorkerOf(w).Idle?
    ensures !Clean(s, w, user)
  {
  }

  /** A completed job really is taken back: one worker's cleanup call fails and it records so in
      the step's row; its lease lapses; a second worker completes the job; then the first records
      the failure in the job's row. */
  lemma CompletedJobReopens() returns (events: seq<Event>)
    ensures |events| > 0
    ensures var n := |events| - 1;
            var before, after := Runs(ALL_SERVICES, events[..n]), Runs(ALL_SERVICES, events);
            && 0 in before.jobs && before.jobs[0].status.Completed?
            && 0 in after.jobs && !after.jobs[0].status.Completed? && 0 !in after.rows
  {
    hide Runs, WorkerStep, BackOff;
    var claimed := FirstHolds();
    var lapsed := claimed + [Pass(LEASE + 1)];
    Extend(ALL_SERVICES, claimed, Pass(LEASE + 1));
    var s := Runs(ALL_SERVICES, lapsed);
    assert s.WorkerOf(0) == Runs(ALL_SERVICES, claimed).WorkerOf(0) && s.WorkerOf(1).Idle?;
    ClaimClean(s, 1, 0);
    Extend(ALL_SERVICES, lapsed, Go(1, Done, 0));
    var done := CleanRunCompletes(lapsed + [Go(1, Done, 0)], 1, 0);
    AlwaysSafe(ALL_SERVICES, done);
    ReopensExactly(ALL_SERVICES, Runs(ALL_SERVICES, done), Go(0, Done, 0), 0, 0);
    Extend(ALL_SERVICES, done, Go(0, Done, 0));
    events := done + [Go(0, Done, 0)];
    assert events[..|events| - 1] == done;
  }

  /** A worker between the two statements that record its failed first step. */
  lemma FirstHolds() returns (events: seq<Event>)
    ensures var s := Runs(ALL_SERVICES, events);
            && s.WorkerOf(0).Busy? && s.WorkerOf(0).user == 0 && s.WorkerOf(0).phase.Reopening?
            && s.WorkerOf(1).Idle? && s.now == 0
            && 0 in s.jobs && !s.jobs[0].status.Completed? && s.jobs[0].nextAttemptAt == 0
            && s.jobs[0].leaseUntil == Some(LEASE)
  {
    hide Runs, BackOff;
    var start := NothingRuns();
    Extend(ALL_SERVICES, start, Join(0));
    var joined := start + [Join(0)];
    Extend(ALL_SERVICES, joined, Request(0));
    var requested := joined + [Request(0)];
    Extend(ALL_SERVICES, requested, Go(0, Done, 0));
    ClaimsFresh(Runs(ALL_SERVICES, requested), 0);
    var claimed := requested + [Go(0, Done, 0)];
    assert Runs(ALL_SERVICES, claimed).WorkerOf(1).Idle?;
    Extend(ALL_SERVICES, claimed, Go(0, Refused, 0));
    var failed := claimed + [Go(0, Refused, 0)];
    Extend(ALL_SERVICES, failed, Go(0, Done, 0));
    events := failed + [Go(0, Done, 0)];
  }

  // ----- the only worker's run, step by step -----

  /** Worker w is the only one, in state b. */
  predicate OnlyWorker(s: State, w: Id, b: Worker) {
    s.workers == map[w := b]
  }

  function Moved(s: State, w: Id, b: Worker): State {
    s.(workers := map[w := b])
  }

  lemma ClaimDrives(clients: set<Service>, s: State, w: Id, pick: Id, plan: seq<Kind>)
    requires OnlyWorker(s, w, Idle)
    ensures var kind := Next(plan);
            var o := RunSpec(clients, s, w, pick, plan);
            if kind.Refused? || pick !in s.jobs || !s.jobs[pick].IsClaimable(s.now)
            then o == Finished(s, Later(plan), kind.Done?)
            else
              var job := s.jobs[pick].AsClaimed(s.now);
              var s1 := s.WithJob(pick, job);
              o == if kind.Done?
                   then Drive(clients, Moved(s1, w, Arrive(clients, pick, ClaimedSteps(job, CLAIM_ORDER), 0)), w,
                              Later(plan), true)
                   else Finished(s1, Later(plan), false)
  {
    hide Arrive, ClaimedSteps;
    var s' := WorkerStep(clients, s, w, Next(plan), pick);
    if s'.WorkerOf(w) != Idle {
      assert s'.workers == map[w := s'.WorkerOf(w)];
    }
  }

  lemma CallDrives(clients: set<Service>, s: State, w: Id, b: Worker, plan: seq<Kind>)
    requires OnlyWorker(s, w, b) && b.Busy? && b.user in s.jobs
    requires b.phase.AtStep? && b.position < |b.steps|
    ensures var s1 := s.(answers := s.answers + [(b.user, b.steps[b.position].service)]);
            Drive(clients, s, w, plan, true)
            == if Next(plan).Done? then Drive(clients, Moved(s1, w, b.(phase := Answered)), w, Later(plan), true)
               else Drive(clients, Moved(s, w, b.(phase := Failing)), w, Later(plan), true)
  {
    var s' := WorkerStep(clients, s, w, Next(plan), 0);
    assert s'.workers == map[w := s'.WorkerOf(w)];
  }

  /** The job of the worker's run after a statement on its row. */
  lemma UpdateDrives(clients: set<Service>, s: State, w: Id, b: Worker, plan: seq<Kind>, job: Job, next: Worker)
    requires OnlyWorker(s, w, b) && b.Busy? && b.user in s.jobs && !IsCleanupCall(b)
    requires WorkerStep(clients, s, w, Next(plan), 0) == UpdateJob(s, w, b.user, job, next, Next(plan))
    ensures var s1 := if Next(plan).Refused? then s else s.WithJob(b.user, job);
            Drive(clients, s, w, plan, true)
            == if Next(plan).Done? then Drive(clients, Moved(s1, w, next), w, Later(plan), true)
               else Finished(Moved(s1, w, Idle), Later(plan), false)
  {
    hide WorkerStep;
    var s' := UpdateJob(s, w, b.user, job, next, Next(plan));
    assert s'.workers == map[w := s'.WorkerOf(w)];
    EveryStepAdvances(clients, s, w, Next(plan), 0);
  }

  lemma CompleteDrives(clients: set<Service>, s: State, w: Id, b: Worker, plan: seq<Kind>)
    requires OnlyWorker(s, w, b) && b.Busy? && b.user in s.jobs && b.phase.Answered? && b.position < |b.steps|
    ensures var s1 := if Next(plan).Refused? then s
                      else s.WithJob(b.user, s.jobs[b.user].WithStepCompleted(b.steps[b.position].service));
            Drive(clients, s, w, plan, true)
            == if Next(plan).Done? then Drive(clients,
                    Moved(s1, w, Arrive(clients, b.user, b.steps, b.position + 1)), w, Later(plan), true)
               else Finished(Moved(s1, w, Idle), Later(plan), false)
  {
    hide Drive, Arrive, UpdateJob;
    UpdateDrives(clients, s, w, b, plan, s.jobs[b.user].WithStepCompleted(b.steps[b.position].service),
                 Arrive(clients, b.user, b.steps, b.position + 1));
  }

  lemma RetryDrives(clients: set<Service>, s: State, w: Id, b: Worker, plan: seq<Kind>)
    requires OnlyWorker(s, w, b) && b.Busy? && b.user in s.jobs && b.phase.Failing? && b.position < |b.steps|
    ensures var step := b.steps[b.position];
            var first, second := Next(plan), Next(Later(plan));
            var retried := s.jobs[b.user].WithStepRetried(step.service, step.attempts + 1, s.now);
            var job := if first.Refused? then s.jobs[b.user]
                       else if first.Lost? || second.Refused? then retried
                       else retried.Reopened();
            Drive(clients, s, w, plan, true)
            == Finished(Moved(s.WithJob(b.user, job), w, Idle),
                        if first.Done? then Later(Later(plan)) else Later(plan), first.Done? && second.Done?)
  {
    hide Drive, UpdateJob, BackOff;
    var step := b.steps[b.position];
    var retried := s.jobs[b.user].WithStepRetried(step.service, step.attempts + 1, s.now);
    var b1 := b.(phase := Reopening);
    UpdateDrives(clients, s, w, b, plan, retried, b1);
    assert s.WithJob(b.user, s.jobs[b.user]) == s;
    var s1 := Moved(s.WithJob(b.user, retried), w, b1);
    assert s1.WithJob(b.user, retried) == s1;
    assert s1.WithJob(b.user, retried.Reopened()) == Moved(s.WithJob(b.user, retried.Reopened()), w, b1);
    UpdateDrives(clients, s1, w, b1, Later(plan), retried.Reopened(), Idle);
    IdleDrives(clients, Moved(s.WithJob(b.user, retried.Reopened()), w, Idle), w, Later(Later(plan)), true);
  }

  lemma ArriveStops(clients: set<Service>, user: Id, steps: seq<ClaimedStep>, i: nat)
    requires i <= |steps|
    ensures i == |steps| ==> Arrive(clients, user, steps, i) == Busy(user, steps, i, AtStep)
    ensures i < |steps| && steps[i].done ==> Arrive(clients, user, steps, i) == Arrive(clients, user, steps, i + 1)
    ensures i < |steps| && !steps[i].done ==>
              Arrive(clients, user, steps, i)
                == Busy(user, steps, i, if steps[i].service in clients then AtStep else Failing)
  {
  }

  lemma IdleDrives(clients: set<Service>, s: State, w: Id, plan: seq<Kind>, ok: bool)
    requires OnlyWorker(s, w, Idle)
    ensures Drive(clients, s, w, plan, ok) == Finished(s, plan, ok)
  {
  }

  lemma RemoveDrives(clients: set<Service>, s: State, w: Id, b: Worker, plan: seq<Kind>)
    requires OnlyWorker(s, w, b) && b.Busy? && b.user in s.jobs && b.phase.AtStep? && b.position == |b.steps|
    ensures var s1 := if Next(plan).Refused? then s else s.(rows := s.rows - {b.user});
            Drive(clients, s, w, plan, true)
            == if Next(plan).Done? then Drive(clients, Moved(s1, w, b.(phase := Finishing)), w, Later(plan), true)
               else Finished(Moved(s1, w, Idle), Later(plan), false)
  {
    var s' := WorkerStep(clients, s, w, Next(plan), 0);
    assert s'.workers == map[w := s'.WorkerOf(w)];
  }

  lemma FinishDrives(clients: set<Service>, s: State, w: Id, b: Worker, plan: seq<Kind>)
    requires OnlyWorker(s, w, b) && b.Busy? && b.user in s.jobs && b.phase.Finishing? && b.position == |b.steps|
    ensures var s1 := if Next(plan).Refused? then s else s.WithJob(b.user, s.jobs[b.user].Finished());
            Drive(clients, s, w, plan, true) == Finished(Moved(s1, w, Idle), Later(plan), Next(plan).Done?)
  {
    hide Drive, UpdateJob;
    UpdateDrives(clients, s, w, b, plan, s.jobs[b.user].Finished(), Idle);
    IdleDrives(clients, Moved(s.WithJob(b.user, s.jobs[b.user].Finished()), w, Idle), w, Later(plan), true);
  }

  // ----- which job a claim takes -----

  /** Whose job a claim takes: of the claimable jobs whose rows no other claim has locked, one
      whose next attempt is due first; none only if there is no such job. */
  predicate NextInLine(jobs: map<Id, Job>, locked: set<Id>, now: int, pick: Option<Id>) {
    && (pick.Some? ==>
          && pick.value in jobs && pick.value !in locked && jobs[pick.value].IsClaimable(now)
          && forall u | u in jobs && u !in locked && jobs[u].IsClaimable(now) ::
               jobs[pick.value].nextAttemptAt <= jobs[u].nextAttemptAt)
    && (pick.None? ==> forall u | u in jobs && u !in locked :: !jobs[u].IsClaimable(now))
  }

  lemma {:induction false} UnusedId(ids: set<Id>) returns (id: Id)
    ensures forall i | i in ids :: i < id
    decreases |ids|
  {
    if ids == {} {
      id := 0;
    } else {
      var first :| first in ids;
      var rest := UnusedId(ids - {first});
      id := Max(rest, first + 1);
      assert forall i | i in ids :: i == first || i in ids - {first};
    }
  }

  datatype DeletionJob = DeletionJob(user: Id, steps: seq<ClaimedStep>)

  /** The ports a worker uses: the job store, the user repository and the cleanup clients.
      `plan` is how they will answer; they answer normally once it runs out. */
  class DeletionPorts {
    var rows: map<Id, bool>
    var jobs: map<Id, Job>
    var answers: seq<(Id, Service)>
    var now: nat
    var plan: seq<Kind>
    ghost var known: set<Id>

    constructor (rows: map<Id, bool>, jobs: map<Id, Job>, now: nat, plan: seq<Kind>)
      ensures this.rows == rows && this.jobs == jobs && this.now == now && this.plan == plan && answers == []
    {
      this.rows := rows;
      this.jobs := jobs;
      this.now := now;
      this.plan := plan;
      answers := [];
      known := rows.Keys + jobs.Keys;
    }

    /** The protocol's state when worker w is the only one, in state `worker`. */
    ghost function StateWith(w: Id, worker: Worker): State
      reads this
    {
      State(rows, jobs, map[w := worker], answers, known, now)
    }

    method Answer() returns (kind: Kind)
      modifies this`plan
      ensures kind == Next(old(plan)) && plan == Later(old(plan))
    {
      if plan == [] {
        return Done;
      }
      kind := plan[0];
      plan := plan[1..];
    }

    /** The job first in line, skipping locked rows. */
    method FirstInLine(locked: set<Id>) returns (pick: Option<Id>)
      ensures NextInLine(jobs, locked, now, pick)
    {
      pick := None;
      var rest := jobs.Keys - locked;
      while rest != {}
        invariant rest <= jobs.Keys - locked
        invariant NextInLine(jobs, locked + rest, now, pick)
        decreases |rest|
      {
        var u :| u in rest;
        rest := rest - {u};
        if jobs[u].IsClaimable(now) && (pick.None? || jobs[u].nextAttemptAt < jobs[pick.value].nextAttemptAt) {
          pick := Some(u);
        }
      }
      assert locked + rest == locked;
    }

    /** Claims the job first in line, if any: counts the attempt, takes the lease and returns the
        steps. */
    method ClaimDeletion(locked: set<Id>) returns (r: Reply<Option<DeletionJob>>, ghost pick: Option<Id>)
      modifies this`plan, this`jobs
      ensures plan == Later(old(plan)) && r.Ok? == Next(old(plan)).Done?
      ensures NextInLine(old(jobs), locked, now, pick)
      ensures jobs == if pick.Some? && !Next(old(plan)).Refused?
                      then old(jobs)[pick.value := old(jobs)[pick.value].AsClaimed(now)] else old(jobs)
      ensures r.Ok? ==>
                r.value == if pick.Some? then Some(DeletionJob(pick.value, ClaimedSteps(jobs[pick.value], CLAIM_ORDER)))
                           else None
    {
      var kind := Answer();
      var first := FirstInLine(locked);
      pick := first;
      var claimed: Option<DeletionJob> := None;
      if first.Some? && !kind.Refused? {
        jobs := jobs[first.value := jobs[first.value].AsClaimed(now)];
        claimed := Some(DeletionJob(first.value, ClaimedSteps(jobs[first.value], CLAIM_ORDER)));
      }
      r := if kind.Done? then Ok(claimed) else Err(Infra);
    }

    /** A statement that updates one job row, or fails with or without doing so. */
    method Update(user: Id, job: Job) returns (r: Reply<()>)
      modifies this`plan, this`jobs
      ensures plan == Later(old(plan)) && r.Ok? == Next(old(plan)).Done?
      ensures jobs == if Next(old(plan)).Refused? then old(jobs) else old(jobs)[user := job]
    {
      var kind := Answer();
      if !kind.Refused? {
        jobs := jobs[user := job];
      }
      return if kind.Done? then Ok(()) else Err(Infra);
    }

    method CompleteDeletionStep(user: Id, service: Service) returns (r: Reply<()>)
      requires user in jobs
      modifies this`plan, this`jobs
      ensures plan == Later(old(plan)) && r.Ok? == Next(old(plan)).Done?
      ensures jobs == if Next(old(plan)).Refused? then old(jobs)
                      else old(jobs)[user := old(jobs)[user].WithStepCompleted(service)]
    {
      r := Update(user, jobs[user].WithStepCompleted(service));
    }

    /** Two statements: the step's retry with its back-off, then, only if that succeeded, the
        job's return to the queue. */
    method RetryDeletionStep(user: Id, service: Service, attempt: nat) returns (r: Reply<()>)
      requires user in jobs
      modifies this`plan, this`jobs
      ensures var first, second := Next(old(plan)), Next(Later(old(plan)));
              var retried := old(jobs)[user].WithStepRetried(service, attempt, now);
              && plan == (if first.Done? then Later(Later(old(plan))) else Later(old(plan)))
              && r.Ok? == (first.Done? && second.Done?)
              && jobs == if first.Refused? then old(jobs)
                         else if first.Lost? || second.Refused? then old(jobs)[user := retried]
                         else old(jobs)[user := retried.Reopened()]
    {
      var _ :- Update(user, jobs[user].WithStepRetried(service, attempt, now));
      r := Update(user, jobs[user].Reopened());
    }

    method CompleteDeletionJob(user: Id) returns (r: Reply<()>)
      requires user in jobs
      modifies this`plan, this`jobs
      ensures plan == Later(old(plan)) && r.Ok? == Next(old(plan)).Done?
      ensures jobs == if Next(old(plan)).Refused? then old(jobs) else old(jobs)[user := old(jobs)[user].Finished()]
    {
      r := Update(user, jobs[user].Finished());
    }

    method DeleteUser(user: Id) returns (r: Reply<()>)
      modifies this`plan, this`rows
      ensures plan == Later(old(plan))
      ensures rows == if Next(old(plan)).Refused? then old(rows) else old(rows) - {user}
      ensures r == if !Next(old(plan)).Done? then Err(Infra) else if user in old(rows) then Ok(()) else Err(NotFound)
    {
      var kind := Answer();
      if !kind.Done? {
        if kind.Lost? {
          rows := rows - {user};
        }
        return Err(Infra);
      }
      if user !in rows {
        assert rows == rows - {user};
        return Err(NotFound);
      }
      rows := rows - {user};
      return Ok(());
    }

    /** The call of another service's cleanup. */
    method DeleteUserData(user: Id, service: Service) returns (r: Reply<()>)
      modifies this`plan, this`answers
      ensures plan == Later(old(plan)) && r.Ok? == Next(old(plan)).Done?
      ensures answers == if r.Ok? then old(answers) + [(user, service)] else old(answers)
    {
      var kind := Answer();
      if !kind.Done? {
        return Err(Infra);
      }
      answers := answers + [(user, service)];
      return Ok(());
    }
  }

  class DeletionWorker {
    const id: Id
    const ports: DeletionPorts
    const clients: set<Service>

    constructor (id: Id, ports: DeletionPorts, clients: set<Service>)
      ensures this.id == id && this.ports == ports && this.clients == clients
    {
      this.id := id;
      this.ports := ports;
      this.clients := clients;
    }

    /** Records a failed step, which ends the run. */
    method Retry(user: Id, step: ClaimedStep, ghost steps: seq<ClaimedStep>, ghost i: nat) returns (r: Reply<()>)
      requires user in ports.jobs && i < |steps| && steps[i] == step
      modifies ports
      ensures var o := Drive(clients, old(ports.StateWith(id, Busy(user, steps, i, Failing))), id, old(ports.plan),
                             true);
              && ports.StateWith(id, Idle) == o.s
              && ports.plan == o.plan
              && r.Ok? == o.ok
    {
      hide Drive, BackOff;
      RetryDrives(clients, ports.StateWith(id, Busy(user, steps, i, Failing)), id, Busy(user, steps, i, Failing),
                  ports.plan);
      r := ports.RetryDeletionStep(user, step.service, step.attempts + 1);
    }

    /** One run: claim a job, have every service clean up that has not yet, remove the user
        row, complete the job. */
    method RunOnce(locked: set<Id>) returns (r: Reply<()>, ghost pick: Id)
      modifies ports
      ensures || NextInLine(old(ports.jobs), locked, old(ports.now), Some(pick))
              || (pick !in old(ports.jobs) && NextInLine(old(ports.jobs), locked, old(ports.now), None))
      ensures var o := RunSpec(clients, old(ports.StateWith(id, Idle)), id, pick, old(ports.plan));
              && ports.StateWith(id, Idle) == o.s
              && ports.plan == o.plan
              && r.Ok? == o.ok
    {
      hide Drive, RunSpec, WorkerStep, ClaimedSteps, Arrive, BackOff;
      ghost var start, plan := ports.StateWith(id, Idle), ports.plan;
      var claimed, picked := ports.ClaimDeletion(locked);
      if picked.Some? {
        pick := picked.value;
      } else {
        pick := UnusedId(start.jobs.Keys);
      }
      ghost var o := RunSpec(clients, start, id, pick, plan);
      ClaimDrives(clients, start, id, pick, plan);
      if claimed.Err? {
        r := Err(claimed.error);
        return;
      }
      if claimed.value.None? {
        r := Ok(());
        return;
      }
      var user, steps := claimed.value.value.user, claimed.value.value.steps;
      for i := 0 to |steps|
        invariant user in ports.jobs
        invariant Drive(clients, ports.StateWith(id, Arrive(clients, user, steps, i)), id, ports.plan, true) == o
      {
        ArriveStops(clients, user, steps, i);
        var step := steps[i];
        if step.done {
          continue;
        }
        if step.service !in clients {
          r := Retry(user, step, steps, i);
          return;
        }
        CallDrives(clients, ports.StateWith(id, Busy(user, steps, i, AtStep)), id, Busy(user, steps, i, AtStep),
                   ports.plan);
        var answer := ports.DeleteUserData(user, step.service);
        if answer.Err? {
          r := Retry(user, step, steps, i);
          return;
        }
        CompleteDrives(clients, ports.StateWith(id, Busy(user, steps, i, Answered)), id,
                       Busy(user, steps, i, Answered), ports.plan);
        var done := ports.CompleteDeletionStep(user, step.service);
        if done.Err? {
          r := done;
          return;
        }
      }
      ArriveStops(clients, user, steps, |steps|);
      RemoveDrives(clients, ports.StateWith(id, Busy(user, steps, |steps|, AtStep)), id,
                   Busy(user, steps, |steps|, AtStep), ports.plan);
      var removed := ports.DeleteUser(user);
      if removed.Err? && removed.error != NotFound {
        r := removed;
        return;
      }
      FinishDrives(clients, ports.StateWith(id, Busy(user, steps, |steps|, Finishing)), id,
                   Busy(user, steps, |steps|, Finishing), ports.plan);
      r := ports.CompleteDeletionJob(user);
    }
  }
}
