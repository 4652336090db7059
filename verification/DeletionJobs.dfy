/** Rows of the account-deletion queue: one job for each user, one step for each service,
    and what each statement of the job store does to them. */
module DeletionJobs {
  import opened Basics

  datatype Service = Apiary | Hive | Inspection | Harvest | Media | Notification | Subscription

  /** The order in which a request creates the steps. */
  const DELETION_SERVICES: seq<Service> :=
    [Apiary, Hive, Inspection, Harvest, Media, Notification, Subscription]

  /** The order in which a claim returns them: alphabetical. */
  const CLAIM_ORDER: seq<Service> :=
    [Apiary, Harvest, Hive, Inspection, Media, Notification, Subscription]

  const ALL_SERVICES: set<Service> :=
    {Apiary, Hive, Inspection, Harvest, Media, Notification, Subscription}

  const MINUTE: nat := 60 * NANOS_PER_SECOND
  const LEASE: nat := 2 * MINUTE

  datatype Status = Pending | Processing | Completed

  datatype StepRow = StepRow(status: Status, attempts: nat, nextAttemptAt: int)

  /** A job row together with its step rows. Jobs are keyed by user, which is unique. */
  datatype Job = Job(
    status: Status,
    attempts: nat,
    nextAttemptAt: int,
    leaseUntil: Option<int>,
    steps: map<Service, StepRow>)
  {
    predicate IsDone(service: Service) {
      service in steps && steps[service].status.Completed?
    }

    predicate IsClaimable(now: int) {
      !status.Completed? && nextAttemptAt <= now && (leaseUntil.None? || leaseUntil.value < now)
    }

    function AsClaimed(now: int): Job {
      this.(status := Processing, attempts := attempts + 1, leaseUntil := Some(now + LEASE))
    }

    function WithStepCompleted(service: Service): Job {
      if service in steps then this.(steps := steps[service := steps[service].(status := Completed)]) else this
    }

    /** The back-off goes to the step only; claims read the job's own next attempt. */
    function WithStepRetried(service: Service, attempt: nat, now: int): Job {
      if service in steps
      then this.(steps := steps[service := StepRow(Pending, attempt, now + BackOff(attempt))])
      else this
    }

    function Reopened(): Job {
      this.(status := Pending, leaseUntil := None)
    }

    function Finished(): Job {
      this.(status := Completed, leaseUntil := None)
    }
  }

  function Shifted(n: nat): nat {
    if n == 0 then 1 else 2 * Shifted(n - 1)
  }

  function BackOff(attempt: nat): nat {
    Shifted(if attempt < 8 then attempt else 8) * MINUTE
  }

  function NewStep(now: int): StepRow {
    StepRow(Pending, 0, now)
  }

  function NewJob(now: int): Job {
    Job(Pending, 0, now, None, map s | s in ALL_SERVICES :: NewStep(now))
  }

  /** One step as a claim hands it to a worker. */
  datatype ClaimedStep = ClaimedStep(service: Service, done: bool, attempts: nat)

  /** The steps a claim returns, in the given order. */
  function ClaimedSteps(job: Job, order: seq<Service>): seq<ClaimedStep> {
    if order == [] then []
    else
      var rest := ClaimedSteps(job, order[1..]);
      if order[0] in job.steps
      then [ClaimedStep(order[0], job.IsDone(order[0]), job.steps[order[0]].attempts)] + rest
      else rest
  }

  /** When no step row is missing, a claim returns every step, in the order asked for. */
  lemma {:induction false} ClaimReturnsAll(job: Job, order: seq<Service>)
    requires forall i | 0 <= i < |order| :: order[i] in job.steps
    ensures |ClaimedSteps(job, order)| == |order|
    ensures forall i | 0 <= i < |order| ::
              ClaimedSteps(job, order)[i] == ClaimedStep(order[i], job.IsDone(order[i]), job.steps[order[i]].attempts)
  {
    if order != [] {
      ClaimReturnsAll(job, order[1..]);
    }
  }

  /** The claim order lists every service, each once. */
  lemma ClaimOrderIsComplete(service: Service) returns (i: nat)
    ensures i < |CLAIM_ORDER| && CLAIM_ORDER[i] == service && service in ALL_SERVICES
    ensures forall j | 0 <= j < |CLAIM_ORDER| && CLAIM_ORDER[j] == service :: j == i
  {
    i := match service
      case Apiary => 0
      case Harvest => 1
      case Hive => 2
      case Inspection => 3
      case Media => 4
      case Notification => 5
      case Subscription => 6;
  }
}
