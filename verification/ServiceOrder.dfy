/** In which order accepted jobs are served: what the priorities of internal/domain/job.go mean on the lists of
    internal/queue/redis_queue.go. */
module ServiceOrder {
  import opened Domain
  import opened PriorityQueue

  /** A job as Enqueue creates it. */
  ghost predicate New(job: Job) {
    job == NewJob(job.id, job.jobType, job.payload, job.maxRetries) && !job.jobType.UNKNOWN_TYPE?
  }

  /** The jobs of the given types, in order. */
  function OfTypes(jobs: seq<Job>, types: set<JobType>): seq<Job> {
    if jobs == [] then []
    else OfTypes(jobs[..|jobs| - 1], types) + if jobs[|jobs| - 1].jobType in types then [jobs[|jobs| - 1]] else []
  }

  /** Each job with the list it is pushed to. */
  function Placed(jobs: seq<Job>): (xs: seq<Tagged<Job>>)
    ensures |xs| == |jobs|
  {
    if jobs == [] then []
    else Placed(jobs[..|jobs| - 1]) + [Tagged(KeyForPriority(jobs[|jobs| - 1].priority), jobs[|jobs| - 1])]
  }

  function Items(xs: seq<Tagged<Job>>): (r: seq<Job>)
    ensures |r| == |xs| && forall i :: 0 <= i < |xs| ==> r[i] == xs[i].item
  {
    seq(|xs|, i requires 0 <= i < |xs| => xs[i].item)
  }

  /** The types that share a list. */
  function TypesOn(l: Level): set<JobType> {
    match l
    case HighList => {PAYMENT_WEBHOOK, QR_SCAN}
    case MediumList => {REGISTRATION}
    case LowList => {NOTIFICATION}
  }

  lemma PlacedByType(job: Job, l: Level)
    requires New(job)
    ensures KeyForPriority(job.priority) == l <==> job.jobType in TypesOn(l)
  {}

  lemma {:induction false} ListHolds(jobs: seq<Job>, l: Level)
    requires forall i :: 0 <= i < |jobs| ==> New(jobs[i])
    ensures Only(Placed(jobs), l) == OfTypes(jobs, TypesOn(l))
  {
    if jobs != [] {
      var most, job := jobs[..|jobs| - 1], jobs[|jobs| - 1];
      ListHolds(most, l);
      PlacedByType(job, l);
      OnlySnoc(Placed(most), Tagged(KeyForPriority(job.priority), job), l);
    }
  }

  lemma BlocksItems(h: seq<Job>, m: seq<Job>, w: seq<Job>)
    ensures Items(Blocks(h, m, w)) == h + m + w
  {}

  /** Accepted jobs are served in this order: payment webhooks and QR scans as they came, then registrations as they
      came, then notifications as they came. */
  lemma {:induction false} ServedByType(jobs: seq<Job>)
    requires forall i :: 0 <= i < |jobs| ==> New(jobs[i])
    ensures Items(Drain(PushAll(Placed(jobs)))) ==
            OfTypes(jobs, {PAYMENT_WEBHOOK, QR_SCAN}) + OfTypes(jobs, {REGISTRATION}) + OfTypes(jobs, {NOTIFICATION})
  {
    DrainOfPushes(Placed(jobs));
    ListHolds(jobs, HighList);
    ListHolds(jobs, MediumList);
    ListHolds(jobs, LowList);
    BlocksItems(OfTypes(jobs, TypesOn(HighList)), OfTypes(jobs, TypesOn(MediumList)), OfTypes(jobs, TypesOn(LowList)));
  }

  lemma {:induction false} NoneUrgent(jobs: seq<Job>)
    requires forall i :: 0 <= i < |jobs| ==> jobs[i].jobType in {REGISTRATION, NOTIFICATION}
    ensures OfTypes(jobs, {PAYMENT_WEBHOOK, QR_SCAN}) == []
  {
    if jobs != [] {
      NoneUrgent(jobs[..|jobs| - 1]);
    }
  }

  /** A payment webhook or a QR scan accepted after any number of registrations and notifications is popped first. */
  lemma {:induction false} UrgentOvertakes(jobs: seq<Job>, job: Job)
    requires forall i :: 0 <= i < |jobs| ==> New(jobs[i]) && jobs[i].jobType in {REGISTRATION, NOTIFICATION}
    requires New(job) && job.jobType in {PAYMENT_WEBHOOK, QR_SCAN}
    ensures var q := PushAll(Placed(jobs + [job])); !q.Empty() && q.Next() == job
  {
    var all := jobs + [job];
    var q := PushAll(Placed(all));
    assert all[..|jobs|] == jobs;
    ServedByType(all);
    NoneUrgent(jobs);
    assert OfTypes(all, {PAYMENT_WEBHOOK, QR_SCAN}) == [job];
    assert Items(Drain(q))[0] == job;
    assert !q.Empty();
    assert Drain(q)[0] == Tagged(q.Front(), q.Next());
  }
}
