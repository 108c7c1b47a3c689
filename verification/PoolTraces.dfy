/** Runs in which the code as written skips a copy, and with them the exact condition under which it never does. */
module PoolTraces {
  import opened Domain
  import opened PoolProtocol
  import opened PoolSafety
  import opened PoolNoLoss
  import PQ = PriorityQueue

  const EMPTY: PQ.Lists<Copy> := PQ.Lists([], [], [])

  /** Some legal run ends in s. */
  ghost predicate Reachable(cfg: Config, p: Policy, s: State) {
    exists run :: Legal(cfg, p, Init(cfg), run) && Exec(cfg, Init(cfg), run) == s
  }

  /** A property of states that every permitted step keeps; being reachable is one. */
  ghost predicate Kept(cfg: Config, p: Policy, R: State -> bool) {
    R(Init(cfg)) && forall s, st :: R(s) && Enabled(cfg, s, st) && Permitted(p, s, st) ==> R(Next(cfg, s, st))
  }

  ghost function Reaching(cfg: Config, p: Policy): State -> bool {
    s => Reachable(cfg, p, s)
  }

  lemma ReachingIsKept(cfg: Config, p: Policy)
    ensures Kept(cfg, p, Reaching(cfg, p))
  {
    assert Legal(cfg, p, Init(cfg), []) && Exec(cfg, Init(cfg), []) == Init(cfg);
    forall s, st | Reachable(cfg, p, s) && Enabled(cfg, s, st) && Permitted(p, s, st)
      ensures Reachable(cfg, p, Next(cfg, s, st))
    {
      ReachesNext(cfg, p, s, st);
    }
  }

  lemma ReachesNext(cfg: Config, p: Policy, s: State, st: Step)
    requires Reachable(cfg, p, s) && Enabled(cfg, s, st) && Permitted(p, s, st)
    ensures Reachable(cfg, p, Next(cfg, s, st))
  {
    var run :| Legal(cfg, p, Init(cfg), run) && Exec(cfg, Init(cfg), run) == s;
    assert (run + [st])[..|run|] == run;
    assert Legal(cfg, p, Init(cfg), run + [st]) && Exec(cfg, Init(cfg), run + [st]) == Next(cfg, s, st);
  }

  lemma Go(cfg: Config, p: Policy, R: State -> bool, s: State, st: Step)
    requires Kept(cfg, p, R) && R(s) && Enabled(cfg, s, st) && Permitted(p, s, st)
    ensures R(Next(cfg, s, st))
  {}

  /** One action of worker w. */
  lemma Do(cfg: Config, p: Policy, R: State -> bool, s: State, w: nat, a: Action)
    requires Kept(cfg, p, R) && R(s) && w < |s.workers| && CanAct(cfg, s.sh, s.workers[w], a) && ActionPermitted(p, a)
    ensures var r := Act(cfg, s.sh, s.workers[w], a);
            R(s.(sh := r.sh, workers := s.workers[w := r.p]))
  {
    Go(cfg, p, R, s, Work(w, a));
  }

  /** The only queued copy travels to worker w. */
  lemma Deliver(cfg: Config, p: Policy, R: State -> bool, s: State, w: nat, c: Copy)
    requires Kept(cfg, p, R) && R(s) && cfg.workers > 0 && w < |s.workers| && s.workers[w] == Idle
    requires s.dispatcher == Polling && s.channel == []
    requires s.sh.lists == EMPTY.LPush(PQ.KeyForPriority(c.job.priority), c)
    ensures R(s.(sh := s.sh.(lists := EMPTY), workers := s.workers[w := Received(c)]))
  {
    Take(cfg, p, R, s, c);
    var s1 := s.(sh := s.sh.(lists := EMPTY), dispatcher := Holding(c));
    Go(cfg, p, R, s1, Send);
    var s2 := s1.(dispatcher := Polling, channel := [c]);
    assert Next(cfg, s1, Send) == s2;
    Go(cfg, p, R, s2, Receive(w));
    assert Next(cfg, s2, Receive(w)) ==
           s.(sh := s.sh.(lists := EMPTY), workers := s.workers[w := Received(c)]);
  }

  lemma Take(cfg: Config, p: Policy, R: State -> bool, s: State, c: Copy)
    requires Kept(cfg, p, R) && R(s) && s.dispatcher == Polling
    requires s.sh.lists == EMPTY.LPush(PQ.KeyForPriority(c.job.priority), c)
    ensures R(s.(sh := s.sh.(lists := EMPTY), dispatcher := Holding(c)))
  {
    Go(cfg, p, R, s, Pop);
    assert s.sh.lists.Rest() == EMPTY && s.sh.lists.Next() == c;
  }

  function Start(cfg: Config, job: Job): State
    requires cfg.workers > 0
  {
    var s := Init(cfg);
    s.(sh := s.sh.(rows := map[job.id := job], accepted := [Copy(job, [])]),
       workers := s.workers[0 := Received(Copy(job, []))])
  }

  function Queued(cfg: Config, job: Job): State {
    var s, c := Init(cfg), Copy(job, []);
    s.(sh := s.sh.(rows := map[job.id := job], accepted := [c],
                   lists := EMPTY.LPush(PQ.KeyForPriority(job.priority), c)))
  }

  /** A first job is accepted ... */
  lemma FirstJobQueued(cfg: Config, p: Policy, R: State -> bool, job: Job)
    requires job == NewJob("id", job.jobType, "", cfg.maxRetries)
    requires Kept(cfg, p, R)
    ensures R(Queued(cfg, job))
  {
    var s0 := Init(cfg);
    Go(cfg, p, R, s0, Create(job));
    var s1 := Next(cfg, s0, Create(job));
    Go(cfg, p, R, s1, PushNew(0, true));
    var s2 := Next(cfg, s1, PushNew(0, true));
    assert s2.pending == [] && s2.sh.rows == map[job.id := job] && s2.sh.accepted == [Copy(job, [])];
    assert s2 == Queued(cfg, job);
  }

  /** The dispatcher pops the job, sees the cancelled context and cannot put it back. */
  lemma PutBackErrorDropsJob(cfg: Config, p: Policy, t: JobType) returns (s: State)
    requires p.putBackErrors
    ensures Reachable(cfg, p, s) && s.sh.dropped != []
  {
    var R := Reaching(cfg, p);
    ReachingIsKept(cfg, p);
    var job := NewJob("id", t, "", cfg.maxRetries);
    var c := Copy(job, []);
    FirstJobQueued(cfg, p, R, job);
    s := Queued(cfg, job);
    Take(cfg, p, R, s, c);
    s := s.(sh := s.sh.(lists := EMPTY), dispatcher := Holding(c));
    Go(cfg, p, R, s, Cancel);
    s := s.(cancelled := true);
    Go(cfg, p, R, s, PushBack(false));
    s := s.(sh := s.sh.Drop(c), dispatcher := Closing);
  }

  /** ... and reaches worker 0. */
  lemma FirstJob(cfg: Config, p: Policy, R: State -> bool, job: Job)
    requires cfg.workers > 0 && job == NewJob("id", job.jobType, "", cfg.maxRetries)
    requires Kept(cfg, p, R)
    ensures R(Start(cfg, job))
  {
    var s, c := Queued(cfg, job), Copy(job, []);
    FirstJobQueued(cfg, p, R, job);
    Deliver(cfg, p, R, s, 0, c);
    assert s.(sh := s.sh.(lists := EMPTY), workers := s.workers[0 := Received(c)]) == Start(cfg, job);
  }

  /** ... and worker 0 starts to process it. */
  lemma FirstJobRuns(cfg: Config, p: Policy, R: State -> bool, job: Job) returns (s: State)
    requires cfg.workers > 0 && job == NewJob("id", job.jobType, "", cfg.maxRetries) && job.jobType in cfg.registry
    requires Kept(cfg, p, R)
    ensures R(s)
    ensures var c := Copy(job.(status := PROCESSING), []);
            var b := Start(cfg, job);
            s == b.(sh := b.sh.(rows := map[job.id := c.job], locks := {job.id}), workers := b.workers[0 := Running(c)])
  {
    FirstJob(cfg, p, R, job);
    var b := Start(cfg, job);
    Do(cfg, p, R, b, 0, CheckDone(true));
    var s1 := b.(workers := b.workers[0 := Checked(Copy(job, []))]);
    assert b.workers[0 := Checked(Copy(job, []))] == s1.workers;
    Do(cfg, p, R, s1, 0, TryLock(true));
    var s2 := b.(sh := b.sh.(locks := {job.id}), workers := b.workers[0 := Locked(Copy(job, []))]);
    assert b.sh.locks + {job.id} == {job.id} && s1.workers[0 := Locked(Copy(job, []))] == s2.workers;
    Do(cfg, p, R, s2, 0, MarkProcessing(true));
    var c := Copy(job.(status := PROCESSING), []);
    s := b.(sh := b.sh.(rows := map[job.id := c.job], locks := {job.id}), workers := b.workers[0 := Running(c)]);
    assert UpdateRow(map[job.id := job], c.job) == map[job.id := c.job];
    assert s2.workers[0 := Running(c)] == s.workers;
  }

  /** A SetNX error, such as a cancelled context while draining, reads as "locked elsewhere" and drops the job. */
  lemma LockErrorDropsJob(cfg: Config, p: Policy, t: JobType) returns (s: State)
    requires cfg.workers > 0 && t in cfg.registry && p.lockErrors
    ensures Reachable(cfg, p, s) && s.sh.dropped != []
  {
    var R := Reaching(cfg, p);
    ReachingIsKept(cfg, p);
    var job := NewJob("id", t, "", cfg.maxRetries);
    FirstJob(cfg, p, R, job);
    var b := Start(cfg, job);
    Do(cfg, p, R, b, 0, CheckDone(true));
    var s1 := b.(workers := b.workers[0 := Checked(Copy(job, []))]);
    Do(cfg, p, R, s1, 0, TryLock(false));
    s := s1.(sh := s1.sh.Drop(Copy(job, [])), workers := s1.workers[0 := Idle]);
  }

  /** Nothing queued or in flight, and these workers where we want them. */
  predicate Quiet(s: State, p0: Phase) {
    s.sh.lists == EMPTY && s.dispatcher == Polling && s.channel == [] && |s.workers| > 0 && s.workers[0] == p0
  }

  /** The first attempt fails and its retry is scheduled; only the deferred lock delete is left to do. */
  lemma RetryScheduled(cfg: Config, p: Policy, R: State -> bool, job: Job) returns (s: State, c: Copy)
    requires cfg.workers > 0 && job == NewJob("id", job.jobType, "", cfg.maxRetries) && job.jobType in cfg.registry
    requires cfg.maxRetries > 0
    requires Kept(cfg, p, R)
    ensures R(s) && Quiet(s, Unlocking("id")) && s.sh.timers == [Waiting(c)]
    ensures c.Id() == "id" && c.job.jobType == job.jobType && s.sh.locks == {"id"} && s.sh.done == {}
    ensures s.workers == Init(cfg).workers[0 := Unlocking("id")] && !s.cancelled
  {
    s := FirstJobRuns(cfg, p, R, job);
    c := s.workers[0].c;
    Do(cfg, p, R, s, 0, Return(Retryable));
    c := c.(trail := c.trail + [Attempt(1, Retryable)]);
    s := s.(workers := s.workers[0 := Faulted(c, true)]);
    Do(cfg, p, R, s, 0, Decide);
    c := c.(job := c.job.(retryCount := 1));
    s := s.(workers := s.workers[0 := Requeuing(c)]);
    Do(cfg, p, R, s, 0, SaveRetry(true));
    c := c.WithStatus(QUEUED);
    s := s.(sh := s.sh.Save(c, true), workers := s.workers[0 := Spawning(c)]);
    Do(cfg, p, R, s, 0, Spawn);
    s := s.(sh := s.sh.(timers := s.sh.timers + [Waiting(c)]), workers := s.workers[0 := Unlocking("id")]);
    assert s.sh.timers == [Waiting(c)];
  }

  /** The retry timer fires at once and the copy reaches worker 1, before the lock is deleted. */
  lemma RetryComesEarly(cfg: Config, p: Policy, R: State -> bool, job: Job) returns (s: State, c: Copy)
    requires cfg.workers > 1 && job == NewJob("id", job.jobType, "", cfg.maxRetries) && job.jobType in cfg.registry
    requires cfg.maxRetries > 0 && p.earlyTimers
    requires Kept(cfg, p, R)
    ensures R(s) && |s.workers| == cfg.workers && s.workers[1] == Received(c)
    ensures c.Id() == "id" && c.job.jobType == job.jobType && s.sh.locks == {"id"} && s.sh.done == {}
  {
    s, c := RetryScheduled(cfg, p, R, job);
    Go(cfg, p, R, s, Fire(0, true));
    assert [Waiting(c)][0 := Spent] == [Spent];
    s := s.(sh := s.sh.Push(c).(timers := [Spent]));
    Deliver(cfg, p, R, s, 1, c);
    s := s.(sh := s.sh.(lists := EMPTY), workers := s.workers[1 := Received(c)]);
  }

  /** A received copy whose id is locked and not marked is dropped. */
  lemma MeetsLock(cfg: Config, p: Policy, R: State -> bool, s0: State, w: nat, c: Copy)
    returns (s: State)
    requires Kept(cfg, p, R) && R(s0) && w < |s0.workers| && s0.workers[w] == Received(c)
    requires c.job.jobType in cfg.registry && c.Id() !in s0.sh.done && c.Id() in s0.sh.locks
    ensures R(s) && s.sh.dropped != []
  {
    Do(cfg, p, R, s0, w, CheckDone(true));
    s := s0.(workers := s0.workers[w := Checked(c)]);
    Do(cfg, p, R, s, w, TryLock(true));
    s := s.(sh := s.sh.Drop(c), workers := s.workers[w := Idle]);
  }

  /** With two workers, a retry timer that fires before the deferred lock delete sends the copy into its own lock. */
  lemma EarlyTimerMeetsOwnLock(cfg: Config, p: Policy, t: JobType) returns (s: State)
    requires cfg.workers > 1 && cfg.maxRetries > 0 && t in cfg.registry && p.earlyTimers
    ensures Reachable(cfg, p, s) && s.sh.dropped != []
  {
    var R := Reaching(cfg, p);
    ReachingIsKept(cfg, p);
    var c: Copy;
    s, c := RetryComesEarly(cfg, p, R, NewJob("id", t, "", cfg.maxRetries));
    s := MeetsLock(cfg, p, R, s, 1, c);
  }

  /** The first attempt fails, its retry is scheduled, and the lock delete succeeds or not. */
  lemma RetryWaits(cfg: Config, p: Policy, R: State -> bool, job: Job, unlock: bool) returns (s: State, c: Copy)
    requires cfg.workers > 0 && job == NewJob("id", job.jobType, "", cfg.maxRetries) && job.jobType in cfg.registry
    requires cfg.maxRetries > 0 && (unlock || p.unlockErrors)
    requires Kept(cfg, p, R)
    ensures R(s) && Quiet(s, Idle) && s.sh.timers == [Waiting(c)] && !s.cancelled
    ensures c.Id() == "id" && c.job.jobType == job.jobType && s.sh.done == {} && (unlock || "id" in s.sh.locks)
    ensures s.workers == Init(cfg).workers
  {
    s, c := RetryScheduled(cfg, p, R, job);
    Do(cfg, p, R, s, 0, Unlock(unlock));
    s := s.(sh := if unlock then s.sh.(locks := s.sh.locks - {"id"}) else s.sh, workers := s.workers[0 := Idle]);
    assert s.workers == Init(cfg).workers;
  }

  /** A lock that could not be deleted stops the retry. */
  lemma UnlockErrorDropsRetry(cfg: Config, p: Policy, t: JobType) returns (s: State)
    requires cfg.workers > 0 && cfg.maxRetries > 0 && t in cfg.registry && p.unlockErrors
    ensures Reachable(cfg, p, s) && s.sh.dropped != []
  {
    var R := Reaching(cfg, p);
    ReachingIsKept(cfg, p);
    var c: Copy;
    s, c := RetryWaits(cfg, p, R, NewJob("id", t, "", cfg.maxRetries), false);
    Go(cfg, p, R, s, Fire(0, true));
    assert [Waiting(c)][0 := Spent] == [Spent];
    s := s.(sh := s.sh.Push(c).(timers := [Spent]));
    Deliver(cfg, p, R, s, 0, c);
    s := s.(sh := s.sh.(lists := EMPTY), workers := s.workers[0 := Received(c)]);
    s := MeetsLock(cfg, p, R, s, 0, c);
  }

  /** A retry goroutine whose second push fails too gives up. */
  lemma RequeueErrorDropsRetry(cfg: Config, p: Policy, t: JobType) returns (s: State)
    requires cfg.workers > 0 && cfg.maxRetries > 0 && t in cfg.registry && p.requeueErrors
    ensures Reachable(cfg, p, s) && s.sh.dropped != []
  {
    var R := Reaching(cfg, p);
    ReachingIsKept(cfg, p);
    var c: Copy;
    s, c := RetryWaits(cfg, p, R, NewJob("id", t, "", cfg.maxRetries), true);
    Go(cfg, p, R, s, Fire(0, false));
    assert [Waiting(c)][0 := Again(c)] == [Again(c)] && [Again(c)][0 := Spent] == [Spent];
    s := s.(sh := s.sh.(timers := [Again(c)]));
    Go(cfg, p, R, s, FireAgain(0, false));
    s := s.(sh := s.sh.Drop(c).(timers := [Spent]));
  }

  /** So does one that is cancelled and whose only push fails. */
  lemma CancelErrorDropsRetry(cfg: Config, p: Policy, t: JobType) returns (s: State)
    requires cfg.workers > 0 && cfg.maxRetries > 0 && t in cfg.registry && p.cancelErrors
    ensures Reachable(cfg, p, s) && s.sh.dropped != []
  {
    var R := Reaching(cfg, p);
    ReachingIsKept(cfg, p);
    var c: Copy;
    s, c := RetryWaits(cfg, p, R, NewJob("id", t, "", cfg.maxRetries), true);
    Go(cfg, p, R, s, Cancel);
    s := s.(cancelled := true);
    Go(cfg, p, R, s, FireCancelled(0, false));
    s := s.(sh := s.sh.Drop(c).(timers := [Spent]));
  }

  /** The first attempt fails for good; its row reads DEAD_LETTER and nothing else of toDeadLetter has happened. */
  lemma JobCondemned(cfg: Config, p: Policy, R: State -> bool, job: Job) returns (s: State, c: Copy)
    requires cfg.workers > 0 && job == NewJob("id", job.jobType, "", cfg.maxRetries) && job.jobType in cfg.registry
    requires Kept(cfg, p, R)
    ensures R(s) && Quiet(s, Buried(c, true)) && c.Id() == "id" && s.sh.done == {}
    ensures "id" in s.sh.rows && s.sh.rows["id"].status == DEAD_LETTER && s.sh.rows["id"].jobType == job.jobType
    ensures s.workers == Init(cfg).workers[0 := Buried(c, true)]
    ensures |s.sh.accepted| == 1 && s.sh.dead == s.sh.won == s.sh.dropped == []
  {
    s := FirstJobRuns(cfg, p, R, job);
    c := s.workers[0].c;
    Do(cfg, p, R, s, 0, Return(NonRetryable));
    c := c.(trail := c.trail + [Attempt(1, NonRetryable)]);
    s := s.(workers := s.workers[0 := Faulted(c, false)]);
    Do(cfg, p, R, s, 0, Decide);
    s := s.(workers := s.workers[0 := Burying(c, true)]);
    Do(cfg, p, R, s, 0, SaveDead(true));
    c := c.WithStatus(DEAD_LETTER);
    s := s.(sh := s.sh.Save(c, true), workers := s.workers[0 := Buried(c, true)]);
  }

  /** A failed dead-letter push loses the job. */
  lemma BuryErrorDropsJob(cfg: Config, p: Policy, t: JobType) returns (s: State)
    requires cfg.workers > 0 && t in cfg.registry && p.buryErrors
    ensures Reachable(cfg, p, s) && s.sh.dropped != []
  {
    var R := Reaching(cfg, p);
    ReachingIsKept(cfg, p);
    var c: Copy;
    s, c := JobCondemned(cfg, p, R, NewJob("id", t, "", cfg.maxRetries));
    Do(cfg, p, R, s, 0, PushDead(false));
    s := s.(sh := s.sh.Drop(c), workers := s.workers[0 := DeadPushed(c, true)]);
  }

  /** The rest of toDeadLetter, and the lock delete after it. */
  lemma Bury(cfg: Config, p: Policy, R: State -> bool, s0: State, c: Copy) returns (s: State)
    requires Kept(cfg, p, R) && R(s0) && |s0.workers| > 0 && s0.workers[0] == Buried(c, true) && c.Id() == "id"
    ensures R(s) && "id" in s.sh.done
    ensures s == s0.(sh := s0.sh.(dead := [c] + s0.sh.dead, done := s0.sh.done + {"id"}, locks := s0.sh.locks - {"id"}),
                     workers := s0.workers[0 := Idle])
  {
    s := s0;
    Do(cfg, p, R, s, 0, PushDead(true));
    s := s.(sh := s.sh.(dead := [c] + s.sh.dead), workers := s.workers[0 := DeadPushed(c, true)]);
    Do(cfg, p, R, s, 0, MarkDead(true));
    s := s.(sh := s.sh.Mark("id", true), workers := s.workers[0 := Unlocking("id")]);
    Do(cfg, p, R, s, 0, Unlock(true));
    s := s.(sh := s.sh.(locks := s.sh.locks - {"id"}), workers := s.workers[0 := Idle]);
  }

  /** RetryJob on a dead letter. */
  lemma Retry(cfg: Config, p: Policy, R: State -> bool, s0: State) returns (s: State, c: Copy)
    requires Kept(cfg, p, R) && R(s0) && Enabled(cfg, s0, AdminRetry("id", true)) && s0.sh.lists == EMPTY
    requires p.markedRetries || "id" !in s0.sh.done
    requires p.overlappingRetries || !FinishPending(s0, "id")
    ensures R(s) && c == Requeued("id", s0.sh.rows["id"])
    ensures s == s0.(sh := s0.sh.(rows := s.sh.rows, accepted := s0.sh.accepted + [c],
                                  lists := EMPTY.LPush(PQ.KeyForPriority(c.job.priority), c)))
  {
    c := Requeued("id", s0.sh.rows["id"]);
    Go(cfg, p, R, s0, AdminRetry("id", true));
    s := Next(cfg, s0, AdminRetry("id", true));
  }

  /** The only queued copy reaches worker 0 and is dropped because its id is marked done. */
  lemma MeetsMarker(cfg: Config, p: Policy, R: State -> bool, s0: State, c: Copy) returns (s: State)
    requires Kept(cfg, p, R) && R(s0) && cfg.workers > 0 && |s0.workers| > 0 && s0.workers[0] == Idle
    requires s0.dispatcher == Polling && s0.channel == []
    requires s0.sh.lists == EMPTY.LPush(PQ.KeyForPriority(c.job.priority), c)
    requires c.job.jobType in cfg.registry && c.Id() in s0.sh.done
    ensures R(s) && s.sh.dropped != []
  {
    Deliver(cfg, p, R, s0, 0, c);
    s := s0.(sh := s0.sh.(lists := EMPTY), workers := s0.workers[0 := Received(c)]);
    Do(cfg, p, R, s, 0, CheckDone(true));
    s := s.(sh := s.sh.Drop(c), workers := s.workers[0 := Idle]);
  }

  /** Dead-lettering leaves the done marker behind, so the copy RetryJob re-queues while it lives is skipped. */
  lemma RetriedJobMeetsDoneMarker(cfg: Config, p: Policy, t: JobType) returns (s: State)
    requires cfg.workers > 0 && t in cfg.registry && p.markedRetries
    ensures Reachable(cfg, p, s) && s.sh.dropped != []
  {
    var R := Reaching(cfg, p);
    ReachingIsKept(cfg, p);
    var c: Copy;
    s, c := JobCondemned(cfg, p, R, NewJob("id", t, "", cfg.maxRetries));
    s := Bury(cfg, p, R, s, c);
    s, c := Retry(cfg, p, R, s);
    s := MeetsMarker(cfg, p, R, s, c);
  }

  /** RetryJob sees DEAD_LETTER before the worker has set the marker, which the re-queued copy then meets. */
  lemma OverlappingRetryMeetsMarker(cfg: Config, p: Policy, t: JobType) returns (s: State)
    requires cfg.workers > 0 && t in cfg.registry && p.overlappingRetries
    ensures Reachable(cfg, p, s) && s.sh.dropped != []
  {
    var R := Reaching(cfg, p);
    ReachingIsKept(cfg, p);
    var c, again: Copy;
    s, c := JobCondemned(cfg, p, R, NewJob("id", t, "", cfg.maxRetries));
    s, again := Retry(cfg, p, R, s);
    s := Bury(cfg, p, R, s, c);
    s := MeetsMarker(cfg, p, R, s, again);
  }

  /** A calm run that retries: the marker of the dead letter expires, RetryJob re-queues it, and the second life of the
      job succeeds. */
  lemma PatientRetrySucceeds(cfg: Config, t: JobType) returns (s: State)
    requires cfg.workers > 0 && t in cfg.registry
    ensures Reachable(cfg, CALM, s) && |s.sh.accepted| == 2 && |s.sh.dead| == 1 && |s.sh.won| == 1
    ensures s.sh.won[0].Id() == s.sh.dead[0].Id() == "id" && s.sh.dropped == []
  {
    var R := Reaching(cfg, CALM);
    ReachingIsKept(cfg, CALM);
    var c: Copy;
    s, c := RetryQueued(cfg, R, t);
    s := RunsAndWins(cfg, CALM, R, s, c);
  }

  /** The first life ends on the dead-letter list, the marker expires, and the second life is queued. */
  lemma RetryQueued(cfg: Config, R: State -> bool, t: JobType) returns (s: State, c: Copy)
    requires cfg.workers > 0 && t in cfg.registry
    requires Kept(cfg, CALM, R)
    ensures R(s) && |s.sh.accepted| == 2 && |s.sh.dead| == 1 && s.sh.won == [] == s.sh.dropped
    ensures s.sh.dead[0].Id() == "id" && c.Id() == "id" && c.job.jobType == t && "id" !in s.sh.done + s.sh.locks
    ensures s.workers == Init(cfg).workers && s.dispatcher == Polling && s.channel == []
    ensures s.sh.lists == EMPTY.LPush(PQ.KeyForPriority(c.job.priority), c)
  {
    s, c := JobCondemned(cfg, CALM, R, NewJob("id", t, "", cfg.maxRetries));
    s := Bury(cfg, CALM, R, s, c);
    assert s.workers == Init(cfg).workers;
    Go(cfg, CALM, R, s, ExpireDone("id"));
    s := s.(sh := s.sh.(done := s.sh.done - {"id"}));
    s, c := Retry(cfg, CALM, R, s);
  }

  /** The only queued copy is processed by worker 0, successfully. */
  lemma RunsAndWins(cfg: Config, p: Policy, R: State -> bool, s0: State, c0: Copy) returns (s: State)
    requires Kept(cfg, p, R) && R(s0) && cfg.workers > 0 && |s0.workers| > 0 && s0.workers[0] == Idle
    requires s0.dispatcher == Polling && s0.channel == [] && c0.job.jobType in cfg.registry
    requires s0.sh.lists == EMPTY.LPush(PQ.KeyForPriority(c0.job.priority), c0) && c0.Id() !in s0.sh.done + s0.sh.locks
    ensures R(s) && |s.sh.won| == |s0.sh.won| + 1 && s.sh.won[|s0.sh.won|].Id() == c0.Id()
    ensures s.sh.accepted == s0.sh.accepted && s.sh.dead == s0.sh.dead && s.sh.dropped == s0.sh.dropped
  {
    var c := c0;
    Deliver(cfg, p, R, s0, 0, c);
    s := s0.(sh := s0.sh.(lists := EMPTY), workers := s0.workers[0 := Received(c)]);
    Do(cfg, p, R, s, 0, CheckDone(true));
    s := s.(workers := s.workers[0 := Checked(c)]);
    Do(cfg, p, R, s, 0, TryLock(true));
    s := s.(sh := s.sh.(locks := s.sh.locks + {c.Id()}), workers := s.workers[0 := Locked(c)]);
    Do(cfg, p, R, s, 0, MarkProcessing(true));
    c := c.WithStatus(PROCESSING);
    s := s.(sh := s.sh.Save(c, true), workers := s.workers[0 := Running(c)]);
    Do(cfg, p, R, s, 0, Return(Success));
    c := c.(trail := c.trail + [Attempt(c.job.retryCount + 1, Success)]);
    s := s.(sh := s.sh.(won := s.sh.won + [c]), workers := s.workers[0 := Succeeded(c)]);
  }

  ghost predicate NeverLoses(cfg: Config, p: Policy) {
    forall s :: Reachable(cfg, p, s) ==> NothingLost(s)
  }

  /** The exact condition. A pool with at least one worker, one registered processor and a positive retry budget
      never loses an accepted copy, in all runs of a kind, if and only if that kind excludes the six failures, both
      kinds of hasty admin retry, and, unless there is only one worker, retry timers that beat the lock delete. Every
      other call may fail at any time. */
  lemma NeverLosesIff(cfg: Config, p: Policy, t: JobType)
    requires cfg.workers > 0 && cfg.maxRetries > 0 && t in cfg.registry
    ensures NeverLoses(cfg, p) <==>
            && !p.lockErrors && !p.unlockErrors && !p.buryErrors && !p.putBackErrors && !p.requeueErrors
            && !p.cancelErrors && !p.markedRetries && !p.overlappingRetries && (p.earlyTimers ==> cfg.workers == 1)
  {
    if CalmPolicy(cfg, p) {
      forall s | Reachable(cfg, p, s)
        ensures NothingLost(s)
      {
        var run :| Legal(cfg, p, Init(cfg), run) && Exec(cfg, Init(cfg), run) == s;
        NoAcceptedJobIsLost(cfg, p, run);
      }
    } else {
      var s := SomethingIsLost(cfg, p, t);
      assert !NothingLost(s);
    }
  }

  lemma SomethingIsLost(cfg: Config, p: Policy, t: JobType) returns (s: State)
    requires cfg.workers > 0 && cfg.maxRetries > 0 && t in cfg.registry && !CalmPolicy(cfg, p)
    ensures Reachable(cfg, p, s) && s.sh.dropped != []
  {
    if p.lockErrors {
      s := LockErrorDropsJob(cfg, p, t);
    } else if p.unlockErrors {
      s := UnlockErrorDropsRetry(cfg, p, t);
    } else if p.buryErrors {
      s := BuryErrorDropsJob(cfg, p, t);
    } else if p.putBackErrors {
      s := PutBackErrorDropsJob(cfg, p, t);
    } else if p.requeueErrors {
      s := RequeueErrorDropsRetry(cfg, p, t);
    } else if p.cancelErrors {
      s := CancelErrorDropsRetry(cfg, p, t);
    } else if p.markedRetries {
      s := RetriedJobMeetsDoneMarker(cfg, p, t);
    } else if p.overlappingRetries {
      s := OverlappingRetryMeetsMarker(cfg, p, t);
    } else {
      s := EarlyTimerMeetsOwnLock(cfg, p, t);
    }
  }
}
