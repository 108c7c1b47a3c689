/** The job lifecycle as one transition system: producers, the three priority lists, the dispatcher, the bounded
    channel, the workers with their duplicate guards, retry timers, the dead-letter list, admin re-queue and
    shutdown (internal/worker/pool.go, with the Enqueue and RetryJob ends of the services).

    Every Redis and Postgres call is a step of its own, so steps of different goroutines interleave freely. A
    call that may fail carries a flag; a failed call has no effect. Key expiry may strike at any time. */
module PoolProtocol {
  import opened Domain
  import opened PriorityQueue

  /** registry: job types with a processor; maxRetries: the budget Enqueue gives new jobs; workers: pool size. */
  datatype Config = Config(registry: set<JobType>, maxRetries: int, workers: nat)

  datatype Outcome = Success | Retryable | NonRetryable

  datatype Attempt = Attempt(number: int, outcome: Outcome)

  /** One queued copy of a job, with the attempts made since it was last put on the queue from outside. */
  datatype Copy = Copy(job: Job, trail: seq<Attempt>)
  {
    function Id(): Id {
      job.id
    }

    function WithStatus(st: JobStatus): Copy {
      this.(job := job.(status := st))
    }
  }

  /** Where a worker stands inside process; the name says what has just happened. */
  datatype Phase =
    | Idle
    | Received(c: Copy)
    | Checked(c: Copy)                  // no done marker seen
    | Locked(c: Copy)                   // lock acquired
    | Running(c: Copy)                  // inside Processor.Process
    | Fanning(c: Copy, note: Copy)      // a registration that has created its notification's row
    | Fanned(c: Copy)
    | Succeeded(c: Copy)
    | SuccessSaved(c: Copy)
    | Faulted(c: Copy, retryable: bool)
    | Burying(c: Copy, locked: bool)    // entering toDeadLetter
    | Buried(c: Copy, locked: bool)     // after its Update
    | DeadPushed(c: Copy, locked: bool)
    | Requeuing(c: Copy)                // RetryCount incremented
    | Spawning(c: Copy)                 // row updated
    | Unlocking(id: Id)                 // only the deferred lock delete is left
    | Leaving                           // range over the closed channel ended
    | Gone                              // workers.Done()

  datatype Timer = Waiting(c: Copy) | Again(c: Copy) | Spent

  datatype Dispatcher = Polling | Holding(c: Copy) | Closing | Closed | Stopped

  datatype Waiter = AwaitDispatcher | AwaitWorkers | AwaitRetries | Drained

  /** What the goroutines share: Redis, the job table, the retry timers; and the logs the claims talk about.
      accepted: copies put on the queue from outside; won: successful runs; dropped: copies given up on. */
  datatype Shared = Shared(
    lists: Lists<Copy>, dead: seq<Copy>, rows: map<Id, Job>, locks: set<Id>, done: set<Id>, timers: seq<Timer>,
    accepted: seq<Copy>, won: seq<Copy>, dropped: seq<Copy>)
  {
    function Push(c: Copy): Shared {
      this.(lists := lists.LPush(KeyForPriority(c.job.priority), c))
    }

    function Accept(c: Copy): Shared {
      Push(c).(accepted := accepted + [c])
    }

    function Drop(c: Copy): Shared {
      this.(dropped := dropped + [c])
    }

    function Save(c: Copy, ok: bool): Shared {
      if ok then this.(rows := UpdateRow(rows, c.job)) else this
    }

    function Mark(id: Id, ok: bool): Shared {
      if ok then this.(done := done + {id}) else this
    }
  }

  datatype State = State(
    sh: Shared, pending: seq<Copy>, dispatcher: Dispatcher, channel: seq<Copy>, closed: bool,
    workers: seq<Phase>, cancelled: bool, waiter: Waiter)

  // ---------------------------------------------------------------- one worker's actions

  datatype Action =
    | NoProcessor
    | CheckDone(ok: bool)
    | TryLock(ok: bool)
    | MarkProcessing(ok: bool)
    | FanCreate(note: Job)
    | FanPush(ok: bool)
    | Return(outcome: Outcome)
    | SaveSuccess(ok: bool)
    | MarkSuccess(ok: bool)
    | Decide
    | SaveDead(ok: bool)
    | PushDead(ok: bool)
    | MarkDead(ok: bool)
    | SaveRetry(ok: bool)
    | Spawn
    | Unlock(ok: bool)

  predicate CanAct(cfg: Config, sh: Shared, p: Phase, a: Action) {
    match a
    case NoProcessor => p.Received? && p.c.job.jobType !in cfg.registry
    case CheckDone(_) => p.Received? && p.c.job.jobType in cfg.registry
    case TryLock(_) => p.Checked?
    case MarkProcessing(_) => p.Locked?
    case FanCreate(note) =>
      && p.Running? && p.c.job.jobType == REGISTRATION
      && note == NewJob(note.id, NOTIFICATION, note.payload, cfg.maxRetries) && note.id !in sh.rows
    case FanPush(_) => p.Fanning?
    case Return(o) => p.Running? || (p.Fanned? && o == Success)
    case SaveSuccess(_) => p.Succeeded?
    case MarkSuccess(_) => p.SuccessSaved?
    case Decide => p.Faulted?
    case SaveDead(_) => p.Burying?
    case PushDead(_) => p.Buried?
    case MarkDead(_) => p.DeadPushed?
    case SaveRetry(_) => p.Requeuing?
    case Spawn => p.Spawning?
    case Unlock(_) => p.Unlocking?
  }

  datatype Acted = Acted(sh: Shared, p: Phase)

  function Act(cfg: Config, sh: Shared, p: Phase, a: Action): Acted
    requires CanAct(cfg, sh, p, a)
  {
    match a
    case NoProcessor => Acted(sh, Burying(p.c, false))
    case CheckDone(ok) =>                      // a failed Get reads as "not done"
      if ok && p.c.Id() in sh.done then Acted(sh.Drop(p.c), Idle) else Acted(sh, Checked(p.c))
    case TryLock(ok) =>                        // a failed SetNX reads as "locked elsewhere"
      if ok && p.c.Id() !in sh.locks then Acted(sh.(locks := sh.locks + {p.c.Id()}), Locked(p.c))
      else Acted(sh.Drop(p.c), Idle)
    case MarkProcessing(ok) =>
      var c := p.c.WithStatus(PROCESSING);
      Acted(sh.Save(c, ok), Running(c))
    case FanCreate(note) =>
      Acted(sh.(rows := sh.rows[note.id := note]), Fanning(p.c, Copy(note, [])))
    case FanPush(ok) =>
      Acted(if ok then sh.Accept(p.note) else sh, Fanned(p.c))
    case Return(o) =>
      var c := p.c.(trail := p.c.trail + [Attempt(p.c.job.retryCount + 1, o)]);
      if o == Success then Acted(sh.(won := sh.won + [c]), Succeeded(c)) else Acted(sh, Faulted(c, o == Retryable))
    case SaveSuccess(ok) =>
      var c := p.c.WithStatus(SUCCESS);
      Acted(sh.Save(c, ok), SuccessSaved(c))
    case MarkSuccess(ok) => Acted(sh.Mark(p.c.Id(), ok), Unlocking(p.c.Id()))
    case Decide =>
      if !p.retryable || !p.c.job.CanRetry() then Acted(sh, Burying(p.c, true))
      else Acted(sh, Requeuing(p.c.(job := p.c.job.(retryCount := p.c.job.retryCount + 1))))
    case SaveDead(ok) =>
      var c := p.c.WithStatus(DEAD_LETTER);
      Acted(sh.Save(c, ok), Buried(c, p.locked))
    case PushDead(ok) =>
      Acted(if ok then sh.(dead := [p.c] + sh.dead) else sh.Drop(p.c), DeadPushed(p.c, p.locked))
    case MarkDead(ok) =>
      Acted(sh.Mark(p.c.Id(), ok), if p.locked then Unlocking(p.c.Id()) else Idle)
    case SaveRetry(ok) =>
      var c := p.c.WithStatus(QUEUED);
      Acted(sh.Save(c, ok), Spawning(c))
    case Spawn => Acted(sh.(timers := sh.timers + [Waiting(p.c)]), Unlocking(p.c.Id()))
    case Unlock(ok) =>                         // deletes the key whoever holds it
      Acted(if ok then sh.(locks := sh.locks - {p.id}) else sh, Idle)
  }

  // ---------------------------------------------------------------- the whole system

  datatype Step =
    // producers
    | Create(job: Job)                         // an Enqueue call has inserted its row
    | PushNew(k: nat, ok: bool)                // the same call pushes it (or gives up)
    | AdminRetry(id: Id, ok: bool)             // RetryJob, taken as one step
    // environment
    | ExpireLock(id: Id)
    | ExpireDone(id: Id)
    | Cancel
    // dispatcher
    | Poll                                     // nothing to pop, or Pop failed
    | Pop
    | Send
    | PushBack(ok: bool)
    | SeeCancel
    | CloseChannel
    | DispatcherDone
    // workers
    | Receive(w: nat)
    | Work(w: nat, a: Action)
    | RangeEnds(w: nat)
    | WorkerDone(w: nat)
    // retry goroutines
    | Fire(k: nat, ok: bool)                   // timer elapsed, Push(ctx)
    | FireAgain(k: nat, ok: bool)              // second, uncancellable Push
    | FireCancelled(k: nat, ok: bool)          // ctx.Done(), uncancellable Push
    | TimerDone(k: nat)                        // retryWG.Done()
    // the goroutine inside Shutdown
    | Advance

  predicate Enabled(cfg: Config, s: State, st: Step) {
    match st
    case Create(job) =>
      job == NewJob(job.id, job.jobType, job.payload, cfg.maxRetries) && job.id !in s.sh.rows
    case PushNew(k, _) => k < |s.pending|
    case AdminRetry(id, _) => id in s.sh.rows && s.sh.rows[id].status in {FAILED, DEAD_LETTER}
    case ExpireLock(_) => true
    case ExpireDone(_) => true
    case Cancel => !s.cancelled
    case Poll => s.dispatcher.Polling?
    case Pop => s.dispatcher.Polling? && !s.sh.lists.Empty()
    case Send => s.dispatcher.Holding? && |s.channel| < 2 * cfg.workers
    case PushBack(_) => s.dispatcher.Holding? && s.cancelled
    case SeeCancel => s.dispatcher.Polling? && s.cancelled
    case CloseChannel => s.dispatcher.Closing?
    case DispatcherDone => s.dispatcher.Closed?
    case Receive(w) => w < |s.workers| && s.workers[w].Idle? && s.channel != []
    case Work(w, a) => w < |s.workers| && CanAct(cfg, s.sh, s.workers[w], a)
    case RangeEnds(w) => w < |s.workers| && s.workers[w].Idle? && s.channel == [] && s.closed
    case WorkerDone(w) => w < |s.workers| && s.workers[w].Leaving?
    case Fire(k, _) => k < |s.sh.timers| && s.sh.timers[k].Waiting?
    case FireAgain(k, _) => k < |s.sh.timers| && s.sh.timers[k].Again?
    case FireCancelled(k, _) => k < |s.sh.timers| && s.sh.timers[k].Waiting? && s.cancelled
    case TimerDone(k) => k < |s.sh.timers| && s.sh.timers[k].Spent?
    case Advance =>
      match s.waiter
      case AwaitDispatcher => s.dispatcher.Stopped?
      case AwaitWorkers => forall w :: 0 <= w < |s.workers| ==> s.workers[w].Gone?
      case AwaitRetries => s.sh.timers == []
      case Drained => false
  }

  /** A retry goroutine's push: on failure the first attempt is repeated once, the last one loses the copy. */
  function Refire(sh: Shared, k: nat, ok: bool, last: bool): Shared
    requires k < |sh.timers| && !sh.timers[k].Spent?
  {
    var c := sh.timers[k].c;
    if ok then sh.Push(c).(timers := sh.timers[k := Spent])
    else if last then sh.Drop(c).(timers := sh.timers[k := Spent])
    else sh.(timers := sh.timers[k := Again(c)])
  }

  /** The job RetryJob reads back by id, with a fresh retry budget. */
  function Requeued(id: Id, row: Job): Copy {
    Copy(row.(id := id, status := QUEUED, retryCount := 0), [])
  }

  function Next(cfg: Config, s: State, st: Step): State
    requires Enabled(cfg, s, st)
  {
    match st
    case Create(job) => s.(sh := s.sh.(rows := s.sh.rows[job.id := job]), pending := s.pending + [Copy(job, [])])
    case PushNew(k, ok) =>
      s.(sh := if ok then s.sh.Accept(s.pending[k]) else s.sh, pending := s.pending[..k] + s.pending[k + 1..])
    case AdminRetry(id, ok) =>
      var c := Requeued(id, s.sh.rows[id]);
      var sh := s.sh.(rows := UpdateRow(s.sh.rows, c.job));
      s.(sh := if ok then sh.Accept(c) else sh)
    case ExpireLock(id) => s.(sh := s.sh.(locks := s.sh.locks - {id}))
    case ExpireDone(id) => s.(sh := s.sh.(done := s.sh.done - {id}))
    case Cancel => s.(cancelled := true)
    case Poll => s
    case Pop => s.(sh := s.sh.(lists := s.sh.lists.Rest()), dispatcher := Holding(s.sh.lists.Next()))
    case Send => s.(channel := s.channel + [s.dispatcher.c], dispatcher := Polling)
    case PushBack(ok) =>
      s.(sh := if ok then s.sh.Push(s.dispatcher.c) else s.sh.Drop(s.dispatcher.c), dispatcher := Closing)
    case SeeCancel => s.(dispatcher := Closing)
    case CloseChannel => s.(dispatcher := Closed, closed := true)
    case DispatcherDone => s.(dispatcher := Stopped)
    case Receive(w) => s.(workers := s.workers[w := Received(s.channel[0])], channel := s.channel[1..])
    case Work(w, a) =>
      var r := Act(cfg, s.sh, s.workers[w], a);
      s.(sh := r.sh, workers := s.workers[w := r.p])
    case RangeEnds(w) => s.(workers := s.workers[w := Leaving])
    case WorkerDone(w) => s.(workers := s.workers[w := Gone])
    case Fire(k, ok) => s.(sh := Refire(s.sh, k, ok, false))
    case FireAgain(k, ok) => s.(sh := Refire(s.sh, k, ok, true))
    case FireCancelled(k, ok) => s.(sh := Refire(s.sh, k, ok, true))
    case TimerDone(k) => s.(sh := s.sh.(timers := s.sh.timers[..k] + s.sh.timers[k + 1..]))
    case Advance =>
      s.(waiter := match s.waiter
           case AwaitDispatcher => AwaitWorkers
           case AwaitWorkers => AwaitRetries
           case AwaitRetries => Drained
           case Drained => Drained)
  }

  function Init(cfg: Config): State {
    State(Shared(Lists([], [], []), [], map[], {}, {}, [], [], [], []), [], Polling, [], false,
          seq(cfg.workers, i => Idle), false, AwaitDispatcher)
  }

  // ---------------------------------------------------------------- runs

  /** What a run may contain, beyond the steps every run may take. Failing calls that can cost a job: the lock claim,
      the lock delete, the dead-letter push, the dispatcher's put-back, a retry goroutine's second push, and its push
      after cancellation. Retry timers that fire before their worker's lock delete. Admin retries of a job whose done
      marker is set, and of a job that a worker is still burying or unlocking. All other calls may always fail. */
  datatype Policy = Policy(
    lockErrors: bool, unlockErrors: bool, buryErrors: bool, putBackErrors: bool, requeueErrors: bool,
    cancelErrors: bool, earlyTimers: bool, markedRetries: bool, overlappingRetries: bool)

  const ANYTHING := Policy(true, true, true, true, true, true, true, true, true)
  const CALM := Policy(false, false, false, false, false, false, false, false, false)

  predicate ActionPermitted(p: Policy, a: Action) {
    match a
    case TryLock(ok) => ok || p.lockErrors
    case Unlock(ok) => ok || p.unlockErrors
    case PushDead(ok) => ok || p.buryErrors
    case _ => true
  }

  /** From the start of toDeadLetter to the deferred lock delete. */
  predicate Finishing(p: Phase, id: Id) {
    p == Unlocking(id) || ((p.Burying? || p.Buried? || p.DeadPushed?) && p.c.Id() == id)
  }

  predicate FinishPending(s: State, id: Id) {
    exists w :: 0 <= w < |s.workers| && Finishing(s.workers[w], id)
  }

  /** The retry goroutine puts a copy of this job back on the queue. */
  predicate Requeues(s: State, st: Step, id: Id) {
    && (st.Fire? || st.FireAgain? || st.FireCancelled?) && st.ok
    && st.k < |s.sh.timers| && !s.sh.timers[st.k].Spent? && s.sh.timers[st.k].c.Id() == id
  }

  /** ... while a worker has yet to delete its lock. */
  predicate RequeuesEarly(s: State, st: Step) {
    exists w :: 0 <= w < |s.workers| && s.workers[w].Unlocking? && Requeues(s, st, s.workers[w].id)
  }

  predicate Permitted(p: Policy, s: State, st: Step) {
    && (st.Work? ==> ActionPermitted(p, st.a))
    && (st.PushBack? ==> st.ok || p.putBackErrors)
    && (st.FireAgain? ==> st.ok || p.requeueErrors)
    && (st.FireCancelled? ==> st.ok || p.cancelErrors)
    && (p.earlyTimers || !RequeuesEarly(s, st))
    && (st.AdminRetry? && st.ok ==>
          (p.markedRetries || st.id !in s.sh.done) && (p.overlappingRetries || !FinishPending(s, st.id)))
  }

  /** Executes a run; stops where a step is not possible. */
  function Exec(cfg: Config, s: State, run: seq<Step>): State {
    if run == [] then s
    else
      var t := Exec(cfg, s, run[..|run| - 1]);
      if Enabled(cfg, t, run[|run| - 1]) then Next(cfg, t, run[|run| - 1]) else t
  }

  predicate Legal(cfg: Config, p: Policy, s: State, run: seq<Step>) {
    run == [] ||
    var t := Exec(cfg, s, run[..|run| - 1]);
    Legal(cfg, p, s, run[..|run| - 1]) && Enabled(cfg, t, run[|run| - 1]) && Permitted(p, t, run[|run| - 1])
  }
}
