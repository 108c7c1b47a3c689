/** The pool cannot get stuck short of the end: when no busy step is left, every accepted job has ended. */
module PoolCompletion {
  import opened Domain
  import opened Sums
  import opened PoolProtocol
  import opened PoolLedger
  import opened PoolSafety
  import opened PoolNoLoss
  import opened PoolShutdown
  import opened PoolTermination

  /** The pool has nothing left to do but wait (or be cancelled, or receive new work). */
  ghost predicate AtRest(cfg: Config, s: State) {
    forall st :: Enabled(cfg, s, st) ==> Outside(st) || IdleStep(st) || st.Cancel?
  }

  /** What a worker in the middle of process can do next. */
  function SomeAction(cfg: Config, p: Phase): Action {
    match p
    case Received(c) => if c.job.jobType in cfg.registry then CheckDone(true) else NoProcessor
    case Checked(_) => TryLock(true)
    case Locked(_) => MarkProcessing(true)
    case Running(_) => Return(Success)
    case Fanning(_, _) => FanPush(true)
    case Fanned(_) => Return(Success)
    case Succeeded(_) => SaveSuccess(true)
    case SuccessSaved(_) => MarkSuccess(true)
    case Faulted(_, _) => Decide
    case Burying(_, _) => SaveDead(true)
    case Buried(_, _) => PushDead(true)
    case DeadPushed(_, _) => MarkDead(true)
    case Requeuing(_) => SaveRetry(true)
    case Spawning(_) => Spawn
    case _ => Unlock(true)
  }

  lemma BusyWorkerCanAct(cfg: Config, sh: Shared, p: Phase)
    requires !p.Idle? && !Returned(p)
    ensures CanAct(cfg, sh, p, SomeAction(cfg, p))
  {}

  lemma Rests(cfg: Config, s: State, st: Step)
    requires AtRest(cfg, s) && !Outside(st) && !IdleStep(st) && !st.Cancel?
    ensures !Enabled(cfg, s, st)
  {}

  lemma RestingWorkersIdle(cfg: Config, s: State, w: nat)
    requires ShutdownInv(cfg, s) && AtRest(cfg, s) && w < |s.workers|
    ensures s.workers[w].Idle? || Returned(s.workers[w])
  {
    if !s.workers[w].Idle? && !Returned(s.workers[w]) {
      Rests(cfg, s, Work(w, SomeAction(cfg, s.workers[w])));
      BusyWorkerCanAct(cfg, s.sh, s.workers[w]);
    }
  }

  lemma NoTimersAtRest(cfg: Config, s: State)
    requires AtRest(cfg, s)
    ensures s.sh.timers == []
  {
    Rests(cfg, s, Fire(0, true));
    Rests(cfg, s, FireAgain(0, true));
    Rests(cfg, s, TimerDone(0));
  }

  ghost predicate Empty(s: State) {
    && s.pending == [] && s.sh.lists.Empty() && s.dispatcher.Polling? && s.channel == [] && s.sh.timers == []
    && forall w :: 0 <= w < |s.workers| ==> s.workers[w].Idle?
  }

  /** A pool at rest is empty: no deadlock, whatever happened before. */
  lemma AtRestIsEmpty(cfg: Config, s: State)
    requires ShutdownInv(cfg, s) && AtRest(cfg, s) && !s.cancelled && cfg.workers > 0
    ensures Empty(s)
  {
    NoTimersAtRest(cfg, s);
    forall w | 0 <= w < |s.workers|
      ensures s.workers[w].Idle?
    {
      RestingWorkersIdle(cfg, s, w);
    }
    Rests(cfg, s, PushNew(0, true));
    Rests(cfg, s, Receive(0));
    Rests(cfg, s, Send);
    Rests(cfg, s, Pop);
    assert s.channel == [];
    assert s.dispatcher.Polling?;
  }

  lemma EmptyMeansEnded(s: State, id: Id)
    requires Empty(s)
    ensures Active(s, id) == 0 && Delayed(s, id) == 0
  {
    NothingWeighs(s);
    SumZero(s.workers, OwesOf(id));
  }

  /** Whenever a pool with workers comes to rest, every copy ever accepted has succeeded, been dead-lettered or
      been explicitly given up on, the last never after a calm run; and a job is accepted once, and once more for
      every admin retry. Together with FinitelyManyBusySteps: without new outside work, that point is always a bounded
      number of steps away. */
  lemma {:induction false} EveryAcceptedJobEnds(cfg: Config, p: Policy, run: seq<Step>, id: Id)
    requires Legal(cfg, p, Init(cfg), run) && cfg.workers > 0
    requires AtRest(cfg, Exec(cfg, Init(cfg), run)) && !Exec(cfg, Init(cfg), run).cancelled
    ensures var s := Exec(cfg, Init(cfg), run);
            && Accepted(s, id) == Ended(s, id) + Lost(s, id)
            && Accepted(s, id) <= 1 + Retries(run, id)
            && (CalmPolicy(cfg, p) ==> Lost(s, id) == 0)
  {
    var s := Exec(cfg, Init(cfg), run);
    ShutdownInvHolds(cfg, p, run);
    AtRestIsEmpty(cfg, s);
    EmptyMeansEnded(s, id);
    CopiesConserved(cfg, p, run, id);
    AcceptedOncePerRetry(cfg, p, run, id);
    if CalmPolicy(cfg, p) {
      NoAcceptedJobIsLost(cfg, p, run);
      LostIsDropped(s, id);
    }
  }

  /** A cancelled pool at rest has let every worker go. */
  lemma RestingWorkersGone(cfg: Config, s: State, w: nat)
    requires ShutdownInv(cfg, s) && AtRest(cfg, s) && s.dispatcher.Stopped? && w < |s.workers|
    ensures s.workers[w].Gone?
  {
    RestingWorkersIdle(cfg, s, w);
    Rests(cfg, s, Receive(w));
    Rests(cfg, s, RangeEnds(w));
    Rests(cfg, s, WorkerDone(w));
  }

  lemma RestingDispatcherStopped(cfg: Config, s: State)
    requires AtRest(cfg, s) && s.cancelled
    ensures s.dispatcher.Stopped?
  {
    Rests(cfg, s, PushBack(true));
    Rests(cfg, s, SeeCancel);
    Rests(cfg, s, CloseChannel);
    Rests(cfg, s, DispatcherDone);
  }

  /** Once the context is cancelled, the pool comes to rest nowhere but at a clean drain, in every run and whatever
      fails. Together with FinitelyManyBusySteps: Shutdown cannot hang. */
  lemma {:induction false} CancelledPoolDrains(cfg: Config, p: Policy, run: seq<Step>)
    requires Legal(cfg, p, Init(cfg), run)
    requires Exec(cfg, Init(cfg), run).cancelled && AtRest(cfg, Exec(cfg, Init(cfg), run))
    ensures Exec(cfg, Init(cfg), run).waiter.Drained? && Quiescent(Exec(cfg, Init(cfg), run))
  {
    var s := Exec(cfg, Init(cfg), run);
    ShutdownInvHolds(cfg, p, run);
    RestingDispatcherStopped(cfg, s);
    NoTimersAtRest(cfg, s);
    forall w | 0 <= w < |s.workers|
      ensures s.workers[w].Gone?
    {
      RestingWorkersGone(cfg, s, w);
    }
    Rests(cfg, s, Advance);
    DrainedIsQuiescent(cfg, p, run);
  }
}
