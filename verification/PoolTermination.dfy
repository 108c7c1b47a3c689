/** Once outside traffic and admin retries stop, the pool does only finitely much more work: a measure over all
    places drops with every step that is not idle, for any processor outcomes and any failures. A registration
    outweighs the whole life of the notification it may fan out. */
module PoolTermination {
  import opened Domain
  import opened PoolProtocol
  import opened PoolLedger

  function RetriesLeft(job: Job): nat {
    if job.retryCount < job.maxRetries then job.maxRetries - job.retryCount else 0
  }

  /** The queued weight of the notification that a registration may create. */
  function NoteLife(cfg: Config): nat {
    40 * (if cfg.maxRetries > 0 then cfg.maxRetries else 0) + 30
  }

  function Life(cfg: Config, c: Copy): nat {
    40 * RetriesLeft(c.job) + if c.job.jobType == REGISTRATION then NoteLife(cfg) + 5 else 0
  }

  function PhaseLife(cfg: Config, p: Phase): nat {
    match p
    case Idle => 2
    case Received(c) => Life(cfg, c) + 29
    case Checked(c) => Life(cfg, c) + 28
    case Locked(c) => Life(cfg, c) + 27
    case Running(c) => Life(cfg, c) + 26
    case Fanning(_, note) => Life(cfg, note) + 54
    case Fanned(_) => 20
    case Succeeded(_) => 10
    case SuccessSaved(_) => 9
    case Faulted(c, _) => Life(cfg, c) + 25
    case Burying(_, _) => 12
    case Buried(_, _) => 11
    case DeadPushed(_, _) => 10
    case Requeuing(c) => Life(cfg, c) + 60
    case Spawning(c) => Life(cfg, c) + 59
    case Unlocking(_) => 3
    case Leaving => 1
    case Gone => 0
  }

  function TimerLife(cfg: Config, t: Timer): nat {
    match t
    case Waiting(c) => Life(cfg, c) + 50
    case Again(c) => Life(cfg, c) + 45
    case Spent => 1
  }

  function HandLife(cfg: Config, d: Dispatcher): nat {
    match d
    case Polling => 5
    case Holding(c) => Life(cfg, c) + 34
    case Closing => 2
    case Closed => 1
    case Stopped => 0
  }

  function WaiterLife(w: Waiter): nat {
    match w case AwaitDispatcher => 3 case AwaitWorkers => 2 case AwaitRetries => 1 case Drained => 0
  }

  function LifeW(cfg: Config): Weights {
    Weights((c: Copy) => Life(cfg, c) + 31, (c: Copy) => Life(cfg, c) + 30, (d: Dispatcher) => HandLife(cfg, d),
            (c: Copy) => Life(cfg, c) + 28, (p: Phase) => PhaseLife(cfg, p), (t: Timer) => TimerLife(cfg, t),
            (c: Copy) => 0, (c: Copy) => 0, (c: Copy) => 0, (c: Copy) => 0,
            (b: bool) => if b then 1 else 0, (w: Waiter) => WaiterLife(w))
  }

  function Measure(cfg: Config, s: State): nat {
    Weigh(s, LifeW(cfg))
  }

  /** Work arriving from outside the pool. */
  predicate Outside(st: Step) {
    st.Create? || st.AdminRetry?
  }

  /** Waiting for work, or a key expiring. */
  predicate IdleStep(st: Step) {
    st.Poll? || st.ExpireLock? || st.ExpireDone?
  }

  lemma ActCosts(cfg: Config, sh: Shared, p: Phase, a: Action)
    requires CanAct(cfg, sh, p, a)
    ensures PhaseLife(cfg, Act(cfg, sh, p, a).p) + Given(cfg, sh, p, a, LifeW(cfg)) < PhaseLife(cfg, p)
  {}

  lemma StepCosts(cfg: Config, s: State, st: Step)
    requires Enabled(cfg, s, st) && !Outside(st)
    ensures Measure(cfg, Next(cfg, s, st)) <= Measure(cfg, s)
    ensures !IdleStep(st) ==> Measure(cfg, Next(cfg, s, st)) < Measure(cfg, s)
  {
    StepWeighs(cfg, s, st, LifeW(cfg));
    if st.Work? {
      ActCosts(cfg, s.sh, s.workers[st.w], st.a);
    } else if st.Fire? || st.FireAgain? || st.FireCancelled? || st.TimerDone? {
      TimerCosts(cfg, s, st);
    } else {
      OtherCosts(cfg, s, st);
    }
  }

  lemma TimerCosts(cfg: Config, s: State, st: Step)
    requires Enabled(cfg, s, st) && (st.Fire? || st.FireAgain? || st.FireCancelled? || st.TimerDone?)
    ensures Delta(cfg, s, st, LifeW(cfg)) < 0
  {}

  lemma OtherCosts(cfg: Config, s: State, st: Step)
    requires Enabled(cfg, s, st) && !Outside(st) && !st.Work?
    requires !(st.Fire? || st.FireAgain? || st.FireCancelled? || st.TimerDone?)
    ensures Delta(cfg, s, st, LifeW(cfg)) <= 0
    ensures !IdleStep(st) ==> Delta(cfg, s, st, LifeW(cfg)) < 0
  {}

  function BusySteps(run: seq<Step>): nat {
    if run == [] then 0
    else BusySteps(run[..|run| - 1]) + if IdleStep(run[|run| - 1]) then 0 else 1
  }

  /** From any state whatsoever, any run without new outside work has at most Measure(s) steps that are not idle,
      whatever the processors return and whichever calls fail. */
  lemma {:induction false} FinitelyManyBusySteps(cfg: Config, s: State, run: seq<Step>)
    requires Legal(cfg, ANYTHING, s, run) && forall i :: 0 <= i < |run| ==> !Outside(run[i])
    ensures BusySteps(run) + Measure(cfg, Exec(cfg, s, run)) <= Measure(cfg, s)
  {
    if run != [] {
      FinitelyManyBusySteps(cfg, s, run[..|run| - 1]);
      StepCosts(cfg, Exec(cfg, s, run[..|run| - 1]), run[|run| - 1]);
    }
  }
}
