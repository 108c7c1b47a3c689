/** A ledger for the pool: weigh every place a job copy can be, and account for what each step moves.

    Conservation, uniqueness and termination are all instances, with different weights. */
module PoolLedger {
  import opened Domain
  import opened Sums
  import opened PoolProtocol
  import PQ = PriorityQueue

  datatype Weights = Weights(
    pending: Copy -> nat, queued: Copy -> nat, hand: Dispatcher -> nat, sent: Copy -> nat, phase: Phase -> nat,
    timer: Timer -> nat, dead: Copy -> nat, won: Copy -> nat, dropped: Copy -> nat, accepted: Copy -> nat,
    running: bool -> nat, waiter: Waiter -> nat)

  function WeighShared(sh: Shared, W: Weights): nat {
    PQ.WeighLists(sh.lists, W.queued) + Sum(sh.dead, W.dead) + Sum(sh.timers, W.timer)
    + Sum(sh.accepted, W.accepted) + Sum(sh.won, W.won) + Sum(sh.dropped, W.dropped)
  }

  function Weigh(s: State, W: Weights): nat {
    WeighShared(s.sh, W) + Sum(s.pending, W.pending) + W.hand(s.dispatcher) + Sum(s.channel, W.sent)
    + Sum(s.workers, W.phase) + W.running(!s.cancelled) + W.waiter(s.waiter)
  }

  // ---------------------------------------------------------------- what each move changes

  lemma PushWeighs(sh: Shared, c: Copy, W: Weights)
    ensures WeighShared(sh.Push(c), W) == WeighShared(sh, W) + W.queued(c)
  {
    PQ.LPushWeighs(sh.lists, PQ.KeyForPriority(c.job.priority), c, W.queued);
  }

  lemma AcceptWeighs(sh: Shared, c: Copy, W: Weights)
    ensures WeighShared(sh.Accept(c), W) == WeighShared(sh, W) + W.queued(c) + W.accepted(c)
  {
    PushWeighs(sh, c, W);
    SumSnoc(sh.accepted, c, W.accepted);
  }

  lemma DropWeighs(sh: Shared, c: Copy, W: Weights)
    ensures WeighShared(sh.Drop(c), W) == WeighShared(sh, W) + W.dropped(c)
  {
    SumSnoc(sh.dropped, c, W.dropped);
  }

  /** What a worker's action adds to the shared part. */
  function Given(cfg: Config, sh: Shared, p: Phase, a: Action, W: Weights): nat
    requires CanAct(cfg, sh, p, a)
  {
    match a
    case CheckDone(ok) => if ok && p.c.Id() in sh.done then W.dropped(p.c) else 0
    case TryLock(ok) => if ok && p.c.Id() !in sh.locks then 0 else W.dropped(p.c)
    case FanPush(ok) => if ok then W.queued(p.note) + W.accepted(p.note) else 0
    case Return(o) => if o == Success then W.won(Act(cfg, sh, p, a).p.c) else 0
    case PushDead(ok) => if ok then W.dead(p.c) else W.dropped(p.c)
    case Spawn => W.timer(Waiting(p.c))
    case _ => 0
  }

  lemma ActWeighs(cfg: Config, sh: Shared, p: Phase, a: Action, W: Weights)
    requires CanAct(cfg, sh, p, a)
    ensures WeighShared(Act(cfg, sh, p, a).sh, W) == WeighShared(sh, W) + Given(cfg, sh, p, a, W)
  {
    match a
    case CheckDone(ok) => DropWeighs(sh, p.c, W);
    case TryLock(ok) => DropWeighs(sh, p.c, W);
    case FanPush(ok) => AcceptWeighs(sh, p.note, W);
    case Return(o) =>
      var c := Act(cfg, sh, p, a).p.c;
      SumSnoc(sh.won, c, W.won);
    case PushDead(ok) =>
      DropWeighs(sh, p.c, W);
      SumCons(p.c, sh.dead, W.dead);
    case Spawn => SumSnoc(sh.timers, Waiting(p.c), W.timer);
    case _ =>
  }

  function RefireDelta(sh: Shared, k: nat, ok: bool, last: bool, W: Weights): int
    requires k < |sh.timers| && !sh.timers[k].Spent?
  {
    var t := sh.timers[k];
    if ok then W.queued(t.c) + W.timer(Spent) - W.timer(t)
    else if last then W.dropped(t.c) + W.timer(Spent) - W.timer(t)
    else W.timer(Again(t.c)) - W.timer(t)
  }

  lemma RefireWeighs(sh: Shared, k: nat, ok: bool, last: bool, W: Weights)
    requires k < |sh.timers| && !sh.timers[k].Spent?
    ensures WeighShared(Refire(sh, k, ok, last), W) == WeighShared(sh, W) + RefireDelta(sh, k, ok, last, W)
  {
    var c := sh.timers[k].c;
    PushWeighs(sh, c, W);
    DropWeighs(sh, c, W);
    SumUpdate(sh.timers, k, Spent, W.timer);
    SumUpdate(sh.timers, k, Again(c), W.timer);
  }

  /** The exact change of the whole weight in one step. */
  function Delta(cfg: Config, s: State, st: Step, W: Weights): int
    requires Enabled(cfg, s, st)
  {
    match st
    case Create(job) => W.pending(Copy(job, []))
    case PushNew(k, ok) =>
      var c := s.pending[k];
      (if ok then W.queued(c) + W.accepted(c) else 0) - W.pending(c)
    case AdminRetry(id, ok) =>
      var c := Requeued(id, s.sh.rows[id]);
      if ok then W.queued(c) + W.accepted(c) else 0
    case ExpireLock(_) => 0
    case ExpireDone(_) => 0
    case Cancel => W.running(false) - W.running(true)
    case Poll => 0
    case Pop => var c := s.sh.lists.Next(); W.hand(Holding(c)) - W.hand(Polling) - W.queued(c)
    case Send => var c := s.dispatcher.c; W.sent(c) + W.hand(Polling) - W.hand(s.dispatcher)
    case PushBack(ok) =>
      var c := s.dispatcher.c;
      (if ok then W.queued(c) else W.dropped(c)) + W.hand(Closing) - W.hand(s.dispatcher)
    case SeeCancel => W.hand(Closing) - W.hand(Polling)
    case CloseChannel => W.hand(Closed) - W.hand(Closing)
    case DispatcherDone => W.hand(Stopped) - W.hand(Closed)
    case Receive(w) => var c := s.channel[0]; W.phase(Received(c)) - W.phase(Idle) - W.sent(c)
    case Work(w, a) =>
      var p := s.workers[w];
      W.phase(Act(cfg, s.sh, p, a).p) - W.phase(p) + Given(cfg, s.sh, p, a, W)
    case RangeEnds(w) => W.phase(Leaving) - W.phase(Idle)
    case WorkerDone(w) => W.phase(Gone) - W.phase(Leaving)
    case Fire(k, ok) => RefireDelta(s.sh, k, ok, false, W)
    case FireAgain(k, ok) => RefireDelta(s.sh, k, ok, true, W)
    case FireCancelled(k, ok) => RefireDelta(s.sh, k, ok, true, W)
    case TimerDone(k) => -(W.timer(Spent) as int)
    case Advance => W.waiter(Next(cfg, s, st).waiter) - W.waiter(s.waiter)
  }

  lemma ProducerWeighs(cfg: Config, s: State, st: Step, W: Weights)
    requires Enabled(cfg, s, st) && (st.Create? || st.PushNew? || st.AdminRetry?)
    ensures Weigh(Next(cfg, s, st), W) == Weigh(s, W) + Delta(cfg, s, st, W)
  {
    match st
    case Create(job) => SumSnoc(s.pending, Copy(job, []), W.pending);
    case PushNew(k, ok) =>
      AcceptWeighs(s.sh, s.pending[k], W);
      SumRemove(s.pending, k, W.pending);
    case AdminRetry(id, ok) =>
      var c := Requeued(id, s.sh.rows[id]);
      AcceptWeighs(s.sh.(rows := UpdateRow(s.sh.rows, c.job)), c, W);
  }

  lemma WorkerWeighs(cfg: Config, s: State, st: Step, W: Weights)
    requires Enabled(cfg, s, st) && (st.Work? || st.Receive? || st.RangeEnds? || st.WorkerDone?)
    ensures Weigh(Next(cfg, s, st), W) == Weigh(s, W) + Delta(cfg, s, st, W)
  {
    match st
    case Receive(w) =>
      SumUpdate(s.workers, w, Received(s.channel[0]), W.phase);
      SumCons(s.channel[0], s.channel[1..], W.sent);
      assert [s.channel[0]] + s.channel[1..] == s.channel;
    case Work(w, a) =>
      ActWeighs(cfg, s.sh, s.workers[w], a, W);
      SumUpdate(s.workers, w, Act(cfg, s.sh, s.workers[w], a).p, W.phase);
    case RangeEnds(w) => SumUpdate(s.workers, w, Leaving, W.phase);
    case WorkerDone(w) => SumUpdate(s.workers, w, Gone, W.phase);
  }

  lemma TimerWeighs(cfg: Config, s: State, st: Step, W: Weights)
    requires Enabled(cfg, s, st) && (st.Fire? || st.FireAgain? || st.FireCancelled? || st.TimerDone?)
    ensures Weigh(Next(cfg, s, st), W) == Weigh(s, W) + Delta(cfg, s, st, W)
  {
    match st
    case Fire(k, ok) => RefireWeighs(s.sh, k, ok, false, W);
    case FireAgain(k, ok) => RefireWeighs(s.sh, k, ok, true, W);
    case FireCancelled(k, ok) => RefireWeighs(s.sh, k, ok, true, W);
    case TimerDone(k) => SumRemove(s.sh.timers, k, W.timer);
  }

  lemma StepWeighs(cfg: Config, s: State, st: Step, W: Weights)
    requires Enabled(cfg, s, st)
    ensures Weigh(Next(cfg, s, st), W) == Weigh(s, W) + Delta(cfg, s, st, W)
  {
    if st.Create? || st.PushNew? || st.AdminRetry? {
      ProducerWeighs(cfg, s, st, W);
    } else if st.Work? || st.Receive? || st.RangeEnds? || st.WorkerDone? {
      WorkerWeighs(cfg, s, st, W);
    } else if st.Fire? || st.FireAgain? || st.FireCancelled? || st.TimerDone? {
      TimerWeighs(cfg, s, st, W);
    } else if st.Pop? {
      PQ.PopWeighs(s.sh.lists, W.queued);
    } else if st.Send? {
      SumSnoc(s.channel, s.dispatcher.c, W.sent);
    } else if st.PushBack? {
      PushWeighs(s.sh, s.dispatcher.c, W);
      DropWeighs(s.sh, s.dispatcher.c, W);
    }
  }
}
