/** Shutdown: the wait order dispatcher, workers, retries really drains the pool, in every run. */
module PoolShutdown {
  import opened Domain
  import opened Sums
  import opened PoolProtocol
  import PQ = PriorityQueue
  import opened PoolLedger
  import opened PoolSafety
  import opened PoolNoLoss

  predicate Returned(p: Phase) {
    p.Leaving? || p.Gone?
  }

  ghost predicate AllGone(s: State) {
    forall w :: 0 <= w < |s.workers| ==> s.workers[w].Gone?
  }

  ghost predicate ShutdownInv(cfg: Config, s: State) {
    && |s.workers| == cfg.workers && |s.channel| <= 2 * cfg.workers
    && (s.closed <==> s.dispatcher.Closed? || s.dispatcher.Stopped?)
    && (!s.dispatcher.Polling? && !s.dispatcher.Holding? ==> s.cancelled)
    && (forall w :: 0 <= w < |s.workers| && Returned(s.workers[w]) ==> s.closed && s.channel == [])
    && (!s.waiter.AwaitDispatcher? ==> s.dispatcher.Stopped?)
    && (s.waiter.AwaitRetries? || s.waiter.Drained? ==> AllGone(s))
    && (s.waiter.Drained? ==> s.sh.timers == [])
  }

  lemma ShutdownWork(cfg: Config, s: State, w: nat, a: Action)
    requires ShutdownInv(cfg, s) && Enabled(cfg, s, Work(w, a))
    ensures ShutdownInv(cfg, Next(cfg, s, Work(w, a)))
  {
    var r := Act(cfg, s.sh, s.workers[w], a);
    assert !s.workers[w].Gone? && !Returned(r.p);
    assert !AllGone(s);
  }

  lemma ShutdownStep(cfg: Config, s: State, st: Step)
    requires ShutdownInv(cfg, s) && Enabled(cfg, s, st) && !st.Work?
    ensures ShutdownInv(cfg, Next(cfg, s, st))
  {
    if st.Receive? {
      assert !AllGone(s) by { assert s.workers[st.w].Idle?; }
    } else if st.RangeEnds? {
      assert !AllGone(s) by { assert s.workers[st.w].Idle?; }
    } else if st.WorkerDone? {
      assert !AllGone(s) by { assert s.workers[st.w].Leaving?; }
    }
  }

  lemma {:induction false} ShutdownInvHolds(cfg: Config, p: Policy, run: seq<Step>)
    requires Legal(cfg, p, Init(cfg), run)
    ensures ShutdownInv(cfg, Exec(cfg, Init(cfg), run))
  {
    if run != [] {
      ShutdownInvHolds(cfg, p, run[..|run| - 1]);
      var s, st := Exec(cfg, Init(cfg), run[..|run| - 1]), run[|run| - 1];
      if st.Work? {
        ShutdownWork(cfg, s, st.w, st.a);
      } else {
        ShutdownStep(cfg, s, st);
      }
    }
  }

  lemma SpawningIsNotGone(cfg: Config, s: State, w: nat)
    requires w < |s.workers| && CanAct(cfg, s.sh, s.workers[w], Spawn)
    ensures !AllGone(s)
  {
    assert s.workers[w].Spawning?;
  }

  /** In every run: nothing is sent on the closed channel, it is closed only once, and no retry goroutine is
      added once Shutdown has begun to wait for the retries. */
  lemma {:induction false} NoLateSendCloseOrRetry(cfg: Config, p: Policy, run: seq<Step>, st: Step)
    requires Legal(cfg, p, Init(cfg), run) && Enabled(cfg, Exec(cfg, Init(cfg), run), st)
    ensures var s := Exec(cfg, Init(cfg), run);
            && (st.Send? || st.CloseChannel? ==> !s.closed)
            && (st.Work? && st.a == Spawn ==> s.waiter.AwaitDispatcher? || s.waiter.AwaitWorkers?)
  {
    ShutdownInvHolds(cfg, p, run);
    var s := Exec(cfg, Init(cfg), run);
    if st.Work? && st.a == Spawn {
      SpawningIsNotGone(cfg, s, st.w);
    }
  }

  /** When Shutdown reports a clean drain the context was cancelled, the channel is closed and empty, no worker
      is processing and no retry timer is pending. */
  ghost predicate Quiescent(s: State) {
    s.cancelled && s.dispatcher.Stopped? && s.closed && s.channel == [] && AllGone(s) && s.sh.timers == []
  }

  lemma {:induction false} DrainedIsQuiescent(cfg: Config, p: Policy, run: seq<Step>)
    requires Legal(cfg, p, Init(cfg), run) && Exec(cfg, Init(cfg), run).waiter.Drained?
    ensures Quiescent(Exec(cfg, Init(cfg), run))
  {
    ShutdownInvHolds(cfg, p, run);
    var s := Exec(cfg, Init(cfg), run);
    if cfg.workers > 0 {
      assert Returned(s.workers[0]);
    }
  }

  lemma QuiescentActive(s: State, id: Id)
    requires Quiescent(s)
    ensures Active(s, id) == PQ.WeighLists(s.sh.lists, One(id))
    ensures Delayed(s, id) == 0
  {
    NothingWeighs(s);
    SumZero(s.workers, OwesOf(id));
  }

  /** After a clean drain every accepted copy is back on a Redis list, ended, or was explicitly given up on; in a calm
      run it is one of the first two. A job is accepted once, and once more for every admin retry. */
  lemma {:induction false} DrainLeavesWorkInRedis(cfg: Config, p: Policy, run: seq<Step>, id: Id)
    requires Legal(cfg, p, Init(cfg), run) && Exec(cfg, Init(cfg), run).waiter.Drained?
    ensures var s := Exec(cfg, Init(cfg), run);
            && Accepted(s, id) == PQ.WeighLists(s.sh.lists, One(id)) + Ended(s, id) + Lost(s, id)
            && Accepted(s, id) <= 1 + Retries(run, id)
            && (CalmPolicy(cfg, p) ==> Lost(s, id) == 0)
  {
    var s := Exec(cfg, Init(cfg), run);
    DrainedIsQuiescent(cfg, p, run);
    QuiescentActive(s, id);
    CopiesConserved(cfg, p, run, id);
    AcceptedOncePerRetry(cfg, p, run, id);
    if CalmPolicy(cfg, p) {
      NoAcceptedJobIsLost(cfg, p, run);
      LostIsDropped(s, id);
    }
  }
}
