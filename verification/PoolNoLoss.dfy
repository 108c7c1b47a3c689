/** "So the job is never lost": in a calm run no copy is ever skipped, and every accepted copy is in exactly one place.
    A calm run may contain failing updates, marker reads and writes, first pushes and enqueues; it excludes the six
    failures that drop a copy or leave a lock behind, retry timers that fire before their worker's lock delete (unless
    there is a single worker), and admin retries of a job that is marked done or not yet let go by its worker. */
module PoolNoLoss {
  import opened Domain
  import opened Sums
  import opened PoolProtocol
  import opened PoolLedger
  import opened PoolSafety

  /** This worker is responsible for deleting the job's lock. */
  predicate HoldsLock(p: Phase, id: Id) {
    match p
    case Unlocking(i) => i == id
    case Burying(c, locked) => locked && c.Id() == id
    case Buried(c, locked) => locked && c.Id() == id
    case DeadPushed(c, locked) => locked && c.Id() == id
    case Idle => false
    case Received(_) => false
    case Checked(_) => false
    case Leaving => false
    case Gone => false
    case _ => p.c.Id() == id
  }

  /** The copy this worker had is won or as good as buried. */
  predicate Past(p: Phase) {
    Winning(p) || p.Buried? || p.DeadPushed?
  }

  /** Live copies of a job that do not wait for a retry timer. */
  function AfootW(id: Id): Weights {
    AliveW(id).(timer := NoTimer())
  }

  function Afoot(s: State, id: Id): nat {
    Weigh(s, AfootW(id))
  }

  /** The job exists and has no live copy. */
  ghost predicate Over(s: State, id: Id) {
    id in s.sh.rows && Alive(s, id) == 0
  }

  /** The job exists and its live copy, if any, waits for a retry timer. */
  ghost predicate Away(s: State, id: Id) {
    id in s.sh.rows && Afoot(s, id) == 0
  }

  ghost predicate Calm(s: State) {
    && s.sh.dropped == [] && SavingWinners(s)
    && (forall id :: OneLife(s, id))
    && (forall id :: id in s.sh.done ==> Over(s, id))
    && (forall w :: 0 <= w < |s.workers| && Past(s.workers[w]) ==> Over(s, s.workers[w].c.Id()))
    && (forall id :: id in s.sh.locks ==> exists w :: 0 <= w < |s.workers| && HoldsLock(s.workers[w], id))
    && (|s.workers| > 1 ==>
          forall w :: 0 <= w < |s.workers| && s.workers[w].Unlocking? ==> Away(s, s.workers[w].id))
  }

  /** The runs in which nothing can be skipped. */
  predicate CalmPolicy(cfg: Config, p: Policy) {
    p == CALM || (p == CALM.(earlyTimers := true) && cfg.workers <= 1)
  }

  // ---------------------------------------------------------------- nothing is skipped

  lemma AfootOrWaiting(s: State, id: Id)
    ensures Alive(s, id) == Afoot(s, id) + Sum(s.sh.timers, TimerOf(id))
  {
    NothingWeighs(s);
  }

  lemma LiveIsAfoot(s: State, w: nat)
    requires w < |s.workers| && Live(s.workers[w])
    ensures 1 <= Afoot(s, s.workers[w].c.Id()) <= Alive(s, s.workers[w].c.Id())
  {
    var id := s.workers[w].c.Id();
    SumAtLeast(s.workers, w, LiveOf(id));
    AfootOrWaiting(s, id);
  }

  lemma TwoLive(s: State, v: nat, w: nat, id: Id)
    requires v < |s.workers| && w < |s.workers| && v != w
    requires Live(s.workers[v]) && Live(s.workers[w]) && s.workers[v].c.Id() == s.workers[w].c.Id() == id
    ensures Alive(s, id) >= 2
  {
    if v < w {
      SumAtLeastTwo(s.workers, v, w, LiveOf(id));
    } else {
      SumAtLeastTwo(s.workers, w, v, LiveOf(id));
    }
  }

  lemma MarkerAbsent(s: State, w: nat)
    requires Calm(s) && w < |s.workers| && Live(s.workers[w])
    ensures s.workers[w].c.Id() !in s.sh.done
  {
    LiveIsAfoot(s, w);
  }

  /** Whoever holds a job's lock excludes any other worker with a live copy of that job. */
  lemma HolderExcludes(s: State, v: nat, w: nat, id: Id)
    requires Calm(s) && v < |s.workers| && w < |s.workers| && v != w && HoldsLock(s.workers[v], id)
    ensures !(Live(s.workers[w]) && s.workers[w].c.Id() == id)
  {
    assert OneLife(s, id);
    if Live(s.workers[w]) && s.workers[w].c.Id() == id {
      LiveIsAfoot(s, w);
      if Live(s.workers[v]) {
        TwoLive(s, v, w, id);
      }
    }
  }

  lemma LockFree(s: State, w: nat)
    requires Calm(s) && w < |s.workers| && s.workers[w].Checked?
    ensures s.workers[w].c.Id() !in s.sh.locks
  {
    var id := s.workers[w].c.Id();
    if id in s.sh.locks {
      var v :| 0 <= v < |s.workers| && HoldsLock(s.workers[v], id);
      assert v != w;
      HolderExcludes(s, v, w, id);
    }
  }

  lemma DropAct(cfg: Config, sh: Shared, p: Phase, a: Action)
    requires CanAct(cfg, sh, p, a) && ActionPermitted(CALM, a)
    requires a.CheckDone? ==> p.c.Id() !in sh.done
    requires a.TryLock? ==> p.c.Id() !in sh.locks
    ensures Act(cfg, sh, p, a).sh.dropped == sh.dropped
  {}

  lemma DropStep(cfg: Config, s: State, st: Step)
    requires Enabled(cfg, s, st) && !st.Work? && (st.PushBack? || st.FireAgain? || st.FireCancelled? ==> st.ok)
    ensures Next(cfg, s, st).sh.dropped == s.sh.dropped
  {}

  lemma NothingDropped(cfg: Config, p: Policy, s: State, st: Step)
    requires Calm(s) && CalmPolicy(cfg, p) && Enabled(cfg, s, st) && Permitted(p, s, st)
    ensures Next(cfg, s, st).sh.dropped == s.sh.dropped
  {
    if st.Work? {
      if st.a.CheckDone? {
        MarkerAbsent(s, st.w);
      } else if st.a.TryLock? {
        LockFree(s, st.w);
      }
      DropAct(cfg, s.sh, s.workers[st.w], st.a);
    } else {
      DropStep(cfg, s, st);
    }
  }

  // ---------------------------------------------------------------- what is over stays over

  lemma RowsStayAct(cfg: Config, sh: Shared, p: Phase, a: Action)
    requires CanAct(cfg, sh, p, a)
    ensures sh.rows.Keys <= Act(cfg, sh, p, a).sh.rows.Keys
  {}

  lemma RowsStay(cfg: Config, s: State, st: Step)
    requires Enabled(cfg, s, st)
    ensures s.sh.rows.Keys <= Next(cfg, s, st).sh.rows.Keys
  {
    if st.Work? {
      RowsStayAct(cfg, s.sh, s.workers[st.w], st.a);
    } else if !(st.Create? || st.AdminRetry?) {
      QuietStep(cfg, s, st, "");
    }
  }

  lemma NoNewLifeAct(cfg: Config, sh: Shared, p: Phase, a: Action, id: Id)
    requires CanAct(cfg, sh, p, a) && id in sh.rows
    ensures LiveOf(id)(Act(cfg, sh, p, a).p) + Given(cfg, sh, p, a, AliveW(id)) <= LiveOf(id)(p)
    ensures Given(cfg, sh, p, a, AfootW(id)) <= Given(cfg, sh, p, a, AliveW(id))
  {}

  lemma StaysOver(cfg: Config, s: State, st: Step, id: Id)
    requires Enabled(cfg, s, st) && Over(s, id) && st != AdminRetry(id, true)
    ensures Over(Next(cfg, s, st), id)
  {
    RowsStay(cfg, s, st);
    StepWeighs(cfg, s, st, AliveW(id));
    if st.Work? {
      NoNewLifeAct(cfg, s.sh, s.workers[st.w], st.a, id);
    } else if !(st.Create? || st.AdminRetry?) {
      NothingComesAlive(cfg, s, st, id);
    }
  }

  /** Only a firing timer brings a waiting copy back. */
  lemma NoReturnStep(cfg: Config, s: State, st: Step, id: Id)
    requires Enabled(cfg, s, st) && !st.Work? && id in s.sh.rows
    requires st != AdminRetry(id, true) && !Requeues(s, st, id)
    ensures Delta(cfg, s, st, AfootW(id)) <= 0
  {}

  lemma StaysAway(cfg: Config, s: State, st: Step, id: Id)
    requires Enabled(cfg, s, st) && Away(s, id) && st != AdminRetry(id, true) && !Requeues(s, st, id)
    ensures Away(Next(cfg, s, st), id)
  {
    RowsStay(cfg, s, st);
    StepWeighs(cfg, s, st, AfootW(id));
    if st.Work? {
      NoNewLifeAct(cfg, s.sh, s.workers[st.w], st.a, id);
    } else {
      NoReturnStep(cfg, s, st, id);
    }
  }

  /** RetryJob refuses a job that has been won, and a calm run makes it wait for the worker that buries one. */
  lemma NoHastyRetry(cfg: Config, p: Policy, s: State, st: Step, w: nat, id: Id)
    requires Calm(s) && CalmPolicy(cfg, p) && Enabled(cfg, s, st) && Permitted(p, s, st) && w < |s.workers|
    requires s.workers[w] == Unlocking(id) || (Past(s.workers[w]) && s.workers[w].c.Id() == id)
    ensures st != AdminRetry(id, true)
  {
    assert OneLife(s, id);
    assert Finishing(s.workers[w], id) ==> FinishPending(s, id);
  }

  lemma MarkAct(cfg: Config, sh: Shared, p: Phase, a: Action, id: Id)
    requires CanAct(cfg, sh, p, a) && id in Act(cfg, sh, p, a).sh.done && id !in sh.done
    ensures Past(p) && p.c.Id() == id
  {}

  lemma MarkStep(cfg: Config, s: State, st: Step)
    requires Enabled(cfg, s, st) && !st.Work?
    ensures Next(cfg, s, st).sh.done <= s.sh.done
  {}

  lemma StepMarksOver(cfg: Config, p: Policy, s: State, st: Step, id: Id)
    requires Calm(s) && CalmPolicy(cfg, p) && Enabled(cfg, s, st) && Permitted(p, s, st)
    requires id in Next(cfg, s, st).sh.done
    ensures Over(Next(cfg, s, st), id)
  {
    if st.Work? {
      if id !in s.sh.done {
        MarkAct(cfg, s.sh, s.workers[st.w], st.a, id);
      }
    } else {
      MarkStep(cfg, s, st);
    }
    StaysOver(cfg, s, st, id);
  }

  // ---------------------------------------------------------------- a settled worker has let go

  /** A worker gets past its copy by winning it or by starting to bury it. */
  lemma PastAct(cfg: Config, sh: Shared, p: Phase, a: Action)
    requires CanAct(cfg, sh, p, a) && Past(Act(cfg, sh, p, a).p)
    ensures Act(cfg, sh, p, a).p.c.Id() == p.c.Id()
    ensures Past(p) || a == Return(Success) || a.SaveDead?
  {}

  lemma PastIsOld(cfg: Config, s: State, st: Step, w: nat)
    requires Enabled(cfg, s, st) && w < |s.workers| && !(st.Work? && st.w == w) && Past(Next(cfg, s, st).workers[w])
    ensures Next(cfg, s, st).workers[w] == s.workers[w]
  {}

  lemma EndingAct(cfg: Config, sh: Shared, p: Phase, a: Action)
    requires CanAct(cfg, sh, p, a) && (a.SaveDead? || a == Spawn)
    ensures LiveOf(p.c.Id())(p) == 1 && LiveOf(p.c.Id())(Act(cfg, sh, p, a).p) == 0
    ensures a.SaveDead? ==> Given(cfg, sh, p, a, AliveW(p.c.Id())) == 0
    ensures Given(cfg, sh, p, a, AfootW(p.c.Id())) == 0
  {}

  /** Burying ends the one life. */
  lemma BuryingEnds(cfg: Config, s: State, w: nat, ok: bool)
    requires Enabled(cfg, s, Work(w, SaveDead(ok))) && OneLife(s, s.workers[w].c.Id())
    ensures Over(Next(cfg, s, Work(w, SaveDead(ok))), s.workers[w].c.Id())
  {
    var id := s.workers[w].c.Id();
    RowsStay(cfg, s, Work(w, SaveDead(ok)));
    EndingAct(cfg, s.sh, s.workers[w], SaveDead(ok));
    SumAtLeast(s.workers, w, LiveOf(id));
    StepWeighs(cfg, s, Work(w, SaveDead(ok)), AliveW(id));
  }

  /** So does winning. */
  lemma WinningEnds(cfg: Config, s: State, w: nat)
    requires Enabled(cfg, s, Work(w, Return(Success))) && OneLife(s, s.workers[w].c.Id()) && SavingWinners(s)
    ensures Over(Next(cfg, s, Work(w, Return(Success))), s.workers[w].c.Id())
  {
    ReturnWins(cfg, s, w);
    StepKeepsOneLife(cfg, s, Work(w, Return(Success)), s.workers[w].c.Id());
  }

  lemma StepKeepsPast(cfg: Config, p: Policy, s: State, st: Step, w: nat)
    requires Calm(s) && CalmPolicy(cfg, p) && Enabled(cfg, s, st) && Permitted(p, s, st)
    requires w < |s.workers| && Past(Next(cfg, s, st).workers[w])
    ensures Over(Next(cfg, s, st), Next(cfg, s, st).workers[w].c.Id())
  {
    if st.Work? && st.w == w {
      PastAct(cfg, s.sh, s.workers[w], st.a);
    } else {
      PastIsOld(cfg, s, st, w);
    }
    var id := s.workers[w].c.Id();
    assert OneLife(s, id);
    if Past(s.workers[w]) {
      NoHastyRetry(cfg, p, s, st, w, id);
      StaysOver(cfg, s, st, id);
    } else if st.a.SaveDead? {
      BuryingEnds(cfg, s, w, st.a.ok);
    } else {
      WinningEnds(cfg, s, w);
    }
  }

  // ---------------------------------------------------------------- locks have holders

  lemma LockAct(cfg: Config, sh: Shared, p: Phase, a: Action, id: Id)
    requires CanAct(cfg, sh, p, a) && ActionPermitted(CALM, a) && id in Act(cfg, sh, p, a).sh.locks
    ensures id !in sh.locks || HoldsLock(p, id) ==> HoldsLock(Act(cfg, sh, p, a).p, id)
  {}

  lemma LockStep(cfg: Config, s: State, st: Step)
    requires Enabled(cfg, s, st) && !st.Work?
    ensures Next(cfg, s, st).sh.locks <= s.sh.locks
  {}

  lemma HolderStep(cfg: Config, s: State, st: Step, w: nat, id: Id)
    requires Enabled(cfg, s, st) && !st.Work? && w < |s.workers| && HoldsLock(s.workers[w], id)
    ensures |Next(cfg, s, st).workers| == |s.workers| && Next(cfg, s, st).workers[w] == s.workers[w]
  {}

  lemma WorkKeepsHolders(cfg: Config, s: State, w: nat, a: Action, id: Id)
    requires Calm(s) && Enabled(cfg, s, Work(w, a)) && ActionPermitted(CALM, a)
    requires id in Next(cfg, s, Work(w, a)).sh.locks
    ensures exists v :: 0 <= v < |s.workers| && HoldsLock(Next(cfg, s, Work(w, a)).workers[v], id)
  {
    var t := Next(cfg, s, Work(w, a));
    LockAct(cfg, s.sh, s.workers[w], a, id);
    if id in s.sh.locks {
      var v :| 0 <= v < |s.workers| && HoldsLock(s.workers[v], id);
      assert HoldsLock(t.workers[v], id);
    } else {
      assert HoldsLock(t.workers[w], id);
    }
  }

  lemma StepKeepsHolders(cfg: Config, p: Policy, s: State, st: Step, id: Id)
    requires Calm(s) && CalmPolicy(cfg, p) && Enabled(cfg, s, st) && Permitted(p, s, st)
    requires id in Next(cfg, s, st).sh.locks
    ensures exists w :: 0 <= w < |s.workers| && HoldsLock(Next(cfg, s, st).workers[w], id)
  {
    if st.Work? {
      WorkKeepsHolders(cfg, s, st.w, st.a, id);
    } else {
      LockStep(cfg, s, st);
      var v :| 0 <= v < |s.workers| && HoldsLock(s.workers[v], id);
      HolderStep(cfg, s, st, v, id);
      assert HoldsLock(Next(cfg, s, st).workers[v], id);
    }
  }

  // ---------------------------------------------------------------- a copy does not overtake its lock delete

  lemma UnlockingAct(cfg: Config, sh: Shared, p: Phase, a: Action)
    requires CanAct(cfg, sh, p, a) && Act(cfg, sh, p, a).p.Unlocking?
    ensures p.c.Id() == Act(cfg, sh, p, a).p.id
    ensures Past(p) || (p.Spawning? && a == Spawn)
  {}

  lemma SpawnWaits(cfg: Config, s: State, w: nat)
    requires Enabled(cfg, s, Work(w, Spawn)) && OneLife(s, s.workers[w].c.Id())
    ensures Away(Next(cfg, s, Work(w, Spawn)), s.workers[w].c.Id())
  {
    var id := s.workers[w].c.Id();
    RowsStay(cfg, s, Work(w, Spawn));
    EndingAct(cfg, s.sh, s.workers[w], Spawn);
    LiveIsAfoot(s, w);
    StepWeighs(cfg, s, Work(w, Spawn), AfootW(id));
  }

  /** When a worker reaches its deferred lock delete, the copy is settled or with a timer. */
  lemma ReachesUnlock(cfg: Config, s: State, w: nat, a: Action)
    requires Calm(s) && Enabled(cfg, s, Work(w, a)) && Act(cfg, s.sh, s.workers[w], a).p.Unlocking?
    ensures Away(Next(cfg, s, Work(w, a)), Act(cfg, s.sh, s.workers[w], a).p.id)
  {
    var p := s.workers[w];
    var id := Act(cfg, s.sh, p, a).p.id;
    UnlockingAct(cfg, s.sh, p, a);
    assert OneLife(s, id);
    if Past(p) {
      StaysOver(cfg, s, Work(w, a), id);
      AfootOrWaiting(Next(cfg, s, Work(w, a)), id);
    } else {
      SpawnWaits(cfg, s, w);
    }
  }

  lemma StepKeepsUnlocking(cfg: Config, p: Policy, s: State, st: Step, w: nat)
    requires Calm(s) && |s.workers| > 1 && CalmPolicy(cfg, p) && !p.earlyTimers
    requires Enabled(cfg, s, st) && Permitted(p, s, st)
    requires w < |s.workers| && Next(cfg, s, st).workers[w].Unlocking?
    ensures Away(Next(cfg, s, st), Next(cfg, s, st).workers[w].id)
  {
    if st.Work? && st.w == w {
      ReachesUnlock(cfg, s, w, st.a);
    } else {
      UnlockingIsOld(cfg, s, st, w);
      var id := s.workers[w].id;
      NoHastyRetry(cfg, p, s, st, w, id);
      StaysAway(cfg, s, st, id);
    }
  }

  lemma UnlockingIsOld(cfg: Config, s: State, st: Step, w: nat)
    requires Enabled(cfg, s, st) && w < |s.workers| && !(st.Work? && st.w == w)
    requires Next(cfg, s, st).workers[w].Unlocking?
    ensures s.workers[w] == Next(cfg, s, st).workers[w]
  {}

  // ---------------------------------------------------------------- putting it together

  lemma SameCrew(cfg: Config, s: State, st: Step)
    requires Enabled(cfg, s, st)
    ensures |Next(cfg, s, st).workers| == |s.workers|
  {}

  lemma StepStaysCalm(cfg: Config, p: Policy, s: State, st: Step)
    requires Calm(s) && |s.workers| == cfg.workers && CalmPolicy(cfg, p) && Enabled(cfg, s, st) && Permitted(p, s, st)
    ensures Calm(Next(cfg, s, st))
  {
    var t := Next(cfg, s, st);
    SameCrew(cfg, s, st);
    NothingDropped(cfg, p, s, st);
    StepKeepsWinners(cfg, s, st);
    forall id ensures OneLife(t, id) { StepKeepsOneLife(cfg, s, st, id); }
    forall id | id in t.sh.done
      ensures Over(t, id)
    {
      StepMarksOver(cfg, p, s, st, id);
    }
    forall w | 0 <= w < |t.workers| && Past(t.workers[w])
      ensures Over(t, t.workers[w].c.Id())
    {
      StepKeepsPast(cfg, p, s, st, w);
    }
    forall id | id in t.sh.locks
      ensures exists w :: 0 <= w < |t.workers| && HoldsLock(t.workers[w], id)
    {
      StepKeepsHolders(cfg, p, s, st, id);
    }
    forall w | 0 <= w < |t.workers| && |t.workers| > 1 && t.workers[w].Unlocking?
      ensures Away(t, t.workers[w].id)
    {
      StepKeepsUnlocking(cfg, p, s, st, w);
    }
  }

  lemma {:induction false} CalmRunsStayCalm(cfg: Config, p: Policy, run: seq<Step>)
    requires CalmPolicy(cfg, p) && Legal(cfg, p, Init(cfg), run)
    ensures Calm(Exec(cfg, Init(cfg), run)) && |Exec(cfg, Init(cfg), run).workers| == cfg.workers
  {
    if run == [] {
      forall id
        ensures OneLife(Init(cfg), id)
      {
        InitEmpty(cfg, AliveW(id));
        InitEmpty(cfg, WonW(id));
      }
    } else {
      CalmRunsStayCalm(cfg, p, run[..|run| - 1]);
      var s, st := Exec(cfg, Init(cfg), run[..|run| - 1]), run[|run| - 1];
      StepStaysCalm(cfg, p, s, st);
      SameCrew(cfg, s, st);
    }
  }

  /** Nothing is given up on, and each accepted copy of each job is in exactly one place: a list, the dispatcher's
      hand, the channel, a worker, a retry timer, SUCCESS or the dead-letter list. */
  ghost predicate NothingLost(s: State) {
    s.sh.dropped == [] && forall id :: Places(s, id) == Accepted(s, id)
  }

  lemma {:induction false} NoAcceptedJobIsLost(cfg: Config, p: Policy, run: seq<Step>)
    requires CalmPolicy(cfg, p) && Legal(cfg, p, Init(cfg), run)
    ensures NothingLost(Exec(cfg, Init(cfg), run))
  {
    CalmRunsStayCalm(cfg, p, run);
    forall id
      ensures Places(Exec(cfg, Init(cfg), run), id) == Accepted(Exec(cfg, Init(cfg), run), id)
    {
      CopiesConserved(cfg, p, run, id);
      LostIsDropped(Exec(cfg, Init(cfg), run), id);
    }
  }

  lemma LostIsDropped(s: State, id: Id)
    requires s.sh.dropped == []
    ensures Lost(s, id) == 0
  {
    NothingWeighs(s);
  }

  // ---------------------------------------------------------------- each job enters once, and once more per retry

  function Retries(run: seq<Step>, id: Id): nat {
    if run == [] then 0
    else Retries(run[..|run| - 1], id) + if run[|run| - 1] == AdminRetry(id, true) then 1 else 0
  }

  ghost predicate EnteredWithin(s: State, id: Id, n: nat) {
    && Accepted(s, id) + Entering(s, id) <= 1 + n
    && (id !in s.sh.rows ==> Accepted(s, id) + Entering(s, id) == 0)
  }

  lemma EntryAct(cfg: Config, sh: Shared, p: Phase, a: Action, id: Id)
    requires CanAct(cfg, sh, p, a)
    ensures var r := Act(cfg, sh, p, a);
            NoteOf(id)(r.p) + Given(cfg, sh, p, a, EnteringW(id)) + Given(cfg, sh, p, a, AcceptedW(id)) <=
            NoteOf(id)(p) + (if id in r.sh.rows && id !in sh.rows then 1 else 0)
  {}

  lemma EntryStep(cfg: Config, s: State, st: Step, id: Id)
    requires Enabled(cfg, s, st) && !st.Work? && st != AdminRetry(id, true)
    ensures Delta(cfg, s, st, EnteringW(id)) + Delta(cfg, s, st, AcceptedW(id)) <=
            if id in Next(cfg, s, st).sh.rows && id !in s.sh.rows then 1 else 0
  {}

  lemma StepEnters(cfg: Config, s: State, st: Step, id: Id, n: nat)
    requires EnteredWithin(s, id, n) && Enabled(cfg, s, st)
    ensures EnteredWithin(Next(cfg, s, st), id, if st == AdminRetry(id, true) then n + 1 else n)
  {
    RowsStay(cfg, s, st);
    StepWeighs(cfg, s, st, EnteringW(id));
    StepWeighs(cfg, s, st, AcceptedW(id));
    if st.Work? {
      EntryAct(cfg, s.sh, s.workers[st.w], st.a, id);
    } else if st != AdminRetry(id, true) {
      EntryStep(cfg, s, st, id);
    }
  }

  /** In every run, with any failures, a job is accepted at most once, plus once for every admin retry of it. */
  lemma {:induction false} AcceptedOncePerRetry(cfg: Config, p: Policy, run: seq<Step>, id: Id)
    requires Legal(cfg, p, Init(cfg), run)
    ensures EnteredWithin(Exec(cfg, Init(cfg), run), id, Retries(run, id))
  {
    if run == [] {
      InitCounts(cfg, id);
    } else {
      AcceptedOncePerRetry(cfg, p, run[..|run| - 1], id);
      StepEnters(cfg, Exec(cfg, Init(cfg), run[..|run| - 1]), run[|run| - 1], id, Retries(run[..|run| - 1], id));
    }
  }
}
