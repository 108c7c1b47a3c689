/** Where every copy of a job is, over all runs: conservation, no loss, one live copy, one success. */
module PoolSafety {
  import opened Domain
  import opened Sums
  import opened PoolProtocol
  import opened PoolLedger

  // ---------------------------------------------------------------- counting one job's copies by place

  function One(id: Id): Copy -> nat {
    (c: Copy) => if c.Id() == id then 1 else 0
  }

  function HandOf(id: Id): Dispatcher -> nat {
    (d: Dispatcher) => if d.Holding? && d.c.Id() == id then 1 else 0
  }

  function TimerOf(id: Id): Timer -> nat {
    (t: Timer) => if !t.Spent? && t.c.Id() == id then 1 else 0
  }

  /** A worker still owes the copy an outcome: it is neither won, nor buried, nor handed to a timer. */
  predicate Owes(p: Phase) {
    !(p.Idle? || p.Leaving? || p.Gone? || p.Unlocking? || p.Succeeded? || p.SuccessSaved? || p.DeadPushed?)
  }

  function OwesOf(id: Id): Phase -> nat {
    (p: Phase) => if Owes(p) && p.c.Id() == id then 1 else 0
  }

  function NoteOf(id: Id): Phase -> nat {
    (p: Phase) => if p.Fanning? && p.note.Id() == id then 1 else 0
  }

  function NoCopy(): Copy -> nat {
    (c: Copy) => 0
  }
  function NoHand(): Dispatcher -> nat {
    (d: Dispatcher) => 0
  }
  function NoPhase(): Phase -> nat {
    (p: Phase) => 0
  }
  function NoTimer(): Timer -> nat {
    (t: Timer) => 0
  }
  function NoFlag(): bool -> nat {
    (b: bool) => 0
  }
  function NoWait(): Waiter -> nat {
    (w: Waiter) => 0
  }

  function ActiveW(id: Id): Weights {
    Weights(NoCopy(), One(id), HandOf(id), One(id), OwesOf(id), NoTimer(),
            NoCopy(), NoCopy(), NoCopy(), NoCopy(), NoFlag(), NoWait())
  }

  function DelayedW(id: Id): Weights {
    Weights(NoCopy(), NoCopy(), NoHand(), NoCopy(), NoPhase(), TimerOf(id),
            NoCopy(), NoCopy(), NoCopy(), NoCopy(), NoFlag(), NoWait())
  }

  function EndedW(id: Id): Weights {
    Weights(NoCopy(), NoCopy(), NoHand(), NoCopy(), NoPhase(), NoTimer(),
            One(id), One(id), NoCopy(), NoCopy(), NoFlag(), NoWait())
  }

  function LostW(id: Id): Weights {
    Weights(NoCopy(), NoCopy(), NoHand(), NoCopy(), NoPhase(), NoTimer(),
            NoCopy(), NoCopy(), One(id), NoCopy(), NoFlag(), NoWait())
  }

  function AcceptedW(id: Id): Weights {
    Weights(NoCopy(), NoCopy(), NoHand(), NoCopy(), NoPhase(), NoTimer(),
            NoCopy(), NoCopy(), NoCopy(), One(id), NoFlag(), NoWait())
  }

  function EnteringW(id: Id): Weights {
    Weights(One(id), NoCopy(), NoHand(), NoCopy(), NoteOf(id), NoTimer(),
            NoCopy(), NoCopy(), NoCopy(), NoCopy(), NoFlag(), NoWait())
  }

  /** Places that a weighing leaves out add nothing. */
  lemma NothingWeighs(s: State)
    ensures Sum(s.sh.lists.high, NoCopy()) == Sum(s.sh.lists.medium, NoCopy()) == Sum(s.sh.lists.low, NoCopy()) == 0
    ensures Sum(s.sh.dead, NoCopy()) == Sum(s.sh.won, NoCopy()) == Sum(s.sh.dropped, NoCopy()) == 0
    ensures Sum(s.sh.accepted, NoCopy()) == Sum(s.pending, NoCopy()) == Sum(s.channel, NoCopy()) == 0
    ensures Sum(s.sh.timers, NoTimer()) == Sum(s.workers, NoPhase()) == 0
  {
    SumZero(s.sh.lists.high, NoCopy());
    SumZero(s.sh.lists.medium, NoCopy());
    SumZero(s.sh.lists.low, NoCopy());
    SumZero(s.sh.dead, NoCopy());
    SumZero(s.sh.won, NoCopy());
    SumZero(s.sh.dropped, NoCopy());
    SumZero(s.sh.accepted, NoCopy());
    SumZero(s.pending, NoCopy());
    SumZero(s.channel, NoCopy());
    SumZero(s.sh.timers, NoTimer());
    SumZero(s.workers, NoPhase());
  }

  /** Copies in a priority list, in the dispatcher's hand, in the channel or with a worker. */
  function Active(s: State, id: Id): nat {
    Weigh(s, ActiveW(id))
  }

  function Delayed(s: State, id: Id): nat {
    Weigh(s, DelayedW(id))
  }

  function Ended(s: State, id: Id): nat {
    Weigh(s, EndedW(id))
  }

  function Lost(s: State, id: Id): nat {
    Weigh(s, LostW(id))
  }

  function Accepted(s: State, id: Id): nat {
    Weigh(s, AcceptedW(id))
  }

  /** Rows created by an Enqueue call, or by a fan-out, that has not pushed yet. */
  function Entering(s: State, id: Id): nat {
    Weigh(s, EnteringW(id))
  }

  function Places(s: State, id: Id): nat {
    Active(s, id) + Delayed(s, id) + Ended(s, id)
  }

  lemma StepMoves(cfg: Config, s: State, st: Step, id: Id)
    requires Enabled(cfg, s, st)
    ensures var t := Next(cfg, s, st);
            && Active(t, id) == Active(s, id) + Delta(cfg, s, st, ActiveW(id))
            && Delayed(t, id) == Delayed(s, id) + Delta(cfg, s, st, DelayedW(id))
            && Ended(t, id) == Ended(s, id) + Delta(cfg, s, st, EndedW(id))
            && Lost(t, id) == Lost(s, id) + Delta(cfg, s, st, LostW(id))
            && Accepted(t, id) == Accepted(s, id) + Delta(cfg, s, st, AcceptedW(id))
            && Entering(t, id) == Entering(s, id) + Delta(cfg, s, st, EnteringW(id))
  {
    StepWeighs(cfg, s, st, ActiveW(id));
    StepWeighs(cfg, s, st, DelayedW(id));
    StepWeighs(cfg, s, st, EndedW(id));
    StepWeighs(cfg, s, st, LostW(id));
    StepWeighs(cfg, s, st, AcceptedW(id));
    StepWeighs(cfg, s, st, EnteringW(id));
  }

  // ---------------------------------------------------------------- conservation, in every run whatsoever

  ghost predicate Conserved(s: State, id: Id) {
    Accepted(s, id) == Active(s, id) + Delayed(s, id) + Ended(s, id) + Lost(s, id)
  }

  lemma StepConserves(cfg: Config, s: State, st: Step, id: Id)
    requires Enabled(cfg, s, st) && Conserved(s, id)
    ensures Conserved(Next(cfg, s, st), id)
  {
    StepMoves(cfg, s, st, id);
    if st.Work? {
      WorkBalances(cfg, s, st.w, st.a, id);
    } else if TimerStep(st) {
      TimerBalances(cfg, s, st, id);
    } else {
      OtherBalances(cfg, s, st, id);
    }
  }

  ghost predicate DeltaBalances(cfg: Config, s: State, st: Step, id: Id)
    requires Enabled(cfg, s, st)
  {
    Delta(cfg, s, st, AcceptedW(id)) ==
    Delta(cfg, s, st, ActiveW(id)) + Delta(cfg, s, st, DelayedW(id)) + Delta(cfg, s, st, EndedW(id))
    + Delta(cfg, s, st, LostW(id))
  }

  lemma ActBalances(cfg: Config, sh: Shared, p: Phase, a: Action, id: Id)
    requires CanAct(cfg, sh, p, a)
    ensures Given(cfg, sh, p, a, AcceptedW(id)) + OwesOf(id)(p) ==
            OwesOf(id)(Act(cfg, sh, p, a).p) + Given(cfg, sh, p, a, ActiveW(id)) + Given(cfg, sh, p, a, DelayedW(id))
            + Given(cfg, sh, p, a, EndedW(id)) + Given(cfg, sh, p, a, LostW(id))
  {}

  lemma WorkBalances(cfg: Config, s: State, w: nat, a: Action, id: Id)
    requires Enabled(cfg, s, Work(w, a))
    ensures DeltaBalances(cfg, s, Work(w, a), id)
  {
    ActBalances(cfg, s.sh, s.workers[w], a, id);
  }

  predicate TimerStep(st: Step) {
    st.Fire? || st.FireAgain? || st.FireCancelled? || st.TimerDone?
  }

  lemma TimerBalances(cfg: Config, s: State, st: Step, id: Id)
    requires Enabled(cfg, s, st) && TimerStep(st)
    ensures DeltaBalances(cfg, s, st, id)
  {}

  lemma OtherBalances(cfg: Config, s: State, st: Step, id: Id)
    requires Enabled(cfg, s, st) && !st.Work? && !TimerStep(st)
    ensures DeltaBalances(cfg, s, st, id)
  {}

  lemma {:induction false} InitEmpty(cfg: Config, W: Weights)
    requires W.hand(Polling) == 0 && W.phase(Idle) == 0 && W.running(true) == 0 && W.waiter(AwaitDispatcher) == 0
    ensures Weigh(Init(cfg), W) == 0
  {
    SumZero(Init(cfg).workers, W.phase);
  }

  lemma InitCounts(cfg: Config, id: Id)
    ensures var s := Init(cfg);
            Active(s, id) == Delayed(s, id) == Ended(s, id) == Lost(s, id) == Accepted(s, id) == Entering(s, id) == 0
  {
    InitEmpty(cfg, ActiveW(id));
    InitEmpty(cfg, DelayedW(id));
    InitEmpty(cfg, EndedW(id));
    InitEmpty(cfg, LostW(id));
    InitEmpty(cfg, AcceptedW(id));
    InitEmpty(cfg, EnteringW(id));
  }

  /** In every run, with any failures, every copy ever put on the queue is in exactly one place or was
      explicitly given up on: none is duplicated, none evaporates. */
  lemma {:induction false} CopiesConserved(cfg: Config, p: Policy, run: seq<Step>, id: Id)
    requires Legal(cfg, p, Init(cfg), run)
    ensures Conserved(Exec(cfg, Init(cfg), run), id)
  {
    if run == [] {
      InitCounts(cfg, id);
    } else {
      CopiesConserved(cfg, p, run[..|run| - 1], id);
      StepConserves(cfg, Exec(cfg, Init(cfg), run[..|run| - 1]), run[|run| - 1], id);
    }
  }

  // ---------------------------------------------------------------- one live copy, one success

  /** Live: not yet won, and not past the point where its row may read DEAD_LETTER. */
  predicate Live(p: Phase) {
    Owes(p) && !p.Buried?
  }

  function LiveOf(id: Id): Phase -> nat {
    (p: Phase) => (if Live(p) && p.c.Id() == id then 1 else 0) + (if p.Fanning? && p.note.Id() == id then 1 else 0)
  }

  function AliveW(id: Id): Weights {
    Weights(One(id), One(id), HandOf(id), One(id), LiveOf(id), TimerOf(id),
            NoCopy(), NoCopy(), NoCopy(), NoCopy(), NoFlag(), NoWait())
  }

  function WonW(id: Id): Weights {
    Weights(NoCopy(), NoCopy(), NoHand(), NoCopy(), NoPhase(), NoTimer(),
            NoCopy(), One(id), NoCopy(), NoCopy(), NoFlag(), NoWait())
  }

  /** Live copies of a job anywhere, counting a created row that is about to be pushed. */
  function Alive(s: State, id: Id): nat {
    Weigh(s, AliveW(id))
  }

  function Wins(s: State, id: Id): nat {
    Weigh(s, WonW(id))
  }

  /** At most one life; while it lasts the row reads QUEUED or PROCESSING; a won job is never retriable. */
  ghost predicate Fits(alive: int, won: int, rows: map<Id, Job>, id: Id) {
    && 0 <= alive && 0 <= won && alive + won <= 1
    && (alive == 1 ==> id in rows && rows[id].status in {QUEUED, PROCESSING})
    && (won == 1 ==> id in rows && rows[id].status in {QUEUED, PROCESSING, SUCCESS})
  }

  ghost predicate OneLife(s: State, id: Id) {
    Fits(Alive(s, id), Wins(s, id), s.sh.rows, id)
  }

  predicate Winning(p: Phase) {
    p.Succeeded? || p.SuccessSaved?
  }

  ghost predicate SavingWinners(s: State) {
    forall w :: 0 <= w < |s.workers| && Winning(s.workers[w]) ==> Wins(s, s.workers[w].c.Id()) >= 1
  }

  /** Actions that write no row only move, end or drop what is alive. */
  lemma QuietAct(cfg: Config, sh: Shared, p: Phase, a: Action, id: Id)
    requires CanAct(cfg, sh, p, a)
    requires !WritesRow(a)
    ensures var r := Act(cfg, sh, p, a);
            && r.sh.rows == sh.rows
            && LiveOf(id)(r.p) + Given(cfg, sh, p, a, AliveW(id)) + Given(cfg, sh, p, a, WonW(id)) <= LiveOf(id)(p)
  {}

  lemma QuietWork(cfg: Config, s: State, w: nat, a: Action, id: Id)
    requires Enabled(cfg, s, Work(w, a)) && OneLife(s, id)
    requires !WritesRow(a)
    ensures OneLife(Next(cfg, s, Work(w, a)), id)
  {
    StepWeighs(cfg, s, Work(w, a), AliveW(id));
    StepWeighs(cfg, s, Work(w, a), WonW(id));
    QuietAct(cfg, s.sh, s.workers[w], a, id);
  }

  lemma QuietStep(cfg: Config, s: State, st: Step, id: Id)
    requires Enabled(cfg, s, st) && !(st.Work? || st.Create? || st.AdminRetry?)
    ensures Next(cfg, s, st).sh.rows == s.sh.rows
    ensures Delta(cfg, s, st, WonW(id)) == 0
  {}

  lemma NothingComesAlive(cfg: Config, s: State, st: Step, id: Id)
    requires Enabled(cfg, s, st) && !(st.Work? || st.Create? || st.AdminRetry?)
    ensures Delta(cfg, s, st, AliveW(id)) <= 0
  {}

  predicate WritesRow(a: Action) {
    a.MarkProcessing? || a.SaveRetry? || a.SaveDead? || a.SaveSuccess? || a.FanCreate?
  }

  /** A live copy's row moves between QUEUED and PROCESSING, burying it ends its life, only a winner's row reads
      SUCCESS, and a fan-out starts the life of a new row. */
  lemma RowAct(cfg: Config, sh: Shared, p: Phase, a: Action, alive: int, won: int, id: Id)
    requires CanAct(cfg, sh, p, a) && Fits(alive, won, sh.rows, id) && LiveOf(id)(p) <= alive
    requires WritesRow(a) && (p.Succeeded? && p.c.Id() == id ==> won >= 1)
    ensures var r := Act(cfg, sh, p, a);
            && Given(cfg, sh, p, a, AliveW(id)) == Given(cfg, sh, p, a, WonW(id)) == 0
            && Fits(alive + LiveOf(id)(r.p) - LiveOf(id)(p), won, r.sh.rows, id)
  {}

  lemma RowWork(cfg: Config, s: State, w: nat, a: Action, id: Id)
    requires Enabled(cfg, s, Work(w, a)) && OneLife(s, id) && SavingWinners(s) && WritesRow(a)
    ensures OneLife(Next(cfg, s, Work(w, a)), id)
  {
    StepWeighs(cfg, s, Work(w, a), AliveW(id));
    StepWeighs(cfg, s, Work(w, a), WonW(id));
    SumAtLeast(s.workers, w, LiveOf(id));
    RowAct(cfg, s.sh, s.workers[w], a, Alive(s, id), Wins(s, id), id);
  }

  lemma CreateKeeps(cfg: Config, s: State, job: Job, id: Id)
    requires Enabled(cfg, s, Create(job)) && OneLife(s, id)
    ensures OneLife(Next(cfg, s, Create(job)), id)
  {
    StepWeighs(cfg, s, Create(job), AliveW(id));
    StepWeighs(cfg, s, Create(job), WonW(id));
  }

  lemma AdminKeeps(cfg: Config, s: State, target: Id, ok: bool, id: Id)
    requires Enabled(cfg, s, AdminRetry(target, ok)) && OneLife(s, id)
    ensures OneLife(Next(cfg, s, AdminRetry(target, ok)), id)
  {
    StepWeighs(cfg, s, AdminRetry(target, ok), AliveW(id));
    StepWeighs(cfg, s, AdminRetry(target, ok), WonW(id));
  }

  lemma StepKeepsOneLife(cfg: Config, s: State, st: Step, id: Id)
    requires Enabled(cfg, s, st) && OneLife(s, id) && SavingWinners(s)
    ensures OneLife(Next(cfg, s, st), id)
  {
    if st.Work? {
      WorkKeepsOneLife(cfg, s, st.w, st.a, id);
    } else if st.Create? {
      CreateKeeps(cfg, s, st.job, id);
    } else if st.AdminRetry? {
      AdminKeeps(cfg, s, st.id, st.ok, id);
    } else {
      StepWeighs(cfg, s, st, AliveW(id));
      StepWeighs(cfg, s, st, WonW(id));
      QuietStep(cfg, s, st, id);
      NothingComesAlive(cfg, s, st, id);
    }
  }

  lemma WorkKeepsOneLife(cfg: Config, s: State, w: nat, a: Action, id: Id)
    requires Enabled(cfg, s, Work(w, a)) && OneLife(s, id) && SavingWinners(s)
    ensures OneLife(Next(cfg, s, Work(w, a)), id)
  {
    if WritesRow(a) {
      RowWork(cfg, s, w, a, id);
    } else {
      QuietWork(cfg, s, w, a, id);
    }
  }

  lemma WinsGrow(cfg: Config, s: State, st: Step, id: Id)
    requires Enabled(cfg, s, st)
    ensures Wins(s, id) <= Wins(Next(cfg, s, st), id)
  {
    StepWeighs(cfg, s, st, WonW(id));
    if st.Work? {
      assert Delta(cfg, s, st, WonW(id)) == Given(cfg, s.sh, s.workers[st.w], st.a, WonW(id));
    } else if !(st.Create? || st.AdminRetry?) {
      QuietStep(cfg, s, st, id);
    }
  }

  lemma OnlyReturnSucceeds(cfg: Config, sh: Shared, p: Phase, a: Action)
    requires CanAct(cfg, sh, p, a) && Winning(Act(cfg, sh, p, a).p)
    ensures Act(cfg, sh, p, a).p.c.Id() == p.c.Id() && (Winning(p) || a == Return(Success))
  {}

  lemma WinningIsOld(cfg: Config, s: State, st: Step, w: nat)
    requires Enabled(cfg, s, st) && w < |s.workers| && !(st.Work? && st.w == w) && Winning(Next(cfg, s, st).workers[w])
    ensures s.workers[w] == Next(cfg, s, st).workers[w]
  {}

  lemma StepKeepsWinners(cfg: Config, s: State, st: Step)
    requires Enabled(cfg, s, st) && SavingWinners(s)
    ensures SavingWinners(Next(cfg, s, st))
  {
    var t := Next(cfg, s, st);
    forall w | 0 <= w < |t.workers| && Winning(t.workers[w])
      ensures Wins(t, t.workers[w].c.Id()) >= 1
    {
      var id := t.workers[w].c.Id();
      if st.Work? && st.w == w {
        OnlyReturnSucceeds(cfg, s.sh, s.workers[w], st.a);
      } else {
        WinningIsOld(cfg, s, st, w);
      }
      if Winning(s.workers[w]) {
        WinsGrow(cfg, s, st, id);
      } else {
        ReturnWins(cfg, s, w);
      }
    }
  }

  lemma ReturnWins(cfg: Config, s: State, w: nat)
    requires Enabled(cfg, s, Work(w, Return(Success)))
    ensures Wins(Next(cfg, s, Work(w, Return(Success))), s.workers[w].c.Id()) >= 1
  {
    StepWeighs(cfg, s, Work(w, Return(Success)), WonW(s.workers[w].c.Id()));
  }

  lemma {:induction false} RunKeepsOneLife(cfg: Config, p: Policy, run: seq<Step>, id: Id)
    requires Legal(cfg, p, Init(cfg), run)
    ensures OneLife(Exec(cfg, Init(cfg), run), id) && SavingWinners(Exec(cfg, Init(cfg), run))
  {
    if run == [] {
      InitEmpty(cfg, AliveW(id));
      InitEmpty(cfg, WonW(id));
    } else {
      RunKeepsOneLife(cfg, p, run[..|run| - 1], id);
      var s, st := Exec(cfg, Init(cfg), run[..|run| - 1]), run[|run| - 1];
      StepKeepsWinners(cfg, s, st);
      StepKeepsOneLife(cfg, s, st, id);
    }
  }

  /** RetryJob, the only way back from a terminal state, refuses this job. */
  predicate NotRetriable(cfg: Config, s: State, id: Id) {
    !Enabled(cfg, s, AdminRetry(id, true)) && !Enabled(cfg, s, AdminRetry(id, false))
  }

  ghost predicate Exclusive(cfg: Config, s: State, id: Id) {
    && Alive(s, id) <= 1 && Wins(s, id) <= 1
    && (Alive(s, id) == 1 ==> id in s.sh.rows && s.sh.rows[id].status in {QUEUED, PROCESSING})
    && (Alive(s, id) == 1 || Wins(s, id) == 1 ==> NotRetriable(cfg, s, id))
    && (Wins(s, id) == 1 ==> Alive(s, id) == 0)
  }

  lemma OneLifeIsExclusive(cfg: Config, s: State, id: Id)
    requires OneLife(s, id)
    ensures Exclusive(cfg, s, id)
  {}

  /** In every run, with any failures, early timers and admin retries: a job never has two live copies, a live
      copy means its row reads QUEUED or PROCESSING (so RetryJob refuses it), no job succeeds twice, and once
      it has succeeded it neither has a live copy nor can be retried. */
  lemma {:induction false} OneLiveCopyOneSuccess(cfg: Config, p: Policy, run: seq<Step>, id: Id)
    requires Legal(cfg, p, Init(cfg), run)
    ensures Exclusive(cfg, Exec(cfg, Init(cfg), run), id)
  {
    RunKeepsOneLife(cfg, p, run, id);
    OneLifeIsExclusive(cfg, Exec(cfg, Init(cfg), run), id);
  }

  /** Wins counts the successful runs logged for the job. */
  lemma WinsAreWon(s: State, id: Id)
    ensures Wins(s, id) == Sum(s.sh.won, One(id))
  {
    NothingWeighs(s);
  }
}
