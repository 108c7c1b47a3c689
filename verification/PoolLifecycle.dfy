/** A job's attempts follow the simple rule: stop at the first success, the first non-retryable error, or attempt
    MaxRetries + 1; attempts are numbered 1, 2, 3, ... and RetryCount never passes MaxRetries. */
module PoolLifecycle {
  import opened Domain
  import opened Sums
  import opened PoolProtocol
  import PQ = PriorityQueue
  import opened PoolLedger
  import opened PoolSafety

  // ---------------------------------------------------------------- the rule, from the outcomes alone

  /** How many attempts a job makes, if attempt k + 1 would end with f(k). */
  function Attempts(maxRetries: int, f: nat -> Outcome, k: nat): (n: nat)
    ensures n > k
    decreases maxRetries - k
  {
    if f(k) != Retryable || k >= maxRetries then k + 1 else Attempts(maxRetries, f, k + 1)
  }

  /** The trail records what f would answer. */
  ghost predicate Follows(trail: seq<Attempt>, f: nat -> Outcome) {
    forall i :: 0 <= i < |trail| ==> trail[i].outcome == f(i)
  }

  ghost predicate Numbered(trail: seq<Attempt>) {
    forall i :: 0 <= i < |trail| ==> trail[i].number == i + 1
  }

  // ---------------------------------------------------------------- what each place guarantees about a copy

  predicate RetriedOnly(trail: seq<Attempt>) {
    forall i :: 0 <= i < |trail| ==> trail[i] == Attempt(i + 1, Retryable)
  }

  /** Waiting for its next attempt. */
  predicate Ready(c: Copy) {
    RetriedOnly(c.trail) && |c.trail| == c.job.retryCount && (c.trail != [] ==> c.job.retryCount <= c.job.maxRetries)
  }

  /** Just attempted: some retries within budget, then one attempt with this outcome. */
  predicate Tried(c: Copy, o: Outcome) {
    var n := |c.trail| - 1;
    && n >= 0 && n == c.job.retryCount && (n > 0 ==> n <= c.job.maxRetries)
    && RetriedOnly(c.trail[..n]) && c.trail[n] == Attempt(n + 1, o)
  }

  predicate BuriedRightly(cfg: Config, c: Copy) {
    || Tried(c, NonRetryable)
    || (Tried(c, Retryable) && !c.job.CanRetry())
    || (Ready(c) && c.job.jobType !in cfg.registry)
  }

  predicate PhaseRight(cfg: Config, p: Phase) {
    match p
    case Succeeded(c) => Tried(c, Success)
    case SuccessSaved(c) => Tried(c, Success)
    case Faulted(c, retryable) => Tried(c, if retryable then Retryable else NonRetryable)
    case Burying(c, _) => BuriedRightly(cfg, c)
    case Buried(c, _) => BuriedRightly(cfg, c)
    case DeadPushed(c, _) => BuriedRightly(cfg, c)
    case Fanning(c, note) => Ready(c) && Ready(note)
    case Idle => true
    case Unlocking(_) => true
    case Leaving => true
    case Gone => true
    case _ => Ready(p.c)
  }

  function NotReady(): Copy -> nat {
    (c: Copy) => if Ready(c) then 0 else 1
  }

  /** One for every copy that breaks its place's guarantee. */
  function WrongW(cfg: Config): Weights {
    Weights(NotReady(), NotReady(), (d: Dispatcher) => if d.Holding? && !Ready(d.c) then 1 else 0, NotReady(),
            (p: Phase) => if PhaseRight(cfg, p) then 0 else 1, (t: Timer) => if t.Spent? || Ready(t.c) then 0 else 1,
            (c: Copy) => if BuriedRightly(cfg, c) then 0 else 1, (c: Copy) => if Tried(c, Success) then 0 else 1,
            NoCopy(), NoCopy(), NoFlag(), NoWait())
  }

  ghost predicate AllRight(cfg: Config, s: State) {
    Weigh(s, WrongW(cfg)) == 0
  }

  lemma ReturnKeepsRight(c: Copy, o: Outcome)
    requires Ready(c)
    ensures Tried(Returned(c, o), o)
  {
    var t := c.trail + [Attempt(c.job.retryCount + 1, o)];
    assert t[..|t| - 1] == c.trail;
  }

  lemma RetryKeepsRight(c: Copy)
    requires Tried(c, Retryable) && c.job.CanRetry()
    ensures Ready(c.(job := c.job.(retryCount := c.job.retryCount + 1)))
  {
    assert c.trail == c.trail[..|c.trail| - 1] + [c.trail[|c.trail| - 1]];
  }

  function Returned(c: Copy, o: Outcome): Copy {
    c.(trail := c.trail + [Attempt(c.job.retryCount + 1, o)])
  }

  lemma ReturnActs(cfg: Config, sh: Shared, p: Phase, o: Outcome)
    requires CanAct(cfg, sh, p, Return(o))
    ensures Act(cfg, sh, p, Return(o)).p ==
            if o == Success then Succeeded(Returned(p.c, o)) else Faulted(Returned(p.c, o), o == Retryable)
    ensures Given(cfg, sh, p, Return(o), WrongW(cfg)) ==
            if o == Success && !Tried(Returned(p.c, o), Success) then 1 else 0
  {}

  lemma ReturnersAreReady(cfg: Config, sh: Shared, p: Phase, o: Outcome)
    requires CanAct(cfg, sh, p, Return(o)) && PhaseRight(cfg, p)
    ensures Ready(p.c)
  {}

  lemma ReturnActKeepsRight(cfg: Config, sh: Shared, p: Phase, o: Outcome)
    requires CanAct(cfg, sh, p, Return(o)) && PhaseRight(cfg, p)
    ensures PhaseRight(cfg, Act(cfg, sh, p, Return(o)).p) && Given(cfg, sh, p, Return(o), WrongW(cfg)) == 0
  {
    ReturnersAreReady(cfg, sh, p, o);
    ReturnKeepsRight(p.c, o);
    ReturnActs(cfg, sh, p, o);
  }

  lemma DecideKeepsRight(cfg: Config, sh: Shared, p: Phase)
    requires CanAct(cfg, sh, p, Decide) && PhaseRight(cfg, p)
    ensures PhaseRight(cfg, Act(cfg, sh, p, Decide).p) && Given(cfg, sh, p, Decide, WrongW(cfg)) == 0
  {
    assert Tried(p.c, if p.retryable then Retryable else NonRetryable);
    if p.retryable && p.c.job.CanRetry() {
      RetryKeepsRight(p.c);
    }
  }

  lemma ActKeepsRight(cfg: Config, sh: Shared, p: Phase, a: Action)
    requires CanAct(cfg, sh, p, a) && PhaseRight(cfg, p)
    ensures PhaseRight(cfg, Act(cfg, sh, p, a).p) && Given(cfg, sh, p, a, WrongW(cfg)) == 0
  {
    if a.Return? {
      ReturnActKeepsRight(cfg, sh, p, a.outcome);
    } else if a.Decide? {
      DecideKeepsRight(cfg, sh, p);
    } else {
      QuietActKeepsRight(cfg, sh, p, a);
    }
  }

  /** Changing only the status of a copy changes nothing the guarantees mention. */
  lemma StatusIsIrrelevant(cfg: Config, c: Copy, st: JobStatus, o: Outcome)
    ensures Ready(c.WithStatus(st)) == Ready(c) && Tried(c.WithStatus(st), o) == Tried(c, o)
    ensures BuriedRightly(cfg, c.WithStatus(st)) == BuriedRightly(cfg, c)
  {}

  lemma QuietActKeepsRight(cfg: Config, sh: Shared, p: Phase, a: Action)
    requires CanAct(cfg, sh, p, a) && PhaseRight(cfg, p) && !a.Return? && !a.Decide?
    ensures PhaseRight(cfg, Act(cfg, sh, p, a).p) && Given(cfg, sh, p, a, WrongW(cfg)) == 0
  {
    match a
    case MarkProcessing(_) => StatusIsIrrelevant(cfg, p.c, PROCESSING, Success);
    case SaveSuccess(_) => StatusIsIrrelevant(cfg, p.c, SUCCESS, Success);
    case SaveDead(_) => StatusIsIrrelevant(cfg, p.c, DEAD_LETTER, Success);
    case SaveRetry(_) => StatusIsIrrelevant(cfg, p.c, QUEUED, Success);
    case _ =>
  }

  lemma WorkKeepsRight(cfg: Config, s: State, w: nat, a: Action)
    requires AllRight(cfg, s) && Enabled(cfg, s, Work(w, a))
    ensures AllRight(cfg, Next(cfg, s, Work(w, a)))
  {
    StepWeighs(cfg, s, Work(w, a), WrongW(cfg));
    SumAtLeast(s.workers, w, WrongW(cfg).phase);
    ActKeepsRight(cfg, s.sh, s.workers[w], a);
  }

  lemma StepKeepsRight(cfg: Config, s: State, st: Step)
    requires AllRight(cfg, s) && Enabled(cfg, s, st) && !st.Work?
    ensures AllRight(cfg, Next(cfg, s, st))
  {
    StepWeighs(cfg, s, st, WrongW(cfg));
    MovedAreReady(cfg, s, st);
    MovesKeepRight(cfg, s, st);
  }

  lemma MovedAreReady(cfg: Config, s: State, st: Step)
    requires AllRight(cfg, s) && Enabled(cfg, s, st) && !st.Work?
    ensures st.Pop? ==> Ready(s.sh.lists.Next())
    ensures st.PushNew? ==> Ready(s.pending[st.k])
    ensures st.Receive? ==> Ready(s.channel[0])
    ensures st.Fire? || st.FireAgain? || st.FireCancelled? ==> Ready(s.sh.timers[st.k].c)
    ensures s.dispatcher.Holding? ==> Ready(s.dispatcher.c)
  {
    if st.Pop? {
      PQ.PopWeighs(s.sh.lists, WrongW(cfg).queued);
    } else if st.PushNew? {
      SumAtLeast(s.pending, st.k, WrongW(cfg).pending);
    } else if st.Receive? {
      SumAtLeast(s.channel, 0, WrongW(cfg).sent);
    } else if st.Fire? || st.FireAgain? || st.FireCancelled? {
      SumAtLeast(s.sh.timers, st.k, WrongW(cfg).timer);
    }
  }

  /** Moving a right copy, or adding a fresh one, wrongs nothing. */
  lemma MovesKeepRight(cfg: Config, s: State, st: Step)
    requires Enabled(cfg, s, st) && !st.Work?
    requires st.Pop? ==> Ready(s.sh.lists.Next())
    requires st.PushNew? ==> Ready(s.pending[st.k])
    requires st.Receive? ==> Ready(s.channel[0])
    requires st.Fire? || st.FireAgain? || st.FireCancelled? ==> Ready(s.sh.timers[st.k].c)
    requires s.dispatcher.Holding? ==> Ready(s.dispatcher.c)
    ensures Delta(cfg, s, st, WrongW(cfg)) <= 0
  {}

  lemma {:induction false} RunKeepsRight(cfg: Config, p: Policy, run: seq<Step>)
    requires Legal(cfg, p, Init(cfg), run)
    ensures AllRight(cfg, Exec(cfg, Init(cfg), run))
  {
    if run == [] {
      InitEmpty(cfg, WrongW(cfg));
    } else {
      RunKeepsRight(cfg, p, run[..|run| - 1]);
      var s, st := Exec(cfg, Init(cfg), run[..|run| - 1]), run[|run| - 1];
      if st.Work? {
        WorkKeepsRight(cfg, s, st.w, st.a);
      } else {
        StepKeepsRight(cfg, s, st);
      }
    }
  }

  // ---------------------------------------------------------------- the rule is what happens

  lemma {:induction false} RetriesAreNotTheEnd(maxRetries: int, f: nat -> Outcome, k: nat, n: nat)
    requires k <= n && (n > 0 ==> n <= maxRetries) && forall i :: k <= i < n ==> f(i) == Retryable
    ensures Attempts(maxRetries, f, k) == Attempts(maxRetries, f, n)
    decreases n - k
  {
    if k < n {
      RetriesAreNotTheEnd(maxRetries, f, k + 1, n);
    }
  }

  lemma ReadyIsUnfinished(c: Copy, f: nat -> Outcome)
    requires Ready(c) && Follows(c.trail, f)
    ensures |c.trail| < Attempts(c.job.maxRetries, f, 0) && Numbered(c.trail)
  {
    RetriesAreNotTheEnd(c.job.maxRetries, f, 0, |c.trail|);
  }

  lemma TriedIsNext(c: Copy, o: Outcome, f: nat -> Outcome)
    requires Tried(c, o) && Follows(c.trail, f)
    ensures f(|c.trail| - 1) == o && Numbered(c.trail)
    ensures |c.trail| == Attempts(c.job.maxRetries, f, 0) <==> o != Retryable || !c.job.CanRetry()
  {
    var n := |c.trail| - 1;
    forall i | 0 <= i < n
      ensures f(i) == Retryable && c.trail[i].number == i + 1
    {
      assert c.trail[i] == c.trail[..n][i];
    }
    RetriesAreNotTheEnd(c.job.maxRetries, f, 0, n);
    if o == Retryable && c.job.CanRetry() {
      RetriesAreNotTheEnd(c.job.maxRetries, f, 0, n + 1);
    }
  }

  /** RetryCount never passes MaxRetries, and stays 0 if MaxRetries is negative. */
  predicate WithinBudget(c: Copy) {
    0 <= c.job.retryCount && (c.job.retryCount == 0 || c.job.retryCount <= c.job.maxRetries)
  }

  /** A successful run is the last of exactly the attempts the rule prescribes. */
  ghost predicate WonByRule(c: Copy) {
    && WithinBudget(c) && c.job.retryCount + 1 == |c.trail| && Numbered(c.trail)
    && forall f: nat -> Outcome :: Follows(c.trail, f) ==>
         |c.trail| == Attempts(c.job.maxRetries, f, 0) && f(|c.trail| - 1) == Success
  }

  /** So is a dead letter's last failure, unless no processor was registered for its type. */
  ghost predicate BuriedByRule(cfg: Config, c: Copy) {
    && WithinBudget(c) && Numbered(c.trail)
    && (c.job.jobType in cfg.registry ==>
          && c.job.retryCount + 1 == |c.trail|
          && forall f: nat -> Outcome :: Follows(c.trail, f) ==>
               |c.trail| == Attempts(c.job.maxRetries, f, 0) && f(|c.trail| - 1) != Success)
  }

  /** A copy that waits for an attempt has not reached the rule's last one. */
  ghost predicate QueuedByRule(c: Copy) {
    && WithinBudget(c) && c.job.retryCount == |c.trail| && Numbered(c.trail)
    && forall f: nat -> Outcome :: Follows(c.trail, f) ==> |c.trail| < Attempts(c.job.maxRetries, f, 0)
  }

  /** A copy that has just failed was at the rule's last attempt exactly when it may not be retried. */
  ghost predicate FailedByRule(c: Copy, retryable: bool) {
    && WithinBudget(c) && c.job.retryCount + 1 == |c.trail| && Numbered(c.trail)
    && forall f: nat -> Outcome :: Follows(c.trail, f) ==>
         (|c.trail| == Attempts(c.job.maxRetries, f, 0) <==> !(retryable && c.job.CanRetry()))
  }

  ghost predicate PhaseByRule(cfg: Config, p: Phase) {
    match p
    case Idle => true
    case Unlocking(_) => true
    case Leaving => true
    case Gone => true
    case Succeeded(c) => WonByRule(c)
    case SuccessSaved(c) => WonByRule(c)
    case Faulted(c, retryable) => FailedByRule(c, retryable)
    case Burying(c, _) => BuriedByRule(cfg, c)
    case Buried(c, _) => BuriedByRule(cfg, c)
    case DeadPushed(c, _) => BuriedByRule(cfg, c)
    case Fanning(c, note) => QueuedByRule(c) && QueuedByRule(note)
    case _ => QueuedByRule(p.c)
  }

  /** Every copy, wherever it is. */
  ghost predicate LifecycleByRule(cfg: Config, s: State) {
    && (forall i :: 0 <= i < |s.sh.won| ==> WonByRule(s.sh.won[i]))
    && (forall i :: 0 <= i < |s.sh.dead| ==> BuriedByRule(cfg, s.sh.dead[i]))
    && AllQueuedByRule(s.sh.lists.high) && AllQueuedByRule(s.sh.lists.medium) && AllQueuedByRule(s.sh.lists.low)
    && AllQueuedByRule(s.channel) && AllQueuedByRule(s.pending)
    && (s.dispatcher.Holding? ==> QueuedByRule(s.dispatcher.c))
    && (forall w :: 0 <= w < |s.workers| ==> PhaseByRule(cfg, s.workers[w]))
    && (forall k :: 0 <= k < |s.sh.timers| && !s.sh.timers[k].Spent? ==> QueuedByRule(s.sh.timers[k].c))
  }

  ghost predicate AllQueuedByRule(xs: seq<Copy>) {
    forall i :: 0 <= i < |xs| ==> QueuedByRule(xs[i])
  }

  /** In every run, with any failures, early timers and admin retries: since a copy was last put on the queue from
      outside, its attempts are those of the rule, for every sequence of processor outcomes, wherever it is now. */
  lemma {:induction false} AttemptsFollowTheRule(cfg: Config, p: Policy, run: seq<Step>)
    requires Legal(cfg, p, Init(cfg), run)
    ensures LifecycleByRule(cfg, Exec(cfg, Init(cfg), run))
  {
    var s := Exec(cfg, Init(cfg), run);
    RunKeepsRight(cfg, p, run);
    EndsByRule(cfg, s);
    AllQueuedRight(cfg, s.channel);
    AllQueuedRight(cfg, s.pending);
    AllQueuedRight(cfg, s.sh.lists.high);
    AllQueuedRight(cfg, s.sh.lists.medium);
    AllQueuedRight(cfg, s.sh.lists.low);
    if s.dispatcher.Holding? {
      QueuedRule(s.dispatcher.c);
    }
    AllPhasesRight(cfg, s.workers);
    AllTimersRight(cfg, s.sh.timers);
  }

  lemma EndsByRule(cfg: Config, s: State)
    requires AllRight(cfg, s)
    ensures forall i :: 0 <= i < |s.sh.won| ==> WonByRule(s.sh.won[i])
    ensures forall i :: 0 <= i < |s.sh.dead| ==> BuriedByRule(cfg, s.sh.dead[i])
  {
    forall i | 0 <= i < |s.sh.won|
      ensures WonByRule(s.sh.won[i])
    {
      SumAtLeast(s.sh.won, i, WrongW(cfg).won);
      WonRule(s.sh.won[i]);
    }
    forall i | 0 <= i < |s.sh.dead|
      ensures BuriedByRule(cfg, s.sh.dead[i])
    {
      SumAtLeast(s.sh.dead, i, WrongW(cfg).dead);
      BuriedRule(cfg, s.sh.dead[i]);
    }
  }

  lemma AllQueuedRight(cfg: Config, xs: seq<Copy>)
    requires Sum(xs, WrongW(cfg).queued) == 0
    ensures AllQueuedByRule(xs)
  {
    forall i | 0 <= i < |xs|
      ensures QueuedByRule(xs[i])
    {
      SumAtLeast(xs, i, WrongW(cfg).queued);
      QueuedRule(xs[i]);
    }
  }

  lemma AllPhasesRight(cfg: Config, ps: seq<Phase>)
    requires Sum(ps, WrongW(cfg).phase) == 0
    ensures forall w :: 0 <= w < |ps| ==> PhaseByRule(cfg, ps[w])
  {
    forall w | 0 <= w < |ps|
      ensures PhaseByRule(cfg, ps[w])
    {
      SumAtLeast(ps, w, WrongW(cfg).phase);
      PhaseRule(cfg, ps[w]);
    }
  }

  lemma AllTimersRight(cfg: Config, ts: seq<Timer>)
    requires Sum(ts, WrongW(cfg).timer) == 0
    ensures forall k :: 0 <= k < |ts| && !ts[k].Spent? ==> QueuedByRule(ts[k].c)
  {
    forall k | 0 <= k < |ts| && !ts[k].Spent?
      ensures QueuedByRule(ts[k].c)
    {
      SumAtLeast(ts, k, WrongW(cfg).timer);
      QueuedRule(ts[k].c);
    }
  }

  lemma PhaseRule(cfg: Config, p: Phase)
    requires PhaseRight(cfg, p)
    ensures PhaseByRule(cfg, p)
  {
    match p
    case Idle =>
    case Unlocking(_) =>
    case Leaving =>
    case Gone =>
    case Succeeded(c) => WonRule(c);
    case SuccessSaved(c) => WonRule(c);
    case Faulted(c, retryable) => FailedRule(c, retryable);
    case Burying(c, _) => BuriedRule(cfg, c);
    case Buried(c, _) => BuriedRule(cfg, c);
    case DeadPushed(c, _) => BuriedRule(cfg, c);
    case Fanning(c, note) =>
      QueuedRule(c);
      QueuedRule(note);
    case _ => QueuedRule(p.c);
  }

  lemma TriedIsNumbered(c: Copy, o: Outcome)
    requires Tried(c, o)
    ensures WithinBudget(c) && Numbered(c.trail)
  {
    var n := |c.trail| - 1;
    forall i | 0 <= i < |c.trail|
      ensures c.trail[i].number == i + 1
    {
      if i < n {
        assert c.trail[i] == c.trail[..n][i];
      }
    }
  }

  lemma WonRule(c: Copy)
    requires Tried(c, Success)
    ensures WonByRule(c)
  {
    TriedIsNumbered(c, Success);
    forall f: nat -> Outcome | Follows(c.trail, f)
      ensures |c.trail| == Attempts(c.job.maxRetries, f, 0) && f(|c.trail| - 1) == Success
    {
      TriedIsNext(c, Success, f);
    }
  }

  lemma BuriedRule(cfg: Config, c: Copy)
    requires BuriedRightly(cfg, c)
    ensures BuriedByRule(cfg, c)
  {
    if Tried(c, NonRetryable) {
      TriedIsNumbered(c, NonRetryable);
    } else if Tried(c, Retryable) {
      TriedIsNumbered(c, Retryable);
    }
    forall f: nat -> Outcome | Follows(c.trail, f) && c.job.jobType in cfg.registry
      ensures |c.trail| == Attempts(c.job.maxRetries, f, 0) && f(|c.trail| - 1) != Success
    {
      if Tried(c, NonRetryable) {
        TriedIsNext(c, NonRetryable, f);
      } else {
        TriedIsNext(c, Retryable, f);
      }
    }
  }

  lemma FailedRule(c: Copy, retryable: bool)
    requires Tried(c, if retryable then Retryable else NonRetryable)
    ensures FailedByRule(c, retryable)
  {
    var o := if retryable then Retryable else NonRetryable;
    TriedIsNumbered(c, o);
    forall f: nat -> Outcome | Follows(c.trail, f)
      ensures |c.trail| == Attempts(c.job.maxRetries, f, 0) <==> !(retryable && c.job.CanRetry())
    {
      TriedIsNext(c, o, f);
    }
  }

  lemma QueuedRule(c: Copy)
    requires Ready(c)
    ensures QueuedByRule(c)
  {
    forall f: nat -> Outcome | Follows(c.trail, f)
      ensures |c.trail| < Attempts(c.job.maxRetries, f, 0)
    {
      ReadyIsUnfinished(c, f);
    }
  }
}
