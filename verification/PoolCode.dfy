/** The worker's process and toDeadLetter as the source writes them, step by step on the fields of the pool, with what
    one delivery leaves behind stated on those fields; every delivery as an uninterrupted path of the protocol's
    actions; and the retry backoff. */
module PoolCode {
  import opened Domain
  import opened PoolProtocol
  import PQ = PriorityQueue

  /** The notification that a successful registration enqueues, if its row can be created, and whether it is pushed. */
  datatype FanOut = NoFanOut | FanOut(note: Job, push: bool)

  /** How the store, the cache and the processor answer the calls of one process invocation. */
  datatype Replies = Replies(
    getDone: bool, setNX: bool, saveProcessing: bool, outcome: Outcome, fan: FanOut, saveSuccess: bool, markDone: bool,
    saveDead: bool, pushDead: bool, saveRetry: bool, unlock: bool)

  // ---------------------------------------------------------------- what one delivery leaves behind

  /** What a delivery can see and change. */
  datatype Desk = Desk(
    lists: PQ.Lists<Copy>, dead: seq<Copy>, rows: map<Id, Job>, locks: set<Id>, done: set<Id>, timers: seq<Timer>)

  /** A write of the job's status and retry count: it reaches the row if the call succeeds and the row exists. */
  function Written(rows: map<Id, Job>, id: Id, status: JobStatus, count: int, ok: bool): map<Id, Job> {
    if ok && id in rows then rows[id := rows[id].(status := status, retryCount := count)] else rows
  }

  function Tried(c: Copy, o: Outcome): Copy {
    c.(trail := c.trail + [Attempt(c.job.retryCount + 1, o)])
  }

  /** The registration creates its notification. */
  predicate Notifies(maxRetries: int, c: Copy, io: Replies, rows: map<Id, Job>) {
    && c.job.jobType == REGISTRATION && io.outcome == Success && io.fan.FanOut? && io.fan.note.id !in rows
    && io.fan.note == Job(io.fan.note.id, NOTIFICATION, io.fan.note.payload, QUEUED, 0, maxRetries, LOW)
  }

  function Noted(maxRetries: int, c: Copy, io: Replies, rows: map<Id, Job>): map<Id, Job> {
    if Notifies(maxRetries, c, io, rows) then rows[io.fan.note.id := io.fan.note] else rows
  }

  /** ... and pushes it to the low list. */
  function Welcomed(maxRetries: int, c: Copy, io: Replies, rows: map<Id, Job>, lists: PQ.Lists<Copy>): PQ.Lists<Copy> {
    if Notifies(maxRetries, c, io, rows) && io.fan.push then lists.(low := [Copy(io.fan.note, [])] + lists.low)
    else lists
  }

  /** A successful run: the row reads SUCCESS, the marker is set, nothing is queued but a registration's welcome. */
  predicate Finished(maxRetries: int, c: Copy, io: Replies, b: Desk, a: Desk) {
    var marked := Written(b.rows, c.Id(), PROCESSING, c.job.retryCount, io.saveProcessing);
    var noted := Noted(maxRetries, c, io, marked);
    && a.rows == Written(noted, c.Id(), SUCCESS, c.job.retryCount, io.saveSuccess)
    && a.done == (if io.markDone then b.done + {c.Id()} else b.done)
    && a.lists == Welcomed(maxRetries, c, io, marked, b.lists)
    && a.dead == b.dead && a.timers == b.timers
  }

  /** A burial: the row reads DEAD_LETTER, the copy heads the dead-letter list, the marker is set. */
  predicate Entombed(c: Copy, io: Replies, b: Desk, a: Desk) {
    && a.rows == Written(b.rows, c.Id(), DEAD_LETTER, c.job.retryCount, io.saveDead)
    && a.done == (if io.markDone then b.done + {c.Id()} else b.done)
    && a.dead == (if io.pushDead then [c.(job := c.job.(status := DEAD_LETTER))] + b.dead else b.dead)
    && a.lists == b.lists && a.timers == b.timers
  }

  /** A scheduled retry: the row reads QUEUED with one more retry, and one timer holds that copy. */
  predicate Rescheduled(c: Copy, io: Replies, b: Desk, a: Desk) {
    && a.rows == Written(b.rows, c.Id(), QUEUED, c.job.retryCount + 1, io.saveRetry)
    && a.timers == b.timers + [Waiting(c.(job := c.job.(status := QUEUED, retryCount := c.job.retryCount + 1)))]
    && a.done == b.done && a.dead == b.dead && a.lists == b.lists
  }

  predicate Skips(c: Copy, io: Replies, b: Desk) {
    (io.getDone && c.Id() in b.done) || !io.setNX || c.Id() in b.locks
  }

  /** The part of a delivery under the lock; the lock itself is not its business. */
  predicate Guarded(maxRetries: int, c: Copy, io: Replies, b: Desk, a: Desk) {
    var marked := b.(rows := Written(b.rows, c.Id(), PROCESSING, c.job.retryCount, io.saveProcessing));
    && (io.outcome == Success ==> Finished(maxRetries, c, io, b, a))
    && (io.outcome == NonRetryable || (io.outcome == Retryable && c.job.retryCount >= c.job.maxRetries) ==>
          Entombed(Tried(c, io.outcome), io, marked, a))
    && (io.outcome == Retryable && c.job.retryCount < c.job.maxRetries ==>
          Rescheduled(Tried(c, Retryable), io, marked, a))
  }

  /** What one delivery does to the table, the markers, the locks, the lists and the timers. */
  predicate Handled(registry: set<JobType>, maxRetries: int, c: Copy, io: Replies, b: Desk, a: Desk) {
    if c.job.jobType !in registry then Entombed(c, io, b, a) && a.locks == b.locks
    else if Skips(c, io, b) then a == b
    else
      && Guarded(maxRetries, c, io, b, a)
      && a.locks == if io.unlock then b.locks else b.locks + {c.Id()}
  }

  lemma GuardedIgnoresLocks(maxRetries: int, c: Copy, io: Replies, b: Desk, a: Desk, locks: set<Id>, locks': set<Id>)
    requires Guarded(maxRetries, c, io, b, a)
    ensures Guarded(maxRetries, c, io, b.(locks := locks), a.(locks := locks'))
  {}

  lemma GuardedSuccess(maxRetries: int, c: Copy, io: Replies, b: Desk, a: Desk)
    requires Guarded(maxRetries, c, io, b, a) && io.outcome == Success
    ensures io.markDone ==> c.Id() in a.done
    ensures io.saveSuccess && c.Id() in b.rows ==> c.Id() in a.rows && a.rows[c.Id()].status == SUCCESS
  {}

  /** Once a job has succeeded and its marker is set, a further delivery of any copy of it changes nothing, as long as
      the marker is there and can be read. */
  lemma SecondDeliveryIsNoOp(registry: set<JobType>, maxRetries: int, c: Copy, io: Replies, b: Desk, a: Desk,
                             c2: Copy, io2: Replies, b2: Desk, a2: Desk)
    requires c.job.jobType in registry && !Skips(c, io, b) && io.outcome == Success && io.markDone
    requires Handled(registry, maxRetries, c, io, b, a)
    requires c2.Id() == c.Id() && c2.job.jobType in registry && a.done <= b2.done && io2.getDone
    requires Handled(registry, maxRetries, c2, io2, b2, a2)
    ensures c.Id() in a.done && a2 == b2
  {}

  class Pool {
    const registry: set<JobType>
    const maxRetries: int
    var retryBase: int
    var retryMax: int
    var rows: map<Id, Job>
    var lists: PQ.Lists<Copy>
    var locks: set<Id>
    var done: set<Id>
    var deadLetter: seq<Copy>
    var retries: seq<Timer>

    /** maxRetries: the budget the enqueue path gives new jobs. */
    constructor (registry: set<JobType>, maxRetries: int, retryBase: int, retryMax: int)
      ensures this.registry == registry && this.maxRetries == maxRetries
      ensures this.retryBase == retryBase && this.retryMax == retryMax
      ensures Here() == Desk(PQ.Lists([], [], []), [], map[], {}, {}, [])
    {
      this.registry, this.maxRetries, this.retryBase, this.retryMax := registry, maxRetries, retryBase, retryMax;
      rows, lists, locks, done, deadLetter, retries := map[], PQ.Lists([], [], []), {}, {}, [], [];
    }

    ghost function Here(): Desk
      reads this
    {
      Desk(lists, deadLetter, rows, locks, done, retries)
    }

    method Update(job: Job, ok: bool)
      modifies this`rows
      ensures rows == Written(old(rows), job.id, job.status, job.retryCount, ok)
    {
      if ok && job.id in rows {
        rows := rows[job.id := rows[job.id].(status := job.status, retryCount := job.retryCount)];
      }
    }

    /** One delivery of a job, from the channel to the deferred lock delete. */
    method Process(c0: Copy, io: Replies)
      modifies this`lists, this`rows, this`locks, this`done, this`deadLetter, this`retries
      ensures Handled(registry, maxRetries, c0, io, old(Here()), Here())
      // in particular, once the processor has run and succeeded
      ensures c0.job.jobType in registry && !Skips(c0, io, old(Here())) && io.outcome == Success ==>
        && (io.markDone ==> c0.Id() in done)
        && (io.saveSuccess && c0.Id() in old(rows) ==> c0.Id() in rows && rows[c0.Id()].status == SUCCESS)
    {
      var c := c0;
      if c.job.jobType !in registry {
        ToDeadLetter(c, io);
        return;
      }
      // Duplicate-processing guards.
      if io.getDone && c.Id() in done {
        return;
      }
      var acquired := io.setNX && c.Id() !in locks;
      if !acquired {
        return;
      }
      locks := locks + {c.Id()};
      ghost var held := Here();
      RunGuarded(c, io);
      ghost var after := Here();
      // The deferred lock delete.
      if io.unlock {
        locks := locks - {c.Id()};
        assert held.locks - {c.Id()} == old(locks);
      }
      GuardedIgnoresLocks(maxRetries, c, io, held, after, old(locks), locks);
      if io.outcome == Success {
        GuardedSuccess(maxRetries, c, io, old(Here()), Here());
      }
    }

    /** The body of process while the lock is held. */
    method RunGuarded(c0: Copy, io: Replies)
      modifies this`lists, this`rows, this`done, this`deadLetter, this`retries
      ensures Guarded(maxRetries, c0, io, old(Here()), Here())
    {
      var c := c0;
      c := c.(job := c.job.(status := PROCESSING));
      Update(c.job, io.saveProcessing);
      RunProcessor(c, io);
      c := c.(trail := c.trail + [Attempt(c.job.retryCount + 1, io.outcome)]);
      if io.outcome == Success {
        Succeed(c, io);
      } else if io.outcome == NonRetryable || !c.job.CanRetry() {
        ToDeadLetter(c, io);
      } else {
        Reschedule(c, io);
      }
    }

    /** Run the processor, whose outcome is given; a registration may create and push its notification meanwhile. */
    method RunProcessor(c: Copy, io: Replies)
      modifies this`lists, this`rows
      ensures rows == Noted(maxRetries, c, io, old(rows))
      ensures lists == Welcomed(maxRetries, c, io, old(rows), old(lists))
    {
      if c.job.jobType == REGISTRATION && io.outcome == Success && io.fan.FanOut? {
        var note := io.fan.note;
        if note == NewJob(note.id, NOTIFICATION, note.payload, maxRetries) && note.id !in rows {
          rows := rows[note.id := note];
          if io.fan.push {
            lists := lists.LPush(PQ.KeyForPriority(note.priority), Copy(note, []));
          }
        }
      }
    }

    /** A retryable failure with budget left: save the row as QUEUED and start the retry timer. */
    method Reschedule(c0: Copy, io: Replies)
      modifies this`rows, this`retries
      ensures Rescheduled(c0, io, old(Here()), Here())
    {
      var c := c0.(job := c0.job.(retryCount := c0.job.retryCount + 1));
      c := c.(job := c.job.(status := QUEUED));
      Update(c.job, io.saveRetry);
      retries := retries + [Waiting(c)];
    }

    method Succeed(c0: Copy, io: Replies)
      modifies this`rows, this`done
      ensures done == if io.markDone then old(done) + {c0.Id()} else old(done)
      ensures rows == Written(old(rows), c0.Id(), SUCCESS, c0.job.retryCount, io.saveSuccess)
    {
      var c := c0.(job := c0.job.(status := SUCCESS));
      Update(c.job, io.saveSuccess);
      if io.markDone {
        done := done + {c.Id()};
      }
    }

    /** toDeadLetter: record the terminal status, push to the dead-letter list, set the done marker. */
    method ToDeadLetter(c0: Copy, io: Replies)
      modifies this`rows, this`done, this`deadLetter
      ensures Entombed(c0, io, old(Here()), Here())
    {
      var c := c0.(job := c0.job.(status := DEAD_LETTER));
      Update(c.job, io.saveDead);
      if io.pushDead {
        deadLetter := [c] + deadLetter;
      }
      if io.markDone {
        done := done + {c.Id()};
      }
    }

    /** Full jitter: any delay between zero and the capped exponential; draw is the random source. */
    method Backoff(attempt: nat, draw: nat) returns (delay: nat)
      requires attempt >= 1
      modifies this`retryBase, this`retryMax
      ensures retryBase == (if old(retryBase) <= 0 then 500_000_000 else old(retryBase))
      ensures retryMax == (if old(retryMax) <= 0 then 30_000_000_000 else old(retryMax))
      ensures delay <= BackoffCap(retryBase, retryMax, attempt)
      ensures draw <= BackoffCap(retryBase, retryMax, attempt) ==> delay == draw
      ensures attempt == 1 && draw <= retryBase <= retryMax ==> delay == draw
      ensures attempt == 2 && draw <= retryBase + retryBase <= retryMax ==> delay == draw
    {
      if retryBase <= 0 {
        retryBase := 500_000_000;
      }
      if retryMax <= 0 {
        retryMax := 30_000_000_000;
      }
      delay := draw % (BackoffCap(retryBase, retryMax, attempt) + 1);
      DelayInRange(retryBase, retryMax, attempt, draw);
    }
  }

  // ---------------------------------------------------------------- backoff

  function Pow2(n: nat): nat {
    if n == 0 then 1 else 2 * Pow2(n - 1)
  }

  /** The largest delay backoff may draw: base * 2^(attempt-1), capped. */
  function BackoffCap(base: nat, most: nat, attempt: nat): nat
    requires attempt >= 1
  {
    var exp := base * Pow2(attempt - 1);
    if exp <= most then exp else most
  }

  /** The first cap is the base, or the limit if that is smaller; caps double until they reach the limit, and stay
      there. This fixes every cap. */
  lemma BackoffDoubles(base: nat, most: nat, attempt: nat)
    requires attempt >= 1
    ensures BackoffCap(base, most, 1) == if base <= most then base else most
    ensures BackoffCap(base, most, attempt + 1) ==
            if 2 * BackoffCap(base, most, attempt) <= most then 2 * BackoffCap(base, most, attempt) else most
    ensures BackoffCap(base, most, attempt) <= BackoffCap(base, most, attempt + 1) <= most
  {
    assert Pow2(attempt) == 2 * Pow2(attempt - 1);
    assert base * (2 * Pow2(attempt - 1)) == 2 * (base * Pow2(attempt - 1));
  }

  /** The k-th cap is the base doubled k times, as long as that stays within the limit. */
  lemma {:induction false} BackoffGrows(base: nat, most: nat, doubled: seq<nat>)
    requires doubled != [] && doubled[0] == base
    requires forall k :: 0 < k < |doubled| ==> doubled[k] == doubled[k - 1] + doubled[k - 1]
    ensures doubled[|doubled| - 1] <= most ==> BackoffCap(base, most, |doubled|) == doubled[|doubled| - 1]
    ensures doubled[|doubled| - 1] >= most ==> BackoffCap(base, most, |doubled|) == most
  {
    BackoffDoubles(base, most, 1);
    if |doubled| > 1 {
      BackoffGrows(base, most, doubled[..|doubled| - 1]);
      BackoffDoubles(base, most, |doubled| - 1);
    }
  }

  lemma RemainderInRange(draw: nat, most: nat)
    ensures draw % (most + 1) <= most && (draw <= most ==> draw % (most + 1) == draw)
  {}

  /** The first two caps, without powers. */
  lemma FirstCaps(base: nat, most: nat)
    ensures base <= most ==> BackoffCap(base, most, 1) == base
    ensures base + base <= most ==> BackoffCap(base, most, 2) == base + base
  {
    BackoffDoubles(base, most, 1);
  }

  lemma DelayInRange(base: nat, most: nat, attempt: nat, draw: nat)
    requires attempt >= 1
    ensures var delay := draw % (BackoffCap(base, most, attempt) + 1);
            && delay <= BackoffCap(base, most, attempt)
            && (draw <= BackoffCap(base, most, attempt) ==> delay == draw)
            && (attempt == 1 && draw <= base <= most ==> delay == draw)
            && (attempt == 2 && draw <= base + base <= most ==> delay == draw)
  {
    RemainderInRange(draw, BackoffCap(base, most, attempt));
    FirstCaps(base, most);
  }

  // ---------------------------------------------------------------- a delivery is a path of protocol actions

  /** The processor fans out before it returns. */
  predicate FansOut(cfg: Config, sh: Shared, p: Phase, io: Replies) {
    io.outcome == Success && io.fan.FanOut? && CanAct(cfg, sh, p, FanCreate(io.fan.note))
  }

  /** The action is what process does when its calls are answered by io. */
  predicate Answered(cfg: Config, sh: Shared, p: Phase, io: Replies, a: Action) {
    match a
    case CheckDone(ok) => ok == io.getDone
    case TryLock(ok) => ok == io.setNX
    case MarkProcessing(ok) => ok == io.saveProcessing
    case FanCreate(note) => FansOut(cfg, sh, p, io) && note == io.fan.note
    case FanPush(ok) => io.fan.FanOut? && ok == io.fan.push
    case Return(outcome) => outcome == io.outcome && !FansOut(cfg, sh, p, io)
    case SaveSuccess(ok) => ok == io.saveSuccess
    case MarkSuccess(ok) => ok == io.markDone
    case SaveDead(ok) => ok == io.saveDead
    case PushDead(ok) => ok == io.pushDead
    case MarkDead(ok) => ok == io.markDone
    case SaveRetry(ok) => ok == io.saveRetry
    case Unlock(ok) => ok == io.unlock
    case _ => true
  }

  /** The actions lead from one phase of a worker to another, each as its calls are answered. */
  ghost predicate Path(cfg: Config, io: Replies, sh: Shared, p: Phase, path: seq<Action>, sh': Shared, p': Phase)
    decreases |path|
  {
    if path == [] then sh' == sh && p' == p
    else CanAct(cfg, sh, p, path[0]) && Answered(cfg, sh, p, io, path[0]) &&
         var r := Act(cfg, sh, p, path[0]); Path(cfg, io, r.sh, r.p, path[1..], sh', p')
  }

  lemma {:induction false} PathSnoc(
    cfg: Config, io: Replies, sh: Shared, p: Phase, path: seq<Action>, mid: Shared, q: Phase, a: Action)
    requires Path(cfg, io, sh, p, path, mid, q) && CanAct(cfg, mid, q, a) && Answered(cfg, mid, q, io, a)
    ensures var r := Act(cfg, mid, q, a); Path(cfg, io, sh, p, path + [a], r.sh, r.p)
    decreases |path|
  {
    if path == [] {
      assert (path + [a])[1..] == [];
    } else {
      var r := Act(cfg, sh, p, path[0]);
      PathSnoc(cfg, io, r.sh, r.p, path[1..], mid, q, a);
      assert (path + [a])[1..] == path[1..] + [a];
    }
  }

  lemma OneAnswer(cfg: Config, sh: Shared, p: Phase, io: Replies, a: Action, b: Action)
    requires CanAct(cfg, sh, p, a) && CanAct(cfg, sh, p, b)
    requires Answered(cfg, sh, p, io, a) && Answered(cfg, sh, p, io, b)
    ensures a == b
  {}

  /** Given the answers to its calls, process has exactly one path and one result. */
  lemma {:induction false} AnswersDecide(cfg: Config, sh: Shared, p: Phase, io: Replies, path: seq<Action>, sh': Shared,
                                         path2: seq<Action>, sh2: Shared)
    requires Path(cfg, io, sh, p, path, sh', Idle) && Path(cfg, io, sh, p, path2, sh2, Idle)
    ensures path == path2 && sh' == sh2
    decreases |path|
  {
    if path != [] && path2 != [] {
      OneAnswer(cfg, sh, p, io, path[0], path2[0]);
      var r := Act(cfg, sh, p, path[0]);
      AnswersDecide(cfg, r.sh, r.p, io, path[1..], sh', path2[1..], sh2);
      assert path == [path[0]] + path[1..] && path2 == [path2[0]] + path2[1..];
    }
  }

  /** Some path, with these answers. */
  ghost predicate Walks(cfg: Config, io: Replies, sh: Shared, p: Phase, sh': Shared, p': Phase) {
    exists path :: Path(cfg, io, sh, p, path, sh', p')
  }

  lemma Wait(cfg: Config, io: Replies, sh: Shared, p: Phase)
    ensures Walks(cfg, io, sh, p, sh, p)
  {
    assert Path(cfg, io, sh, p, [], sh, p);
  }

  lemma Walk(cfg: Config, io: Replies, sh: Shared, p: Phase, mid: Shared, q: Phase, a: Action)
    requires Walks(cfg, io, sh, p, mid, q) && CanAct(cfg, mid, q, a) && Answered(cfg, mid, q, io, a)
    ensures var r := Act(cfg, mid, q, a); Walks(cfg, io, sh, p, r.sh, r.p)
  {
    var path :| Path(cfg, io, sh, p, path, mid, q);
    PathSnoc(cfg, io, sh, p, path, mid, q, a);
  }

  function Works(w: nat, path: seq<Action>): seq<Step> {
    if path == [] then [] else [Work(w, path[0])] + Works(w, path[1..])
  }

  lemma AnythingGoes(s: State, st: Step)
    ensures Permitted(ANYTHING, s, st)
  {}

  lemma {:induction false} RunFromFirst(cfg: Config, s: State, st: Step, rest: seq<Step>)
    requires Enabled(cfg, s, st)
    ensures Exec(cfg, s, [st] + rest) == Exec(cfg, Next(cfg, s, st), rest)
    ensures Legal(cfg, ANYTHING, Next(cfg, s, st), rest) ==> Legal(cfg, ANYTHING, s, [st] + rest)
    decreases |rest|
  {
    var run := [st] + rest;
    var before, last := run[..|run| - 1], run[|run| - 1];
    var u := Exec(cfg, s, before);
    AnythingGoes(u, last);
    if rest == [] {
      assert before == [] && last == st && u == s;
    } else {
      var most := rest[..|rest| - 1];
      RunFromFirst(cfg, s, st, most);
      assert before == [st] + most && last == rest[|rest| - 1];
    }
  }

  /** A path of actions is a legal run of the whole system in which only worker w moves. */
  lemma {:induction false} PathIsRun(cfg: Config, io: Replies, s: State, w: nat, path: seq<Action>, sh': Shared,
                                     p': Phase)
    requires w < |s.workers| && Path(cfg, io, s.sh, s.workers[w], path, sh', p')
    ensures Legal(cfg, ANYTHING, s, Works(w, path))
    ensures Exec(cfg, s, Works(w, path)) == s.(sh := sh', workers := s.workers[w := p'])
    decreases |path|
  {
    if path == [] {
      assert s.workers[w := p'] == s.workers;
    } else {
      var st := Work(w, path[0]);
      var t := Next(cfg, s, st);
      PathIsRun(cfg, io, t, w, path[1..], sh', p');
      RunFromFirst(cfg, s, st, Works(w, path[1..]));
      assert t.workers[w := p'] == s.workers[w := p'];
    }
  }

  /** What a delivery sees of the shared state. */
  function DeskOf(sh: Shared): Desk {
    Desk(sh.lists, sh.dead, sh.rows, sh.locks, sh.done, sh.timers)
  }

  lemma WalkBurial(cfg: Config, io: Replies, sh: Shared, p: Phase, b: Shared, c: Copy, locked: bool, d: Desk)
    returns (a: Shared)
    requires Walks(cfg, io, sh, p, b, Burying(c, locked)) && Entombed(c, io, DeskOf(b), d) && d.locks == b.locks
    ensures DeskOf(a) == d && Walks(cfg, io, sh, p, a, if locked then Unlocking(c.Id()) else Idle)
  {
    var dead := c.WithStatus(DEAD_LETTER);
    Walk(cfg, io, sh, p, b, Burying(c, locked), SaveDead(io.saveDead));
    a := b.Save(dead, io.saveDead);
    Walk(cfg, io, sh, p, a, Buried(dead, locked), PushDead(io.pushDead));
    a := if io.pushDead then a.(dead := [dead] + a.dead) else a.Drop(dead);
    Walk(cfg, io, sh, p, a, DeadPushed(dead, locked), MarkDead(io.markDone));
    a := a.Mark(c.Id(), io.markDone);
  }

  lemma WalkRetry(cfg: Config, io: Replies, sh: Shared, p: Phase, b: Shared, c: Copy, d: Desk) returns (a: Shared)
    requires Walks(cfg, io, sh, p, b, Faulted(c, true)) && c.job.CanRetry()
    requires Rescheduled(c, io, DeskOf(b), d) && d.locks == b.locks
    ensures DeskOf(a) == d && Walks(cfg, io, sh, p, a, Unlocking(c.Id()))
  {
    Walk(cfg, io, sh, p, b, Faulted(c, true), Decide);
    var again := c.(job := c.job.(retryCount := c.job.retryCount + 1));
    Walk(cfg, io, sh, p, b, Requeuing(again), SaveRetry(io.saveRetry));
    again := again.WithStatus(QUEUED);
    a := b.Save(again, io.saveRetry);
    Walk(cfg, io, sh, p, a, Spawning(again), Spawn);
    a := a.(timers := a.timers + [Waiting(again)]);
  }

  /** The fan-out of a registration. */
  lemma WalkFanOut(cfg: Config, io: Replies, sh: Shared, p: Phase, b: Shared, c: Copy) returns (a: Shared)
    requires Walks(cfg, io, sh, p, b, Running(c)) && Notifies(cfg.maxRetries, c, io, b.rows)
    ensures Walks(cfg, io, sh, p, a, Fanned(c))
    ensures var note := io.fan.note;
            DeskOf(a) == DeskOf(b).(rows := b.rows[note.id := note],
                                    lists := if io.fan.push then b.lists.(low := [Copy(note, [])] + b.lists.low)
                                             else b.lists)
  {
    var note := io.fan.note;
    Walk(cfg, io, sh, p, b, Running(c), FanCreate(note));
    a := b.(rows := b.rows[note.id := note]);
    Walk(cfg, io, sh, p, a, Fanning(c, Copy(note, [])), FanPush(io.fan.push));
    a := if io.fan.push then a.Accept(Copy(note, [])) else a;
  }

  /** The processor's run, up to its return. */
  lemma WalkProcessor(cfg: Config, io: Replies, sh: Shared, p: Phase, b: Shared, c: Copy) returns (a: Shared)
    requires Walks(cfg, io, sh, p, b, Running(c))
    ensures Walks(cfg, io, sh, p, a, if io.outcome == Success then Succeeded(Tried(c, Success))
                                     else Faulted(Tried(c, io.outcome), io.outcome == Retryable))
    ensures DeskOf(a) == DeskOf(b).(
              rows := Noted(cfg.maxRetries, c, io, b.rows),
              lists := Welcomed(cfg.maxRetries, c, io, b.rows, b.lists))
  {
    a := b;
    var q := Running(c);
    if Notifies(cfg.maxRetries, c, io, b.rows) {
      a := WalkFanOut(cfg, io, sh, p, b, c);
      q := Fanned(c);
    }
    Walk(cfg, io, sh, p, a, q, Return(io.outcome));
    a := if io.outcome == Success then a.(won := a.won + [Tried(c, Success)]) else a;
  }

  lemma WalkSuccess(cfg: Config, io: Replies, sh: Shared, p: Phase, b: Shared, c: Copy) returns (a: Shared)
    requires Walks(cfg, io, sh, p, b, Succeeded(c))
    ensures Walks(cfg, io, sh, p, a, Unlocking(c.Id()))
    ensures DeskOf(a) == DeskOf(b).(
              rows := Written(b.rows, c.Id(), SUCCESS, c.job.retryCount, io.saveSuccess),
              done := if io.markDone then b.done + {c.Id()} else b.done)
  {
    var won := c.WithStatus(SUCCESS);
    Walk(cfg, io, sh, p, b, Succeeded(c), SaveSuccess(io.saveSuccess));
    a := b.Save(won, io.saveSuccess);
    Walk(cfg, io, sh, p, a, SuccessSaved(won), MarkSuccess(io.markDone));
    a := a.Mark(c.Id(), io.markDone);
  }

  lemma WalkFailure(cfg: Config, io: Replies, sh: Shared, p: Phase, b: Shared, c: Copy, d: Desk) returns (a: Shared)
    requires Walks(cfg, io, sh, p, b, Faulted(c, io.outcome == Retryable)) && d.locks == b.locks
    requires if io.outcome == Retryable && c.job.CanRetry() then Rescheduled(c, io, DeskOf(b), d)
             else Entombed(c, io, DeskOf(b), d)
    ensures DeskOf(a) == d && Walks(cfg, io, sh, p, a, Unlocking(c.Id()))
  {
    if io.outcome == Retryable && c.job.CanRetry() {
      a := WalkRetry(cfg, io, sh, p, b, c, d);
    } else {
      Walk(cfg, io, sh, p, b, Faulted(c, io.outcome == Retryable), Decide);
      a := WalkBurial(cfg, io, sh, p, b, c, true, d);
    }
  }

  function Marked(c: Copy, io: Replies, b: Desk): Desk {
    b.(rows := Written(b.rows, c.Id(), PROCESSING, c.job.retryCount, io.saveProcessing))
  }

  lemma GuardedFails(maxRetries: int, c: Copy, io: Replies, b: Desk, d: Desk)
    requires Guarded(maxRetries, c, io, b, d) && io.outcome != Success
    ensures var tried := Tried(c.WithStatus(PROCESSING), io.outcome);
            if io.outcome == Retryable && c.job.CanRetry() then Rescheduled(tried, io, Marked(c, io, b), d)
            else Entombed(tried, io, Marked(c, io, b), d)
  {}

  lemma GuardedSucceeds(maxRetries: int, c: Copy, io: Replies, b: Desk, d: Desk)
    requires Guarded(maxRetries, c, io, b, d) && io.outcome == Success && d.locks == b.locks
    ensures var marked := Marked(c, io, b);
            d == marked.(
              rows := Written(Noted(maxRetries, c, io, marked.rows), c.Id(), SUCCESS, c.job.retryCount, io.saveSuccess),
              lists := Welcomed(maxRetries, c, io, marked.rows, b.lists),
              done := if io.markDone then b.done + {c.Id()} else b.done)
  {}

  lemma WalkMark(cfg: Config, io: Replies, sh: Shared, p: Phase, b: Shared, c: Copy) returns (a: Shared)
    requires Walks(cfg, io, sh, p, b, Locked(c))
    ensures DeskOf(a) == Marked(c, io, DeskOf(b)) && Walks(cfg, io, sh, p, a, Running(c.WithStatus(PROCESSING)))
  {
    Walk(cfg, io, sh, p, b, Locked(c), MarkProcessing(io.saveProcessing));
    a := b.Save(c.WithStatus(PROCESSING), io.saveProcessing);
  }

  lemma WalkGuarded(cfg: Config, io: Replies, sh: Shared, p: Phase, b: Shared, c: Copy, d: Desk) returns (a: Shared)
    requires Walks(cfg, io, sh, p, b, Locked(c)) && Guarded(cfg.maxRetries, c, io, DeskOf(b), d) && d.locks == b.locks
    ensures DeskOf(a) == d && Walks(cfg, io, sh, p, a, Unlocking(c.Id()))
  {
    var c1 := c.WithStatus(PROCESSING);
    a := WalkMark(cfg, io, sh, p, b, c);
    a := WalkProcessor(cfg, io, sh, p, a, c1);
    if io.outcome == Success {
      a := WalkSuccess(cfg, io, sh, p, a, Tried(c1, Success));
      GuardedSucceeds(cfg.maxRetries, c, io, DeskOf(b), d);
    } else {
      GuardedFails(cfg.maxRetries, c, io, DeskOf(b), d);
      a := WalkFailure(cfg, io, sh, p, a, Tried(c1, io.outcome), d);
    }
  }

  /** Every delivery, whatever its calls are answered, is a path of the protocol's actions from the receipt of the copy
      to the worker being idle again. */
  lemma DeliveryIsWalk(cfg: Config, io: Replies, b: Shared, c: Copy, d: Desk) returns (a: Shared)
    requires Handled(cfg.registry, cfg.maxRetries, c, io, DeskOf(b), d)
    ensures DeskOf(a) == d && Walks(cfg, io, b, Received(c), a, Idle)
  {
    Wait(cfg, io, b, Received(c));
    if c.job.jobType !in cfg.registry {
      Walk(cfg, io, b, Received(c), b, Received(c), NoProcessor);
      a := WalkBurial(cfg, io, b, Received(c), b, c, false, d);
    } else {
      Walk(cfg, io, b, Received(c), b, Received(c), CheckDone(io.getDone));
      if io.getDone && c.Id() in b.done {
        a := b.Drop(c);
      } else {
        Walk(cfg, io, b, Received(c), b, Checked(c), TryLock(io.setNX));
        if Skips(c, io, DeskOf(b)) {
          a := b.Drop(c);
        } else {
          a := WalkLocked(cfg, io, b, c, d);
        }
      }
    }
  }

  lemma WalkLocked(cfg: Config, io: Replies, b: Shared, c: Copy, d: Desk) returns (a: Shared)
    requires Handled(cfg.registry, cfg.maxRetries, c, io, DeskOf(b), d)
    requires c.job.jobType in cfg.registry && !Skips(c, io, DeskOf(b))
    requires Walks(cfg, io, b, Received(c), b.(locks := b.locks + {c.Id()}), Locked(c))
    ensures DeskOf(a) == d && Walks(cfg, io, b, Received(c), a, Idle)
  {
    var held := b.(locks := b.locks + {c.Id()});
    GuardedIgnoresLocks(cfg.maxRetries, c, io, DeskOf(b), d, held.locks, held.locks);
    a := WalkGuarded(cfg, io, b, Received(c), held, c, d.(locks := held.locks));
    Walk(cfg, io, b, Received(c), a, Unlocking(c.Id()), Unlock(io.unlock));
    a := if io.unlock then a.(locks := a.locks - {c.Id()}) else a;
    assert held.locks - {c.Id()} == b.locks;
  }
}
