/** The duplicate-processing guard with its expiring lock and done marker (internal/worker/pool.go), under arbitrary
    duplicate deliveries: any worker may be handed any job id at any time. The lock is deleted without an owner
    check; what it guarantees depends only on timing, on writing and reading the marker, and on the two guard
    commands. */
module DuplicateGuard {
  import opened Domain

  /** hold: the longest a worker stays between acquiring the lock and deleting it; atomicGuards: the done check and
      the lock claim are one command (the code issues two); reliableMark: writing the done marker never fails;
      reliableCheck: reading it never fails (the code takes a failed read for "not done"). */
  datatype Config = Config(
    lockTTL: nat, doneTTL: nat, hold: nat, workers: nat, atomicGuards: bool, reliableMark: bool, reliableCheck: bool)

  datatype Phase =
    | Free
    | Unmarked(id: Id)                    // saw no done marker, has not claimed the lock yet
    | Entered(id: Id, since: nat)         // holds the lock since then
    | Inside(id: Id, since: nat)          // in Processor.Process
    | Won(id: Id, since: nat)             // Process succeeded, marker not written yet
    | Failed(id: Id, since: nat)
    | Releasing(id: Id, since: nat)

  datatype Win = Pending | MarkedAt(at: nat)

  /** late: Process has started for an id after it had succeeded, and not because the marker's lifetime was over. */
  datatype State = State(
    now: nat, locks: map<Id, nat>, done: map<Id, nat>, workers: seq<Phase>, wins: map<Id, Win>, late: bool)
  {
    predicate LockLive(id: Id) {
      id in locks && now < locks[id]
    }

    predicate DoneLive(id: Id) {
      id in done && now < done[id]
    }
  }

  datatype Step =
    | Tick(d: nat)
    | Check(w: nat, id: Id, read: bool)
    | Acquire(w: nat)
    | Skip(w: nat)                        // the lock was not to be had
    | Enter(w: nat, id: Id, read: bool)   // both guards at once
    | Begin(w: nat)
    | Finish(w: nat, ok: bool)
    | Mark(w: nat, ok: bool)
    | GiveUp(w: nat, dead: bool)          // dead-lettered (with its marker) or left to a retry
    | Release(w: nat, ok: bool)

  predicate Guarded(p: Phase) {
    !p.Free? && !p.Unmarked?
  }

  /** Time may pass only while no guarded run would overstay. */
  predicate MayTick(c: Config, s: State, d: nat) {
    forall v :: 0 <= v < |s.workers| && Guarded(s.workers[v]) ==> s.now + d <= s.workers[v].since + c.hold
  }

  /** The done check lets the worker through: it finds no marker, or fails. */
  predicate SeemsUndone(c: Config, s: State, id: Id, read: bool) {
    if read then !s.DoneLive(id) else !c.reliableCheck
  }

  predicate Enabled(c: Config, s: State, st: Step) {
    match st
    case Tick(d) => MayTick(c, s, d)
    case Check(w, id, read) =>
      w < |s.workers| && s.workers[w].Free? && !c.atomicGuards && SeemsUndone(c, s, id, read)
    case Acquire(w) => w < |s.workers| && s.workers[w].Unmarked? && !s.LockLive(s.workers[w].id)
    case Skip(w) => w < |s.workers| && s.workers[w].Unmarked?
    case Enter(w, id, read) =>
      w < |s.workers| && s.workers[w].Free? && c.atomicGuards && SeemsUndone(c, s, id, read) && !s.LockLive(id)
    case Begin(w) => w < |s.workers| && s.workers[w].Entered?
    case Finish(w, _) => w < |s.workers| && s.workers[w].Inside?
    case Mark(w, ok) => w < |s.workers| && s.workers[w].Won? && (ok || !c.reliableMark)
    case GiveUp(w, _) => w < |s.workers| && s.workers[w].Failed?
    case Release(w, _) => w < |s.workers| && s.workers[w].Releasing?
  }

  /** id has succeeded and its marker should still be keeping it out. */
  predicate Settled(c: Config, s: State, id: Id) {
    id in s.wins && (s.wins[id].MarkedAt? ==> s.now < s.wins[id].at + c.doneTTL)
  }

  function Next(c: Config, s: State, st: Step): State
    requires Enabled(c, s, st)
  {
    if st.Tick? then s.(now := s.now + st.d)
    else
      var w, p := st.w, s.workers[st.w];
      match st
      case Check(_, id, _) => s.(workers := s.workers[w := Unmarked(id)])
      case Acquire(_) =>
        s.(locks := s.locks[p.id := s.now + c.lockTTL], workers := s.workers[w := Entered(p.id, s.now)])
      case Skip(_) => s.(workers := s.workers[w := Free])
      case Enter(_, id, _) =>
        s.(locks := s.locks[id := s.now + c.lockTTL], workers := s.workers[w := Entered(id, s.now)])
      case Begin(_) => s.(workers := s.workers[w := Inside(p.id, p.since)], late := s.late || Settled(c, s, p.id))
      case Finish(_, ok) =>
        if ok then s.(workers := s.workers[w := Won(p.id, p.since)], wins := s.wins[p.id := Pending])
        else s.(workers := s.workers[w := Failed(p.id, p.since)])
      case Mark(_, ok) =>
        var t := s.(workers := s.workers[w := Releasing(p.id, p.since)]);
        if ok then t.(done := s.done[p.id := s.now + c.doneTTL], wins := s.wins[p.id := MarkedAt(s.now)]) else t
      case GiveUp(_, dead) =>
        var t := s.(workers := s.workers[w := Releasing(p.id, p.since)]);
        if dead then t.(done := s.done[p.id := s.now + c.doneTTL]) else t
      case Release(_, ok) =>
        var t := s.(workers := s.workers[w := Free]);
        if ok then t.(locks := s.locks - {p.id}) else t
      case Tick(_) => s
  }

  function Init(c: Config): State {
    State(0, map[], map[], seq(c.workers, i => Free), map[], false)
  }

  function Exec(c: Config, run: seq<Step>): State {
    if run == [] then Init(c)
    else
      var s := Exec(c, run[..|run| - 1]);
      if Enabled(c, s, run[|run| - 1]) then Next(c, s, run[|run| - 1]) else s
  }

  predicate Legal(c: Config, run: seq<Step>) {
    run == [] || (Legal(c, run[..|run| - 1]) && Enabled(c, Exec(c, run[..|run| - 1]), run[|run| - 1]))
  }

  /** Some legal run ends in s. */
  ghost predicate Reachable(c: Config, s: State) {
    exists run :: Legal(c, run) && Exec(c, run) == s
  }

  /** A property of states that every step keeps; being reachable is one. */
  ghost predicate Kept(c: Config, R: State -> bool) {
    forall s, st :: R(s) && Enabled(c, s, st) ==> R(Next(c, s, st))
  }

  ghost function Reaching(c: Config): State -> bool {
    s => Reachable(c, s)
  }

  lemma ReachingIsKept(c: Config)
    ensures Kept(c, Reaching(c)) && Reaching(c)(Init(c))
  {
    assert Legal(c, []) && Exec(c, []) == Init(c);
    forall s, st | Reachable(c, s) && Enabled(c, s, st)
      ensures Reachable(c, Next(c, s, st))
    {
      var run :| Legal(c, run) && Exec(c, run) == s;
      assert (run + [st])[..|run|] == run;
      assert Legal(c, run + [st]) && Exec(c, run + [st]) == Next(c, s, st);
    }
  }

  lemma Go(c: Config, R: State -> bool, s: State, st: Step) returns (s': State)
    requires Kept(c, R) && R(s) && Enabled(c, s, st)
    ensures s' == Next(c, s, st) && R(s')
  {
    s' := Next(c, s, st);
  }

  // ---------------------------------------------------------------- mutual exclusion

  /** Every guarded worker's lock is live, and no two guard the same job. */
  ghost predicate Exclusive(c: Config, s: State) {
    && (forall w :: 0 <= w < |s.workers| && Guarded(s.workers[w]) ==> Holds(c, s, s.workers[w]))
    && (forall v, w :: 0 <= v < w < |s.workers| && Guarded(s.workers[v]) && Guarded(s.workers[w]) ==>
          s.workers[v].id != s.workers[w].id)
  }

  lemma NobodyGuardsFreeLock(c: Config, s: State, id: Id)
    requires Exclusive(c, s) && c.hold < c.lockTTL && !s.LockLive(id)
    ensures forall w :: 0 <= w < |s.workers| && Guarded(s.workers[w]) ==> s.workers[w].id != id
  {}

  ghost predicate Holds(c: Config, s: State, p: Phase)
    requires Guarded(p)
  {
    p.since <= s.now <= p.since + c.hold && p.id in s.locks && s.locks[p.id] == p.since + c.lockTTL
  }

  /** A worker that was guarded already, while another one moves. */
  lemma OldLocksStayLive(c: Config, s: State, st: Step, w: nat)
    requires Exclusive(c, s) && c.hold < c.lockTTL && Enabled(c, s, st)
    requires w < |s.workers| && Guarded(s.workers[w]) && (st.Tick? || st.w != w)
    ensures Holds(c, Next(c, s, st), s.workers[w])
  {
    if st.Acquire? {
      NobodyGuardsFreeLock(c, s, s.workers[st.w].id);
    } else if st.Enter? {
      NobodyGuardsFreeLock(c, s, st.id);
    } else if st.Release? {
      SoleGuard(c, s, st.w, w);
    }
  }

  lemma LocksStayLive(c: Config, s: State, st: Step, w: nat)
    requires Exclusive(c, s) && c.hold < c.lockTTL && Enabled(c, s, st)
    requires w < |s.workers| && Guarded(Next(c, s, st).workers[w])
    ensures Holds(c, Next(c, s, st), Next(c, s, st).workers[w])
  {
    if st.Tick? || st.w != w {
      OldLocksStayLive(c, s, st, w);
    } else {
      OwnLockStaysLive(c, s, st);
    }
  }

  lemma OwnLockStaysLive(c: Config, s: State, st: Step)
    requires Enabled(c, s, st) && !st.Tick? && Guarded(Next(c, s, st).workers[st.w])
    requires Guarded(s.workers[st.w]) ==> Holds(c, s, s.workers[st.w])
    ensures Holds(c, Next(c, s, st), Next(c, s, st).workers[st.w])
  {}

  lemma GuardsStayApart(c: Config, s: State, st: Step, v: nat, w: nat)
    requires Exclusive(c, s) && c.hold < c.lockTTL && Enabled(c, s, st) && v < w < |s.workers|
    requires Guarded(Next(c, s, st).workers[v]) && Guarded(Next(c, s, st).workers[w])
    ensures Next(c, s, st).workers[v].id != Next(c, s, st).workers[w].id
  {
    if st.Acquire? {
      NobodyGuardsFreeLock(c, s, s.workers[st.w].id);
    } else if st.Enter? {
      NobodyGuardsFreeLock(c, s, st.id);
    }
  }

  lemma StepKeepsExclusive(c: Config, s: State, st: Step)
    requires Exclusive(c, s) && c.hold < c.lockTTL && Enabled(c, s, st)
    ensures Exclusive(c, Next(c, s, st))
  {
    var t := Next(c, s, st);
    assert |t.workers| == |s.workers|;
    forall w | 0 <= w < |t.workers| && Guarded(t.workers[w])
      ensures Holds(c, t, t.workers[w])
    {
      LocksStayLive(c, s, st, w);
    }
    forall v, w | 0 <= v < w < |t.workers| && Guarded(t.workers[v]) && Guarded(t.workers[w])
      ensures t.workers[v].id != t.workers[w].id
    {
      GuardsStayApart(c, s, st, v, w);
    }
  }

  lemma {:induction false} RunKeepsExclusive(c: Config, run: seq<Step>)
    requires c.hold < c.lockTTL && Legal(c, run)
    ensures Exclusive(c, Exec(c, run))
  {
    if run != [] {
      RunKeepsExclusive(c, run[..|run| - 1]);
      StepKeepsExclusive(c, Exec(c, run[..|run| - 1]), run[|run| - 1]);
    }
  }

  ghost predicate OneInside(s: State) {
    forall v, w :: 0 <= v < w < |s.workers| && s.workers[v].Inside? && s.workers[w].Inside? ==>
      s.workers[v].id != s.workers[w].id
  }

  ghost predicate AlwaysOneInside(c: Config) {
    forall s :: Reachable(c, s) ==> OneInside(s)
  }

  // ---------------------------------------------------------------- never again after success

  /** A success is either about to be marked by its guard, or marked for the marker's whole lifetime; and whoever
      is about to process may. */
  ghost predicate Covered(c: Config, s: State) {
    && !s.late
    && (forall id :: id in s.wins && s.wins[id].Pending? ==>
          exists w :: 0 <= w < |s.workers| && s.workers[w].Won? && s.workers[w].id == id)
    && (forall id :: id in s.wins && s.wins[id].MarkedAt? ==>
          s.wins[id].at <= s.now && id in s.done && s.wins[id].at + c.doneTTL <= s.done[id])
    && (forall w :: 0 <= w < |s.workers| && (s.workers[w].Entered? || s.workers[w].Inside?) ==>
          !Settled(c, s, s.workers[w].id))
  }

  ghost predicate Sound(c: Config) {
    c.atomicGuards && c.reliableMark && c.reliableCheck && c.hold < c.lockTTL
  }

  lemma EnterIsFresh(c: Config, s: State, id: Id)
    requires Sound(c) && Exclusive(c, s) && Covered(c, s) && !s.DoneLive(id) && !s.LockLive(id)
    ensures !Settled(c, s, id)
  {
    NobodyGuardsFreeLock(c, s, id);
  }

  /** The worker in question guards its id alone, so nobody else's claim on that id is disturbed. */
  lemma SoleGuard(c: Config, s: State, v: nat, w: nat)
    requires Exclusive(c, s) && v < |s.workers| && w < |s.workers| && v != w
    requires Guarded(s.workers[v]) && Guarded(s.workers[w])
    ensures s.workers[v].id != s.workers[w].id
  {
    if v < w {
      assert s.workers[v].id != s.workers[w].id;
    } else {
      assert s.workers[w].id != s.workers[v].id;
    }
  }

  ghost predicate NoAcquire(s: State) {
    forall w :: 0 <= w < |s.workers| ==> !s.workers[w].Unmarked?
  }

  lemma PendingStaysCovered(c: Config, s: State, st: Step, id: Id)
    requires Sound(c) && Exclusive(c, s) && Covered(c, s) && NoAcquire(s) && Enabled(c, s, st)
    requires id in Next(c, s, st).wins && Next(c, s, st).wins[id].Pending?
    ensures exists w :: 0 <= w < |s.workers| && Next(c, s, st).workers[w].Won? && Next(c, s, st).workers[w].id == id
  {
    var t := Next(c, s, st);
    if st.Finish? && st.ok && s.workers[st.w].id == id {
      assert t.workers[st.w].Won? && t.workers[st.w].id == id;
    } else {
      PendingIsOld(c, s, st, id);
      var w :| 0 <= w < |s.workers| && s.workers[w].Won? && s.workers[w].id == id;
      WinnerWaits(c, s, st, w);
      assert t.workers[w].Won? && t.workers[w].id == id;
    }
  }

  lemma PendingIsOld(c: Config, s: State, st: Step, id: Id)
    requires Enabled(c, s, st) && id in Next(c, s, st).wins && Next(c, s, st).wins[id].Pending?
    requires !(st.Finish? && st.ok && s.workers[st.w].id == id)
    ensures id in s.wins && s.wins[id].Pending?
  {}

  /** A winner stays one until it marks; and marking settles the id. */
  lemma WinnerWaits(c: Config, s: State, st: Step, w: nat)
    requires c.reliableMark && Enabled(c, s, st) && w < |s.workers| && s.workers[w].Won?
    requires s.workers[w].id in Next(c, s, st).wins && Next(c, s, st).wins[s.workers[w].id].Pending?
    ensures Next(c, s, st).workers[w] == s.workers[w]
  {}

  lemma MarkedStaysCovered(c: Config, s: State, st: Step, id: Id)
    requires Sound(c) && Exclusive(c, s) && Covered(c, s) && Enabled(c, s, st)
    requires id in Next(c, s, st).wins && Next(c, s, st).wins[id].MarkedAt?
    ensures var t := Next(c, s, st);
            t.wins[id].at <= t.now && id in t.done && t.wins[id].at + c.doneTTL <= t.done[id]
  {}

  /** A step of another worker that ends well settles only that worker's own id. */
  lemma OthersSettleOwn(c: Config, s: State, st: Step, id: Id)
    requires Enabled(c, s, st) && !Settled(c, s, id) && Covered(c, s)
    requires (st.Finish? || st.Mark?) ==> s.workers[st.w].id != id
    ensures !Settled(c, Next(c, s, st), id)
  {}

  lemma ProcessorStaysFresh(c: Config, s: State, st: Step, w: nat)
    requires Sound(c) && Exclusive(c, s) && Covered(c, s) && NoAcquire(s) && Enabled(c, s, st)
    requires w < |s.workers| && (Next(c, s, st).workers[w].Entered? || Next(c, s, st).workers[w].Inside?)
    ensures !Settled(c, Next(c, s, st), Next(c, s, st).workers[w].id)
  {
    var id := Next(c, s, st).workers[w].id;
    if st.Enter? && st.w == w {
      EnterIsFresh(c, s, st.id);
    } else if (st.Finish? || st.Mark?) && st.w != w {
      SoleGuard(c, s, st.w, w);
    }
    OthersSettleOwn(c, s, st, id);
  }

  lemma StepKeepsCovered(c: Config, s: State, st: Step)
    requires Sound(c) && Exclusive(c, s) && Covered(c, s) && NoAcquire(s) && Enabled(c, s, st)
    ensures Covered(c, Next(c, s, st)) && NoAcquire(Next(c, s, st))
  {
    var t := Next(c, s, st);
    assert |t.workers| == |s.workers|;
    forall id | id in t.wins && t.wins[id].Pending?
      ensures exists w :: 0 <= w < |t.workers| && t.workers[w].Won? && t.workers[w].id == id
    {
      PendingStaysCovered(c, s, st, id);
    }
    forall id | id in t.wins && t.wins[id].MarkedAt?
      ensures t.wins[id].at <= t.now && id in t.done && t.wins[id].at + c.doneTTL <= t.done[id]
    {
      MarkedStaysCovered(c, s, st, id);
    }
    forall w | 0 <= w < |t.workers| && (t.workers[w].Entered? || t.workers[w].Inside?)
      ensures !Settled(c, t, t.workers[w].id)
    {
      ProcessorStaysFresh(c, s, st, w);
    }
  }

  lemma {:induction false} RunKeepsCovered(c: Config, run: seq<Step>)
    requires Sound(c) && Legal(c, run)
    ensures Covered(c, Exec(c, run)) && NoAcquire(Exec(c, run))
  {
    if run != [] {
      RunKeepsCovered(c, run[..|run| - 1]);
      RunKeepsExclusive(c, run[..|run| - 1]);
      StepKeepsCovered(c, Exec(c, run[..|run| - 1]), run[|run| - 1]);
    }
  }

  ghost predicate NeverLate(c: Config) {
    forall s :: Reachable(c, s) ==> !s.late
  }

  // ---------------------------------------------------------------- the runs that go wrong

  // Each step of a delivery, with the state it leads to.

  lemma DoCheck(c: Config, R: State -> bool, s: State, w: nat, id: Id, read: bool) returns (s': State)
    requires Kept(c, R) && R(s) && w < |s.workers| && s.workers[w].Free?
    requires !c.atomicGuards && SeemsUndone(c, s, id, read)
    ensures R(s') && s' == s.(workers := s.workers[w := Unmarked(id)])
  {
    s' := Go(c, R, s, Check(w, id, read));
  }

  lemma DoAcquire(c: Config, R: State -> bool, s: State, w: nat) returns (s': State)
    requires Kept(c, R) && R(s) && w < |s.workers| && s.workers[w].Unmarked? && !s.LockLive(s.workers[w].id)
    ensures var id := s.workers[w].id;
            && R(s')
            && s' == s.(locks := s.locks[id := s.now + c.lockTTL], workers := s.workers[w := Entered(id, s.now)])
  {
    s' := Go(c, R, s, Acquire(w));
  }

  lemma DoSkip(c: Config, R: State -> bool, s: State, w: nat) returns (s': State)
    requires Kept(c, R) && R(s) && w < |s.workers| && s.workers[w].Unmarked?
    ensures R(s') && s' == s.(workers := s.workers[w := Free])
  {
    s' := Go(c, R, s, Skip(w));
  }

  lemma DoEnter(c: Config, R: State -> bool, s: State, w: nat, id: Id, read: bool) returns (s': State)
    requires Kept(c, R) && R(s) && w < |s.workers| && s.workers[w].Free? && c.atomicGuards
    requires SeemsUndone(c, s, id, read) && !s.LockLive(id)
    ensures R(s')
    ensures s' == s.(locks := s.locks[id := s.now + c.lockTTL], workers := s.workers[w := Entered(id, s.now)])
  {
    s' := Go(c, R, s, Enter(w, id, read));
  }

  lemma DoBegin(c: Config, R: State -> bool, s: State, w: nat) returns (s': State)
    requires Kept(c, R) && R(s) && w < |s.workers| && s.workers[w].Entered?
    ensures var p := s.workers[w];
            && R(s')
            && s' == s.(workers := s.workers[w := Inside(p.id, p.since)], late := s.late || Settled(c, s, p.id))
  {
    s' := Go(c, R, s, Begin(w));
  }

  lemma DoFinish(c: Config, R: State -> bool, s: State, w: nat, ok: bool) returns (s': State)
    requires Kept(c, R) && R(s) && w < |s.workers| && s.workers[w].Inside?
    ensures var p := s.workers[w];
            && R(s')
            && s' == s.(workers := s.workers[w := if ok then Won(p.id, p.since) else Failed(p.id, p.since)],
                        wins := if ok then s.wins[p.id := Pending] else s.wins)
  {
    s' := Go(c, R, s, Finish(w, ok));
  }

  lemma DoMark(c: Config, R: State -> bool, s: State, w: nat, ok: bool) returns (s': State)
    requires Kept(c, R) && R(s) && w < |s.workers| && s.workers[w].Won? && (ok || !c.reliableMark)
    ensures var p := s.workers[w];
            && R(s')
            && s' == s.(workers := s.workers[w := Releasing(p.id, p.since)],
                        done := if ok then s.done[p.id := s.now + c.doneTTL] else s.done,
                        wins := if ok then s.wins[p.id := MarkedAt(s.now)] else s.wins)
  {
    s' := Go(c, R, s, Mark(w, ok));
  }

  lemma DoGiveUp(c: Config, R: State -> bool, s: State, w: nat, dead: bool) returns (s': State)
    requires Kept(c, R) && R(s) && w < |s.workers| && s.workers[w].Failed?
    ensures var p := s.workers[w];
            && R(s')
            && s' == s.(workers := s.workers[w := Releasing(p.id, p.since)],
                        done := if dead then s.done[p.id := s.now + c.doneTTL] else s.done)
  {
    s' := Go(c, R, s, GiveUp(w, dead));
  }

  lemma DoRelease(c: Config, R: State -> bool, s: State, w: nat, ok: bool) returns (s': State)
    requires Kept(c, R) && R(s) && w < |s.workers| && s.workers[w].Releasing?
    ensures R(s')
    ensures s' == s.(workers := s.workers[w := Free], locks := if ok then s.locks - {s.workers[w].id} else s.locks)
  {
    s' := Go(c, R, s, Release(w, ok));
  }

  /** Worker w passes both guards, in whichever way the configuration issues them, and starts to process. */
  lemma StartsProcessing(c: Config, R: State -> bool, s: State, w: nat, id: Id, read: bool) returns (s': State)
    requires Kept(c, R) && R(s) && w < |s.workers| && s.workers[w].Free?
    requires SeemsUndone(c, s, id, read) && !s.LockLive(id)
    ensures R(s')
    ensures s' == s.(locks := s.locks[id := s.now + c.lockTTL], workers := s.workers[w := Inside(id, s.now)],
                     late := s.late || Settled(c, s, id))
  {
    if c.atomicGuards {
      s' := DoEnter(c, R, s, w, id, read);
    } else {
      s' := DoCheck(c, R, s, w, id, read);
      s' := DoAcquire(c, R, s', w);
      assert s'.workers == s.workers[w := Entered(id, s.now)];
    }
    s' := DoBegin(c, R, s', w);
    assert s'.workers == s.workers[w := Inside(id, s.now)];
  }

  /** A worker that overstays the lock's lifetime shares Process with a second one. */
  lemma OverstayingShares(c: Config) returns (s: State)
    requires c.workers > 1 && c.hold >= c.lockTTL
    ensures Reachable(c, s) && !OneInside(s)
  {
    var R := Reaching(c);
    ReachingIsKept(c);
    s := Init(c);
    s := StartsProcessing(c, R, s, 0, "id", true);
    s := Go(c, R, s, Tick(c.lockTTL));
    s := StartsProcessing(c, R, s, 1, "id", true);
    assert s.workers[0].Inside? && s.workers[1].Inside?;
  }

  lemma OverstayingIsLate(c: Config) returns (s: State)
    requires c.workers > 1 && c.hold >= c.lockTTL
    ensures Reachable(c, s) && s.late
  {
    var R := Reaching(c);
    ReachingIsKept(c);
    s := Init(c);
    s := StartsProcessing(c, R, s, 0, "id", true);
    s := DoFinish(c, R, s, 0, true);
    s := Go(c, R, s, Tick(c.lockTTL));
    s := StartsProcessing(c, R, s, 1, "id", true);
  }

  /** If the marker write fails, the next duplicate is processed again. */
  lemma LostMarkerIsLate(c: Config) returns (s: State)
    requires c.workers > 0 && !c.reliableMark
    ensures Reachable(c, s) && s.late
  {
    var R := Reaching(c);
    ReachingIsKept(c);
    s := Init(c);
    s := StartsProcessing(c, R, s, 0, "id", true);
    s := DoFinish(c, R, s, 0, true);
    s := DoMark(c, R, s, 0, false);
    s := DoRelease(c, R, s, 0, true);
    s := StartsProcessing(c, R, s, 0, "id", true);
  }

  /** If the marker read fails, a duplicate is processed again however the guards are issued. */
  lemma BlindCheckIsLate(c: Config) returns (s: State)
    requires c.workers > 0 && !c.reliableCheck && c.doneTTL > 0
    ensures Reachable(c, s) && s.late
  {
    var R := Reaching(c);
    ReachingIsKept(c);
    s := Init(c);
    s := StartsProcessing(c, R, s, 0, "id", true);
    s := DoFinish(c, R, s, 0, true);
    s := DoMark(c, R, s, 0, true);
    s := DoRelease(c, R, s, 0, true);
    s := StartsProcessing(c, R, s, 0, "id", false);
  }

  /** With two separate guard commands, a duplicate can look for the marker just before it is written and claim the
      lock just after it is released. */
  lemma SplitGuardsAreLate(c: Config) returns (s: State)
    requires c.workers > 1 && !c.atomicGuards && c.doneTTL > 0
    ensures Reachable(c, s) && s.late
  {
    var R := Reaching(c);
    ReachingIsKept(c);
    s := CheckedTooSoon(c);
    s := DoFinish(c, R, s, 0, true);
    assert s.workers[0] == Won("id", 0) && s.workers[1] == Unmarked("id");
    s := DoMark(c, R, s, 0, true);
    assert s.workers[0] == Releasing("id", 0) && s.workers[1] == Unmarked("id");
    s := DoRelease(c, R, s, 0, true);
    s := DoAcquire(c, R, s, 1);
    assert s.workers[1] == Entered("id", 0);
    s := DoBegin(c, R, s, 1);
  }

  lemma CheckedTooSoon(c: Config) returns (s: State)
    requires c.workers > 1 && !c.atomicGuards
    ensures Reachable(c, s) && s.now == 0 && |s.workers| == c.workers && s.wins == map[]
    ensures s.workers[0] == Inside("id", 0) && s.workers[1] == Unmarked("id")
  {
    var R := Reaching(c);
    ReachingIsKept(c);
    s := Init(c);
    s := DoCheck(c, R, s, 1, "id", true);
    s := StartsProcessing(c, R, s, 0, "id", true);
  }

  /** At most one worker is ever inside Process for a job id, in every run, exactly when every guarded run ends
      before the lock's lifetime does. */
  lemma OneInsideIff(c: Config)
    requires c.workers > 1
    ensures AlwaysOneInside(c) <==> c.hold < c.lockTTL
  {
    if c.hold < c.lockTTL {
      forall s | Reachable(c, s)
        ensures OneInside(s)
      {
        var run :| Legal(c, run) && Exec(c, run) == s;
        RunKeepsExclusive(c, run);
      }
    } else {
      var s := OverstayingShares(c);
    }
  }

  /** Process never starts for an id that has succeeded and whose marker has not outlived its lifetime, in every
      run, exactly when the guards are one command, the marker is written and read reliably and no guarded run
      overstays. */
  lemma NeverLateIff(c: Config)
    requires c.workers > 1 && c.doneTTL > 0
    ensures NeverLate(c) <==> c.atomicGuards && c.reliableMark && c.reliableCheck && c.hold < c.lockTTL
  {
    if Sound(c) {
      forall s | Reachable(c, s)
        ensures !s.late
      {
        var run :| Legal(c, run) && Exec(c, run) == s;
        RunKeepsCovered(c, run);
      }
    } else if !c.atomicGuards {
      var s := SplitGuardsAreLate(c);
    } else if !c.reliableMark {
      var s := LostMarkerIsLate(c);
    } else if !c.reliableCheck {
      var s := BlindCheckIsLate(c);
    } else {
      var s := OverstayingIsLate(c);
    }
  }
}
