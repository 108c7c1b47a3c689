/** A delivery, as the pool's code performs it, is a piece of a run of the duplicate guard: what the guard's theorems
    say of its Check, Acquire, Mark and Release steps they say of the code. */
module GuardCode {
  import opened Domain
  import Pool = PoolProtocol
  import opened PoolCode
  import opened Guard = DuplicateGuard

  /** The live keys of the guard are the locks and markers of the pool. */
  ghost predicate Mirrors(s: State, d: Desk) {
    forall id :: (s.LockLive(id) <==> id in d.locks) && (s.DoneLive(id) <==> id in d.done)
  }

  /** As the code is: two guard commands, and calls that may fail; keys that live for some time. */
  predicate AsWritten(c: Guard.Config) {
    !c.atomicGuards && !c.reliableMark && !c.reliableCheck && c.lockTTL > 0 && c.doneTTL > 0
  }

  /** From the end of Process to the deferred lock delete, after a success. */
  lemma PlaySuccess(c: Guard.Config, R: State -> bool, s: State, w: nat, mark: bool, unlock: bool) returns (s': State)
    requires AsWritten(c) && Kept(c, R) && R(s) && w < |s.workers| && s.workers[w].Inside?
    ensures var id := s.workers[w].id;
            && R(s')
            && s' == s.(workers := s.workers[w := Free],
                        done := if mark then s.done[id := s.now + c.doneTTL] else s.done,
                        locks := if unlock then s.locks - {id} else s.locks,
                        wins := s.wins[id := if mark then MarkedAt(s.now) else Pending])
  {
    var id := s.workers[w].id;
    s' := DoFinish(c, R, s, w, true);
    s' := DoMark(c, R, s', w, mark);
    s' := DoRelease(c, R, s', w, unlock);
    assert s'.workers == s.workers[w := Free];
    assert s.wins[id := Pending][id := MarkedAt(s.now)] == s.wins[id := MarkedAt(s.now)];
  }

  /** ... and after a failure, with the marker of a dead letter or without. */
  lemma PlayFailure(c: Guard.Config, R: State -> bool, s: State, w: nat, mark: bool, unlock: bool) returns (s': State)
    requires AsWritten(c) && Kept(c, R) && R(s) && w < |s.workers| && s.workers[w].Inside?
    ensures var id := s.workers[w].id;
            && R(s')
            && s' == s.(workers := s.workers[w := Free],
                        done := if mark then s.done[id := s.now + c.doneTTL] else s.done,
                        locks := if unlock then s.locks - {id} else s.locks)
  {
    s' := DoFinish(c, R, s, w, false);
    s' := DoGiveUp(c, R, s', w, mark);
    s' := DoRelease(c, R, s', w, unlock);
    assert s'.workers == s.workers[w := Free];
  }

  lemma PlaySkip(c: Guard.Config, R: State -> bool, s: State, w: nat, id: Id, read: bool) returns (s': State)
    requires AsWritten(c) && Kept(c, R) && R(s) && w < |s.workers| && s.workers[w].Free? && SeemsUndone(c, s, id, read)
    ensures R(s') && s' == s
  {
    s' := DoCheck(c, R, s, w, id, read);
    s' := DoSkip(c, R, s', w);
    assert s'.workers == s.workers;
  }

  /** The markers and locks that a delivery under the lock leaves behind. */
  lemma GuardedKeys(registry: set<JobType>, maxRetries: int, x: Pool.Copy, io: Replies, b: Desk, a: Desk)
    requires Handled(registry, maxRetries, x, io, b, a) && x.job.jobType in registry && !Skips(x, io, b)
    ensures a.locks == if io.unlock then b.locks else b.locks + {x.Id()}
    ensures a.done == if io.markDone && !Retried(x, io) then b.done + {x.Id()} else b.done
  {}

  predicate Retried(x: Pool.Copy, io: Replies) {
    io.outcome == Pool.Retryable && x.job.retryCount < x.job.maxRetries
  }

  lemma MirrorsAfter(c: Guard.Config, s: State, t: State, id: Id, b: Desk, a: Desk, mark: bool, unlock: bool)
    requires AsWritten(c) && Mirrors(s, b) && id !in b.locks && t.now == s.now
    requires t.done == if mark then s.done[id := s.now + c.doneTTL] else s.done
    requires t.locks == if unlock then s.locks[id := s.now + c.lockTTL] - {id} else s.locks[id := s.now + c.lockTTL]
    requires a.done == if mark then b.done + {id} else b.done
    requires a.locks == if unlock then b.locks else b.locks + {id}
    ensures Mirrors(t, a)
  {
    forall k
      ensures (t.LockLive(k) <==> k in a.locks) && (t.DoneLive(k) <==> k in a.done)
    {
      assert (s.LockLive(k) <==> k in b.locks) && (s.DoneLive(k) <==> k in b.done);
    }
  }

  lemma DeliveryInGuard(c: Guard.Config, R: State -> bool, registry: set<JobType>, maxRetries: int, s: State, w: nat,
                        x: Pool.Copy, io: Replies, b: Desk, a: Desk)
    returns (s': State)
    requires AsWritten(c) && Kept(c, R) && R(s) && w < |s.workers| && s.workers[w].Free? && Mirrors(s, b)
    requires x.job.jobType in registry && Handled(registry, maxRetries, x, io, b, a)
    ensures R(s') && Mirrors(s', a) && s'.workers == s.workers
    ensures s'.late == (s.late || (!Skips(x, io, b) && Settled(c, s, x.Id())))
    ensures !Skips(x, io, b) && io.outcome == Pool.Success && io.markDone ==> Settled(c, s', x.Id())
  {
    var id := x.Id();
    assert (s.LockLive(id) <==> id in b.locks) && (s.DoneLive(id) <==> id in b.done);
    s' := s;
    if Skips(x, io, b) {
      if !(io.getDone && id in b.done) {
        s' := PlaySkip(c, R, s, w, id, io.getDone);
      }
    } else {
      GuardedKeys(registry, maxRetries, x, io, b, a);
      s' := StartsProcessing(c, R, s, w, id, io.getDone);
      if io.outcome == Pool.Success {
        s' := PlaySuccess(c, R, s', w, io.markDone, io.unlock);
      } else {
        s' := PlayFailure(c, R, s', w, io.markDone && !Retried(x, io), io.unlock);
      }
      MirrorsAfter(c, s, s', id, b, a, io.markDone && !Retried(x, io), io.unlock);
      assert s.workers[w := Inside(id, s.now)][w := Free] == s.workers;
    }
  }

  /** A delivery of a registered job, played in the guard beside any deliveries in progress there. It counts as a late
      start exactly when the job had succeeded already and its marker should have lived; and a success that is marked
      is settled from then on. */
  lemma DeliveryIsGuardRun(c: Guard.Config, registry: set<JobType>, maxRetries: int, s: State, w: nat, x: Pool.Copy,
                           io: Replies, b: Desk, a: Desk)
    returns (s': State)
    requires AsWritten(c) && Reachable(c, s) && w < |s.workers| && s.workers[w].Free? && Mirrors(s, b)
    requires x.job.jobType in registry && Handled(registry, maxRetries, x, io, b, a)
    ensures Reachable(c, s') && Mirrors(s', a) && s'.workers == s.workers
    ensures s'.late == (s.late || (!Skips(x, io, b) && Settled(c, s, x.Id())))
    ensures !Skips(x, io, b) && io.outcome == Pool.Success && io.markDone ==> Settled(c, s', x.Id())
  {
    ReachingIsKept(c);
    s' := DeliveryInGuard(c, Reaching(c), registry, maxRetries, s, w, x, io, b, a);
  }
}
