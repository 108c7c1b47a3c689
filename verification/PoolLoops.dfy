/** The pool's dispatch loop and its retry goroutine as the source writes them, on the priority lists and the bounded
    channel; and both as runs of the protocol in which the other goroutines are at rest. */
module PoolLoops {
  import opened Domain
  import opened PoolProtocol
  import PQ = PriorityQueue

  /** What the environment does in one turn of the loop: whether the context is already cancelled, how Redis answers
      the pop, whether the context ends the wait after an error, whether the send wins over cancellation, and whether
      the last push succeeds. */
  datatype Turn = Turn(cancelled: bool, pop: PQ.RedisReply, stop: bool, send: bool, pushBack: bool)

  /** What the loop works on. */
  datatype Belt = Belt(lists: PQ.Lists<Copy>, channel: seq<Copy>, lost: seq<Copy>)

  function PushedBack(b: Belt, c: Copy): Belt {
    b.(lists := b.lists.LPush(PQ.KeyForPriority(c.job.priority), c))
  }

  /** A turn that ends the loop with nothing in hand. */
  predicate Stops(turn: Turn) {
    turn.cancelled || (turn.pop == PQ.Broken && turn.stop)
  }

  /** A turn that ends the loop with a copy in hand: cancellation wins over the send, or the channel is full. */
  predicate Strands(turn: Turn, b: Belt, capacity: nat) {
    turn.pop == PQ.Ok && !b.lists.Empty() && !(turn.send && |b.channel| < capacity)
  }

  /** A turn that does not end the loop sends the next copy, or finds none. */
  function AfterTurn(turn: Turn, b: Belt): Belt {
    if turn.pop == PQ.Ok && !b.lists.Empty() then
      b.(lists := b.lists.Rest(), channel := b.channel + [b.lists.Next()])
    else
      b
  }

  function AfterTurns(turns: seq<Turn>, b: Belt): Belt {
    if turns == [] then b else AfterTurn(turns[|turns| - 1], AfterTurns(turns[..|turns| - 1], b))
  }

  /** The turn that ends it puts back what is in hand, or loses it. */
  function AfterEnd(turn: Turn, b: Belt): Belt {
    if Stops(turn) || b.lists.Empty() then b
    else
      var c, rest := b.lists.Next(), b.(lists := b.lists.Rest());
      if turn.pushBack then PushedBack(rest, c) else rest.(lost := rest.lost + [c])
  }

  predicate GoesOn(turns: seq<Turn>, b: Belt, capacity: nat) {
    forall i :: 0 <= i < |turns| ==> !Stops(turns[i]) && !Strands(turns[i], AfterTurns(turns[..i], b), capacity)
  }

  /** The loop went through the given number of turns without ending, and then ended or ran out of turns. */
  ghost predicate Dispatched(turns: seq<Turn>, n: nat, ended: bool, b0: Belt, b: Belt, capacity: nat) {
    && n <= |turns| && GoesOn(turns[..n], b0, capacity)
    && var mid := AfterTurns(turns[..n], b0);
       if ended then
         n < |turns| && (Stops(turns[n]) || Strands(turns[n], mid, capacity)) && b == AfterEnd(turns[n], mid)
       else
         n == |turns| && b == mid
  }

  class Loops {
    const capacity: nat
    var lists: PQ.Lists<Copy>
    var channel: seq<Copy>
    var closed: bool
    var retries: seq<Timer>
    var lost: seq<Copy>

    /** Two places in the channel for every worker, of which there are four unless a positive number is asked for. */
    constructor (workers: int)
      ensures capacity == if workers >= 1 then 2 * workers else 8
      ensures Here() == Belt(PQ.Lists([], [], []), [], []) && !closed && retries == []
    {
      capacity := 2 * (if workers <= 0 then 4 else workers);
      lists, channel, closed, retries, lost := PQ.Lists([], [], []), [], false, [], [];
    }

    ghost function Here(): Belt
      reads this
    {
      Belt(lists, channel, lost)
    }

    /** Pop and send until the context ends; then put back what is in hand and close the channel. The channel receives
        the queued copies in the order of their stable sort by priority, one for every turn that could yield one while
        any are left, and no copy is lost but by a failed put-back. */
    method Dispatch(turns: seq<Turn>) returns (sent: nat, used: nat)
      requires !closed && |channel| <= capacity
      modifies this`lists, this`channel, this`closed, this`lost
      ensures |channel| <= capacity && (closed ==> used > 0)
      ensures Dispatched(turns, if closed then used - 1 else used, closed, old(Here()), Here(), capacity)
      ensures sent <= |PQ.Drain(old(lists))| && channel == old(channel) + Items(PQ.Drain(old(lists))[..sent])
      ensures sent == Least(Pops(turns[..if closed then used - 1 else used]), |PQ.Drain(old(lists))|)
      ensures lists.Depth() + sent + |lost| == old(lists.Depth() + |lost|)
      ensures !closed ==> PQ.Drain(lists) == PQ.Drain(old(lists))[sent..]
      ensures lost != old(lost) ==> closed && !Stops(turns[used - 1]) && !turns[used - 1].pushBack
    {
      sent, used := Loop(turns);
      ghost var n := if closed then used - 1 else used;
      ghost var k := TurnsServe(turns[..n], old(Here()));
      EndKeepsDepth(turns, n, closed, old(Here()), Here(), capacity);
    }

    /** The loop itself. */
    method Loop(turns: seq<Turn>) returns (sent: nat, used: nat)
      requires !closed && |channel| <= capacity
      modifies this`lists, this`channel, this`closed, this`lost
      ensures |channel| <= capacity && (closed ==> used > 0) && |channel| == |old(channel)| + sent
      ensures Dispatched(turns, if closed then used - 1 else used, closed, old(Here()), Here(), capacity)
    {
      ghost var b0 := Here();
      sent, used := 0, 0;
      assert turns[..0] == [];
      while used < |turns|
        invariant used <= |turns| && !closed && |channel| <= capacity && |channel| == |b0.channel| + sent
        invariant Here() == AfterTurns(turns[..used], b0) && GoesOn(turns[..used], b0, capacity)
      {
        var more, took := TakeTurn(turns[used]);
        if !more {
          return sent, used + 1;
        }
        OneMoreTurn(turns, used, b0, capacity);
        if took {
          sent := sent + 1;
        }
        used := used + 1;
      }
      assert turns[..used] == turns;
    }

    /** One turn of the loop. */
    method TakeTurn(turn: Turn) returns (more: bool, took: bool)
      requires !closed && |channel| <= capacity
      modifies this`lists, this`channel, this`closed, this`lost
      ensures more <==> !Stops(turn) && !Strands(turn, old(Here()), capacity)
      ensures Here() == if more then AfterTurn(turn, old(Here())) else AfterEnd(turn, old(Here()))
      ensures closed == !more && |channel| <= capacity && |channel| == |old(channel)| + if took then 1 else 0
    {
      if turn.cancelled || (turn.pop == PQ.Broken && turn.stop) {
        closed := true;
        return false, false;
      }
      if turn.pop != PQ.Ok || lists.Empty() {
        return true, false;
      }
      var c := lists.Next();
      lists := lists.Rest();
      if turn.send && |channel| < capacity {
        channel := channel + [c];
        return true, true;
      }
      var pushed := Push(c, turn.pushBack);
      if !pushed {
        lost := lost + [c];
      }
      closed := true;
      return false, false;
    }

    method Push(c: Copy, ok: bool) returns (pushed: bool)
      modifies this`lists
      ensures pushed == ok
      ensures Here() == if ok then PushedBack(old(Here()), c) else old(Here())
      ensures lists.high == if ok && c.job.priority == HIGH then [c] + old(lists.high) else old(lists.high)
      ensures lists.low == if ok && c.job.priority == LOW then [c] + old(lists.low) else old(lists.low)
      ensures lists.medium == if ok && c.job.priority !in {HIGH, LOW} then [c] + old(lists.medium)
                              else old(lists.medium)
    {
      if ok {
        lists := lists.LPush(PQ.KeyForPriority(c.job.priority), c);
      }
      return ok;
    }

    /** A retry goroutine from its timer to its Done: the copy is back on the queue unless every push it tries fails. */
    method RequeueAfter(k: nat, fires: bool, push: bool, again: bool)
      requires k < |retries| && retries[k].Waiting?
      modifies this`lists, this`retries, this`lost
      ensures retries == old(retries)[..k] + old(retries)[k + 1..]
      ensures var c := old(retries)[k].c;
              Here() == if (fires && push) || again then PushedBack(old(Here()), c)
                        else old(Here()).(lost := old(lost) + [c])
    {
      var c := retries[k].c;
      var pushed;
      if fires {
        pushed := Push(c, push);
        if !pushed {
          pushed := Push(c, again);
        }
      } else {
        pushed := Push(c, again);
      }
      if !pushed {
        lost := lost + [c];
      }
      retries := retries[..k] + retries[k + 1..];
    }
  }

  lemma OneMoreTurn(turns: seq<Turn>, k: nat, b: Belt, capacity: nat)
    requires k < |turns| && GoesOn(turns[..k], b, capacity)
    requires !Stops(turns[k]) && !Strands(turns[k], AfterTurns(turns[..k], b), capacity)
    ensures AfterTurns(turns[..k + 1], b) == AfterTurn(turns[k], AfterTurns(turns[..k], b))
    ensures GoesOn(turns[..k + 1], b, capacity)
  {
    var now := turns[..k + 1];
    assert now[..k] == turns[..k];
    forall i | 0 <= i < |now|
      ensures !Stops(now[i]) && !Strands(now[i], AfterTurns(now[..i], b), capacity)
    {
      assert now[..i] == turns[..i];
      if i < k {
        assert now[i] == turns[..k][i] && now[..i] == turns[..k][..i];
      }
    }
  }

  // ---------------------------------------------------------------- what reaches the channel

  /** How many turns could yield a copy. */
  function Pops(turns: seq<Turn>): nat {
    if turns == [] then 0 else Pops(turns[..|turns| - 1]) + if turns[|turns| - 1].pop == PQ.Ok then 1 else 0
  }

  function Least(a: nat, b: nat): nat {
    if a <= b then a else b
  }

  function Items(xs: seq<PQ.Tagged<Copy>>): (r: seq<Copy>)
    ensures |r| == |xs|
  {
    seq(|xs|, i requires 0 <= i < |xs| => xs[i].item)
  }

  /** Of the copies queued in q0, the first n in draining order have gone to the channel; the rest are in q. */
  ghost predicate Fed(q0: PQ.Lists<Copy>, ch0: seq<Copy>, n: nat, q: PQ.Lists<Copy>, ch: seq<Copy>) {
    && n <= |PQ.Drain(q0)| && PQ.Drain(q) == PQ.Drain(q0)[n..] && ch == ch0 + Items(PQ.Drain(q0)[..n])
    && q.Depth() + n == q0.Depth()
  }

  /** The copy popped next is the next one of the original order. */
  lemma FrontLeaves(all: seq<PQ.Tagged<Copy>>, n: nat, q: PQ.Lists<Copy>)
    requires n <= |all| && PQ.Drain(q) == all[n..] && !q.Empty()
    ensures n < |all| && PQ.Drain(q.Rest()) == all[n + 1..] && Items(all[..n + 1]) == Items(all[..n]) + [q.Next()]
    ensures q.Rest().Depth() == q.Depth() - 1
  {
    assert PQ.Drain(q)[0] == PQ.Tagged(q.Front(), q.Next());
    assert PQ.Drain(q)[1..] == PQ.Drain(q.Rest());
    assert all[n] == all[n..][0] && all[n..][1..] == all[n + 1..];
    assert all[..n + 1] == all[..n] + [all[n]];
  }

  lemma FedTake(q0: PQ.Lists<Copy>, ch0: seq<Copy>, n: nat, q: PQ.Lists<Copy>, ch: seq<Copy>)
    requires Fed(q0, ch0, n, q, ch) && !q.Empty()
    ensures n < |PQ.Drain(q0)| && Fed(q0, ch0, n + 1, q.Rest(), ch + [q.Next()])
  {
    FrontLeaves(PQ.Drain(q0), n, q);
  }

  lemma FedAll(q0: PQ.Lists<Copy>, ch0: seq<Copy>, n: nat, q: PQ.Lists<Copy>, ch: seq<Copy>)
    requires Fed(q0, ch0, n, q, ch) && q.Empty()
    ensures n == |PQ.Drain(q0)|
  {
    assert PQ.Drain(q) == [];
  }

  /** The channel receives the first copies in draining order, one for each turn that could yield one. */
  lemma {:induction false} TurnsServe(turns: seq<Turn>, b0: Belt) returns (n: nat)
    ensures var b := AfterTurns(turns, b0);
            && |b.channel| == |b0.channel| + n && Fed(b0.lists, b0.channel, n, b.lists, b.channel) && b.lost == b0.lost
            && n == Least(Pops(turns), |PQ.Drain(b0.lists)|)
  {
    if turns == [] {
      n := 0;
      assert PQ.Drain(b0.lists)[..0] == [] && PQ.Drain(b0.lists)[0..] == PQ.Drain(b0.lists);
    } else {
      n := TurnsServe(turns[..|turns| - 1], b0);
      var b := AfterTurns(turns[..|turns| - 1], b0);
      if b.lists.Empty() {
        FedAll(b0.lists, b0.channel, n, b.lists, b.channel);
      } else if turns[|turns| - 1].pop == PQ.Ok {
        FedTake(b0.lists, b0.channel, n, b.lists, b.channel);
        n := n + 1;
      }
    }
  }

  lemma EndKeepsDepth(turns: seq<Turn>, n: nat, ended: bool, b0: Belt, b: Belt, capacity: nat)
    requires Dispatched(turns, n, ended, b0, b, capacity)
    ensures var mid := AfterTurns(turns[..n], b0);
            && b.channel == mid.channel && b.lists.Depth() + |b.lost| == mid.lists.Depth() + |mid.lost|
            && (b.lost != mid.lost ==> ended && !Stops(turns[n]) && !turns[n].pushBack)
  {}

  // ---------------------------------------------------------------- both are runs of the protocol

  /** Some run leads from s to t. */
  ghost predicate Leads(cfg: Config, s: State, t: State) {
    exists run :: Legal(cfg, ANYTHING, s, run) && Exec(cfg, s, run) == t
  }

  lemma Stay(cfg: Config, s: State)
    ensures Leads(cfg, s, s)
  {
    assert Legal(cfg, ANYTHING, s, []) && Exec(cfg, s, []) == s;
  }

  lemma Go(cfg: Config, s: State, t: State, st: Step) returns (t': State)
    requires Leads(cfg, s, t) && Enabled(cfg, t, st)
    ensures t' == Next(cfg, t, st) && Leads(cfg, s, t')
  {
    var run :| Legal(cfg, ANYTHING, s, run) && Exec(cfg, s, run) == t;
    t' := Next(cfg, t, st);
    assert (run + [st])[..|run|] == run;
    assert Legal(cfg, ANYTHING, s, run + [st]) && Exec(cfg, s, run + [st]) == t';
  }

  /** The protocol state with this belt, and the dispatcher and the context as given. */
  function At(base: State, b: Belt, d: Dispatcher, cancelled: bool): State {
    base.(sh := base.sh.(lists := b.lists, dropped := base.sh.dropped + b.lost), channel := b.channel,
          closed := d.Closed? || d.Stopped?, dispatcher := d, cancelled := cancelled)
  }

  lemma TurnIsRun(cfg: Config, s: State, base: State, turn: Turn, b: Belt)
    requires Leads(cfg, s, At(base, b, Polling, false)) && !Strands(turn, b, 2 * cfg.workers)
    ensures Leads(cfg, s, At(base, AfterTurn(turn, b), Polling, false))
  {
    if turn.pop == PQ.Ok && !b.lists.Empty() {
      var c, rest := b.lists.Next(), b.(lists := b.lists.Rest());
      var t := Go(cfg, s, At(base, b, Polling, false), Pop);
      assert t == At(base, rest, Holding(c), false);
      t := Go(cfg, s, t, Send);
      assert t == At(base, AfterTurn(turn, b), Polling, false);
    }
  }

  lemma {:induction false} TurnsAreRun(cfg: Config, base: State, turns: seq<Turn>, b: Belt)
    requires GoesOn(turns, b, 2 * cfg.workers)
    ensures Leads(cfg, At(base, b, Polling, false), At(base, AfterTurns(turns, b), Polling, false))
  {
    if turns == [] {
      Stay(cfg, At(base, b, Polling, false));
    } else {
      var most := turns[..|turns| - 1];
      assert forall i :: 0 <= i < |most| ==> most[..i] == turns[..i] && most[i] == turns[i];
      TurnsAreRun(cfg, base, most, b);
      TurnIsRun(cfg, At(base, b, Polling, false), base, turns[|turns| - 1], AfterTurns(most, b));
    }
  }

  /** The deferred close and Done. */
  lemma CloseIsRun(cfg: Config, s: State, base: State, b: Belt)
    requires Leads(cfg, s, At(base, b, Closing, true))
    ensures Leads(cfg, s, At(base, b, Stopped, true))
  {
    var t := Go(cfg, s, At(base, b, Closing, true), CloseChannel);
    assert t == At(base, b, Closed, true);
    t := Go(cfg, s, t, DispatcherDone);
  }

  lemma StopIsRun(cfg: Config, s: State, base: State, b: Belt)
    requires Leads(cfg, s, At(base, b, Polling, false))
    ensures Leads(cfg, s, At(base, b, Closing, true))
  {
    var t := Go(cfg, s, At(base, b, Polling, false), Cancel);
    assert t == At(base, b, Polling, true);
    t := Go(cfg, s, t, SeeCancel);
  }

  lemma PutBackIsRun(cfg: Config, s: State, base: State, b: Belt, c: Copy, ok: bool)
    requires Leads(cfg, s, At(base, b, Holding(c), true))
    ensures Leads(cfg, s, At(base, if ok then PushedBack(b, c) else b.(lost := b.lost + [c]), Closing, true))
  {
    var t := Go(cfg, s, At(base, b, Holding(c), true), PushBack(ok));
    assert base.sh.dropped + (b.lost + [c]) == (base.sh.dropped + b.lost) + [c];
  }

  lemma StrandIsRun(cfg: Config, s: State, base: State, turn: Turn, b: Belt)
    requires Leads(cfg, s, At(base, b, Polling, false)) && !b.lists.Empty() && !Stops(turn)
    ensures Leads(cfg, s, At(base, AfterEnd(turn, b), Closing, true))
  {
    var c, rest := b.lists.Next(), b.(lists := b.lists.Rest());
    var t := Go(cfg, s, At(base, b, Polling, false), Pop);
    assert t == At(base, rest, Holding(c), false);
    t := Go(cfg, s, t, Cancel);
    assert t == At(base, rest, Holding(c), true);
    PutBackIsRun(cfg, s, base, rest, c, turn.pushBack);
  }

  /** What Dispatch does is a run of the protocol in which the context is cancelled exactly if the loop ends. */
  lemma DispatchIsRun(cfg: Config, base: State, turns: seq<Turn>, n: nat, ended: bool, b0: Belt, b: Belt)
    requires Dispatched(turns, n, ended, b0, b, 2 * cfg.workers)
    ensures Leads(cfg, At(base, b0, Polling, false), At(base, b, if ended then Stopped else Polling, ended))
  {
    var s, mid := At(base, b0, Polling, false), AfterTurns(turns[..n], b0);
    TurnsAreRun(cfg, base, turns[..n], b0);
    if ended {
      if Stops(turns[n]) {
        StopIsRun(cfg, s, base, mid);
      } else {
        StrandIsRun(cfg, s, base, turns[n], mid);
      }
      CloseIsRun(cfg, s, base, b);
    }
  }

  /** The pushes of a retry goroutine, up to the one that succeeds or the last. */
  lemma PushesAreRun(cfg: Config, s: State, k: nat, fires: bool, push: bool, again: bool) returns (t: State)
    requires k < |s.sh.timers| && s.sh.timers[k].Waiting? && (fires || s.cancelled)
    ensures Leads(cfg, s, t)
    ensures var c := s.sh.timers[k].c;
            var sh := if (fires && push) || again then s.sh.Push(c) else s.sh.Drop(c);
            t == s.(sh := sh.(timers := s.sh.timers[k := Spent]))
  {
    Stay(cfg, s);
    if !fires {
      t := Go(cfg, s, s, FireCancelled(k, again));
    } else if push {
      t := Go(cfg, s, s, Fire(k, true));
    } else {
      t := Go(cfg, s, s, Fire(k, false));
      assert t == s.(sh := s.sh.(timers := s.sh.timers[k := Again(s.sh.timers[k].c)]));
      t := Go(cfg, s, t, FireAgain(k, again));
      assert s.sh.timers[k := Again(s.sh.timers[k].c)][k := Spent] == s.sh.timers[k := Spent];
    }
  }

  /** What RequeueAfter does is a run of the protocol; without its timer firing, only after cancellation. */
  lemma RequeueIsRun(cfg: Config, s: State, k: nat, fires: bool, push: bool, again: bool) returns (t: State)
    requires k < |s.sh.timers| && s.sh.timers[k].Waiting? && (fires || s.cancelled)
    ensures Leads(cfg, s, t)
    ensures var c := s.sh.timers[k].c;
            var sh := if (fires && push) || again then s.sh.Push(c) else s.sh.Drop(c);
            t == s.(sh := sh.(timers := s.sh.timers[..k] + s.sh.timers[k + 1..]))
  {
    var u := PushesAreRun(cfg, s, k, fires, push, again);
    assert u.sh.timers[..k] + u.sh.timers[k + 1..] == s.sh.timers[..k] + s.sh.timers[k + 1..];
    t := Go(cfg, s, u, TimerDone(k));
  }
}
