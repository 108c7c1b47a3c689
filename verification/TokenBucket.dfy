/** The lazily refilled token bucket (internal/ratelimiter/token_bucket.go), with real-valued tokens and time.

    The specification measures time in tokens: a reading is seconds times the refill rate, so one unit of
    time refills one token. The Bucket object works in seconds, as the source does, and is tied to the
    specification through that scaling. */
module TokenBucket {

  datatype Limits = Limits(capacity: real, rate: real)
  {
    predicate Valid() {
      capacity >= 1.0 && rate > 0.0
    }

    /** A clock reading in tokens. */
    function Clock(seconds: real): real {
      seconds * rate
    }
  }

  /** NewBucket clamps a non-positive rate or burst to one. */
  function Clamp(rps: real, burst: int): (l: Limits)
    ensures l.Valid()
  {
    Limits(if burst <= 0 then 1.0 else burst as real, if rps <= 0.0 then 1.0 else rps)
  }

  /** A bucket: its tokens when it was last touched. */
  datatype Fill = Fill(tokens: real, mark: real)

  datatype Answer = Answer(fill: Fill, ok: bool)

  function Min(a: real, b: real): real {
    if a <= b then a else b
  }

  function Full(cap: real, now: real): Fill {
    Fill(cap, now)
  }

  predicate Sound(cap: real, b: Fill) {
    0.0 <= b.tokens <= cap
  }

  function Refill(cap: real, b: Fill, now: real): Fill {
    Fill(Min(cap, b.tokens + (now - b.mark)), now)
  }

  function Ask(cap: real, b: Fill, now: real): Answer {
    var r := Refill(cap, b, now);
    if r.tokens >= 1.0 then Answer(r.(tokens := r.tokens - 1.0), true) else Answer(r, false)
  }

  /** Times in order, none before start. */
  predicate Chronological(start: real, ts: seq<real>) {
    (ts != [] ==> start <= ts[0]) && forall i, j :: 0 <= i < j < |ts| ==> ts[i] <= ts[j]
  }

  function Decisions(cap: real, b: Fill, ts: seq<real>): (ds: seq<bool>)
    ensures |ds| == |ts|
    decreases |ts|
  {
    if ts == [] then []
    else var a := Ask(cap, b, ts[0]); [a.ok] + Decisions(cap, a.fill, ts[1..])
  }

  function After(cap: real, b: Fill, ts: seq<real>): Fill
    decreases |ts|
  {
    if ts == [] then b else After(cap, Ask(cap, b, ts[0]).fill, ts[1..])
  }

  function Count(ds: seq<bool>): nat {
    if ds == [] then 0 else (if ds[0] then 1 else 0) + Count(ds[1..])
  }

  /** Refilling at t and again at u is refilling at u. */
  lemma RefillTwice(cap: real, b: Fill, t: real, u: real)
    requires b.mark <= t <= u
    ensures Refill(cap, Refill(cap, b, t), u) == Refill(cap, b, u)
  {}

  // ---------------------------------------------------------------- the rate bound over every window

  function Final(start: real, ts: seq<real>): real {
    if ts == [] then start else ts[|ts| - 1]
  }

  /** Tokens spent plus tokens left never exceed tokens owned plus tokens refilled. */
  lemma {:induction false} SpendBound(cap: real, b: Fill, ts: seq<real>)
    requires cap >= 1.0 && Sound(cap, b) && Chronological(b.mark, ts)
    ensures Sound(cap, After(cap, b, ts)) && After(cap, b, ts).mark == Final(b.mark, ts)
    ensures Count(Decisions(cap, b, ts)) as real + After(cap, b, ts).tokens <= b.tokens + (Final(b.mark, ts) - b.mark)
    decreases |ts|
  {
    if ts != [] {
      var a := Ask(cap, b, ts[0]);
      SpendBound(cap, a.fill, ts[1..]);
      assert Decisions(cap, b, ts)[1..] == Decisions(cap, a.fill, ts[1..]);
    }
  }

  lemma {:induction false} Split(cap: real, b: Fill, ts: seq<real>, i: nat)
    requires i <= |ts|
    ensures Decisions(cap, b, ts) == Decisions(cap, b, ts[..i]) + Decisions(cap, After(cap, b, ts[..i]), ts[i..])
    ensures After(cap, b, ts) == After(cap, After(cap, b, ts[..i]), ts[i..])
    decreases |ts|
  {
    if i == 0 {
      assert ts[..i] == [] && ts[i..] == ts;
    } else {
      Split(cap, Ask(cap, b, ts[0]).fill, ts[1..], i - 1);
      assert ts[1..][..i - 1] == ts[..i][1..] && ts[1..][i - 1..] == ts[i..];
    }
  }

  /** The account of a window can start at its first arrival, after the lazy refill. */
  lemma {:induction false} WindowFromFirst(cap: real, c: Fill, ts: seq<real>)
    requires cap >= 1.0 && Sound(cap, c) && Chronological(c.mark, ts) && ts != []
    ensures Count(Decisions(cap, c, ts)) as real <= cap + (ts[|ts| - 1] - ts[0])
  {
    var d := Refill(cap, c, ts[0]);
    assert Ask(cap, d, ts[0]) == Ask(cap, c, ts[0]);
    SpendBound(cap, d, ts);
  }

  lemma DecisionsWindow(cap: real, b: Fill, ts: seq<real>, i: nat, j: nat)
    requires i <= j <= |ts|
    ensures Decisions(cap, b, ts)[i..j] == Decisions(cap, After(cap, b, ts[..i]), ts[i..j])
  {
    var c := After(cap, b, ts[..i]);
    Split(cap, b, ts, i);
    Split(cap, c, ts[i..], j - i);
    assert ts[i..][..j - i] == ts[i..j];
    assert Decisions(cap, b, ts)[i..] == Decisions(cap, c, ts[i..]);
    assert Decisions(cap, b, ts)[i..j] == Decisions(cap, b, ts)[i..][..j - i];
  }

  lemma {:induction false} TokenWindowBound(cap: real, start: real, ts: seq<real>, i: nat, j: nat)
    requires cap >= 1.0 && Chronological(start, ts) && i < j <= |ts|
    ensures Count(Decisions(cap, Full(cap, start), ts)[i..j]) as real <= cap + (ts[j - 1] - ts[i])
    ensures Sound(cap, After(cap, Full(cap, start), ts[..i]))
  {
    var b := Full(cap, start);
    var before, window := ts[..i], ts[i..j];
    SpendBound(cap, b, before);
    var c := After(cap, b, before);
    DecisionsWindow(cap, b, ts, i, j);
    assert c.mark <= ts[i];
    WindowFromFirst(cap, c, window);
  }

  /** A run's arrival times, given in seconds, on the token clock. */
  function Ticks(l: Limits, seconds: seq<real>): (ts: seq<real>)
    ensures |ts| == |seconds| && forall i :: 0 <= i < |seconds| ==> ts[i] == l.Clock(seconds[i])
  {
    seq(|seconds|, i requires 0 <= i < |seconds| => l.Clock(seconds[i]))
  }

  lemma ClockMonotone(l: Limits, s: real, t: real)
    requires l.rate > 0.0
    ensures s <= t <==> l.Clock(s) <= l.Clock(t)
    ensures l.Clock(t) - l.Clock(s) == (t - s) * l.rate
  {
    assert l.Clock(t) - l.Clock(s) == (t - s) * l.rate;
    if s < t {
      assert (t - s) * l.rate > 0.0;
    } else if t < s {
      assert (s - t) * l.rate > 0.0;
    }
  }

  lemma TicksChronological(l: Limits, start: real, seconds: seq<real>)
    requires l.rate > 0.0 && Chronological(start, seconds)
    ensures Chronological(l.Clock(start), Ticks(l, seconds))
  {
    forall i, j | 0 <= i < j < |seconds|
      ensures Ticks(l, seconds)[i] <= Ticks(l, seconds)[j]
    {
      ClockMonotone(l, seconds[i], seconds[j]);
    }
    if seconds != [] {
      ClockMonotone(l, start, seconds[0]);
    }
  }

  /** What a full bucket with these limits answers to requests at these times, in seconds. */
  function LimitsAnswers(l: Limits, start: real, seconds: seq<real>): (ds: seq<bool>)
    ensures |ds| == |seconds|
  {
    Decisions(l.capacity, Full(l.capacity, l.Clock(start)), Ticks(l, seconds))
  }

  /** What it holds after the first i of them. */
  function LimitsTokens(l: Limits, start: real, seconds: seq<real>, i: nat): real
    requires i <= |seconds|
  {
    After(l.capacity, Full(l.capacity, l.Clock(start)), Ticks(l, seconds)[..i]).tokens
  }

  lemma {:induction false} LimitsWindowBound(l: Limits, start: real, seconds: seq<real>, i: nat, j: nat)
    requires l.Valid() && Chronological(start, seconds) && i < j <= |seconds|
    ensures 0.0 <= LimitsTokens(l, start, seconds, i) <= l.capacity
    ensures Count(LimitsAnswers(l, start, seconds)[i..j]) as real <= l.capacity + l.rate * (seconds[j - 1] - seconds[i])
  {
    TicksChronological(l, start, seconds);
    var ts := Ticks(l, seconds);
    TokenWindowBound(l.capacity, l.Clock(start), ts, i, j);
    InSeconds(l, seconds[i], seconds[j - 1], Count(LimitsAnswers(l, start, seconds)[i..j]) as real);
  }

  function Answers(rps: real, burst: int, start: real, seconds: seq<real>): (ds: seq<bool>)
    ensures |ds| == |seconds|
  {
    LimitsAnswers(Clamp(rps, burst), start, seconds)
  }

  lemma ClampIs(rps: real, burst: int, capacity: real, rate: real)
    requires capacity == if burst >= 1 then burst as real else 1.0
    requires rate == if rps > 0.0 then rps else 1.0
    ensures Clamp(rps, burst) == Limits(capacity, rate)
  {}

  /** In every window of every run, at most burst + rps * length requests pass (a non-positive burst or rps counting
      as one), and the bucket holds between 0 and burst tokens when the window begins. */
  lemma {:induction false} WindowBound(rps: real, burst: int, start: real, seconds: seq<real>, i: nat, j: nat,
                                       capacity: real, rate: real)
    requires Chronological(start, seconds) && i < j <= |seconds|
    requires capacity == if burst >= 1 then burst as real else 1.0
    requires rate == if rps > 0.0 then rps else 1.0
    ensures Count(Answers(rps, burst, start, seconds)[i..j]) as real <= capacity + rate * (seconds[j - 1] - seconds[i])
    ensures 0.0 <= LimitsTokens(Clamp(rps, burst), start, seconds, i) <= capacity
  {
    ClampIs(rps, burst, capacity, rate);
    LimitsWindowBound(Limits(capacity, rate), start, seconds, i, j);
  }

  lemma InSeconds(l: Limits, s: real, t: real, count: real)
    requires count <= l.capacity + (l.Clock(t) - l.Clock(s))
    ensures count <= l.capacity + l.rate * (t - s)
  {
    assert l.Clock(t) - l.Clock(s) == l.rate * (t - s);
  }

  // ---------------------------------------------------------------- what is certainly admitted

  lemma {:induction false} BurstDecisions(cap: real, tokens: nat, ts: seq<real>, now: real, i: nat)
    requires cap >= tokens as real && (forall k :: 0 <= k < |ts| ==> ts[k] == now) && i < |ts|
    ensures Decisions(cap, Fill(tokens as real, now), ts)[i] <==> i < tokens
    decreases |ts|
  {
    var a := Ask(cap, Fill(tokens as real, now), ts[0]);
    assert a.fill == Fill((if tokens > 0 then tokens - 1 else 0) as real, now);
    if i > 0 {
      BurstDecisions(cap, if tokens > 0 then tokens - 1 else 0, ts[1..], now, i - 1);
    }
  }

  /** Of any number of requests at the starting time, the first burst ones pass and no others. */
  lemma BurstPasses(rps: real, burst: int, start: real, seconds: seq<real>, i: nat)
    requires burst >= 1 && (forall k :: 0 <= k < |seconds| ==> seconds[k] == start) && i < |seconds|
    ensures Answers(rps, burst, start, seconds)[i] <==> i < burst
  {
    var l := Clamp(rps, burst);
    BurstDecisions(l.capacity, burst, Ticks(l, seconds), l.Clock(start), i);
  }

  lemma {:induction false} SteadyDecisions(cap: real, b: Fill, ts: seq<real>, i: nat)
    requires cap >= 1.0 && Sound(cap, b) && i < |ts| && Refill(cap, b, ts[0]).tokens >= 1.0
    requires forall k :: 0 < k < |ts| ==> ts[k] - ts[k - 1] >= 1.0
    ensures Decisions(cap, b, ts)[i]
    decreases |ts|
  {
    if i > 0 {
      var a := Ask(cap, b, ts[0]);
      assert ts[1..][0] - ts[0] >= 1.0;
      forall k | 0 < k < |ts[1..]|
        ensures ts[1..][k] - ts[1..][k - 1] >= 1.0
      {
        assert ts[1..][k] == ts[k + 1] && ts[1..][k - 1] == ts[k];
      }
      SteadyDecisions(cap, a.fill, ts[1..], i - 1);
    }
  }

  /** A client that leaves at least 1 / rps seconds between its requests is never refused. */
  lemma SteadyClientPasses(rps: real, burst: int, start: real, seconds: seq<real>, i: nat)
    requires rps > 0.0 && i < |seconds| && start <= seconds[0]
    requires forall k :: 0 < k < |seconds| ==> (seconds[k] - seconds[k - 1]) * rps >= 1.0
    ensures Answers(rps, burst, start, seconds)[i]
  {
    var l := Clamp(rps, burst);
    var ts := Ticks(l, seconds);
    ClockMonotone(l, start, seconds[0]);
    forall k | 0 < k < |ts|
      ensures ts[k] - ts[k - 1] >= 1.0
    {
      ClockMonotone(l, seconds[k - 1], seconds[k]);
      assert (seconds[k] - seconds[k - 1]) * rps >= 1.0;
    }
    SteadyDecisions(l.capacity, Full(l.capacity, l.Clock(start)), ts, i);
  }

  // ---------------------------------------------------------------- greedy admission is optimal

  /** ds admits only requests that a bucket with this capacity and refill could pay for. */
  predicate Feasible(cap: real, b: Fill, ts: seq<real>, ds: seq<bool>)
    requires |ds| == |ts|
    decreases |ts|
  {
    ts == [] ||
    var r := Refill(cap, b, ts[0]);
    if ds[0] then r.tokens >= 1.0 && Feasible(cap, r.(tokens := r.tokens - 1.0), ts[1..], ds[1..])
    else Feasible(cap, r, ts[1..], ds[1..])
  }

  lemma {:induction false} GreedyIsFeasible(cap: real, b: Fill, ts: seq<real>)
    ensures Feasible(cap, b, ts, Decisions(cap, b, ts))
    decreases |ts|
  {
    if ts != [] {
      var a := Ask(cap, b, ts[0]);
      GreedyIsFeasible(cap, a.fill, ts[1..]);
      assert Decisions(cap, b, ts)[1..] == Decisions(cap, a.fill, ts[1..]);
    }
  }

  /** A policy that is lead admissions behind owns at most lead tokens more, and can never overtake. */
  lemma {:induction false} NeverOvertaken(
    cap: real, g: Fill, p: Fill, lead: nat, ts: seq<real>, ds: seq<bool>, n: nat)
    requires |ds| == |ts| && n <= |ts|
    requires g.mark == p.mark && p.tokens <= g.tokens + lead as real
    requires Feasible(cap, p, ts, ds)
    ensures Count(Decisions(cap, g, ts)[..n]) + lead >= Count(ds[..n])
    decreases |ts|
  {
    if n > 0 {
      var a, r := Ask(cap, g, ts[0]), Refill(cap, p, ts[0]);
      var p' := if ds[0] then r.(tokens := r.tokens - 1.0) else r;
      var lead' := lead + (if a.ok then 1 else 0) - (if ds[0] then 1 else 0);
      assert lead' >= 0;
      NeverOvertaken(cap, a.fill, p', lead', ts[1..], ds[1..], n - 1);
      assert Decisions(cap, g, ts)[..n][1..] == Decisions(cap, a.fill, ts[1..])[..n - 1];
      assert ds[..n][1..] == ds[1..][..n - 1];
    }
  }

  /** The bucket's own decisions are feasible, and at every prefix of every arrival sequence no feasible
      admission policy has let more requests through. */
  lemma {:induction false} GreedyOptimal(cap: real, b: Fill, ts: seq<real>, ds: seq<bool>, n: nat)
    requires |ds| == |ts| && n <= |ts| && Feasible(cap, b, ts, ds)
    ensures Feasible(cap, b, ts, Decisions(cap, b, ts))
    ensures Count(Decisions(cap, b, ts)[..n]) >= Count(ds[..n])
  {
    GreedyIsFeasible(cap, b, ts);
    NeverOvertaken(cap, b, b, 0, ts, ds, n);
  }

  // ---------------------------------------------------------------- observing does not interfere

  datatype Event = Request(at: real) | Peek(at: real)

  function EventTimes(es: seq<Event>): seq<real> {
    if es == [] then [] else [es[0].at] + EventTimes(es[1..])
  }

  function Requests(es: seq<Event>): seq<real> {
    if es == [] then [] else (if es[0].Request? then [es[0].at] else []) + Requests(es[1..])
  }

  /** Allow decides; Tokens only refills and reports. */
  function EventDecisions(cap: real, b: Fill, es: seq<Event>): seq<bool>
    decreases |es|
  {
    if es == [] then []
    else match es[0]
      case Request(t) => var a := Ask(cap, b, t); [a.ok] + EventDecisions(cap, a.fill, es[1..])
      case Peek(t) => EventDecisions(cap, Refill(cap, b, t), es[1..])
  }

  lemma {:induction false} PeeksAreInvisible(cap: real, b: Fill, seen: real, es: seq<Event>)
    requires b.mark <= seen && b.tokens <= cap && Chronological(seen, EventTimes(es))
    ensures EventDecisions(cap, Refill(cap, b, seen), es) == Decisions(cap, b, Requests(es))
    decreases |es|
  {
    if es != [] {
      var t := es[0].at;
      assert EventTimes(es)[1..] == EventTimes(es[1..]);
      RefillTwice(cap, b, seen, t);
      match es[0] {
        case Request(_) =>
          var a := Ask(cap, b, t);
          assert Requests(es)[1..] == Requests(es[1..]);
          assert Refill(cap, a.fill, t) == a.fill;
          PeeksAreInvisible(cap, a.fill, t, es[1..]);
        case Peek(_) =>
          assert Requests(es) == Requests(es[1..]);
          PeeksAreInvisible(cap, b, t, es[1..]);
      }
    }
  }

  /** Erasing every Tokens() read from a run changes no Allow decision. */
  lemma {:induction false} ObservationsErase(cap: real, start: real, es: seq<Event>)
    requires Chronological(start, EventTimes(es))
    ensures EventDecisions(cap, Full(cap, start), es) == Decisions(cap, Full(cap, start), Requests(es))
  {
    PeeksAreInvisible(cap, Full(cap, start), start, es);
  }

  // ---------------------------------------------------------------- the bucket object

  class Bucket {
    const capacity: real
    const refillPerSec: real
    var tokens: real
    var last: real

    ghost function Spec(): Limits {
      Limits(capacity, refillPerSec)
    }

    /** The bucket on the token clock. */
    ghost function View(): Fill
      reads this
    {
      Fill(tokens, Spec().Clock(last))
    }

    ghost predicate Valid()
      reads this
    {
      Spec().Valid() && Sound(capacity, View())
    }

    constructor (rps: real, burst: int, now: real)
      ensures Valid() && Spec() == Clamp(rps, burst) && last == now
      ensures View() == Full(Clamp(rps, burst).capacity, Clamp(rps, burst).Clock(now))
      ensures burst >= 1 ==> capacity == tokens == burst as real
      ensures burst <= 0 ==> capacity == tokens == 1.0
      ensures refillPerSec == if rps > 0.0 then rps else 1.0
    {
      capacity := if burst <= 0 then 1.0 else burst as real;
      tokens := if burst <= 0 then 1.0 else burst as real;
      refillPerSec := if rps <= 0.0 then 1.0 else rps;
      last := now;
    }

    /** The code's refill, in seconds, is the specification's, on the token clock. */
    lemma SecondsToTokens(now: real)
      requires Valid() && last <= now
      ensures tokens + (now - last) * refillPerSec == tokens + (Spec().Clock(now) - View().mark)
      ensures View().mark <= Spec().Clock(now)
    {
      ClockMonotone(Spec(), last, now);
    }

    method Allow(now: real) returns (ok: bool)
      requires Valid() && last <= now
      modifies this
      ensures Valid() && last == now
      ensures Answer(View(), ok) == Ask(capacity, old(View()), Spec().Clock(now))
      ensures var filled := old(tokens) + (now - old(last)) * refillPerSec;
              && (ok <==> filled >= 1.0)
              && tokens == (if filled <= capacity then filled else capacity) - (if ok then 1.0 else 0.0)
    {
      SecondsToTokens(now);
      var elapsed := now - last;
      last := now;
      tokens := if capacity <= tokens + elapsed * refillPerSec then capacity else tokens + elapsed * refillPerSec;
      assert View() == Refill(capacity, old(View()), Spec().Clock(now));
      if tokens >= 1.0 {
        tokens := tokens - 1.0;
        return true;
      }
      return false;
    }

    method Tokens(now: real) returns (n: real)
      requires Valid() && last <= now
      modifies this
      ensures Valid() && last == now
      ensures View() == Refill(capacity, old(View()), Spec().Clock(now))
      ensures n == tokens && old(tokens) <= n <= capacity
      ensures n < capacity ==> n == old(tokens) + (now - old(last)) * refillPerSec
      ensures n == capacity ==> n <= old(tokens) + (now - old(last)) * refillPerSec
    {
      SecondsToTokens(now);
      var elapsed := now - last;
      last := now;
      tokens := if capacity <= tokens + elapsed * refillPerSec then capacity else tokens + elapsed * refillPerSec;
      return tokens;
    }
  }

  /** One shared bucket for every key. */
  class GlobalLimiter {
    const bucket: Bucket

    constructor (rps: real, burst: int, now: real)
      ensures fresh(bucket) && bucket.Valid() && bucket.last == now
      ensures bucket.Spec() == Clamp(rps, burst) && bucket.tokens == bucket.capacity
      ensures bucket.capacity == (if burst >= 1 then burst as real else 1.0)
      ensures bucket.refillPerSec == (if rps > 0.0 then rps else 1.0)
    {
      bucket := new Bucket(rps, burst, now);
    }

    method Allow(key: string, now: real) returns (ok: bool)
      requires bucket.Valid() && bucket.last <= now
      modifies bucket
      ensures bucket.Valid() && bucket.last == now
      ensures Answer(bucket.View(), ok) == Ask(bucket.capacity, old(bucket.View()), bucket.Spec().Clock(now))
    {
      ok := bucket.Allow(now);
    }
  }
}
