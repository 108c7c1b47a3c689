/** The per-key limiter with its evicting janitor (internal/ratelimiter/limiter.go), refined to one immortal,
    initially full bucket per key.

    A call takes the map lock to look its bucket up and stamp it, releases it, and only then asks the bucket;
    calls and janitor ticks interleave freely between those two moments. Times are on the token clock. */
module KeyedLimiter {
  import opened TokenBucket

  /** lag bounds the time a call spends between its lookup and its bucket. */
  datatype Config = Config(cap: real, ttl: real, lag: real)

  datatype Entry = Entry(ref: nat, seen: real)

  datatype Call = Call(key: string, ref: nat, at: real)

  datatype Verdict = Verdict(key: string, at: real, ok: bool)

  /** heap holds every bucket ever created; entries says which one a key currently maps to. */
  datatype State = State(
    now: real, entries: map<string, Entry>, heap: seq<Fill>, calls: map<nat, Call>, log: seq<Verdict>)

  datatype Event =
    | Lookup(cid: nat, key: string, at: real)
    | Consume(cid: nat, at: real)
    | Sweep(at: real)

  function Init(start: real): State {
    State(start, map[], [], map[], [])
  }

  ghost predicate Enabled(c: Config, s: State, e: Event) {
    && s.now <= e.at
    && (forall i :: i in s.calls ==> e.at <= s.calls[i].at + c.lag && s.calls[i].ref < |s.heap|)
    && match e
       case Lookup(cid, _, _) => cid !in s.calls
       case Consume(cid, _) => cid in s.calls
       case Sweep(_) => true
  }

  function Next(c: Config, s: State, e: Event): State {
    match e
    case Lookup(cid, key, at) =>
      if key in s.entries then
        var r := s.entries[key].ref;
        s.(now := at, entries := s.entries[key := Entry(r, at)], calls := s.calls[cid := Call(key, r, at)])
      else
        var r := |s.heap|;
        s.(now := at, entries := s.entries[key := Entry(r, at)], heap := s.heap + [Full(c.cap, at)],
           calls := s.calls[cid := Call(key, r, at)])
    case Consume(cid, at) =>
      if cid !in s.calls || s.calls[cid].ref >= |s.heap| then s else
      var call := s.calls[cid];
      var a := Ask(c.cap, s.heap[call.ref], at);
      s.(now := at, heap := s.heap[call.ref := a.fill], calls := s.calls - {cid},
         log := s.log + [Verdict(call.key, at, a.ok)])
    case Sweep(at) =>
      s.(now := at, entries := map k | k in s.entries && !(s.entries[k].seen < at - c.ttl) :: s.entries[k])
  }

  function Exec(c: Config, s: State, es: seq<Event>): State {
    if es == [] then s else Next(c, Exec(c, s, es[..|es| - 1]), es[|es| - 1])
  }

  ghost predicate Legal(c: Config, s: State, es: seq<Event>) {
    es == [] || (Legal(c, s, es[..|es| - 1]) && Enabled(c, Exec(c, s, es[..|es| - 1]), es[|es| - 1]))
  }

  // ---------------------------------------------------------------- the reference: one immortal bucket per key

  function TimesOf(log: seq<Verdict>, key: string): seq<real> {
    if log == [] then []
    else TimesOf(log[..|log| - 1], key) + (if log[|log| - 1].key == key then [log[|log| - 1].at] else [])
  }

  function AnswersOf(log: seq<Verdict>, key: string): seq<bool> {
    if log == [] then []
    else AnswersOf(log[..|log| - 1], key) + (if log[|log| - 1].key == key then [log[|log| - 1].ok] else [])
  }

  /** A key was answered as a bucket of its own, never evicted, would have answered its calls alone. */
  ghost predicate FaithfulTo(c: Config, start: real, log: seq<Verdict>, key: string) {
    AnswersOf(log, key) == Decisions(c.cap, Full(c.cap, start), TimesOf(log, key))
  }

  ghost predicate Faithful(c: Config, start: real, log: seq<Verdict>) {
    forall key :: FaithfulTo(c, start, log, key)
  }

  /** In every interleaving of calls and janitor ticks, every key is answered as if nothing were ever evicted. */
  ghost predicate EvictionInvisible(c: Config) {
    forall es :: Legal(c, Init(0.0), es) ==> Faithful(c, 0.0, Exec(c, Init(0.0), es).log)
  }

  function Immortal(c: Config, start: real, s: State, key: string): Fill {
    After(c.cap, Full(c.cap, start), TimesOf(s.log, key))
  }

  // ---------------------------------------------------------------- the simulation

  ghost predicate KeyInv(c: Config, start: real, s: State, key: string) {
    var imm := Immortal(c, start, s, key);
    && Sound(c.cap, imm) && imm.mark <= s.now
    && FaithfulTo(c, start, s.log, key)
    && (key in s.entries ==> Tracks(c, s, s.entries[key], imm))
    && (key !in s.entries ==> Refill(c.cap, imm, s.now).tokens == c.cap)
  }

  /** The entry's bucket agrees with the immortal one from now on, and was seen within the lag of its last use. */
  ghost predicate Tracks(c: Config, s: State, e: Entry, imm: Fill) {
    && e.ref < |s.heap| && e.seen <= s.now
    && s.heap[e.ref].mark <= s.now
    && Refill(c.cap, s.heap[e.ref], s.now) == Refill(c.cap, imm, s.now)
    && imm.mark <= e.seen + c.lag
  }

  ghost predicate CallInv(s: State, call: Call) {
    call.key in s.entries && s.entries[call.key].ref == call.ref && call.at <= s.entries[call.key].seen
  }

  ghost predicate Inv(c: Config, start: real, s: State) {
    && start <= s.now
    && (forall key :: KeyInv(c, start, s, key))
    && (forall i :: i in s.calls ==> CallInv(s, s.calls[i]))
    && (forall k, k' :: k in s.entries && k' in s.entries && s.entries[k].ref == s.entries[k'].ref ==> k == k')
  }

  ghost predicate Ample(c: Config) {
    c.cap >= 1.0 && c.lag >= 0.0 && c.ttl - c.lag >= c.cap
  }

  lemma {:induction false} AskAtEnd(cap: real, b: Fill, ts: seq<real>, t: real)
    ensures var a := Ask(cap, After(cap, b, ts), t);
            Decisions(cap, b, ts + [t]) == Decisions(cap, b, ts) + [a.ok] && After(cap, b, ts + [t]) == a.fill
  {
    Split(cap, b, ts + [t], |ts|);
    assert (ts + [t])[..|ts|] == ts && (ts + [t])[|ts|..] == [t];
    assert [t][1..] == [];
  }

  /** Buckets that agree after a refill agree after any later refill. */
  lemma AgreeLater(cap: real, a: Fill, b: Fill, now: real, t: real)
    requires a.mark <= now && b.mark <= now <= t
    requires Refill(cap, a, now) == Refill(cap, b, now)
    ensures Refill(cap, a, t) == Refill(cap, b, t) && Ask(cap, a, t) == Ask(cap, b, t)
  {
    RefillTwice(cap, a, now, t);
    RefillTwice(cap, b, now, t);
  }

  /** A bucket that agreed goes on agreeing, whatever is added to the heap and however late it is seen again. */
  lemma StillTracks(c: Config, s: State, t: State, e: Entry, e': Entry, imm: Fill)
    requires Tracks(c, s, e, imm) && imm.mark <= s.now <= t.now && |s.heap| <= |t.heap| && t.heap[..|s.heap|] == s.heap
    requires e'.ref == e.ref && e.seen <= e'.seen <= t.now
    ensures Tracks(c, t, e', imm)
  {
    assert t.heap[e.ref] == t.heap[..|s.heap|][e.ref];
    AgreeLater(c.cap, s.heap[e.ref], imm, s.now, t.now);
  }

  /** A fresh bucket agrees with an immortal one that is full by now. */
  lemma FreshTracks(c: Config, s: State, t: State, imm: Fill, at: real)
    requires imm.mark <= s.now <= at == t.now && Refill(c.cap, imm, s.now).tokens == c.cap && c.lag >= 0.0
    requires t.heap == s.heap + [Full(c.cap, at)]
    ensures Tracks(c, t, Entry(|s.heap|, at), imm)
  {
    RefillTwice(c.cap, imm, s.now, at);
  }

  lemma LookupKeeps(c: Config, start: real, s: State, cid: nat, key: string, at: real, k: string)
    requires Ample(c) && Inv(c, start, s) && Enabled(c, s, Lookup(cid, key, at))
    ensures KeyInv(c, start, Next(c, s, Lookup(cid, key, at)), k)
  {
    var s' := Next(c, s, Lookup(cid, key, at));
    var imm := Immortal(c, start, s, k);
    assert KeyInv(c, start, s, k);
    if k in s.entries {
      assert s'.heap[..|s.heap|] == s.heap;
      StillTracks(c, s, s', s.entries[k], s'.entries[k], imm);
    } else if k == key {
      FreshTracks(c, s, s', imm, at);
    } else {
      RefillTwice(c.cap, imm, s.now, at);
    }
  }

  lemma ConsumeKeeps(c: Config, start: real, s: State, cid: nat, at: real, k: string)
    requires Ample(c) && Inv(c, start, s) && Enabled(c, s, Consume(cid, at))
    ensures KeyInv(c, start, Next(c, s, Consume(cid, at)), k)
  {
    var s' := Next(c, s, Consume(cid, at));
    var call := s.calls[cid];
    var v := s'.log[|s.log|];
    assert s'.log[..|s.log|] == s.log && v.key == call.key && v.at == at;
    var imm, ts := Immortal(c, start, s, k), TimesOf(s.log, k);
    assert CallInv(s, call) && KeyInv(c, start, s, k);
    RefillTwice(c.cap, imm, s.now, at);
    if k in s.entries {
      AgreeLater(c.cap, s.heap[s.entries[k].ref], imm, s.now, at);
    }
    if k == call.key {
      AskAtEnd(c.cap, Full(c.cap, start), ts, at);
      assert TimesOf(s'.log, k) == ts + [at];
      assert Immortal(c, start, s', k) == s'.heap[call.ref];
    } else {
      assert TimesOf(s'.log, k) == ts && AnswersOf(s'.log, k) == AnswersOf(s.log, k);
      assert k in s.entries ==> s.entries[k].ref != call.ref;
    }
  }

  /** An evicted key was idle long enough for its bucket to have refilled completely. */
  lemma SweepKeeps(c: Config, start: real, s: State, at: real, k: string)
    requires Ample(c) && Inv(c, start, s) && Enabled(c, s, Sweep(at))
    ensures KeyInv(c, start, Next(c, s, Sweep(at)), k)
  {
    var imm := Immortal(c, start, s, k);
    assert KeyInv(c, start, s, k);
    RefillTwice(c.cap, imm, s.now, at);
    if k in s.entries {
      AgreeLater(c.cap, s.heap[s.entries[k].ref], imm, s.now, at);
    }
  }

  /** A bucket that a call still holds is never evicted. */
  lemma HeldEntriesSurvive(c: Config, start: real, s: State, at: real, i: nat)
    requires Ample(c) && Inv(c, start, s) && Enabled(c, s, Sweep(at)) && i in s.calls
    ensures CallInv(Next(c, s, Sweep(at)), s.calls[i])
  {
    assert CallInv(s, s.calls[i]);
    assert at <= s.calls[i].at + c.lag;
  }

  lemma CallsKeep(c: Config, start: real, s: State, e: Event, i: nat)
    requires Ample(c) && Inv(c, start, s) && Enabled(c, s, e) && i in Next(c, s, e).calls
    ensures CallInv(Next(c, s, e), Next(c, s, e).calls[i])
  {
    if i in s.calls && Next(c, s, e).calls[i] == s.calls[i] {
      assert CallInv(s, s.calls[i]) && KeyInv(c, start, s, s.calls[i].key);
      if e.Sweep? {
        HeldEntriesSurvive(c, start, s, e.at, i);
      }
    }
  }

  lemma RefsStayApart(c: Config, start: real, s: State, e: Event, k: string, k': string)
    requires Inv(c, start, s) && Enabled(c, s, e)
    requires k in Next(c, s, e).entries && k' in Next(c, s, e).entries
    requires Next(c, s, e).entries[k].ref == Next(c, s, e).entries[k'].ref
    ensures k == k'
  {
    assert KeyInv(c, start, s, k) && KeyInv(c, start, s, k');
  }

  lemma StepKeeps(c: Config, start: real, s: State, e: Event)
    requires Ample(c) && Inv(c, start, s) && Enabled(c, s, e)
    ensures Inv(c, start, Next(c, s, e))
  {
    var s' := Next(c, s, e);
    forall k
      ensures KeyInv(c, start, s', k)
    {
      match e
      case Lookup(cid, key, at) => LookupKeeps(c, start, s, cid, key, at, k);
      case Consume(cid, at) => ConsumeKeeps(c, start, s, cid, at, k);
      case Sweep(at) => SweepKeeps(c, start, s, at, k);
    }
    forall i | i in s'.calls
      ensures CallInv(s', s'.calls[i])
    {
      CallsKeep(c, start, s, e, i);
    }
    forall k, k' | k in s'.entries && k' in s'.entries && s'.entries[k].ref == s'.entries[k'].ref
      ensures k == k'
    {
      RefsStayApart(c, start, s, e, k, k');
    }
  }

  lemma {:induction false} RunKeeps(c: Config, start: real, es: seq<Event>)
    requires Ample(c) && Legal(c, Init(start), es)
    ensures Inv(c, start, Exec(c, Init(start), es))
  {
    if es == [] {
      assert forall key :: KeyInv(c, start, Init(start), key);
    } else {
      RunKeeps(c, start, es[..|es| - 1]);
      StepKeeps(c, start, Exec(c, Init(start), es[..|es| - 1]), es[|es| - 1]);
    }
  }

  // ---------------------------------------------------------------- when the idle time is too short

  function Lookups(n: nat, key: string, at: real): seq<Event> {
    if n == 0 then [] else Lookups(n - 1, key, at) + [Lookup(n - 1, key, at)]
  }

  function Consumes(n: nat, at: real): seq<Event> {
    if n == 0 then [] else [Consume(n - 1, at)] + Consumes(n - 1, at)
  }

  /** Calls 0 .. n-1, all holding the same bucket. */
  function Waiting(n: nat, call: Call): (m: map<nat, Call>)
    ensures forall i :: i in m ==> i < n && m[i] == call
    ensures n > 0 ==> n - 1 in m
  {
    if n == 0 then map[] else Waiting(n - 1, call)[n - 1 := call]
  }

  function AllPass(n: nat, key: string, at: real): (vs: seq<Verdict>)
    ensures |vs| == n && forall i :: 0 <= i < n ==> vs[i] == Verdict(key, at, true)
  {
    if n == 0 then [] else AllPass(n - 1, key, at) + [Verdict(key, at, true)]
  }

  lemma {:induction false} ExecSplit(c: Config, s: State, es: seq<Event>, fs: seq<Event>)
    ensures Exec(c, s, es + fs) == Exec(c, Exec(c, s, es), fs)
    ensures Legal(c, s, es + fs) <==> Legal(c, s, es) && Legal(c, Exec(c, s, es), fs)
  {
    if fs == [] {
      assert es + fs == es;
    } else {
      ExecSplit(c, s, es, fs[..|fs| - 1]);
      assert (es + fs)[..|es + fs| - 1] == es + fs[..|fs| - 1];
    }
  }

  lemma ExecSnoc(c: Config, s: State, es: seq<Event>, e: Event)
    ensures Exec(c, s, es + [e]) == Next(c, Exec(c, s, es), e)
    ensures Legal(c, s, es + [e]) <==> Legal(c, s, es) && Enabled(c, Exec(c, s, es), e)
  {
    assert (es + [e])[..|es|] == es;
  }

  function AfterLookups(c: Config, s: State, n: nat, key: string, at: real): State {
    State(at, s.entries[key := Entry(|s.heap|, at)], s.heap + [Full(c.cap, at)],
          Waiting(n, Call(key, |s.heap|, at)), s.log)
  }

  lemma FirstLookup(c: Config, s: State, key: string, at: real)
    requires c.lag >= 0.0 && s.now <= at && s.calls == map[] && key !in s.entries
    ensures Enabled(c, s, Lookup(0, key, at)) && Next(c, s, Lookup(0, key, at)) == AfterLookups(c, s, 1, key, at)
  {
    assert s.calls[0 := Call(key, |s.heap|, at)] == Waiting(1, Call(key, |s.heap|, at));
  }

  lemma OneMoreLookup(c: Config, s: State, n: nat, key: string, at: real)
    requires c.lag >= 0.0 && n > 0
    ensures var prev, e := AfterLookups(c, s, n, key, at), Lookup(n, key, at);
            Enabled(c, prev, e) && Next(c, prev, e) == AfterLookups(c, s, n + 1, key, at)
  {
    var prev := AfterLookups(c, s, n, key, at);
    assert prev.entries[key := Entry(|s.heap|, at)] == prev.entries;
    assert prev.calls[n := Call(key, |s.heap|, at)] == Waiting(n + 1, Call(key, |s.heap|, at));
  }

  /** n callers of an untracked key look it up together. */
  lemma {:induction false} LookupsRun(c: Config, s: State, n: nat, key: string, at: real)
    requires c.lag >= 0.0 && s.now <= at && s.calls == map[] && key !in s.entries && n > 0
    ensures Legal(c, s, Lookups(n, key, at))
    ensures Exec(c, s, Lookups(n, key, at)) == AfterLookups(c, s, n, key, at)
  {
    var before, e := Lookups(n - 1, key, at), Lookup(n - 1, key, at);
    if n == 1 {
      assert before == [] && Exec(c, s, before) == s && Legal(c, s, before);
      FirstLookup(c, s, key, at);
    } else {
      LookupsRun(c, s, n - 1, key, at);
      OneMoreLookup(c, s, n - 1, key, at);
    }
    ExecSnoc(c, s, before, e);
  }

  /** Then each of them asks: a bucket lets as many through as it holds tokens. */
  lemma {:induction false} ConsumesRun(c: Config, s: State, n: nat, call: Call, at: real)
    requires call.at <= s.now <= at <= call.at + c.lag && call.ref < |s.heap|
    requires Refill(c.cap, s.heap[call.ref], at).tokens >= n as real
    requires s.calls == Waiting(n, call)
    ensures Legal(c, s, Consumes(n, at))
    ensures var s' := Exec(c, s, Consumes(n, at));
            && s'.entries == s.entries && s'.calls == map[]
            && s'.now == (if n == 0 then s.now else at)
            && s'.log == s.log + AllPass(n, call.key, at)
    decreases n
  {
    if n > 0 {
      var e := Consume(n - 1, at);
      var p := Next(c, s, e);
      ConsumeOne(c, s, n, call, at);
      ConsumesRun(c, p, n - 1, call, at);
      RunFrom(c, s, e, Consumes(n - 1, at));
      assert p.log + AllPass(n - 1, call.key, at) == s.log + AllPass(n, call.key, at);
    }
  }

  lemma RunFrom(c: Config, s: State, e: Event, es: seq<Event>)
    requires Enabled(c, s, e)
    ensures Exec(c, s, [e] + es) == Exec(c, Next(c, s, e), es)
    ensures Legal(c, Next(c, s, e), es) ==> Legal(c, s, [e] + es)
  {
    ExecSnoc(c, s, [], e);
    assert [] + [e] == [e];
    ExecSplit(c, s, [e], es);
  }

  lemma ConsumeOne(c: Config, s: State, n: nat, call: Call, at: real)
    requires 0 < n && call.at <= s.now <= at <= call.at + c.lag && call.ref < |s.heap|
    requires Refill(c.cap, s.heap[call.ref], at).tokens >= n as real && s.calls == Waiting(n, call)
    ensures Enabled(c, s, Consume(n - 1, at))
    ensures var p := Next(c, s, Consume(n - 1, at));
            && p.now == at && p.entries == s.entries && p.calls == Waiting(n - 1, call) && |p.heap| == |s.heap|
            && Refill(c.cap, p.heap[call.ref], at).tokens >= (n - 1) as real
            && p.log == s.log + [Verdict(call.key, at, true)]
  {
    assert Waiting(n, call) - {n - 1} == Waiting(n - 1, call);
  }

  function Burst(n: nat, key: string, at: real, late: real): seq<Event> {
    Lookups(n, key, at) + Consumes(n, late)
  }

  lemma BurstRun(c: Config, s: State, n: nat, key: string, at: real, late: real)
    requires 0 < n && n as real == c.cap && s.now <= at <= late <= at + c.lag
    requires s.calls == map[] && key !in s.entries
    ensures var s' := Exec(c, s, Burst(n, key, at, late));
            && Legal(c, s, Burst(n, key, at, late))
            && s'.now == late && s'.calls == map[]
            && key in s'.entries && s'.entries[key].seen == at
            && s'.log == s.log + AllPass(n, key, late)
  {
    var p, looks, takes := AfterLookups(c, s, n, key, at), Lookups(n, key, at), Consumes(n, late);
    LookupsRun(c, s, n, key, at);
    assert p.heap[|s.heap|] == Full(c.cap, at);
    FullStaysFull(c, at, late);
    ConsumesRun(c, p, n, Call(key, |s.heap|, at), late);
    ExecSplit(c, s, looks, takes);
  }

  lemma FullStaysFull(c: Config, at: real, late: real)
    requires at <= late
    ensures Refill(c.cap, Full(c.cap, at), late).tokens == c.cap
  {}

  function Repeat(n: nat, at: real): (ts: seq<real>)
    ensures |ts| == n && forall i :: 0 <= i < n ==> ts[i] == at
  {
    if n == 0 then [] else Repeat(n - 1, at) + [at]
  }

  lemma {:induction false} AllPassHas(log: seq<Verdict>, n: nat, key: string, at: real)
    ensures Count(AnswersOf(log + AllPass(n, key, at), key)) == Count(AnswersOf(log, key)) + n
  {
    var all := log + AllPass(n, key, at);
    if n == 0 {
      assert all == log;
    } else {
      AllPassHas(log, n - 1, key, at);
      var prev := log + AllPass(n - 1, key, at);
      assert all[..|all| - 1] == prev && all[|all| - 1] == Verdict(key, at, true);
      CountSnoc(AnswersOf(prev, key), true);
    }
  }

  lemma {:induction false} AllPassAt(log: seq<Verdict>, n: nat, key: string, at: real)
    ensures TimesOf(log + AllPass(n, key, at), key) == TimesOf(log, key) + Repeat(n, at)
  {
    var all := log + AllPass(n, key, at);
    if n == 0 {
      assert all == log;
    } else {
      AllPassAt(log, n - 1, key, at);
      assert all[..|all| - 1] == log + AllPass(n - 1, key, at) && all[|all| - 1] == Verdict(key, at, true);
    }
  }

  lemma {:induction false} CountSnoc(ds: seq<bool>, d: bool)
    ensures Count(ds + [d]) == Count(ds) + (if d then 1 else 0)
  {
    if ds == [] {
      assert [d][1..] == [];
    } else {
      CountSnoc(ds[1..], d);
      assert (ds + [d])[1..] == ds[1..] + [d];
    }
  }

  /** Twice the capacity, all admitted, with less than a capacity's refill in between: no immortal bucket. */
  lemma TwoBurstsUnfaithful(c: Config, n: nat, key: string, t: real, u: real)
    requires 0 < n && n as real == c.cap && 0.0 <= t <= u && u - t < c.cap
    ensures !Faithful(c, 0.0, AllPass(n, key, t) + AllPass(n, key, u))
  {
    var log, ts := AllPass(n, key, t) + AllPass(n, key, u), Repeat(n, t) + Repeat(n, u);
    assert TimesOf(log, key) == ts && Count(AnswersOf(log, key)) == n + n by {
      AllPassHas([], n, key, t);
      AllPassAt([], n, key, t);
      assert [] + AllPass(n, key, t) == AllPass(n, key, t);
      AllPassHas(AllPass(n, key, t), n, key, u);
      AllPassAt(AllPass(n, key, t), n, key, u);
    }
    assert ts[0] == t && ts[|ts| - 1] == u && Chronological(0.0, ts);
    assert Count(Decisions(c.cap, Full(c.cap, 0.0), ts)) as real < (n + n) as real by {
      WindowFromFirst(c.cap, Full(c.cap, 0.0), ts);
    }
    assert !FaithfulTo(c, 0.0, log, key);
  }

  /** Drain the bucket as late as the lag allows, let the janitor forget the key, and drain it again. */
  lemma TwoBursts(c: Config, n: nat) returns (es: seq<Event>)
    requires 0 < n && n as real == c.cap && c.ttl >= 0.0 && c.lag >= 0.0 && c.ttl - c.lag < c.cap
    ensures Legal(c, Init(0.0), es) && !Faithful(c, 0.0, Exec(c, Init(0.0), es).log)
  {
    var key := "client";
    var late := Min(c.lag, c.ttl);
    var u := c.ttl + (c.cap - (c.ttl - late)) / 2.0;
    assert c.ttl < u && u - late < c.cap;
    var s0 := Init(0.0);
    var first := Burst(n, key, 0.0, late);
    BurstRun(c, s0, n, key, 0.0, late);
    var s1 := Exec(c, s0, first);
    ExecSnoc(c, s0, first, Sweep(u));
    var s2 := Next(c, s1, Sweep(u));
    var second := Burst(n, key, u, u);
    BurstRun(c, s2, n, key, u, u);
    es := (first + [Sweep(u)]) + second;
    ExecSplit(c, s0, first + [Sweep(u)], second);
    assert s1.log == AllPass(n, key, late);
    TwoBurstsUnfaithful(c, n, key, late, u);
  }

  lemma AmpleInSeconds(l: Limits, idleTTL: real, lag: real)
    requires l.Valid() && idleTTL > 0.0 && lag >= 0.0
    ensures l.Clock(idleTTL) >= 0.0 && l.Clock(lag) >= 0.0
    ensures Ample(Config(l.capacity, l.Clock(idleTTL), l.Clock(lag))) <==> (idleTTL - lag) * l.rate >= l.capacity
  {
    ClockMonotone(l, lag, idleTTL);
    ClockMonotone(l, 0.0, idleTTL);
    ClockMonotone(l, 0.0, lag);
  }

  lemma InvisibleIffAmple(c: Config, n: nat)
    requires 0 < n && n as real == c.cap && c.ttl >= 0.0 && c.lag >= 0.0
    ensures EvictionInvisible(c) <==> Ample(c)
  {
    if Ample(c) {
      forall es | Legal(c, Init(0.0), es)
        ensures Faithful(c, 0.0, Exec(c, Init(0.0), es).log)
      {
        RunKeeps(c, 0.0, es);
        var s := Exec(c, Init(0.0), es);
        forall key
          ensures FaithfulTo(c, 0.0, s.log, key)
        {
          assert KeyInv(c, 0.0, s, key);
        }
      }
    } else {
      var es := TwoBursts(c, n);
    }
  }

  lemma InvisibleIffSeconds(l: Limits, n: nat, idleTTL: real, lag: real)
    requires l.Valid() && n as real == l.capacity && idleTTL > 0.0 && lag >= 0.0
    ensures EvictionInvisible(Config(l.capacity, l.Clock(idleTTL), l.Clock(lag))) <==>
            (idleTTL - lag) * l.rate >= l.capacity
  {
    AmpleInSeconds(l, idleTTL, lag);
    InvisibleIffAmple(Config(l.capacity, l.Clock(idleTTL), l.Clock(lag)), n);
  }

  /** Eviction is invisible in every run exactly when a key must idle, after its last token was taken, for at
      least a full refill: (idleTTL - lag) * rps >= burst, a non-positive rps or burst counting as one. */
  lemma EvictionInvisibleIff(rps: real, burst: int, idleTTL: real, lag: real, l: Limits)
    requires idleTTL > 0.0 && lag >= 0.0
    requires l == Limits(if burst >= 1 then burst as real else 1.0, if rps > 0.0 then rps else 1.0)
    ensures EvictionInvisible(Config(l.capacity, l.Clock(idleTTL), l.Clock(lag))) <==>
            (idleTTL - lag) * l.rate >= l.capacity
  {
    InvisibleIffSeconds(l, if burst <= 0 then 1 else burst, idleTTL, lag);
  }

  // ---------------------------------------------------------------- the limiter object

  datatype Slot = Slot(bucket: Bucket, seen: real)

  class Limiter {
    var buckets: map<string, Slot>
    const rps: real
    const burst: int
    const idleTTL: real

    ghost function Spec(): Limits {
      Clamp(rps, burst)
    }

    ghost function Objects(): set<Bucket>
      reads this
    {
      set k | k in buckets :: buckets[k].bucket
    }

    ghost predicate Valid()
      reads this, Objects()
    {
      && idleTTL > 0.0
      && (forall k :: k in buckets ==> buckets[k].bucket.Valid() && buckets[k].bucket.Spec() == Spec())
      && (forall k, k' :: k in buckets && k' in buckets && buckets[k].bucket == buckets[k'].bucket ==> k == k')
    }

    constructor (rps: real, burst: int, idleTTL: real)
      ensures Valid() && buckets == map[] && this.rps == rps && this.burst == burst
      ensures this.idleTTL == if idleTTL <= 0.0 then 600.0 else idleTTL
    {
      this.rps, this.burst := rps, burst;
      this.idleTTL := if idleTTL <= 0.0 then 600.0 else idleTTL;
      buckets := map[];
    }

    /** The Lookup event: the part of Allow under the map lock finds or creates the bucket and stamps it. */
    method Lookup(key: string, now: real) returns (b: Bucket)
      requires Valid()
      modifies this
      ensures Valid() && buckets == old(buckets)[key := Slot(b, now)]
      ensures key in old(buckets) ==> b == old(buckets)[key].bucket
      ensures key !in old(buckets) ==> fresh(b) && b.last == now && b.View() == Full(b.capacity, b.Spec().Clock(now))
      ensures b.capacity == (if burst >= 1 then burst as real else 1.0)
      ensures b.refillPerSec == (if rps > 0.0 then rps else 1.0)
    {
      if key in buckets {
        b := buckets[key].bucket;
      } else {
        b := new Bucket(rps, burst, now);
      }
      buckets := buckets[key := Slot(b, now)];
    }

    /** A Lookup event, then a Consume event on the bucket it found; no other key's bucket is touched. */
    method Allow(key: string, now: real, later: real) returns (ok: bool)
      requires Valid() && now <= later
      requires key in buckets ==> buckets[key].bucket.last <= later
      modifies this, Objects()
      ensures Valid() && buckets.Keys == old(buckets).Keys + {key}
      ensures forall k :: k in old(buckets) && k != key ==>
                buckets[k] == old(buckets)[k] && buckets[k].bucket.View() == old(buckets[k].bucket.View())
      ensures buckets[key].seen == now
      ensures key in old(buckets) ==> buckets[key].bucket == old(buckets)[key].bucket
      ensures var b := buckets[key].bucket;
              Answer(b.View(), ok) ==
              Ask(b.capacity, if key in old(buckets) then old(buckets[key].bucket.View())
                              else Full(b.capacity, b.Spec().Clock(now)), b.Spec().Clock(later))
    {
      var b := Lookup(key, now);
      assert key in buckets && buckets[key].bucket == b;
      ok := b.Allow(later);
    }

    /** The Sweep event: drop every key not seen within idleTTL, and only those. */
    method Sweep(now: real)
      requires Valid()
      modifies this
      ensures Valid()
      ensures buckets == map k | k in old(buckets) && !(old(buckets)[k].seen < now - idleTTL) :: old(buckets)[k]
    {
      var cutoff := now - idleTTL;
      var todo := buckets.Keys;
      while todo != {}
        invariant todo <= old(buckets).Keys
        invariant buckets ==
                  map k | k in old(buckets) && (k in todo || !(old(buckets)[k].seen < cutoff)) :: old(buckets)[k]
        decreases todo
      {
        var key :| key in todo;
        if buckets[key].seen < cutoff {
          buckets := buckets - {key};
        }
        todo := todo - {key};
      }
    }
  }
}
