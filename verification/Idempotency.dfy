/** Concurrent Enqueue calls and the idempotency claim (internal/service/gateway_service.go): claim the key, create
    the row, push, or delete the claim again on failure, interleaved in every way with other calls. */
module Idempotency {
  import opened Domain

  /** The rendered Redis key; RedisKeys shows it stands for the pair of job type and client key. */
  type Key = string

  /** ttl: the claim's lifetime; limit: the longest any Enqueue call takes from its claim to its end. */
  datatype Config = Config(ttl: nat, limit: nat)

  datatype Stage = Claimed | Created | Releasing

  datatype Call = Call(key: Key, job: Id, at: nat, stage: Stage)

  /** A push that Enqueue reported as successful, with the time of the claim it rests on. */
  datatype Push = Push(key: Key, job: Id, at: nat)

  /** stole: some call has deleted a live claim that was not its own. */
  datatype State = State(
    now: nat, claims: map<Key, Entry>, calls: map<nat, Call>, used: set<Id>, pushes: seq<Push>, stole: bool)
  {
    predicate Live(key: Key) {
      key in claims && now < claims[key].expires
    }
  }

  datatype Step =
    | Tick(d: nat)
    | ClaimKey(cid: nat, key: Key, job: Id)
    | ClaimUnheard(key: Key, job: Id)          // SetNX took effect but the caller saw an error and gave up
    | CreateRow(cid: nat, ok: bool)
    | PushJob(cid: nat, ok: bool)
    | DeleteClaim(cid: nat, ok: bool)

  /** No call in progress may be older than the limit. */
  predicate MayTick(c: Config, s: State, d: nat) {
    forall i :: i in s.calls ==> s.now + d <= s.calls[i].at + c.limit
  }

  predicate Enabled(c: Config, s: State, st: Step) {
    match st
    case Tick(d) => MayTick(c, s, d)
    case ClaimKey(cid, key, job) => cid !in s.calls && job !in s.used && !s.Live(key)
    case ClaimUnheard(key, job) => job !in s.used && !s.Live(key)
    case CreateRow(cid, _) => cid in s.calls && s.calls[cid].stage == Claimed
    case PushJob(cid, _) => cid in s.calls && s.calls[cid].stage == Created
    case DeleteClaim(cid, _) => cid in s.calls && s.calls[cid].stage == Releasing
  }

  function Next(c: Config, s: State, st: Step): State
    requires Enabled(c, s, st)
  {
    match st
    case Tick(d) => s.(now := s.now + d)
    case ClaimKey(cid, key, job) =>
      s.(claims := s.claims[key := Entry(job, s.now + c.ttl)], used := s.used + {job},
         calls := s.calls[cid := Call(key, job, s.now, Claimed)])
    case ClaimUnheard(key, job) =>
      s.(claims := s.claims[key := Entry(job, s.now + c.ttl)], used := s.used + {job})
    case CreateRow(cid, ok) =>
      s.(calls := s.calls[cid := s.calls[cid].(stage := if ok then Created else Releasing)])
    case PushJob(cid, ok) =>
      var call := s.calls[cid];
      if ok then s.(calls := s.calls - {cid}, pushes := s.pushes + [Push(call.key, call.job, call.at)])
      else s.(calls := s.calls[cid := call.(stage := Releasing)])
    case DeleteClaim(cid, ok) =>
      var call := s.calls[cid];
      var t := s.(calls := s.calls - {cid});
      if ok then t.(claims := s.claims - {call.key},
                    stole := s.stole || (s.Live(call.key) && s.claims[call.key].value != call.job))
      else t
  }

  const INIT := State(0, map[], map[], {}, [], false)

  function Exec(c: Config, run: seq<Step>): State {
    if run == [] then INIT
    else
      var s := Exec(c, run[..|run| - 1]);
      if Enabled(c, s, run[|run| - 1]) then Next(c, s, run[|run| - 1]) else s
  }

  predicate Legal(c: Config, run: seq<Step>) {
    run == [] || (Legal(c, run[..|run| - 1]) && Enabled(c, Exec(c, run[..|run| - 1]), run[|run| - 1]))
  }

  /** Some legal run ends in s. */
  ghost predicate Reachable(c: Config, s: State) {
    exists run :: Legal(c, run) && Exec(c, run) == s
  }

  lemma Go(c: Config, s: State, st: Step) returns (s': State)
    requires Reachable(c, s) && Enabled(c, s, st)
    ensures s' == Next(c, s, st) && Reachable(c, s')
  {
    var run :| Legal(c, run) && Exec(c, run) == s;
    s' := Next(c, s, st);
    assert (run + [st])[..|run|] == run;
    assert Legal(c, run + [st]) && Exec(c, run + [st]) == s';
  }

  lemma Start(c: Config) returns (s: State)
    ensures s == INIT && Reachable(c, s)
  {
    s := INIT;
    assert Legal(c, []) && Exec(c, []) == s;
  }

  /** Successful pushes for one key rest on claims at least one lifetime apart. */
  ghost predicate PushesApart(c: Config, s: State) {
    forall i, j :: 0 <= i < j < |s.pushes| && s.pushes[i].key == s.pushes[j].key ==>
      s.pushes[i].at + c.ttl <= s.pushes[j].at
  }

  // ---------------------------------------------------------------- the invariant

  ghost predicate CallHolds(c: Config, s: State, call: Call) {
    && call.at <= s.now <= call.at + c.limit
    && call.key in s.claims && s.claims[call.key] == Entry(call.job, call.at + c.ttl)
  }

  ghost predicate PushHolds(c: Config, s: State, p: Push) {
    && p.at <= s.now
    && (s.now < p.at + c.ttl ==> p.key in s.claims && s.claims[p.key] == Entry(p.job, p.at + c.ttl))
    && (forall i :: i in s.calls && s.calls[i].key == p.key ==> p.at + c.ttl <= s.calls[i].at)
  }

  ghost predicate Inv(c: Config, s: State) {
    && !s.stole && PushesApart(c, s)
    && (forall i :: i in s.calls ==> CallHolds(c, s, s.calls[i]))
    && (forall i, j :: i in s.calls && j in s.calls && i != j ==> s.calls[i].key != s.calls[j].key)
    && (forall k :: 0 <= k < |s.pushes| ==> PushHolds(c, s, s.pushes[k]))
  }

  lemma CallsKeep(c: Config, s: State, st: Step, i: nat)
    requires c.limit < c.ttl && Inv(c, s) && Enabled(c, s, st) && i in Next(c, s, st).calls
    ensures CallHolds(c, Next(c, s, st), Next(c, s, st).calls[i])
  {
    if i in s.calls {
      assert CallHolds(c, s, s.calls[i]);
    }
  }

  lemma CallsApart(c: Config, s: State, st: Step, i: nat, j: nat)
    requires c.limit < c.ttl && Inv(c, s) && Enabled(c, s, st)
    requires i in Next(c, s, st).calls && j in Next(c, s, st).calls && i != j
    ensures Next(c, s, st).calls[i].key != Next(c, s, st).calls[j].key
  {
    if i in s.calls { assert CallHolds(c, s, s.calls[i]); }
    if j in s.calls { assert CallHolds(c, s, s.calls[j]); }
  }

  lemma PushesKeep(c: Config, s: State, st: Step, k: nat)
    requires c.limit < c.ttl && Inv(c, s) && Enabled(c, s, st) && k < |Next(c, s, st).pushes|
    ensures PushHolds(c, Next(c, s, st), Next(c, s, st).pushes[k])
  {
    var t := Next(c, s, st);
    if k < |s.pushes| {
      var p := s.pushes[k];
      assert PushHolds(c, s, p);
      if st.DeleteClaim? {
        assert CallHolds(c, s, s.calls[st.cid]);
      }
    } else {
      assert CallHolds(c, s, s.calls[st.cid]);
    }
  }

  lemma StepKeeps(c: Config, s: State, st: Step)
    requires c.limit < c.ttl && Inv(c, s) && Enabled(c, s, st)
    ensures Inv(c, Next(c, s, st))
  {
    var t := Next(c, s, st);
    forall i | i in t.calls ensures CallHolds(c, t, t.calls[i]) { CallsKeep(c, s, st, i); }
    forall i, j | i in t.calls && j in t.calls && i != j
      ensures t.calls[i].key != t.calls[j].key
    {
      CallsApart(c, s, st, i, j);
    }
    forall k | 0 <= k < |t.pushes| ensures PushHolds(c, t, t.pushes[k]) { PushesKeep(c, s, st, k); }
    if st.DeleteClaim? || st.PushJob? {
      assert CallHolds(c, s, s.calls[st.cid]);
    }
    assert forall k :: 0 <= k < |s.pushes| ==> PushHolds(c, s, s.pushes[k]);
  }

  lemma {:induction false} RunKeeps(c: Config, run: seq<Step>)
    requires c.limit < c.ttl && Legal(c, run)
    ensures Inv(c, Exec(c, run))
  {
    if run != [] {
      RunKeeps(c, run[..|run| - 1]);
      StepKeeps(c, Exec(c, run[..|run| - 1]), run[|run| - 1]);
    }
  }

  // ---------------------------------------------------------------- what a slow call can do

  /** One uninterrupted call that gets its claim: its first two steps ... */
  lemma ClaimAlone(c: Config, s: State, cid: nat, key: Key, job: Id, created: bool) returns (s': State)
    requires Reachable(c, s) && !s.Live(key) && cid !in s.calls && job !in s.used
    ensures Reachable(c, s')
    ensures s' == s.(claims := s.claims[key := Entry(job, s.now + c.ttl)], used := s.used + {job},
                     calls := s.calls[cid := Call(key, job, s.now, if created then Created else Releasing)])
  {
    var s1 := DoClaim(c, s, cid, key, job);
    var call := Call(key, job, s.now, if created then Created else Releasing);
    assert s1.calls[cid := call] == s.calls[cid := call];
    s' := DoCreate(c, s1, cid, created);
  }

  lemma DoClaim(c: Config, s: State, cid: nat, key: Key, job: Id) returns (s': State)
    requires Reachable(c, s) && !s.Live(key) && cid !in s.calls && job !in s.used
    ensures Reachable(c, s')
    ensures s' == s.(claims := s.claims[key := Entry(job, s.now + c.ttl)], used := s.used + {job},
                     calls := s.calls[cid := Call(key, job, s.now, Claimed)])
  {
    s' := Go(c, s, ClaimKey(cid, key, job));
  }

  lemma DoCreate(c: Config, s: State, cid: nat, ok: bool) returns (s': State)
    requires Reachable(c, s) && cid in s.calls && s.calls[cid].stage == Claimed
    ensures Reachable(c, s')
    ensures s' == s.(calls := s.calls[cid := s.calls[cid].(stage := if ok then Created else Releasing)])
  {
    s' := Go(c, s, CreateRow(cid, ok));
  }

  lemma ReleaseAlone(c: Config, s: State, cid: nat, del: bool) returns (s': State)
    requires Reachable(c, s) && cid in s.calls && s.calls[cid].stage == Releasing
    ensures Reachable(c, s') && s'.now == s.now && s'.pushes == s.pushes && s'.calls == s.calls - {cid}
    ensures s'.claims == if del then s.claims - {s.calls[cid].key} else s.claims
  {
    s' := Go(c, s, DeleteClaim(cid, del));
  }

  lemma PushAlone(c: Config, s: State, cid: nat, pushed: bool, del: bool) returns (s': State)
    requires Reachable(c, s) && cid in s.calls && s.calls[cid].stage == Created
    ensures Reachable(c, s') && s'.now == s.now && s'.calls == s.calls - {cid}
    ensures s'.claims == if !pushed && del then s.claims - {s.calls[cid].key} else s.claims
    ensures var call := s.calls[cid];
            s'.pushes == if pushed then s.pushes + [Push(call.key, call.job, call.at)] else s.pushes
  {
    s' := Go(c, s, PushJob(cid, pushed));
    if !pushed {
      s' := ReleaseAlone(c, s', cid, del);
    }
  }

  lemma UnheardClaim(c: Config, s: State, key: Key, job: Id) returns (s': State)
    requires Reachable(c, s) && !s.Live(key) && job !in s.used
    ensures Reachable(c, s')
    ensures s' == s.(claims := s.claims[key := Entry(job, s.now + c.ttl)], used := s.used + {job})
  {
    s' := Go(c, s, ClaimUnheard(key, job));
  }

  /** ... and all of them. */
  lemma WholeCall(c: Config, s: State, cid: nat, key: Key, job: Id, created: bool, pushed: bool, del: bool)
    returns (s': State)
    requires Reachable(c, s) && !s.Live(key) && cid !in s.calls && job !in s.used
    ensures Reachable(c, s') && s'.now == s.now && s'.calls == s.calls
    ensures s'.claims == if !(created && pushed) && del then s.claims - {key}
                         else s.claims[key := Entry(job, s.now + c.ttl)]
    ensures s'.pushes == if created && pushed then s.pushes + [Push(key, job, s.now)] else s.pushes
  {
    var s1 := ClaimAlone(c, s, cid, key, job, created);
    assert s1.calls - {cid} == s.calls && s1.claims - {key} == s.claims - {key};
    if created {
      s' := PushAlone(c, s1, cid, pushed, del);
    } else {
      s' := ReleaseAlone(c, s1, cid, del);
    }
  }

  /** A call lives to see its claim expire ... */
  lemma ClaimExpires(c: Config) returns (s: State)
    requires c.limit >= c.ttl > 0
    ensures Reachable(c, s)
    ensures s == State(c.ttl, map["k" := Entry("a", c.ttl)], map[0 := Call("k", "a", 0, Claimed)], {"a"}, [], false)
  {
    s := Start(c);
    s := Go(c, s, ClaimKey(0, "k", "a"));
    assert s == State(0, map["k" := Entry("a", c.ttl)], map[0 := Call("k", "a", 0, Claimed)], {"a"}, [], false);
    s := Go(c, s, Tick(c.ttl));
  }

  /** ... and the key claimed again. */
  lemma TwoClaims(c: Config) returns (s: State)
    requires c.limit >= c.ttl > 0
    ensures Reachable(c, s)
    ensures s == State(c.ttl, map["k" := Entry("b", c.ttl + c.ttl)],
                       map[0 := Call("k", "a", 0, Claimed), 1 := Call("k", "b", c.ttl, Claimed)], {"a", "b"}, [], false)
  {
    s := ClaimExpires(c);
    s := Go(c, s, ClaimKey(1, "k", "b"));
    assert {"a"} + {"b"} == {"a", "b"};
  }

  /** A call that outlives its claim deletes its successor's. */
  lemma SlowCallSteals(c: Config) returns (s: State)
    requires c.limit >= c.ttl > 0
    ensures Reachable(c, s)
    ensures s == State(c.ttl, map[], map[1 := Call("k", "b", c.ttl, Claimed)], {"a", "b"}, [], true)
  {
    s := TwoClaims(c);
    s := Go(c, s, CreateRow(0, false));
    assert s.calls[0] == Call("k", "a", 0, Releasing);
    s := Go(c, s, DeleteClaim(0, true));
    assert s.calls == map[1 := Call("k", "b", c.ttl, Claimed)];
  }

  /** ... and a third call slips in beside that successor. */
  lemma ThirdCallSlipsIn(c: Config) returns (s: State)
    requires c.limit >= c.ttl > 0
    ensures Reachable(c, s) && s.stole && !PushesApart(c, s)
  {
    s := SecondCallPushes(c);
    s := Go(c, s, CreateRow(2, true));
    assert s.calls[2] == Call("k", "c", c.ttl, Created);
    s := Go(c, s, PushJob(2, true));
    assert s.pushes[0] == Push("k", "b", c.ttl) && s.pushes[1] == Push("k", "c", c.ttl);
  }

  lemma SecondCallPushes(c: Config) returns (s: State)
    requires c.limit >= c.ttl > 0
    ensures Reachable(c, s) && s.stole && s.pushes == [Push("k", "b", c.ttl)]
    ensures 2 in s.calls && s.calls[2] == Call("k", "c", c.ttl, Claimed)
  {
    s := SlowCallSteals(c);
    s := Go(c, s, ClaimKey(2, "k", "c"));
    s := Go(c, s, CreateRow(1, true));
    assert s.calls[1] == Call("k", "b", c.ttl, Created) && s.calls[2] == Call("k", "c", c.ttl, Claimed);
    s := Go(c, s, PushJob(1, true));
  }

  ghost predicate DeletesOnlyOwn(c: Config) {
    forall s :: Reachable(c, s) ==> !s.stole
  }

  ghost predicate AlwaysApart(c: Config) {
    forall s :: Reachable(c, s) ==> PushesApart(c, s)
  }

  /** Over all interleavings and store or queue failures: a failing call deletes only its own claim, and successful
      pushes for one (type, key) rest on claims at least one lifetime apart, exactly when every Enqueue call ends
      before its claim expires. */
  lemma IdempotentIff(c: Config)
    requires c.ttl > 0
    ensures DeletesOnlyOwn(c) <==> c.limit < c.ttl
    ensures AlwaysApart(c) <==> c.limit < c.ttl
  {
    if c.limit < c.ttl {
      forall s | Reachable(c, s)
        ensures !s.stole && PushesApart(c, s)
      {
        var run :| Legal(c, run) && Exec(c, run) == s;
        RunKeeps(c, run);
      }
    } else {
      var s := ThirdCallSlipsIn(c);
    }
  }
}
