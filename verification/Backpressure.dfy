/** Load shedding (internal/api/middleware/backpressure.go): requests look at the total queue depth before they
    enqueue, while workers pop and retries, fan-outs and admin re-queues push unasked.

    The depth is three LLEN replies from a pipeline that is not a transaction, so other commands may run between
    them; the bound is proved for such torn reads. */
module Backpressure {
  import opened Sums
  import opened PriorityQueue

  /** width: how many requests can be in flight; failing: whether runs may contain failed depth checks. */
  datatype Config = Config(threshold: int, width: nat, failing: bool)

  /** Own: pushed by a request, as push number seqno, begun when start pushes had been made. Extra: any other push. */
  datatype Item = Own(seqno: nat, start: nat) | Extra

  /** A request in flight, with the number of pushes made when it began; at: how many lists it has measured. */
  datatype Slot = Free | Reading(start: nat, at: nat, total: nat) | Passed(start: nat)

  datatype State = State(lists: Lists<Item>, slots: seq<Slot>, pushed: nat, extra: nat)

  datatype Step =
    | Begin(w: nat)
    | ReadLen(w: nat)
    | Compare(w: nat)
    | CheckFails(w: nat)                          // fail open
    | Finish(w: nat, level: Level, pushes: bool)  // Enqueue pushes, or ends without pushing
    | PushExtra(level: Level)
    | PopOne

  predicate Enabled(c: Config, s: State, st: Step) {
    match st
    case Begin(w) => w < |s.slots| && s.slots[w].Free?
    case ReadLen(w) => w < |s.slots| && s.slots[w].Reading? && s.slots[w].at < |LEVELS|
    case Compare(w) => w < |s.slots| && s.slots[w].Reading? && s.slots[w].at == |LEVELS|
    case CheckFails(w) => c.failing && w < |s.slots| && s.slots[w].Reading?
    case Finish(w, _, _) => w < |s.slots| && s.slots[w].Passed?
    case PushExtra(_) => true
    case PopOne => !s.lists.Empty()
  }

  function Next(c: Config, s: State, st: Step): State
    requires Enabled(c, s, st)
  {
    match st
    case Begin(w) => s.(slots := s.slots[w := if c.threshold > 0 then Reading(s.pushed, 0, 0) else Passed(s.pushed)])
    case ReadLen(w) =>
      var r := s.slots[w];
      s.(slots := s.slots[w := Reading(r.start, r.at + 1, r.total + |s.lists.At(LEVELS[r.at])|)])
    case Compare(w) =>
      var r := s.slots[w];
      s.(slots := s.slots[w := if r.total >= c.threshold then Free else Passed(r.start)])
    case CheckFails(w) => s.(slots := s.slots[w := Passed(s.slots[w].start)])
    case Finish(w, level, pushes) =>
      var t := s.(slots := s.slots[w := Free]);
      if pushes then t.(lists := s.lists.LPush(level, Own(s.pushed, s.slots[w].start)), pushed := s.pushed + 1) else t
    case PushExtra(level) => s.(lists := s.lists.LPush(level, Extra), extra := s.extra + 1)
    case PopOne => s.(lists := s.lists.Rest())
  }

  function Init(c: Config): State {
    State(Lists([], [], []), seq(c.width, i => Free), 0, 0)
  }

  function Exec(c: Config, run: seq<Step>): State {
    if run == [] then Init(c)
    else
      var s := Exec(c, run[..|run| - 1]);
      if Enabled(c, s, run[|run| - 1]) then Next(c, s, run[|run| - 1]) else s
  }

  predicate Legal(c: Config, run: seq<Step>) {
    run == [] || (Legal(c, run[..|run| - 1]) && Enabled(c, Exec(c, run[..|run| - 1]), run[|run| - 1]))
  }

  // ---------------------------------------------------------------- counting queued items

  function IsOwn(): Item -> nat { (x: Item) => if x.Own? then 1 else 0 }

  function IsExtra(): Item -> nat { (x: Item) => if x.Extra? then 1 else 0 }

  /** The items of the first n pushes. */
  function Below(n: nat): Item -> nat { (x: Item) => if x.Own? && x.seqno < n then 1 else 0 }

  function Is(n: nat): Item -> nat { (x: Item) => if x.Own? && x.seqno == n then 1 else 0 }

  /** Items pushed after push n by requests that had begun before it. */
  function Straddles(n: nat): Item -> nat { (x: Item) => if x.Own? && x.start <= n < x.seqno then 1 else 0 }

  /** Requests still in flight that had begun before push n. */
  function BegunBy(n: nat): Slot -> nat { (r: Slot) => if !r.Free? && r.start <= n then 1 else 0 }

  /** Queued items of the first n pushes in the first k lists. */
  function BelowIn(q: Lists<Item>, k: nat, n: nat): nat {
    (if k > 0 then Sum(q.high, Below(n)) else 0) + (if k > 1 then Sum(q.medium, Below(n)) else 0)
    + (if k > 2 then Sum(q.low, Below(n)) else 0)
  }

  // ---------------------------------------------------------------- the invariant

  ghost predicate Numbered(s: State) {
    && (forall l: Level, x :: x in s.lists.At(l) && x.Own? ==> x.start <= x.seqno < s.pushed)
    && (forall w :: 0 <= w < |s.slots| && !s.slots[w].Free? ==> s.slots[w].start <= s.pushed)
  }

  ghost predicate Unique(s: State, n: nat) {
    WeighLists(s.lists, Is(n)) <= if n < s.pushed then 1 else 0
  }

  /** When push n was made, every other request then in flight held one of the other slots. */
  ghost predicate Crowded(s: State, n: nat) {
    n < s.pushed ==> WeighLists(s.lists, Straddles(n)) + Sum(s.slots, BegunBy(n)) < |s.slots|
  }

  /** What a request has counted covers everything older than itself that is still queued where it has looked. */
  ghost predicate SlotInformed(c: Config, s: State, r: Slot) {
    match r
    case Free => true
    case Reading(start, at, total) => at <= 3 && BelowIn(s.lists, at, start) <= total
    case Passed(start) => BelowIn(s.lists, 3, start) < c.threshold
  }

  ghost predicate Informed(c: Config, s: State) {
    && (forall w :: 0 <= w < |s.slots| ==> SlotInformed(c, s, s.slots[w]))
    && (forall l: Level, x :: x in s.lists.At(l) && x.Own? ==> BelowIn(s.lists, 3, x.start) < c.threshold)
  }

  ghost predicate Inv(c: Config, s: State) {
    && |s.slots| == c.width && Numbered(s) && Informed(c, s)
    && (forall n: nat :: Unique(s, n) && Crowded(s, n))
    && WeighLists(s.lists, IsExtra()) <= s.extra
  }

  /** Nothing pushed from now on is older than n, so the old items can only go. */
  lemma OldItemsOnlyGo(c: Config, s: State, st: Step, n: nat, k: nat)
    requires Enabled(c, s, st) && n <= s.pushed
    ensures BelowIn(Next(c, s, st).lists, k, n) <= BelowIn(s.lists, k, n)
  {
    match st
    case Finish(w, level, pushes) => SumCons(Own(s.pushed, s.slots[w].start), s.lists.At(level), Below(n));
    case PushExtra(level) => SumCons(Extra, s.lists.At(level), Below(n));
    case PopOne =>
      var xs := s.lists.At(s.lists.Front());
      assert xs == xs[..|xs| - 1] + [xs[|xs| - 1]];
      SumSnoc(xs[..|xs| - 1], xs[|xs| - 1], Below(n));
    case _ =>
  }

  lemma SlotKeeps(c: Config, s: State, st: Step, w: nat)
    requires c.threshold > 0 && !c.failing && Inv(c, s) && Enabled(c, s, st) && w < |s.slots|
    ensures SlotInformed(c, Next(c, s, st), Next(c, s, st).slots[w])
  {
    var r := s.slots[w];
    assert SlotInformed(c, s, r);
    if !r.Free? {
      OldItemsOnlyGo(c, s, st, r.start, if r.Reading? then r.at else 3);
      if st.ReadLen? && st.w == w {
        SumAtMostLength(s.lists.At(LEVELS[r.at]), Below(r.start));
      }
    }
  }

  lemma ItemKeeps(c: Config, s: State, st: Step, l: Level, x: Item)
    requires c.threshold > 0 && !c.failing && Inv(c, s) && Enabled(c, s, st)
    requires x in Next(c, s, st).lists.At(l) && x.Own?
    ensures x.start <= x.seqno < Next(c, s, st).pushed && BelowIn(Next(c, s, st).lists, 3, x.start) < c.threshold
  {
    if x in s.lists.At(l) {
      OldItemsOnlyGo(c, s, st, x.start, 3);
    } else {
      assert SlotInformed(c, s, s.slots[st.w]);
      OldItemsOnlyGo(c, s, st, x.start, 3);
    }
  }

  lemma CountsKeep(c: Config, s: State, st: Step, n: nat)
    requires Numbered(s) && Unique(s, n) && Crowded(s, n) && Enabled(c, s, st)
    requires n == s.pushed ==> WeighLists(s.lists, Straddles(n)) == 0
    ensures Unique(Next(c, s, st), n)
    ensures n != s.pushed ==> Crowded(Next(c, s, st), n)
  {
    var t := Next(c, s, st);
    match st
    case PushExtra(level) =>
      LPushWeighs(s.lists, level, Extra, Is(n));
      LPushWeighs(s.lists, level, Extra, Straddles(n));
    case PopOne =>
      PopWeighs(s.lists, Is(n));
      PopWeighs(s.lists, Straddles(n));
    case Finish(w, level, pushes) =>
      var x := Own(s.pushed, s.slots[w].start);
      LPushWeighs(s.lists, level, x, Is(n));
      LPushWeighs(s.lists, level, x, Straddles(n));
      SumUpdate(s.slots, w, Free, BegunBy(n));
    case _ => SumUpdate(s.slots, st.w, t.slots[st.w], BegunBy(n));
  }

  lemma NoneLater(s: State, n: nat)
    requires Numbered(s) && n >= s.pushed
    ensures WeighLists(s.lists, Straddles(n)) == 0
  {
    assert forall l: Level, x :: x in s.lists.At(l) && x.Own? ==> x.seqno < s.pushed;
    SumZero(s.lists.At(HighList), Straddles(n));
    SumZero(s.lists.At(MediumList), Straddles(n));
    SumZero(s.lists.At(LowList), Straddles(n));
  }

  /** The request that makes push n leaves its slot, so the others in flight do not fill all slots. */
  lemma PusherLeaves(c: Config, s: State, st: Step)
    requires Numbered(s) && Enabled(c, s, st)
    ensures Crowded(Next(c, s, st), s.pushed)
  {
    var t, n := Next(c, s, st), s.pushed;
    if st.Finish? && st.pushes {
      NoneLater(s, n);
      LPushWeighs(s.lists, st.level, Own(n, s.slots[st.w].start), Straddles(n));
      SumRemove(t.slots, st.w, BegunBy(n));
      SumAtMostLength(t.slots[..st.w] + t.slots[st.w + 1..], BegunBy(n));
    }
  }

  lemma ExtraKeeps(c: Config, s: State, st: Step)
    requires WeighLists(s.lists, IsExtra()) <= s.extra && Enabled(c, s, st)
    ensures WeighLists(Next(c, s, st).lists, IsExtra()) <= Next(c, s, st).extra
  {
    match st
    case PushExtra(level) => LPushWeighs(s.lists, level, Extra, IsExtra());
    case Finish(w, level, _) => LPushWeighs(s.lists, level, Own(s.pushed, s.slots[w].start), IsExtra());
    case PopOne => PopWeighs(s.lists, IsExtra());
    case _ =>
  }

  lemma StepKeeps(c: Config, s: State, st: Step)
    requires c.threshold > 0 && !c.failing && Inv(c, s) && Enabled(c, s, st)
    ensures Inv(c, Next(c, s, st))
  {
    var t := Next(c, s, st);
    forall l: Level, x | x in t.lists.At(l) && x.Own?
      ensures x.start <= x.seqno < t.pushed && BelowIn(t.lists, 3, x.start) < c.threshold
    {
      ItemKeeps(c, s, st, l, x);
    }
    forall w | 0 <= w < |t.slots|
      ensures SlotInformed(c, t, t.slots[w])
    {
      SlotKeeps(c, s, st, w);
    }
    forall n: nat
      ensures Unique(t, n) && Crowded(t, n)
    {
      assert Unique(s, n) && Crowded(s, n);
      if n == s.pushed { NoneLater(s, n); }
      CountsKeep(c, s, st, n);
      PusherLeaves(c, s, st);
    }
    ExtraKeeps(c, s, st);
  }

  lemma {:induction false} RunKeeps(c: Config, run: seq<Step>)
    requires c.threshold > 0 && !c.failing && Legal(c, run)
    ensures Inv(c, Exec(c, run))
  {
    if run == [] {
      assert forall l: Level :: Init(c).lists.At(l) == [];
    } else {
      RunKeeps(c, run[..|run| - 1]);
      StepKeeps(c, Exec(c, run[..|run| - 1]), run[|run| - 1]);
    }
  }

  // ---------------------------------------------------------------- the bound

  /** If no queued request began after push n: those before push n, push n itself, and those that straddle it. */
  lemma {:induction false} OwnSplits(xs: seq<Item>, n: nat)
    requires forall x :: x in xs && x.Own? ==> x.start <= n
    ensures Sum(xs, IsOwn()) == Sum(xs, Below(n)) + Sum(xs, Is(n)) + Sum(xs, Straddles(n))
  {
    if xs != [] {
      OwnSplits(xs[1..], n);
    }
  }

  ghost predicate NoneBegunAfter(s: State, n: nat) {
    forall l: Level, x :: x in s.lists.At(l) && x.Own? ==> x.start <= n
  }

  /** The queued request that began last saw fewer than threshold older items; everything else straddles it. */
  lemma NewestDecides(c: Config, s: State, l: Level, x: Item)
    requires c.threshold > 0 && Inv(c, s) && x in s.lists.At(l) && x.Own? && NoneBegunAfter(s, x.start)
    ensures WeighLists(s.lists, IsOwn()) <= c.threshold - 1 + c.width
  {
    var n := x.start;
    OwnSplits(s.lists.At(HighList), n);
    OwnSplits(s.lists.At(MediumList), n);
    OwnSplits(s.lists.At(LowList), n);
    assert BelowIn(s.lists, 3, n) < c.threshold;
    assert Unique(s, n) && Crowded(s, n);
  }

  lemma {:induction false} OwnBounded(c: Config, s: State, n: nat)
    requires c.threshold > 0 && Inv(c, s) && NoneBegunAfter(s, n)
    ensures WeighLists(s.lists, IsOwn()) <= c.threshold - 1 + c.width
  {
    if l: Level, x :| x in s.lists.At(l) && x.Own? && x.start == n {
      NewestDecides(c, s, l, x);
    } else if n > 0 {
      OwnBounded(c, s, n - 1);
    } else {
      SumZero(s.lists.At(HighList), IsOwn());
      SumZero(s.lists.At(MediumList), IsOwn());
      SumZero(s.lists.At(LowList), IsOwn());
    }
  }

  lemma {:induction false} OwnOrExtra(xs: seq<Item>)
    ensures |xs| == Sum(xs, IsOwn()) + Sum(xs, IsExtra())
  {
    if xs != [] {
      OwnOrExtra(xs[1..]);
    }
  }

  lemma {:induction false} DepthBounded(c: Config, run: seq<Step>)
    requires c.threshold > 0 && !c.failing && Legal(c, run)
    ensures Exec(c, run).lists.Depth() <= c.threshold - 1 + c.width + Exec(c, run).extra
  {
    var s := Exec(c, run);
    RunKeeps(c, run);
    OwnBounded(c, s, s.pushed);
    OwnOrExtra(s.lists.high);
    OwnOrExtra(s.lists.medium);
    OwnOrExtra(s.lists.low);
  }

  // ---------------------------------------------------------------- the bound is attained

  lemma Go(c: Config, run: seq<Step>, s: State, st: Step) returns (run': seq<Step>, s': State)
    requires Legal(c, run) && Exec(c, run) == s && Enabled(c, s, st)
    ensures s' == Next(c, s, st) && Legal(c, run') && Exec(c, run') == s'
  {
    run', s' := run + [st], Next(c, s, st);
    assert run'[..|run|] == run;
  }

  predicate Admits(c: Config, depth: nat) {
    c.threshold <= 0 || c.failing || depth < c.threshold
  }

  /** A request on a free slot gets through, and nothing else changes. */
  lemma Admit(c: Config, run: seq<Step>, s: State, w: nat) returns (run': seq<Step>, s': State)
    requires Legal(c, run) && Exec(c, run) == s && w < |s.slots| && s.slots[w].Free? && Admits(c, s.lists.Depth())
    ensures Legal(c, run') && Exec(c, run') == s' && s' == s.(slots := s.slots[w := Passed(s.pushed)])
  {
    run', s' := Go(c, run, s, Begin(w));
    if c.threshold > 0 {
      if c.failing {
        run', s' := Go(c, run', s', CheckFails(w));
      } else {
        run', s' := Go(c, run', s', ReadLen(w));
        run', s' := Go(c, run', s', ReadLen(w));
        run', s' := Go(c, run', s', ReadLen(w));
        assert s'.slots[w] == Reading(s.pushed, 3, s.lists.Depth());
        run', s' := Go(c, run', s', Compare(w));
      }
    }
  }

  /** One request after another fills the queue. */
  lemma {:induction false} Fill(c: Config, n: nat) returns (run: seq<Step>, s: State)
    requires c.width > 0 && (n > 0 ==> Admits(c, n - 1))
    ensures Legal(c, run) && Exec(c, run) == s && s.lists.Depth() == n && s.extra == 0 && s.slots == Init(c).slots
  {
    if n == 0 {
      run, s := [], Init(c);
    } else {
      run, s := Fill(c, n - 1);
      run, s := Admit(c, run, s, 0);
      run, s := Go(c, run, s, Finish(0, HighList, true));
      assert s.slots == Init(c).slots;
    }
  }

  /** All requests look before any of them pushes. */
  lemma {:induction false} PassTogether(c: Config, k: nat) returns (run: seq<Step>, s: State)
    requires c.threshold > 0 && !c.failing && 0 < c.width && k <= c.width
    ensures Legal(c, run) && Exec(c, run) == s && s.lists.Depth() == c.threshold - 1 && s.extra == 0
    ensures |s.slots| == c.width
    ensures forall w :: 0 <= w < c.width ==> if w < k then s.slots[w].Passed? else s.slots[w].Free?
  {
    if k == 0 {
      run, s := Fill(c, c.threshold - 1);
    } else {
      run, s := PassTogether(c, k - 1);
      run, s := Admit(c, run, s, k - 1);
    }
  }

  lemma {:induction false} PushTogether(c: Config, k: nat) returns (run: seq<Step>, s: State)
    requires c.threshold > 0 && !c.failing && 0 < c.width && k <= c.width
    ensures Legal(c, run) && Exec(c, run) == s && s.lists.Depth() == c.threshold - 1 + k && s.extra == 0
    ensures |s.slots| == c.width && forall w :: k <= w < c.width ==> s.slots[w].Passed?
  {
    if k == 0 {
      run, s := PassTogether(c, c.width);
    } else {
      run, s := PushTogether(c, k - 1);
      run, s := Go(c, run, s, Finish(k - 1, HighList, true));
    }
  }

  /** In every run, queue depth stays within b, leaving aside the retry, fan-out, admin and shutdown pushes so far. */
  ghost predicate Bounds(c: Config, b: int) {
    forall run :: Legal(c, run) ==> Exec(c, run).lists.Depth() <= b + Exec(c, run).extra
  }

  /** The exact bound, with torn depth reads: threshold - 1 + width and nothing less; and no bound at all without a
      positive threshold, or once depth checks may fail, because the check then fails open. */
  lemma DepthBoundIff(c: Config, b: int)
    requires c.width > 0
    ensures Bounds(c, b) <==> c.threshold > 0 && !c.failing && c.threshold - 1 + c.width <= b
  {
    if c.threshold > 0 && !c.failing {
      var run, s := PushTogether(c, c.width);
      forall run | Legal(c, run)
        ensures Exec(c, run).lists.Depth() <= c.threshold - 1 + c.width + Exec(c, run).extra
      {
        DepthBounded(c, run);
      }
    } else {
      var run, s := Fill(c, if b < 0 then 0 else b + 1);
    }
  }

  // ---------------------------------------------------------------- the middleware

  datatype Verdict = Serve | Shed

  method Check(q: RedisQueue, threshold: int, reply: RedisReply) returns (v: Verdict)
    ensures v == Shed <==> threshold > 0 && reply == Ok && q.lists.Depth() >= threshold
  {
    if threshold > 0 {
      var depth := q.TotalDepth();
      if reply != Ok {
        return Serve;
      } else if depth >= threshold {
        return Shed;
      }
    }
    return Serve;
  }
}
