/** The Redis priority queue (internal/queue/redis_queue.go): LPUSH at the head, BRPOP from the tail,
    scanning the high, medium and low lists in that order. */
module PriorityQueue {
  import opened Domain
  import opened Sums

  datatype Level = HighList | MediumList | LowList
  {
    function Rank(): nat {
      match this case HighList => 0 case MediumList => 1 case LowList => 2
    }
  }

  /** keyForPriority: everything that is neither HIGH nor LOW goes to the medium list. */
  function KeyForPriority(p: Priority): Level {
    match p
    case HIGH => HighList
    case LOW => LowList
    case MEDIUM => MediumList
    case UNKNOWN_PRIORITY(_) => MediumList
  }

  datatype Lists<T> = Lists(high: seq<T>, medium: seq<T>, low: seq<T>)
  {
    function At(l: Level): seq<T> {
      match l case HighList => high case MediumList => medium case LowList => low
    }

    function With(l: Level, xs: seq<T>): Lists<T> {
      match l
      case HighList => this.(high := xs)
      case MediumList => this.(medium := xs)
      case LowList => this.(low := xs)
    }

    function Depth(): nat {
      |high| + |medium| + |low|
    }

    function LPush(l: Level, x: T): Lists<T> {
      With(l, [x] + At(l))
    }

    predicate Empty() {
      high == [] && medium == [] && low == []
    }

    /** The first non-empty list in scan order. */
    function Front(): Level
      requires !Empty()
    {
      if high != [] then HighList else if medium != [] then MediumList else LowList
    }

    function Next(): T
      requires !Empty()
    {
      var xs := At(Front()); xs[|xs| - 1]
    }

    function Rest(): Lists<T>
      requires !Empty()
    {
      var xs := At(Front()); With(Front(), xs[..|xs| - 1])
    }
  }

  // ---------------------------------------------------------------- weighing the lists

  function WeighLists<T>(q: Lists<T>, w: T -> nat): nat {
    Sum(q.high, w) + Sum(q.medium, w) + Sum(q.low, w)
  }

  lemma LPushWeighs<T>(q: Lists<T>, l: Level, x: T, w: T -> nat)
    ensures WeighLists(q.LPush(l, x), w) == WeighLists(q, w) + w(x)
  {
    SumCons(x, q.At(l), w);
  }

  lemma PopWeighs<T>(q: Lists<T>, w: T -> nat)
    requires !q.Empty()
    ensures WeighLists(q.Rest(), w) + w(q.Next()) == WeighLists(q, w)
  {
    var xs := q.At(q.Front());
    assert xs == xs[..|xs| - 1] + [xs[|xs| - 1]];
    SumSnoc(xs[..|xs| - 1], xs[|xs| - 1], w);
  }

  const LEVELS: seq<Level> := [HighList, MediumList, LowList]

  // ---------------------------------------------------------------- runs of pushes and pops

  datatype Tagged<T> = Tagged(level: Level, item: T)

  datatype Op<T> = Put(level: Level, item: T) | Take

  /** The queue after a run, with everything pushed and everything popped so far, in order. */
  datatype Trace<T> = Trace(q: Lists<T>, pushed: seq<Tagged<T>>, popped: seq<Tagged<T>>)

  function Step<T>(t: Trace<T>, op: Op<T>): Trace<T> {
    match op
    case Put(l, x) => Trace(t.q.LPush(l, x), t.pushed + [Tagged(l, x)], t.popped)
    case Take =>
      if t.q.Empty() then t
      else Trace(t.q.Rest(), t.pushed, t.popped + [Tagged(t.q.Front(), t.q.Next())])
  }

  function Run<T>(ops: seq<Op<T>>): Trace<T> {
    if ops == [] then Trace(Lists([], [], []), [], [])
    else Step(Run(ops[..|ops| - 1]), ops[|ops| - 1])
  }

  /** The items of one level, in order. */
  function Only<T>(xs: seq<Tagged<T>>, l: Level): seq<T> {
    if xs == [] then []
    else Only(xs[..|xs| - 1], l) + (if xs[|xs| - 1].level == l then [xs[|xs| - 1].item] else [])
  }

  function Reverse<T>(xs: seq<T>): seq<T> {
    if xs == [] then [] else Reverse(xs[1..]) + [xs[0]]
  }

  lemma {:induction false} ReverseDropLast<T>(xs: seq<T>)
    requires xs != []
    ensures Reverse(xs) == [xs[|xs| - 1]] + Reverse(xs[..|xs| - 1])
  {
    if |xs| > 1 {
      ReverseDropLast(xs[1..]);
      assert xs[1..][..|xs| - 2] == xs[..|xs| - 1][1..];
    }
  }

  lemma OnlySnoc<T>(xs: seq<Tagged<T>>, x: Tagged<T>, l: Level)
    ensures Only(xs + [x], l) == Only(xs, l) + (if x.level == l then [x.item] else [])
  {
    assert (xs + [x])[..|xs|] == xs;
  }

  /** What a level still holds, read from tail to head, completes what was popped from it. */
  ghost predicate BalancedAt<T>(t: Trace<T>, l: Level) {
    Only(t.pushed, l) == Only(t.popped, l) + Reverse(t.q.At(l))
  }

  ghost predicate Balanced<T>(t: Trace<T>) {
    |t.pushed| == |t.popped| + t.q.Depth() && forall l: Level :: BalancedAt(t, l)
  }

  lemma PutBalanced<T>(t: Trace<T>, m: Level, x: T, l: Level)
    requires BalancedAt(t, l)
    ensures BalancedAt(Step(t, Put(m, x)), l)
  {
    OnlySnoc(t.pushed, Tagged(m, x), l);
    var xs := t.q.At(l);
    if l == m {
      assert ([x] + xs)[1..] == xs;
      assert Reverse([x] + xs) == Reverse(xs) + [x];
      assert Only(t.popped, l) + (Reverse(xs) + [x]) == (Only(t.popped, l) + Reverse(xs)) + [x];
      assert Step(t, Put(m, x)).q.At(l) == [x] + xs;
    } else {
      assert Step(t, Put(m, x)).q.At(l) == xs;
    }
  }

  lemma MoveAcross<T>(all: seq<T>, before: seq<T>, x: T, after: seq<T>)
    requires all == before + ([x] + after)
    ensures all == (before + [x]) + after
  {}

  lemma TakeBalanced<T>(t: Trace<T>, l: Level)
    requires BalancedAt(t, l) && !t.q.Empty()
    ensures BalancedAt(Step(t, Take), l)
  {
    var f, x, t' := t.q.Front(), t.q.Next(), Step(t, Take);
    OnlySnoc(t.popped, Tagged(f, x), l);
    if l == f {
      var xs := t.q.At(l);
      assert t'.q.At(l) == xs[..|xs| - 1] && x == xs[|xs| - 1];
      ReverseDropLast(xs);
      MoveAcross(Only(t.pushed, l), Only(t.popped, l), x, Reverse(t'.q.At(l)));
    } else {
      assert t'.q.At(l) == t.q.At(l);
    }
  }

  lemma StepBalanced<T>(t: Trace<T>, op: Op<T>)
    requires Balanced(t)
    ensures Balanced(Step(t, op))
  {
    forall l: Level
      ensures BalancedAt(Step(t, op), l)
    {
      match op
      case Put(m, x) => PutBalanced(t, m, x, l);
      case Take => if !t.q.Empty() { TakeBalanced(t, l); }
    }
  }

  lemma {:induction false} RunBalanced<T>(ops: seq<Op<T>>)
    ensures Balanced(Run(ops))
  {
    if ops != [] {
      RunBalanced(ops[..|ops| - 1]);
      StepBalanced(Run(ops[..|ops| - 1]), ops[|ops| - 1]);
    }
  }

  /** Over every interleaving: per level, pops come out in push order; depth is pushes minus pops. */
  lemma {:induction false} PopsArePrefixOfPushes<T>(ops: seq<Op<T>>, l: Level)
    ensures Only(Run(ops).popped, l) <= Only(Run(ops).pushed, l)
    ensures Run(ops).q.Depth() == |Run(ops).pushed| - |Run(ops).popped|
  {
    RunBalanced(ops);
    assert BalancedAt(Run(ops), l);
  }

  /** A pop that takes from one level happens only once every more urgent push so far has been popped,
      and it takes the oldest item still waiting at its own level. */
  lemma {:induction false} PopRespectsPriority<T>(ops: seq<Op<T>>, l: Level)
    requires !Run(ops).q.Empty()
    ensures var t := Run(ops);
            var t' := Run(ops + [Take]);
            && t'.pushed == t.pushed
            && |t'.popped| == |t.popped| + 1 && t'.popped[..|t.popped|] == t.popped
            && var got := t'.popped[|t.popped|];
            && (l.Rank() < got.level.Rank() ==> Only(t.popped, l) == Only(t.pushed, l))
            && |Only(t.popped, got.level)| < |Only(t.pushed, got.level)|
            && got.item == Only(t.pushed, got.level)[|Only(t.popped, got.level)|]
  {
    RunBalanced(ops);
    var t := Run(ops);
    assert (ops + [Take])[..|ops|] == ops;
    ReverseDropLast(t.q.At(t.q.Front()));
    assert BalancedAt(t, l) && BalancedAt(t, t.q.Front());
    assert l.Rank() < t.q.Front().Rank() ==> t.q.At(l) == [];
  }

  // ---------------------------------------------------------------- draining is a stable sort

  function Drain<T>(q: Lists<T>): seq<Tagged<T>>
    decreases q.Depth()
  {
    if q.Empty() then [] else [Tagged(q.Front(), q.Next())] + Drain(q.Rest())
  }

  function PushAll<T>(xs: seq<Tagged<T>>): Lists<T> {
    if xs == [] then Lists([], [], [])
    else PushAll(xs[..|xs| - 1]).LPush(xs[|xs| - 1].level, xs[|xs| - 1].item)
  }

  ghost predicate SortedByLevel<T>(xs: seq<Tagged<T>>) {
    forall i, j :: 0 <= i < j < |xs| ==> xs[i].level.Rank() <= xs[j].level.Rank()
  }

  /** xs holds the items of ys, sorted by level, each level in its original order. */
  ghost predicate IsStableSortOf<T>(xs: seq<Tagged<T>>, ys: seq<Tagged<T>>) {
    SortedByLevel(xs) && forall l: Level :: Only(xs, l) == Only(ys, l)
  }

  function Block<T>(l: Level, xs: seq<T>): (r: seq<Tagged<T>>)
    ensures |r| == |xs| && forall i :: 0 <= i < |xs| ==> r[i] == Tagged(l, xs[i])
  {
    seq(|xs|, i requires 0 <= i < |xs| => Tagged(l, xs[i]))
  }

  function Blocks<T>(h: seq<T>, m: seq<T>, l: seq<T>): seq<Tagged<T>> {
    Block(HighList, h) + Block(MediumList, m) + Block(LowList, l)
  }

  lemma BlockCons<T>(l: Level, x: T, xs: seq<T>)
    ensures Block(l, [x] + xs) == [Tagged(l, x)] + Block(l, xs)
  {}

  /** Taking the front item off strips the first element of the block it belongs to. */
  lemma PopStripsBlocks<T>(q: Lists<T>)
    requires !q.Empty()
    ensures Blocks(Reverse(q.high), Reverse(q.medium), Reverse(q.low)) ==
            [Tagged(q.Front(), q.Next())] +
            Blocks(Reverse(q.Rest().high), Reverse(q.Rest().medium), Reverse(q.Rest().low))
  {
    var f, x := q.Front(), q.Next();
    ReverseDropLast(q.At(f));
    BlockCons(f, x, Reverse(q.Rest().At(f)));
    assert Reverse<T>([]) == [] && Block<T>(HighList, []) == [] && Block<T>(MediumList, []) == [];
    match f
    case HighList => assert q.Rest().medium == q.medium && q.Rest().low == q.low;
    case MediumList => assert q.high == q.Rest().high == [] && q.Rest().low == q.low;
    case LowList => assert q.high == q.Rest().high == [] && q.medium == q.Rest().medium == [];
  }

  lemma {:induction false} DrainIsBlocks<T>(q: Lists<T>)
    ensures Drain(q) == Blocks(Reverse(q.high), Reverse(q.medium), Reverse(q.low))
    decreases q.Depth()
  {
    if !q.Empty() {
      DrainIsBlocks(q.Rest());
      PopStripsBlocks(q);
    }
  }

  lemma {:induction false} PushAllHolds<T>(xs: seq<Tagged<T>>, l: Level)
    ensures Reverse(PushAll(xs).At(l)) == Only(xs, l)
  {
    if xs != [] {
      PushAllHolds(xs[..|xs| - 1], l);
      var q := PushAll(xs[..|xs| - 1]);
      if xs[|xs| - 1].level == l {
        assert PushAll(xs).At(l)[1..] == q.At(l);
      }
    }
  }

  lemma {:induction false} OnlyConcat<T>(xs: seq<Tagged<T>>, ys: seq<Tagged<T>>, l: Level)
    ensures Only(xs + ys, l) == Only(xs, l) + Only(ys, l)
  {
    if ys == [] {
      assert xs + ys == xs;
    } else {
      OnlyConcat(xs, ys[..|ys| - 1], l);
      assert (xs + ys)[..|xs + ys| - 1] == xs + ys[..|ys| - 1];
    }
  }

  lemma {:induction false} OnlyBlock<T>(m: Level, xs: seq<T>, l: Level)
    ensures Only(Block(m, xs), l) == if l == m then xs else []
  {
    if xs != [] {
      var ys, x := xs[..|xs| - 1], xs[|xs| - 1];
      OnlyBlock(m, ys, l);
      assert xs == ys + [x];
      BlockSnoc(m, ys, x);
      OnlySnoc(Block(m, ys), Tagged(m, x), l);
    }
  }

  lemma OnlyBlocks<T>(h: seq<T>, m: seq<T>, w: seq<T>, l: Level)
    ensures Only(Blocks(h, m, w), l) == Lists(h, m, w).At(l)
  {
    var hs, ms, ws := Block(HighList, h), Block(MediumList, m), Block(LowList, w);
    OnlyConcat(hs + ms, ws, l);
    OnlyConcat(hs, ms, l);
    OnlyBlock(HighList, h, l);
    OnlyBlock(MediumList, m, l);
    OnlyBlock(LowList, w, l);
    OneOfThree(h, m, w, l, Only(hs, l), Only(ms, l), Only(ws, l));
  }

  lemma OneOfThree<T>(h: seq<T>, m: seq<T>, w: seq<T>, l: Level, a: seq<T>, b: seq<T>, c: seq<T>)
    requires a == (if l == HighList then h else []) && b == (if l == MediumList then m else [])
    requires c == if l == LowList then w else []
    ensures (a + b) + c == Lists(h, m, w).At(l)
  {}

  lemma BlockSnoc<T>(l: Level, xs: seq<T>, x: T)
    ensures Block(l, xs + [x]) == Block(l, xs) + [Tagged(l, x)]
  {}

  /** An item that no queued level comes after goes at the end of its own block. */
  lemma BlocksSnoc<T>(q: Lists<T>, x: Tagged<T>)
    requires forall l: Level :: l.Rank() > x.level.Rank() ==> q.At(l) == []
    ensures var r := q.With(x.level, q.At(x.level) + [x.item]);
            Blocks(q.high, q.medium, q.low) + [x] == Blocks(r.high, r.medium, r.low)
  {
    BlockSnoc(x.level, q.At(x.level), x.item);
    assert q.At(MediumList) == q.medium && q.At(LowList) == q.low;
    assert Block<T>(MediumList, []) == [] && Block<T>(LowList, []) == [];
  }

  function ByLevel<T>(xs: seq<Tagged<T>>): Lists<T> {
    Lists(Only(xs, HighList), Only(xs, MediumList), Only(xs, LowList))
  }

  lemma ByLevelSnoc<T>(ys: seq<Tagged<T>>, x: Tagged<T>)
    ensures ByLevel(ys + [x]) == ByLevel(ys).With(x.level, ByLevel(ys).At(x.level) + [x.item])
  {
    OnlySnoc(ys, x, HighList);
    OnlySnoc(ys, x, MediumList);
    OnlySnoc(ys, x, LowList);
  }

  lemma NothingAfterLast<T>(ys: seq<Tagged<T>>, x: Tagged<T>, l: Level)
    requires SortedByLevel(ys + [x]) && l.Rank() > x.level.Rank()
    ensures ByLevel(ys).At(l) == []
  {
    forall i | 0 <= i < |ys|
      ensures ys[i].level != l
    {
      assert (ys + [x])[i] == ys[i] && (ys + [x])[|ys|] == x;
    }
    AbsentLevel(ys, l);
  }

  lemma SortedPrefix<T>(ys: seq<Tagged<T>>, x: Tagged<T>)
    requires SortedByLevel(ys + [x])
    ensures SortedByLevel(ys)
  {
    forall i, j | 0 <= i < j < |ys|
      ensures ys[i].level.Rank() <= ys[j].level.Rank()
    {
      assert (ys + [x])[i] == ys[i] && (ys + [x])[j] == ys[j];
    }
  }

  /** A sorted sequence is the concatenation of its levels. */
  lemma {:induction false} SortedIsBlocks<T>(xs: seq<Tagged<T>>)
    requires SortedByLevel(xs)
    ensures var q := ByLevel(xs); xs == Blocks(q.high, q.medium, q.low)
  {
    if xs != [] {
      var ys, x := xs[..|xs| - 1], xs[|xs| - 1];
      assert xs == ys + [x];
      SortedPrefix(ys, x);
      SortedIsBlocks(ys);
      forall l: Level | l.Rank() > x.level.Rank()
        ensures ByLevel(ys).At(l) == []
      {
        NothingAfterLast(ys, x, l);
      }
      BlocksSnoc(ByLevel(ys), x);
      ByLevelSnoc(ys, x);
    }
  }

  lemma {:induction false} AbsentLevel<T>(xs: seq<Tagged<T>>, l: Level)
    requires forall i :: 0 <= i < |xs| ==> xs[i].level != l
    ensures Only(xs, l) == []
  {
    if xs != [] {
      AbsentLevel(xs[..|xs| - 1], l);
    }
  }

  lemma DrainOfPushes<T>(pushes: seq<Tagged<T>>)
    ensures Drain(PushAll(pushes)) == Blocks(Only(pushes, HighList), Only(pushes, MediumList), Only(pushes, LowList))
  {
    DrainIsBlocks(PushAll(pushes));
    PushAllHolds(pushes, HighList);
    PushAllHolds(pushes, MediumList);
    PushAllHolds(pushes, LowList);
  }

  lemma BlocksSorted<T>(h: seq<T>, m: seq<T>, w: seq<T>)
    ensures SortedByLevel(Blocks(h, m, w))
  {
    var xs := Blocks(h, m, w);
    assert forall i :: 0 <= i < |xs| ==>
      xs[i].level == if i < |h| then HighList else if i < |h| + |m| then MediumList else LowList;
  }

  /** Draining what was pushed yields the stable sort of the pushes by priority, and nothing else does. */
  lemma {:induction false} DrainIsStableSort<T>(pushes: seq<Tagged<T>>, xs: seq<Tagged<T>>)
    ensures xs == Drain(PushAll(pushes)) <==> IsStableSortOf(xs, pushes)
  {
    var h, m, w := Only(pushes, HighList), Only(pushes, MediumList), Only(pushes, LowList);
    DrainOfPushes(pushes);
    if xs == Blocks(h, m, w) {
      BlocksSorted(h, m, w);
      forall l: Level
        ensures Only(xs, l) == Only(pushes, l)
      {
        OnlyBlocks(h, m, w, l);
      }
    }
    if IsStableSortOf(xs, pushes) {
      SortedIsBlocks(xs);
    }
  }

  // ---------------------------------------------------------------- the adapter

  datatype RedisReply = Ok | Cancelled | Broken

  datatype PopResult = NoJob | GotJob(job: Job) | PopFailed

  /** RedisQueue over its four lists; each call is told how Redis answers it. */
  class RedisQueue {
    var lists: Lists<Job>
    var deadLetter: seq<Job>

    constructor ()
      ensures lists == Lists([], [], []) && deadLetter == []
    {
      lists, deadLetter := Lists([], [], []), [];
    }

    method Push(job: Job, reply: RedisReply) returns (ok: bool)
      modifies this`lists
      ensures ok <==> reply == Ok
      ensures lists == if ok then old(lists).LPush(KeyForPriority(job.priority), job) else old(lists)
      ensures lists.high == if ok && job.priority == HIGH then [job] + old(lists.high) else old(lists.high)
      ensures lists.low == if ok && job.priority == LOW then [job] + old(lists.low) else old(lists.low)
      ensures lists.medium == if ok && job.priority !in {HIGH, LOW} then [job] + old(lists.medium)
                              else old(lists.medium)
    {
      if reply != Ok { return false; }
      match KeyForPriority(job.priority) {
        case HighList => lists := lists.(high := [job] + lists.high);
        case MediumList => lists := lists.(medium := [job] + lists.medium);
        case LowList => lists := lists.(low := [job] + lists.low);
      }
      return true;
    }

    /** BRPOP over the ordered keys; a timeout and a cancelled context both read as "no job". */
    method Pop(reply: RedisReply) returns (r: PopResult)
      modifies this`lists
      ensures r.PopFailed? <==> reply == Broken
      ensures r.GotJob? <==> reply == Ok && !old(lists).Empty()
      ensures r.GotJob? ==> r.job == old(lists).Next() && lists == old(lists).Rest()
      ensures !r.GotJob? ==> lists == old(lists)
      // on the lists themselves: the tail of high, of medium if high is empty, of low if both are
      ensures r.GotJob? && old(lists.high) != [] ==> old(lists) == lists.(high := lists.high + [r.job])
      ensures r.GotJob? && old(lists.high) == [] && old(lists.medium) != [] ==>
              old(lists) == lists.(medium := lists.medium + [r.job])
      ensures r.GotJob? && old(lists.high) == [] == old(lists.medium) ==>
              old(lists) == lists.(low := lists.low + [r.job])
      ensures r.GotJob? ==> forall l: Level :: l.Rank() < old(lists).Front().Rank() ==> old(lists).At(l) == []
    {
      if reply == Broken { return PopFailed; }
      if reply == Cancelled { return NoJob; }
      var i := 0;
      while i < |LEVELS|
        invariant 0 <= i <= |LEVELS|
        invariant lists == old(lists)
        invariant forall k :: 0 <= k < i ==> lists.At(LEVELS[k]) == []
      {
        var xs := lists.At(LEVELS[i]);
        if xs != [] {
          assert LEVELS[0] == HighList && LEVELS[1] == MediumList && LEVELS[2] == LowList;
          assert 0 < i ==> lists.At(LEVELS[0]) == [];
          assert 1 < i ==> lists.At(LEVELS[1]) == [];
          lists := lists.With(LEVELS[i], xs[..|xs| - 1]);
          return GotJob(xs[|xs| - 1]);
        }
        i := i + 1;
      }
      assert lists.At(LEVELS[0]) == [] && lists.At(LEVELS[1]) == [] && lists.At(LEVELS[2]) == [];
      return NoJob;
    }

    method PushDeadLetter(job: Job, reply: RedisReply) returns (ok: bool)
      modifies this`deadLetter
      ensures ok <==> reply == Ok
      ensures deadLetter == if ok then [job] + old(deadLetter) else old(deadLetter)
    {
      if reply != Ok { return false; }
      deadLetter := [job] + deadLetter;
      return true;
    }

    /** One LLEN per key in a pipeline, then the sum. */
    method TotalDepth() returns (total: nat)
      ensures total == lists.Depth()
    {
      total := 0;
      for i := 0 to |LEVELS|
        invariant total == (if i > 0 then |lists.high| else 0) + (if i > 1 then |lists.medium| else 0)
                         + (if i > 2 then |lists.low| else 0)
      {
        total := total + |lists.At(LEVELS[i])|;
      }
    }

    /** The most recent dead letters, at most limit of them (50 when no positive limit is given). */
    method ListDeadLetter(limit: int) returns (jobs: seq<Job>)
      ensures var n := if limit <= 0 then 50 else limit;
              jobs == if |deadLetter| <= n then deadLetter else deadLetter[..n]
    {
      var n := if limit <= 0 then 50 else limit;
      jobs := [];
      var i := 0;
      while i < n && i < |deadLetter|
        invariant 0 <= i <= n && i <= |deadLetter| && jobs == deadLetter[..i]
      {
        jobs := jobs + [deadLetter[i]];
        i := i + 1;
      }
    }
  }
}
