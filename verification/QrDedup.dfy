/** QR scan deduplication and the attendance counter (internal/worker/qrscan_processor.go): concurrent scans claim
    a dedup key that expires and is never deleted, store a row, then count it. */
module QrDedup {
  import opened Sums

  /** The rendered dedup key; RedisKeys says when two scans share one. */
  type Key = string

  /** ttl: the dedup window; failingWrites: whether runs may contain failed row writes; unheardClaims: whether they may
      contain claims that took effect while the scan saw an error. */
  datatype Config = Config(ttl: nat, scanners: nat, failingWrites: bool, unheardClaims: bool)

  datatype Fate = Open | Stored | Failed

  /** A successful SetNX: one scan owns the key for a window. */
  datatype Claim = Claim(key: Key, at: nat, fate: Fate)

  datatype Row = Row(claim: nat, key: Key, event: string)

  /** A scan treated as a duplicate, with the claim whose window it fell into. */
  datatype Suppressed = Suppressed(key: Key, at: nat, claim: nat)

  datatype Phase = Idle | Writing(claim: nat, event: string) | Counting(event: string)

  /** seen: for each key, the claim that set it last; missed: the events of rows that will never be
      counted, because the increment failed or because the write took effect while the scan saw an error. */
  datatype State = State(
    now: nat, seen: map<Key, nat>, claims: seq<Claim>, scanners: seq<Phase>, rows: seq<Row>,
    attendance: map<string, nat>, missed: seq<string>, suppressed: seq<Suppressed>)
  {
    function Count(event: string): nat {
      if event in attendance then attendance[event] else 0
    }
  }

  predicate KeyLive(c: Config, s: State, key: Key) {
    key in s.seen && s.seen[key] < |s.claims| && s.now < s.claims[s.seen[key]].at + c.ttl
  }

  datatype Step =
    | Tick(d: nat)
    | Scan(w: nat, key: Key, event: string)
    | ScanUnheard(key: Key)                // SetNX took effect but the scan saw an error and will be retried
    | Write(w: nat, ok: bool)
    | WriteUnheard(w: nat)                 // the row is stored but the scan saw an error and will be retried
    | Increment(w: nat, ok: bool)

  predicate Enabled(c: Config, s: State, st: Step) {
    match st
    case Tick(_) => true
    case Scan(w, _, _) => w < |s.scanners| && s.scanners[w].Idle?
    case ScanUnheard(key) => c.unheardClaims && !KeyLive(c, s, key)
    case Write(w, ok) =>
      w < |s.scanners| && s.scanners[w].Writing? && s.scanners[w].claim < |s.claims| && (ok || c.failingWrites)
    case WriteUnheard(w) => w < |s.scanners| && s.scanners[w].Writing? && s.scanners[w].claim < |s.claims|
    case Increment(w, _) => w < |s.scanners| && s.scanners[w].Counting?
  }

  function Next(c: Config, s: State, st: Step): State
    requires Enabled(c, s, st)
  {
    match st
    case Tick(d) => s.(now := s.now + d)
    case Scan(w, key, event) =>
      if KeyLive(c, s, key) then s.(suppressed := s.suppressed + [Suppressed(key, s.now, s.seen[key])])
      else s.(seen := s.seen[key := |s.claims|], claims := s.claims + [Claim(key, s.now, Open)],
              scanners := s.scanners[w := Writing(|s.claims|, event)])
    case ScanUnheard(key) =>
      s.(seen := s.seen[key := |s.claims|], claims := s.claims + [Claim(key, s.now, Failed)])
    case Write(w, ok) =>
      var n, event := s.scanners[w].claim, s.scanners[w].event;
      var claim := s.claims[n];
      if ok then
        s.(claims := s.claims[n := claim.(fate := Stored)], rows := s.rows + [Row(n, claim.key, event)],
           scanners := s.scanners[w := if event != "" then Counting(event) else Idle])
      else s.(claims := s.claims[n := claim.(fate := Failed)], scanners := s.scanners[w := Idle])
    case WriteUnheard(w) =>
      var n, event := s.scanners[w].claim, s.scanners[w].event;
      var claim := s.claims[n];
      s.(claims := s.claims[n := claim.(fate := Stored)], rows := s.rows + [Row(n, claim.key, event)],
         scanners := s.scanners[w := Idle], missed := if event != "" then s.missed + [event] else s.missed)
    case Increment(w, ok) =>
      var event := s.scanners[w].event;
      var t := s.(scanners := s.scanners[w := Idle]);
      if ok then t.(attendance := s.attendance[event := s.Count(event) + 1])
      else t.(missed := s.missed + [event])
  }

  function Init(c: Config): State {
    State(0, map[], [], seq(c.scanners, i => Idle), [], map[], [], [])
  }

  function Exec(c: Config, run: seq<Step>): State {
    if run == [] then Init(c)
    else
      var s := Exec(c, run[..|run| - 1]);
      if Enabled(c, s, run[|run| - 1]) then Next(c, s, run[|run| - 1]) else s
  }

  predicate Legal(c: Config, run: seq<Step>) {
    run == [] || (Legal(c, run[..|run| - 1]) && Enabled(c, Exec(c, run[..|run| - 1]), run[|run| - 1]))
  }

  /** Some legal run ends in s. */
  ghost predicate Reachable(c: Config, s: State) {
    exists run :: Legal(c, run) && Exec(c, run) == s
  }

  lemma Go(c: Config, s: State, st: Step) returns (s': State)
    requires Reachable(c, s) && Enabled(c, s, st)
    ensures s' == Next(c, s, st) && Reachable(c, s')
  {
    var run :| Legal(c, run) && Exec(c, run) == s;
    s' := Next(c, s, st);
    assert (run + [st])[..|run|] == run;
    assert Legal(c, run + [st]) && Exec(c, run + [st]) == s';
  }

  lemma Start(c: Config) returns (s: State)
    ensures s == Init(c) && Reachable(c, s)
  {
    s := Init(c);
    assert Legal(c, []) && Exec(c, []) == s;
  }

  // ---------------------------------------------------------------- stored rows are a window apart

  ghost predicate ClaimsInv(c: Config, s: State) {
    && (forall n :: 0 <= n < |s.claims| ==>
          s.claims[n].at <= s.now && s.claims[n].key in s.seen && n <= s.seen[s.claims[n].key])
    && (forall k :: k in s.seen ==> s.seen[k] < |s.claims| && s.claims[s.seen[k]].key == k)
    && (forall m, n :: 0 <= m < n < |s.claims| && s.claims[m].key == s.claims[n].key ==>
          s.claims[m].at + c.ttl <= s.claims[n].at)
  }

  ghost predicate WritersInv(s: State) {
    && (forall w :: 0 <= w < |s.scanners| && s.scanners[w].Writing? ==>
          s.scanners[w].claim < |s.claims| && s.claims[s.scanners[w].claim].fate == Open)
    && (forall v, w :: 0 <= v < w < |s.scanners| && s.scanners[v].Writing? && s.scanners[w].Writing? ==>
          s.scanners[v].claim != s.scanners[w].claim)
    && (forall n :: 0 <= n < |s.claims| && s.claims[n].fate == Open ==>
          exists w :: 0 <= w < |s.scanners| && s.scanners[w].Writing? && s.scanners[w].claim == n)
  }

  ghost predicate RowsInv(s: State) {
    && (forall i :: 0 <= i < |s.rows| ==>
          s.rows[i].claim < |s.claims| && s.claims[s.rows[i].claim].key == s.rows[i].key
          && s.claims[s.rows[i].claim].fate == Stored)
    && (forall i, j :: 0 <= i < j < |s.rows| ==> s.rows[i].claim != s.rows[j].claim)
    && (forall n :: 0 <= n < |s.claims| && s.claims[n].fate == Stored ==>
          exists i :: 0 <= i < |s.rows| && s.rows[i].claim == n)
  }

  /** An expired key's last claim, and with it every earlier one, is a window old. */
  lemma ExpiredIsOld(c: Config, s: State, key: Key, m: nat)
    requires ClaimsInv(c, s) && !KeyLive(c, s, key) && m < |s.claims| && s.claims[m].key == key
    ensures s.claims[m].at + c.ttl <= s.now
  {
    var last := s.seen[key];
    assert m <= last && s.claims[last].key == key;
    assert m < last ==> s.claims[m].at + c.ttl <= s.claims[last].at;
  }

  lemma ClaimAdded(c: Config, s: State, t: State, claim: Claim)
    requires ClaimsInv(c, s) && !KeyLive(c, s, claim.key) && claim.at == s.now == t.now
    requires t.claims == s.claims + [claim] && t.seen == s.seen[claim.key := |s.claims|]
    ensures ClaimsInv(c, t)
  {
    forall m, n | 0 <= m < n < |t.claims| && t.claims[m].key == t.claims[n].key
      ensures t.claims[m].at + c.ttl <= t.claims[n].at
    {
      assert t.claims[m] == s.claims[m];
      if n < |s.claims| {
        assert t.claims[n] == s.claims[n];
      } else {
        ExpiredIsOld(c, s, claim.key, m);
      }
    }
    forall n | 0 <= n < |t.claims|
      ensures t.claims[n].at <= t.now && t.claims[n].key in t.seen && n <= t.seen[t.claims[n].key]
    {
      if n < |s.claims| {
        assert t.claims[n] == s.claims[n];
      }
    }
    forall k | k in t.seen
      ensures t.seen[k] < |t.claims| && t.claims[t.seen[k]].key == k
    {
      if k != claim.key {
        assert t.claims[s.seen[k]] == s.claims[s.seen[k]];
      }
    }
  }

  lemma ClaimsSame(c: Config, s: State, t: State)
    requires ClaimsInv(c, s) && s.now <= t.now && t.seen == s.seen && |t.claims| == |s.claims|
    requires forall n :: 0 <= n < |s.claims| ==> t.claims[n].key == s.claims[n].key && t.claims[n].at == s.claims[n].at
    ensures ClaimsInv(c, t)
  {}

  lemma ClaimsKeep(c: Config, s: State, st: Step)
    requires ClaimsInv(c, s) && Enabled(c, s, st)
    ensures ClaimsInv(c, Next(c, s, st))
  {
    var t := Next(c, s, st);
    if st.Scan? && !KeyLive(c, s, st.key) {
      ClaimAdded(c, s, t, Claim(st.key, s.now, Open));
    } else if st.ScanUnheard? {
      ClaimAdded(c, s, t, Claim(st.key, s.now, Failed));
    } else {
      ClaimsSame(c, s, t);
    }
  }

  lemma WritersStayOpen(c: Config, s: State, st: Step, w: nat)
    requires WritersInv(s) && Enabled(c, s, st)
    requires w < |s.scanners| && Next(c, s, st).scanners[w].Writing?
    ensures var t := Next(c, s, st); var n := t.scanners[w].claim;
            n < |t.claims| && t.claims[n].fate == Open && (s.scanners[w] == t.scanners[w] || n == |s.claims|)
  {
    if (st.Write? || st.WriteUnheard?) && st.w != w {
      assert s.scanners[w].Writing? && s.scanners[st.w].claim != s.scanners[w].claim;
    }
  }

  lemma WritersKeep(c: Config, s: State, st: Step)
    requires WritersInv(s) && Enabled(c, s, st)
    ensures WritersInv(Next(c, s, st))
  {
    var t := Next(c, s, st);
    forall w | 0 <= w < |t.scanners| && t.scanners[w].Writing?
      ensures t.scanners[w].claim < |t.claims| && t.claims[t.scanners[w].claim].fate == Open
    {
      WritersStayOpen(c, s, st, w);
    }
    forall v, w | 0 <= v < w < |t.scanners| && t.scanners[v].Writing? && t.scanners[w].Writing?
      ensures t.scanners[v].claim != t.scanners[w].claim
    {
      WritersStayOpen(c, s, st, v);
      WritersStayOpen(c, s, st, w);
    }
    forall n | 0 <= n < |t.claims| && t.claims[n].fate == Open
      ensures exists w :: 0 <= w < |t.scanners| && t.scanners[w].Writing? && t.scanners[w].claim == n
    {
      OpenHasWriter(c, s, st, n);
    }
  }

  lemma OpenHasWriter(c: Config, s: State, st: Step, n: nat)
    requires WritersInv(s) && Enabled(c, s, st)
    requires n < |Next(c, s, st).claims| && Next(c, s, st).claims[n].fate == Open
    ensures var t := Next(c, s, st);
            exists w :: 0 <= w < |t.scanners| && t.scanners[w].Writing? && t.scanners[w].claim == n
  {
    var t := Next(c, s, st);
    if n < |s.claims| {
      var w :| 0 <= w < |s.scanners| && s.scanners[w].Writing? && s.scanners[w].claim == n;
      assert t.scanners[w] == s.scanners[w];
    } else {
      assert t.scanners[st.w].Writing?;
    }
  }

  lemma RowsStored(c: Config, s: State, st: Step, i: nat)
    requires WritersInv(s) && RowsInv(s) && Enabled(c, s, st) && i < |Next(c, s, st).rows|
    ensures var t := Next(c, s, st); var row := t.rows[i];
            row.claim < |t.claims| && t.claims[row.claim].key == row.key && t.claims[row.claim].fate == Stored
  {
    if i < |s.rows| {
      assert Next(c, s, st).rows[i] == s.rows[i];
    }
  }

  lemma StoredHasRow(c: Config, s: State, st: Step, n: nat)
    requires WritersInv(s) && RowsInv(s) && Enabled(c, s, st)
    requires n < |Next(c, s, st).claims| && Next(c, s, st).claims[n].fate == Stored
    ensures var t := Next(c, s, st); exists i :: 0 <= i < |t.rows| && t.rows[i].claim == n
  {
    var t := Next(c, s, st);
    if n < |s.claims| && s.claims[n].fate == Stored {
      var i :| 0 <= i < |s.rows| && s.rows[i].claim == n;
      assert t.rows[i] == s.rows[i];
    } else {
      assert t.rows[|s.rows|].claim == n;
    }
  }

  lemma RowsKeep(c: Config, s: State, st: Step)
    requires WritersInv(s) && RowsInv(s) && Enabled(c, s, st)
    ensures RowsInv(Next(c, s, st))
  {
    var t := Next(c, s, st);
    forall i | 0 <= i < |t.rows|
      ensures t.rows[i].claim < |t.claims| && t.claims[t.rows[i].claim].key == t.rows[i].key
      ensures t.claims[t.rows[i].claim].fate == Stored
    {
      RowsStored(c, s, st, i);
    }
    forall n | 0 <= n < |t.claims| && t.claims[n].fate == Stored
      ensures exists i :: 0 <= i < |t.rows| && t.rows[i].claim == n
    {
      StoredHasRow(c, s, st, n);
    }
    forall i, j | 0 <= i < j < |t.rows|
      ensures t.rows[i].claim != t.rows[j].claim
    {
      assert t.rows[i] == s.rows[i];
      if j < |s.rows| {
        assert t.rows[j] == s.rows[j];
      }
    }
  }

  lemma {:induction false} RunKeeps(c: Config, run: seq<Step>)
    requires Legal(c, run)
    ensures ClaimsInv(c, Exec(c, run)) && WritersInv(Exec(c, run)) && RowsInv(Exec(c, run))
  {
    if run != [] {
      RunKeeps(c, run[..|run| - 1]);
      var s, st := Exec(c, run[..|run| - 1]), run[|run| - 1];
      ClaimsKeep(c, s, st);
      WritersKeep(c, s, st);
      RowsKeep(c, s, st);
    }
  }

  ghost predicate RowsApart(c: Config, s: State)
    requires RowsInv(s)
  {
    forall i, j :: 0 <= i < |s.rows| && 0 <= j < |s.rows| && i != j && s.rows[i].key == s.rows[j].key ==>
      var a, b := s.claims[s.rows[i].claim].at, s.claims[s.rows[j].claim].at;
      a + c.ttl <= b || b + c.ttl <= a
  }

  /** In every reachable state, whatever has failed, two stored rows for one dedup key come from claims at least a
      window apart. */
  lemma StoredRowsApart(c: Config, s: State)
    requires Reachable(c, s)
    ensures RowsInv(s) && RowsApart(c, s)
  {
    var run :| Legal(c, run) && Exec(c, run) == s;
    RunKeeps(c, run);
  }

  // ---------------------------------------------------------------- attendance counts rows

  function ForEvent(event: string): Row -> nat {
    (r: Row) => if r.event == event then 1 else 0
  }

  function CountingFor(event: string): Phase -> nat {
    (p: Phase) => if p.Counting? && p.event == event then 1 else 0
  }

  function Missing(event: string): string -> nat {
    (e: string) => if e == event then 1 else 0
  }

  /** The counter, the scans that have stored their row and not counted it yet, and the rows that will never be counted
      add up to the number of rows. */
  ghost predicate Accounted(s: State, event: string) {
    s.Count(event) + Sum(s.scanners, CountingFor(event)) + Sum(s.missed, Missing(event)) == Sum(s.rows, ForEvent(event))
  }

  /** A stored row is owed a count: the scan is about to count it, or nobody will. */
  lemma StoreAccounts(s: State, t: State, w: nat, row: Row, event: string)
    requires event != "" && Accounted(s, event) && w < |s.scanners| && s.scanners[w].Writing? && w < |t.scanners|
    requires t.attendance == s.attendance && t.rows == s.rows + [row]
    requires t.scanners == s.scanners[w := t.scanners[w]]
    requires t.scanners[w] == Counting(row.event) || t.scanners[w] == Idle
    requires t.missed == if t.scanners[w].Idle? && row.event != "" then s.missed + [row.event] else s.missed
    ensures Accounted(t, event)
  {
    SumUpdate(s.scanners, w, t.scanners[w], CountingFor(event));
    SumSnoc(s.rows, row, ForEvent(event));
    SumSnoc(s.missed, row.event, Missing(event));
  }

  lemma StepAccounts(c: Config, s: State, st: Step, event: string)
    requires event != "" && Accounted(s, event) && Enabled(c, s, st)
    ensures Accounted(Next(c, s, st), event)
  {
    var t := Next(c, s, st);
    match st
    case Scan(w, key, e) => SumUpdate(s.scanners, w, Writing(|s.claims|, e), CountingFor(event));
    case Write(w, ok) =>
      if ok {
        StoreAccounts(s, t, w, t.rows[|s.rows|], event);
      } else {
        SumUpdate(s.scanners, w, Idle, CountingFor(event));
      }
    case WriteUnheard(w) => StoreAccounts(s, t, w, t.rows[|s.rows|], event);
    case Increment(w, ok) =>
      SumUpdate(s.scanners, w, Idle, CountingFor(event));
      SumSnoc(s.missed, s.scanners[w].event, Missing(event));
    case _ =>
  }

  lemma {:induction false} InitTallied(n: nat, event: string)
    ensures Sum(seq(n, i => Idle), CountingFor(event)) == 0
  {
    if n > 0 {
      InitTallied(n - 1, event);
      assert seq(n, i => Idle)[1..] == seq(n - 1, i => Idle);
    }
  }

  lemma {:induction false} RunAccounts(c: Config, run: seq<Step>, event: string)
    requires event != "" && Legal(c, run)
    ensures Accounted(Exec(c, run), event)
  {
    if run == [] {
      InitTallied(c.scanners, event);
    } else {
      RunAccounts(c, run[..|run| - 1], event);
      StepAccounts(c, Exec(c, run[..|run| - 1]), run[|run| - 1], event);
    }
  }

  lemma {:induction false} NoneMissing(missed: seq<string>, event: string)
    ensures Sum(missed, Missing(event)) == 0 <==> event !in missed
  {
    if missed != [] {
      NoneMissing(missed[1..], event);
      assert missed == [missed[0]] + missed[1..];
    }
  }

  /** In every reachable state the counter, plus the scans about to count, falls short of the stored rows by exactly
      the failed increments and the writes whose reply was lost; so it agrees with them if and only if neither has
      happened for the event. */
  lemma AttendanceIff(c: Config, s: State, event: string)
    requires event != "" && Reachable(c, s)
    ensures Accounted(s, event)
    ensures s.Count(event) + Sum(s.scanners, CountingFor(event)) == Sum(s.rows, ForEvent(event)) <==>
            event !in s.missed
  {
    var run :| Legal(c, run) && Exec(c, run) == s;
    RunAccounts(c, run, event);
    NoneMissing(s.missed, event);
  }

  // ---------------------------------------------------------------- a suppressed scan has a reason

  /** The claim that suppressed a scan has the scan's key and window, and is stored or still being stored. */
  ghost predicate Justified(c: Config, s: State, x: Suppressed) {
    && x.claim < |s.claims| && s.claims[x.claim].key == x.key
    && s.claims[x.claim].at <= x.at < s.claims[x.claim].at + c.ttl
    && s.claims[x.claim].fate != Failed
  }

  ghost predicate AllJustified(c: Config, s: State) {
    forall i :: 0 <= i < |s.suppressed| ==> Justified(c, s, s.suppressed[i])
  }

  ghost predicate NoFailure(s: State) {
    forall n :: 0 <= n < |s.claims| ==> s.claims[n].fate != Failed
  }

  lemma {:induction false} RunJustifies(c: Config, run: seq<Step>)
    requires !c.failingWrites && !c.unheardClaims && Legal(c, run)
    ensures NoFailure(Exec(c, run)) && AllJustified(c, Exec(c, run))
  {
    if run != [] {
      RunJustifies(c, run[..|run| - 1]);
      RunKeeps(c, run[..|run| - 1]);
      StepJustifies(c, Exec(c, run[..|run| - 1]), run[|run| - 1]);
    }
  }

  lemma StepJustifies(c: Config, s: State, st: Step)
    requires !c.failingWrites && !c.unheardClaims && ClaimsInv(c, s) && NoFailure(s) && AllJustified(c, s)
    requires Enabled(c, s, st)
    ensures NoFailure(Next(c, s, st)) && AllJustified(c, Next(c, s, st))
  {
    var t := Next(c, s, st);
    ClaimsOnlyGrow(c, s, st);
    forall i | 0 <= i < |t.suppressed|
      ensures Justified(c, t, t.suppressed[i])
    {
      if i < |s.suppressed| {
        assert t.suppressed[i] == s.suppressed[i];
        assert Justified(c, s, s.suppressed[i]);
      }
    }
  }

  lemma ClaimsOnlyGrow(c: Config, s: State, st: Step)
    requires !c.failingWrites && !c.unheardClaims && NoFailure(s) && Enabled(c, s, st)
    ensures NoFailure(Next(c, s, st)) && |s.claims| <= |Next(c, s, st).claims|
    ensures forall n :: 0 <= n < |s.claims| ==>
              Next(c, s, st).claims[n].key == s.claims[n].key && Next(c, s, st).claims[n].at == s.claims[n].at
  {}

  /** The claim comes before the write: after a failed write, the retry inside the window counts as a successful
      duplicate, and the scan is nowhere. */
  lemma FailedWriteIsForgotten(c: Config) returns (s: State)
    requires c.scanners > 0 && c.ttl > 0 && c.failingWrites
    ensures Reachable(c, s) && s.rows == [] && !AllJustified(c, s)
  {
    s := Start(c);
    s := Go(c, s, Scan(0, "k", "e"));
    s := Go(c, s, Write(0, false));
    s := Go(c, s, Scan(0, "k", "e"));
    assert !Justified(c, s, s.suppressed[0]);
  }

  /** So it is after a claim whose reply was lost. */
  lemma UnheardClaimIsForgotten(c: Config) returns (s: State)
    requires c.scanners > 0 && c.ttl > 0 && c.unheardClaims
    ensures Reachable(c, s) && s.rows == [] && !AllJustified(c, s)
  {
    s := Start(c);
    s := Go(c, s, ScanUnheard("k"));
    s := Go(c, s, Scan(0, "k", "e"));
    assert !Justified(c, s, s.suppressed[0]);
  }

  ghost predicate AlwaysJustified(c: Config) {
    forall s :: Reachable(c, s) ==> AllJustified(c, s)
  }

  /** Every suppressed scan has a stored or in-progress claimant in its window, in every run, exactly when row writes
      never fail and no claim's reply is lost. */
  lemma SuppressionsIff(c: Config)
    requires c.scanners > 0 && c.ttl > 0
    ensures AlwaysJustified(c) <==> !c.failingWrites && !c.unheardClaims
  {
    if c.failingWrites {
      var s := FailedWriteIsForgotten(c);
    } else if c.unheardClaims {
      var s := UnheardClaimIsForgotten(c);
    } else {
      forall s | Reachable(c, s)
        ensures AllJustified(c, s)
      {
        var run :| Legal(c, run) && Exec(c, run) == s;
        RunJustifies(c, run);
      }
    }
  }
}
