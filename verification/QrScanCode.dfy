/** QRScanProcessor.Process as the source writes it, step by step on the cache, the scan table and the counters, and
    every scan as a piece of a run of the QrDedup protocol. */
module QrScanCode {
  import opened Domain
  import opened Adapters
  import opened RedisKeys
  import opened QrDedup
  import Pool = PoolProtocol

  datatype Payload = Undecodable | Decoded(qrCode: string, eventID: string)

  datatype ScanRow = ScanRow(qrCode: string, eventID: string)

  datatype Replies = Replies(setNX: Reply, create: Reply, incr: bool)

  predicate LiveIn(entries: map<string, Entry>, now: nat, key: string) {
    key in entries && now < entries[key].expires
  }

  function CountIn(counters: map<string, nat>, event: string): nat {
    var key := Render(Attendance(event));
    if key in counters then counters[key] else 0
  }

  function Counted(counters: map<string, nat>, event: string): map<string, nat> {
    counters[Render(Attendance(event)) := CountIn(counters, event) + 1]
  }

  // The protocol state stands for this cache, these counters and this table.

  ghost predicate SameKeys(c: Config, s: State, now: nat, entries: map<string, Entry>) {
    s.now == now && forall k :: KeyLive(c, s, k) <==> LiveIn(entries, now, k)
  }

  ghost predicate SameCounts(s: State, counters: map<string, nat>) {
    forall e :: s.Count(e) == CountIn(counters, e)
  }

  ghost predicate SameRows(s: State, rows: seq<ScanRow>) {
    && |s.rows| == |rows|
    && forall i :: 0 <= i < |rows| ==>
         s.rows[i].event == rows[i].eventID && s.rows[i].key == Render(Seen(rows[i].eventID, rows[i].qrCode))
  }

  /** After a claim the key is taken, and no other key changes. */
  lemma ClaimTakes(c: Config, s: State, t: State, now: nat, entries: map<string, Entry>, key: Key)
    requires Reachable(c, s) && c.ttl > 0 && SameKeys(c, s, now, entries)
    requires t.now == s.now && t.seen == s.seen[key := |s.claims|]
    requires |t.claims| == |s.claims| + 1 && t.claims[..|s.claims|] == s.claims && t.claims[|s.claims|].at == s.now
    ensures SameKeys(c, t, now, entries[key := Entry("1", now + c.ttl)])
  {
    var run :| Legal(c, run) && Exec(c, run) == s;
    RunKeeps(c, run);
    var after := entries[key := Entry("1", now + c.ttl)];
    forall k
      ensures KeyLive(c, t, k) <==> LiveIn(after, now, k)
    {
      if k != key && k in s.seen {
        assert t.claims[s.seen[k]] == t.claims[..|s.claims|][s.seen[k]];
      }
      assert KeyLive(c, s, k) <==> LiveIn(entries, now, k);
    }
  }

  /** A scan that gets its key, up to the row write. */
  lemma PlayClaim(c: Config, s: State, w: nat, key: Key, event: string, now: nat, entries: map<string, Entry>)
    returns (t: State)
    requires Reachable(c, s) && c.ttl > 0 && SameKeys(c, s, now, entries) && !LiveIn(entries, now, key)
    requires w < |s.scanners| && s.scanners[w].Idle?
    ensures Reachable(c, t) && SameKeys(c, t, now, entries[key := Entry("1", now + c.ttl)])
    ensures t == s.(seen := t.seen, claims := t.claims, scanners := s.scanners[w := Writing(|s.claims|, event)])
    ensures |t.claims| == |s.claims| + 1 && t.claims[|s.claims|].key == key
  {
    assert !KeyLive(c, s, key);
    t := Go(c, s, Scan(w, key, event));
    ClaimTakes(c, s, t, now, entries, key);
  }

  lemma PlayUnheard(c: Config, s: State, key: Key, now: nat, entries: map<string, Entry>) returns (t: State)
    requires Reachable(c, s) && c.ttl > 0 && c.unheardClaims
    requires SameKeys(c, s, now, entries) && !LiveIn(entries, now, key)
    ensures Reachable(c, t) && SameKeys(c, t, now, entries[key := Entry("1", now + c.ttl)])
    ensures t == s.(seen := t.seen, claims := t.claims)
  {
    assert !KeyLive(c, s, key);
    t := Go(c, s, ScanUnheard(key));
    ClaimTakes(c, s, t, now, entries, key);
  }

  lemma PlayWrite(c: Config, s: State, w: nat, reply: Reply, now: nat, entries: map<string, Entry>) returns (t: State)
    requires Reachable(c, s) && c.failingWrites && SameKeys(c, s, now, entries)
    requires w < |s.scanners| && s.scanners[w].Writing? && s.scanners[w].claim < |s.claims|
    ensures Reachable(c, t) && SameKeys(c, t, now, entries)
    ensures var writer := s.scanners[w];
            var row := Row(writer.claim, s.claims[writer.claim].key, writer.event);
            && t == s.(claims := t.claims, rows := t.rows, scanners := t.scanners, missed := t.missed)
            && t.rows == (if reply != Refused then s.rows + [row] else s.rows)
            && t.scanners == s.scanners[w := if reply == Reply.Done && writer.event != "" then Counting(writer.event)
                                             else Idle]
  {
    t := Go(c, s, if reply == Unheard then WriteUnheard(w) else Write(w, reply == Reply.Done));
    forall k
      ensures KeyLive(c, t, k) <==> LiveIn(entries, now, k)
    {
      assert KeyLive(c, s, k) <==> LiveIn(entries, now, k);
    }
  }

  lemma PlayCount(c: Config, s: State, w: nat, ok: bool, counters: map<string, nat>) returns (t: State)
    requires Reachable(c, s) && SameCounts(s, counters) && w < |s.scanners| && s.scanners[w].Counting?
    ensures Reachable(c, t) && SameCounts(t, if ok then Counted(counters, s.scanners[w].event) else counters)
    ensures t == s.(attendance := t.attendance, missed := t.missed, scanners := s.scanners[w := Idle])
  {
    t := Go(c, s, Increment(w, ok));
    var event := s.scanners[w].event;
    var after := if ok then Counted(counters, event) else counters;
    forall e
      ensures t.Count(e) == CountIn(after, e)
    {
      SamePrefix("attendance:", e, event);
      assert s.Count(e) == CountIn(counters, e);
    }
  }

  /** What a scan can see and change. */
  datatype World = World(now: nat, entries: map<string, Entry>, counters: map<string, nat>, rows: seq<ScanRow>)

  class QRScanProcessor {
    const cache: RedisCache
    const dedupTTL: nat
    var rows: seq<ScanRow>

    constructor (cache: RedisCache, dedupTTL: int)
      ensures this.cache == cache && rows == []
      ensures this.dedupTTL == (if dedupTTL <= 0 then 10_000_000_000 else dedupTTL) && this.dedupTTL > 0
    {
      this.cache, this.rows := cache, [];
      this.dedupTTL := if dedupTTL <= 0 then 10_000_000_000 else dedupTTL;
    }

    ghost function Here(): World
      reads this, cache
    {
      World(cache.now, cache.entries, cache.counters, rows)
    }

    /** What a decoded scan with a code gets, and what it leaves in the cache and the table. */
    ghost predicate Scanned(payload: Payload, io: Replies, outcome: Pool.Outcome, w: World, w': World)
      requires payload.Decoded?
    {
      var key := Render(Seen(payload.eventID, payload.qrCode));
      var live := LiveIn(w.entries, w.now, key);
      var claimed := io.setNX == Reply.Done && !live;
      && w'.now == w.now
      && outcome == (if io.setNX == Reply.Done && (live || io.create == Reply.Done) then Pool.Success
                     else Pool.Retryable)
      && w'.entries == (if io.setNX != Refused && !live then w.entries[key := Entry("1", w.now + dedupTTL)]
                        else w.entries)
      && w'.rows == (if claimed && io.create != Refused then w.rows + [ScanRow(payload.qrCode, payload.eventID)]
                     else w.rows)
      && w'.counters == (if claimed && io.create == Reply.Done && payload.eventID != "" && io.incr then
                           Counted(w.counters, payload.eventID)
                         else w.counters)
    }

    /** Decode, claim the dedup key, store the row, count it. A duplicate is a successful no-op. */
    method Process(payload: Payload, io: Replies) returns (outcome: Pool.Outcome)
      modifies cache`entries, cache`counters, this`rows
      ensures outcome == Pool.NonRetryable <==> payload.Undecodable? || payload.qrCode == ""
      ensures outcome == Pool.NonRetryable ==> Here() == old(Here())
      ensures outcome != Pool.NonRetryable ==> Scanned(payload, io, outcome, old(Here()), Here())
    {
      if payload.Undecodable? || payload.qrCode == "" {
        return Pool.NonRetryable;
      }
      var key := Render(Seen(payload.eventID, payload.qrCode));
      var claim := cache.SetNX(key, "1", dedupTTL, io.setNX);
      if claim == ClaimError {
        return Pool.Retryable;
      }
      if claim == Taken {
        return Pool.Success;
      }
      if io.create != Refused {
        rows := rows + [ScanRow(payload.qrCode, payload.eventID)];
      }
      if io.create != Reply.Done {
        return Pool.Retryable;
      }
      if payload.eventID != "" {
        cache.Incr(Render(Attendance(payload.eventID)), io.incr);
      }
      return Pool.Success;
    }
  }

  /** Two scans: one is stored, and the other handled within its window, with its claim still there. If event and code
      are the same, the second is suppressed and changes nothing. */
  lemma SameScanIsSuppressed(q: QRScanProcessor, a: Payload, b: Payload, ioA: Replies, ioB: Replies, oA: Pool.Outcome,
                             oB: Pool.Outcome, w: World, w': World, v: World, v': World)
    requires a.Decoded? && b == a && q.Scanned(a, ioA, oA, w, w') && ioA.setNX == Reply.Done
    requires !LiveIn(w.entries, w.now, Render(Seen(a.eventID, a.qrCode)))
    requires q.Scanned(b, ioB, oB, v, v') && v.entries == w'.entries && w.now <= v.now < w.now + q.dedupTTL
    requires ioB.setNX == Reply.Done
    ensures oB == Pool.Success && v' == v
  {}

  /** If the event or the code differs, and neither event id contains a colon, the second is stored and counted for its
      own event only. */
  lemma OtherScanIsStored(q: QRScanProcessor, a: Payload, b: Payload, ioA: Replies, ioB: Replies, oA: Pool.Outcome,
                          oB: Pool.Outcome, w: World, w': World, v: World, v': World, e: string)
    requires a.Decoded? && b.Decoded? && b != a && ':' !in a.eventID && ':' !in b.eventID
    requires q.Scanned(a, ioA, oA, w, w') && q.Scanned(b, ioB, oB, v, v') && v.entries == w'.entries
    requires Render(Seen(b.eventID, b.qrCode)) !in w.entries
    requires ioB == Replies(Reply.Done, Reply.Done, true)
    ensures oB == Pool.Success && v'.rows == v.rows + [ScanRow(b.qrCode, b.eventID)]
    ensures CountIn(v'.counters, e) == CountIn(v.counters, e) + if e == b.eventID && e != "" then 1 else 0
  {
    EventsConfusedIff(a.eventID, b.eventID);
    SamePrefix("attendance:", e, b.eventID);
  }

  ghost predicate Mirrors(c: Config, s: State, w: World) {
    SameKeys(c, s, w.now, w.entries) && SameCounts(s, w.counters) && SameRows(s, w.rows)
  }

  /** A scan, played in the dedup protocol on any idle scanner beside any scans in progress there: it leads from a
      reachable state that stands for the cache and the table to another one. So what StoredRowsApart, AttendanceIff
      and SuppressionsIff say of the protocol holds of every history of such scans. */
  lemma ScanIsRun(q: QRScanProcessor, payload: Payload, io: Replies, outcome: Pool.Outcome, w: World, w': World,
                  c: Config, s: State, i: nat)
    returns (t: State)
    requires payload.Decoded? && q.Scanned(payload, io, outcome, w, w') && c.ttl == q.dedupTTL > 0
    requires c.failingWrites && c.unheardClaims
    requires Reachable(c, s) && Mirrors(c, s, w) && i < |s.scanners| && s.scanners[i].Idle?
    ensures Reachable(c, t) && Mirrors(c, t, w') && t.scanners == s.scanners
  {
    var key := Render(Seen(payload.eventID, payload.qrCode));
    t := s;
    if LiveIn(w.entries, w.now, key) {
      if io.setNX == Reply.Done {
        t := PlayDuplicate(c, s, i, key, payload.eventID, w);
      }
    } else if io.setNX == Unheard {
      t := PlayUnheard(c, s, key, w.now, w.entries);
    } else if io.setNX == Reply.Done {
      t := PlayFresh(c, s, i, payload, key, io, w);
    }
  }

  lemma PlayFresh(c: Config, s: State, i: nat, payload: Payload, key: string, io: Replies, w: World) returns (t: State)
    requires payload.Decoded? && key == Render(Seen(payload.eventID, payload.qrCode)) && c.failingWrites && c.ttl > 0
    requires Reachable(c, s) && Mirrors(c, s, w) && i < |s.scanners| && s.scanners[i].Idle?
    requires !LiveIn(w.entries, w.now, key)
    ensures Reachable(c, t) && t.scanners == s.scanners
    ensures SameKeys(c, t, w.now, w.entries[key := Entry("1", w.now + c.ttl)])
    ensures SameRows(t, if io.create != Refused then w.rows + [ScanRow(payload.qrCode, payload.eventID)] else w.rows)
    ensures SameCounts(t, if io.create == Reply.Done && payload.eventID != "" && io.incr then
                            Counted(w.counters, payload.eventID)
                          else w.counters)
  {
    var u := PlayClaim(c, s, i, key, payload.eventID, w.now, w.entries);
    WriteKeepsCounts(s, u, w.counters);
    t := PlayStore(c, u, i, payload, key, io, w.(entries := w.entries[key := Entry("1", w.now + c.ttl)]));
    assert u.scanners[i := Idle] == s.scanners;
  }

  lemma PlayDuplicate(c: Config, s: State, i: nat, key: Key, event: string, w: World) returns (t: State)
    requires Reachable(c, s) && Mirrors(c, s, w) && i < |s.scanners| && s.scanners[i].Idle?
    requires LiveIn(w.entries, w.now, key)
    ensures Reachable(c, t) && Mirrors(c, t, w) && t.scanners == s.scanners
  {
    assert KeyLive(c, s, key);
    t := Go(c, s, Scan(i, key, event));
    CountKeepsKeys(c, s, t, w.now, w.entries);
    WriteKeepsCounts(s, t, w.counters);
  }

  /** The part after the claim. */
  lemma PlayStore(c: Config, s: State, i: nat, payload: Payload, key: string, io: Replies, w: World) returns (t: State)
    requires payload.Decoded? && key == Render(Seen(payload.eventID, payload.qrCode)) && c.failingWrites
    requires Reachable(c, s) && Mirrors(c, s, w)
    requires i < |s.scanners| && s.scanners[i].Writing? && s.scanners[i].event == payload.eventID
    requires s.scanners[i].claim < |s.claims| && s.claims[s.scanners[i].claim].key == key
    ensures Reachable(c, t) && t.scanners == s.scanners[i := Idle] && SameKeys(c, t, w.now, w.entries)
    ensures SameRows(t, if io.create != Refused then w.rows + [ScanRow(payload.qrCode, payload.eventID)] else w.rows)
    ensures SameCounts(t, if io.create == Reply.Done && payload.eventID != "" && io.incr then
                            Counted(w.counters, payload.eventID)
                          else w.counters)
  {
    var u := PlayWrite(c, s, i, io.create, w.now, w.entries);
    WriteKeepsRows(s, u, w.rows, ScanRow(payload.qrCode, payload.eventID), s.scanners[i].claim, io.create != Refused);
    WriteKeepsCounts(s, u, w.counters);
    if io.create == Reply.Done && payload.eventID != "" {
      t := PlayCount(c, u, i, io.incr, w.counters);
      CountKeepsKeys(c, u, t, w.now, w.entries);
      assert u.scanners[i := Idle] == s.scanners[i := Idle];
    } else {
      t := u;
    }
  }

  lemma WriteKeepsRows(s: State, t: State, rows: seq<ScanRow>, row: ScanRow, n: nat, stored: bool)
    requires SameRows(s, rows)
    requires t.rows == if stored then s.rows + [Row(n, Render(Seen(row.eventID, row.qrCode)), row.eventID)] else s.rows
    ensures SameRows(t, if stored then rows + [row] else rows)
  {}

  lemma WriteKeepsCounts(s: State, t: State, counters: map<string, nat>)
    requires SameCounts(s, counters) && t.attendance == s.attendance
    ensures SameCounts(t, counters)
  {
    forall e
      ensures t.Count(e) == CountIn(counters, e)
    {
      assert s.Count(e) == CountIn(counters, e);
    }
  }

  lemma CountKeepsKeys(c: Config, s: State, t: State, now: nat, entries: map<string, Entry>)
    requires SameKeys(c, s, now, entries) && t.now == s.now && t.seen == s.seen && t.claims == s.claims
    ensures SameKeys(c, t, now, entries)
  {
    forall k
      ensures KeyLive(c, t, k) <==> LiveIn(entries, now, k)
    {
      assert KeyLive(c, s, k) <==> LiveIn(entries, now, k);
    }
  }
}
