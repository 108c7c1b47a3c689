/** The Redis keys of the idempotency, lock, done, dedup, attendance and list entries: which ones can collide. */
module RedisKeys {
  import opened Domain
  import opened PriorityQueue

  function TypeName(t: JobType): string {
    match t
    case REGISTRATION => "REGISTRATION"
    case PAYMENT_WEBHOOK => "PAYMENT_WEBHOOK"
    case QR_SCAN => "QR_SCAN"
    case NOTIFICATION => "NOTIFICATION"
    case UNKNOWN_TYPE(name) => name
  }

  /** Everything the gateway stores in Redis, by what it means. */
  datatype RedisKey =
    | Idempotency(jobType: JobType, key: string)
    | Lock(id: Id)
    | Done(id: Id)
    | Seen(event: string, code: string)
    | Attendance(event: string)
    | JobList(level: Level)
    | DeadLetterList

  /** The string the code builds for it. */
  function Render(k: RedisKey): string {
    match k
    case Idempotency(t, key) => "idemp:" + TypeName(t) + ":" + key
    case Lock(id) => "job:lock:" + id
    case Done(id) => "job:done:" + id
    case Seen(e, c) => "qr:seen:" + e + ":" + c
    case Attendance(e) => "attendance:" + e
    case JobList(HighList) => "jobs:high"
    case JobList(MediumList) => "jobs:medium"
    case JobList(LowList) => "jobs:low"
    case DeadLetterList => "jobs:dead-letter"
  }

  /** Enqueue rejects unknown job types before it builds a key. */
  predicate Usable(k: RedisKey) {
    k.Idempotency? ==> k.jobType.Valid()
  }

  /** longer is shorter, a colon, and something more. */
  predicate ExtendsPastColon(longer: string, shorter: string) {
    |shorter| < |longer| && shorter <= longer && longer[|shorter|] == ':'
  }

  predicate Clash(e: string, c: string, e': string, c': string) {
    ExtendsPastColon(e, e') && c' == e[|e'| + 1..] + ":" + c
  }

  /** Where two colon-joined pairs can agree: equal pairs, or one left part running past the other's colon. */
  lemma JoinedPairs(a: string, x: string, b: string, y: string)
    ensures a + ":" + x == b + ":" + y <==> (a == b && x == y) || Clash(a, x, b, y) || Clash(b, y, a, x)
  {
    var s, t := a + ":" + x, b + ":" + y;
    assert |b| < |a| && b <= a && a[|b|] == ':' ==> a == b + ":" + a[|b| + 1..];
    assert |a| < |b| && a <= b && b[|a|] == ':' ==> b == a + ":" + b[|a| + 1..];
    if s == t {
      assert s[|a|] == ':' && t[|b|] == ':';
      assert s[..|a|] == a && t[..|b|] == b && s[|a| + 1..] == x && t[|b| + 1..] == y;
      if |b| < |a| {
        assert a == t[..|a|];
        assert y == s[|b| + 1..] == a[|b| + 1..] + ":" + x;
      } else if |a| < |b| {
        assert b == s[..|b|];
        assert x == t[|a| + 1..] == b[|a| + 1..] + ":" + y;
      }
    }
  }

  lemma Joined(p: string, a: string, x: string)
    ensures p + a + ":" + x == p + (a + ":" + x)
  {}

  lemma SamePrefix(p: string, x: string, y: string)
    ensures p + x == p + y <==> x == y
  {
    assert (p + x)[|p|..] == x && (p + y)[|p|..] == y;
  }

  lemma ValidTypesHaveNoColon(t: JobType)
    requires t.Valid()
    ensures ':' !in TypeName(t)
  {}

  lemma TypeNamesDiffer(t: JobType, u: JobType)
    requires t.Valid() && u.Valid() && TypeName(t) == TypeName(u)
    ensures t == u
  {
    assert "REGISTRATION"[0] == 'R' && "PAYMENT_WEBHOOK"[0] == 'P' && "QR_SCAN"[0] == 'Q' && "NOTIFICATION"[0] == 'N';
  }

  /** Idempotency keys are injective in the valid type and the arbitrary client key. */
  lemma IdempotencyInjective(t: JobType, key: string, u: JobType, key': string)
    requires t.Valid() && u.Valid()
    ensures Render(Idempotency(t, key)) == Render(Idempotency(u, key')) <==> t == u && key == key'
  {
    if Render(Idempotency(t, key)) == Render(Idempotency(u, key')) {
      var x, y := TypeName(t) + ":" + key, TypeName(u) + ":" + key';
      Joined("idemp:", TypeName(t), key);
      Joined("idemp:", TypeName(u), key');
      SamePrefix("idemp:", x, y);
      JoinedPairs(TypeName(t), key, TypeName(u), key');
      ValidTypesHaveNoColon(t);
      ValidTypesHaveNoColon(u);
      TypeNamesDiffer(t, u);
    }
  }

  lemma SeenCollision(e: string, c: string, e': string, c': string)
    ensures Render(Seen(e, c)) == Render(Seen(e', c')) <==>
            (e == e' && c == c') || Clash(e, c, e', c') || Clash(e', c', e, c)
  {
    var x, y := e + ":" + c, e' + ":" + c';
    Joined("qr:seen:", e, c);
    Joined("qr:seen:", e', c');
    SamePrefix("qr:seen:", x, y);
    JoinedPairs(e, c, e', c');
  }

  /** The families of keys never overlap, whatever strings clients supply. */
  lemma FamiliesDisjoint(a: RedisKey, b: RedisKey)
    requires Render(a) == Render(b)
    ensures a.Idempotency? <==> b.Idempotency?
    ensures a.Lock? <==> b.Lock?
    ensures a.Done? <==> b.Done?
    ensures a.Seen? <==> b.Seen?
    ensures a.Attendance? <==> b.Attendance?
    ensures (a.JobList? || a.DeadLetterList?) ==> a == b
  {
    Signature(a);
    Signature(b);
  }

  /** Enough leading characters to tell the families apart. */
  lemma Signature(k: RedisKey)
    ensures |Render(k)| >= 6
    ensures var s := Render(k);
            match k
            case Idempotency(_, _) => s[0] == 'i'
            case Lock(_) => s[0] == 'j' && s[3] == ':' && s[4] == 'l'
            case Done(_) => s[0] == 'j' && s[3] == ':' && s[4] == 'd'
            case Seen(_, _) => s[0] == 'q'
            case Attendance(_) => s[0] == 'a'
            case JobList(HighList) => s[0] == 'j' && s[3] == 's' && s[5] == 'h'
            case JobList(MediumList) => s[0] == 'j' && s[3] == 's' && s[5] == 'm'
            case JobList(LowList) => s[0] == 'j' && s[3] == 's' && s[5] == 'l'
            case DeadLetterList => s[0] == 'j' && s[3] == 's' && s[5] == 'd'
  {}

  /** The complete list of collisions: two different usable keys share a string exactly when both are QR
      dedup keys and one event id continues past the other with a colon that the other code makes up for. */
  lemma CollisionsAreQrOnly(a: RedisKey, b: RedisKey)
    requires Usable(a) && Usable(b) && a != b
    ensures Render(a) == Render(b) <==>
            a.Seen? && b.Seen? && (Clash(a.event, a.code, b.event, b.code) || Clash(b.event, b.code, a.event, a.code))
  {
    if a.Seen? && b.Seen? {
      SeenCollision(a.event, a.code, b.event, b.code);
    } else if Render(a) == Render(b) {
      FamiliesDisjoint(a, b);
      match a {
        case Idempotency(t, k) => IdempotencyInjective(t, k, b.jobType, b.key);
        case Lock(id) => SamePrefix("job:lock:", id, b.id);
        case Done(id) => SamePrefix("job:done:", id, b.id);
        case Attendance(e) => SamePrefix("attendance:", e, b.event);
        case JobList(_) =>
        case DeadLetterList =>
      }
      assert false;
    }
  }

  /** Scans of two events can be confused for some pair of codes (the processor rejects empty ones) exactly when one
      event id extends the other past a colon; in particular ids without a colon are always safe. */
  lemma EventsConfusedIff(e: string, e': string)
    ensures (exists c, c' :: c != "" && c' != "" && (e != e' || c != c') && Render(Seen(e, c)) == Render(Seen(e', c')))
            <==> ExtendsPastColon(e, e') || ExtendsPastColon(e', e)
    ensures ':' !in e && ':' !in e' ==>
            forall c, c' :: Render(Seen(e, c)) == Render(Seen(e', c')) ==> e == e' && c == c'
  {
    forall c, c'
      ensures Render(Seen(e, c)) == Render(Seen(e', c')) ==>
              (e == e' && c == c') || ExtendsPastColon(e, e') || ExtendsPastColon(e', e)
    {
      SeenCollision(e, c, e', c');
    }
    if ExtendsPastColon(e, e') {
      var c' := e[|e'| + 1..] + ":" + "x";
      SeenCollision(e, "x", e', c');
      assert e != e' && "x" != "" && c' != "" && Render(Seen(e, "x")) == Render(Seen(e', c'));
    }
    if ExtendsPastColon(e', e) {
      var c := e'[|e| + 1..] + ":" + "x";
      SeenCollision(e', "x", e, c);
      assert e != e' && "x" != "" && c != "" && Render(Seen(e, c)) == Render(Seen(e', "x"));
    }
  }
}
