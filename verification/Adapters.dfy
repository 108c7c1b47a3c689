/** The Redis cache and the job table as the services and processors see them (internal/domain/ports.go). */
module Adapters {
  import opened Domain

  /** How a call that writes is answered. Unheard: it took effect, but the caller saw an error. */
  datatype Reply = Done | Refused | Unheard

  datatype ClaimReply = Fresh | Taken | ClaimError

  class RedisCache {
    var now: nat
    var entries: map<string, Entry>
    var counters: map<string, nat>

    constructor ()
      ensures now == 0 && entries == map[] && counters == map[]
    {
      now, entries, counters := 0, map[], map[];
    }

    predicate Live(key: string)
      reads this
    {
      key in entries && now < entries[key].expires
    }

    function Counter(key: string): nat
      reads this
    {
      if key in counters then counters[key] else 0
    }

    method SetNX(key: string, value: string, ttl: nat, reply: Reply) returns (r: ClaimReply)
      modifies this`entries
      ensures r == ClaimError <==> reply != Done
      ensures r == Fresh <==> reply == Done && !old(Live(key))
      ensures entries == if reply != Refused && !old(Live(key)) then old(entries)[key := Entry(value, now + ttl)]
                         else old(entries)
    {
      var free := !Live(key);
      if reply != Refused && free {
        entries := entries[key := Entry(value, now + ttl)];
      }
      r := if reply != Done then ClaimError else if free then Fresh else Taken;
    }

    /** The empty string stands for a missing key and for an error alike: Enqueue ignores which. */
    method Get(key: string, ok: bool) returns (v: string)
      ensures v == if ok && Live(key) then entries[key].value else ""
    {
      v := if ok && Live(key) then entries[key].value else "";
    }

    method Del(key: string, ok: bool)
      modifies this`entries
      ensures entries == if ok then old(entries) - {key} else old(entries)
    {
      if ok {
        entries := entries - {key};
      }
    }

    method Incr(key: string, ok: bool)
      modifies this`counters
      ensures counters == if ok then old(counters)[key := old(Counter(key)) + 1] else old(counters)
    {
      if ok {
        counters := counters[key := Counter(key) + 1];
      }
    }
  }

  datatype Lookup = Found(job: Job) | NotFound | LookupError

  datatype Saved = Saved | NoSuchRow | SaveError

  class JobStore {
    var rows: map<Id, Job>

    /** Every row is stored under its own id. */
    ghost predicate Keyed()
      reads this
    {
      forall id :: id in rows ==> rows[id].id == id
    }

    constructor ()
      ensures rows == map[] && Keyed()
    {
      rows := map[];
    }

    /** The id is the primary key. */
    method Create(job: Job, ok: bool) returns (created: bool)
      modifies this`rows
      ensures created <==> ok && job.id !in old(rows)
      ensures rows == if created then old(rows)[job.id := job] else old(rows)
      ensures old(Keyed()) ==> Keyed()
    {
      created := ok && job.id !in rows;
      if created {
        rows := rows[job.id := job];
      }
    }

    method GetByID(id: Id, ok: bool) returns (r: Lookup)
      ensures r == if !ok then LookupError else if id in rows then Found(rows[id]) else NotFound
    {
      r := if !ok then LookupError else if id in rows then Found(rows[id]) else NotFound;
    }

    /** Only the mutable columns change; a missing row is an error. */
    method Update(job: Job, ok: bool) returns (r: Saved)
      modifies this`rows
      ensures r == if !ok then SaveError else if job.id in old(rows) then Saved else NoSuchRow
      ensures rows == if ok then UpdateRow(old(rows), job) else old(rows)
      ensures r == Saved ==>
              rows == old(rows)[job.id := old(rows)[job.id].(status := job.status, retryCount := job.retryCount)]
      ensures r != Saved ==> rows == old(rows)
      ensures old(Keyed()) ==> Keyed()
    {
      if !ok { return SaveError; }
      if job.id !in rows { return NoSuchRow; }
      rows := rows[job.id := rows[job.id].(status := job.status, retryCount := job.retryCount)];
      return Saved;
    }
  }
}
