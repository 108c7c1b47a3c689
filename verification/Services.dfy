/** The gateway's Enqueue and the admin's RetryJob as the source writes them (internal/service), step by step on the
    cache, the job table and the queue; and every Enqueue call as a piece of a run of the Idempotency protocol. */
module Services {
  import opened Domain
  import opened Adapters
  import PQ = PriorityQueue
  import RedisKeys
  import Idem = Idempotency

  datatype Request = Request(jobType: JobType, payload: string, validJson: bool, idempotencyKey: string)

  datatype EnqueueResult =
    | Accepted(job: Job)
    | Duplicate(job: Job)
    | UnknownJobType
    | InvalidPayload
    | ClaimFailed
    | PersistFailed
    | QueueFailed

  /** How the cache, the table and the queue answer one Enqueue call. */
  datatype Replies = Replies(setNX: Reply, get: bool, lookup: bool, create: bool, push: PQ.RedisReply, del: bool)

  /** What an Enqueue call can see and change. */
  datatype World = World(now: nat, entries: map<string, Entry>, rows: map<Id, Job>, lists: PQ.Lists<Job>)

  class GatewayService {
    const queue: PQ.RedisQueue
    const jobs: JobStore
    const cache: RedisCache
    const maxRetries: int
    const ttl: nat
    const hash: (JobType, string) -> string

    constructor (queue: PQ.RedisQueue, jobs: JobStore, cache: RedisCache, maxRetries: int, ttl: int,
                 hash: (JobType, string) -> string)
      ensures this.queue == queue && this.jobs == jobs && this.cache == cache && this.hash == hash
      ensures this.maxRetries == (if maxRetries <= 0 then 5 else maxRetries)
      ensures this.ttl == (if ttl <= 0 then 86_400_000_000_000 else ttl) && this.ttl > 0
    {
      this.queue, this.jobs, this.cache, this.hash := queue, jobs, cache, hash;
      this.maxRetries := if maxRetries <= 0 then 5 else maxRetries;
      this.ttl := if ttl <= 0 then 86_400_000_000_000 else ttl;
    }

    ghost function Here(): World
      reads cache, jobs, queue
    {
      World(cache.now, cache.entries, jobs.rows, queue.lists)
    }

    predicate WellFormed(req: Request) {
      req.jobType.Valid() && req.payload != "" && req.validJson
    }

    function KeyOf(req: Request): string {
      var key := if req.idempotencyKey == "" then hash(req.jobType, req.payload) else req.idempotencyKey;
      RedisKeys.Render(RedisKeys.Idempotency(req.jobType, key))
    }

    /** The job carries the request, with a full retry budget, and waits. */
    predicate IsJobFor(job: Job, req: Request, jobID: Id) {
      && job.id == jobID && job.jobType == req.jobType && job.payload == req.payload
      && job.status == QUEUED && job.retryCount == 0 && job.maxRetries == maxRetries
    }

    /** What a well-formed request gets, and what it leaves in the cache, the table and the queue. */
    ghost predicate Settles(req: Request, key: string, jobID: Id, io: Replies, r: EnqueueResult, w: World, w': World) {
      var live := key in w.entries && w.now < w.entries[key].expires;
      var claimed := w.entries[key := Entry(jobID, w.now + ttl)];
      var job := NewJob(jobID, req.jobType, req.payload, maxRetries);
      && w'.now == w.now
      // which answer is given
      && (r.ClaimFailed? <==> io.setNX != Done)
      && (r.Duplicate? <==> io.setNX == Done && live)
      && (r.PersistFailed? <==> io.setNX == Done && !live && !(io.create && jobID !in w.rows))
      && (r.QueueFailed? <==> io.setNX == Done && !live && io.create && jobID !in w.rows && io.push != PQ.Ok)
      && (r.Accepted? <==> io.setNX == Done && !live && io.create && jobID !in w.rows && io.push == PQ.Ok)
      // an accepted job is claimed, stored and queued under its own id; otherwise nothing is queued
      && (r.Accepted? ==> r.job == job && w'.entries == claimed)
      && w'.lists == (if r.Accepted? then w.lists.LPush(PQ.KeyForPriority(job.priority), job) else w.lists)
      // of the failures, only a failed push leaves a row behind
      && w'.rows == (if r.Accepted? || r.QueueFailed? then w.rows[jobID := job] else w.rows)
      // a failed call that got its claim gives it back, so that a retry can succeed
      && (r.PersistFailed? || r.QueueFailed? ==> w'.entries == if io.del then w.entries - {key} else claimed)
      && (r.ClaimFailed? ==> w'.entries == if io.setNX == Unheard && !live then claimed else w.entries)
      // a duplicate changes nothing and names the job that holds the key
      && (r.Duplicate? ==> w'.entries == w.entries)
      && (r.Duplicate? && io.get && w.entries[key].value != "" ==>
            var id := w.entries[key].value;
            if io.lookup && id in w.rows then r.job == w.rows[id] else r.job.id == id)
    }

    /** Validate, claim the key, create the row, push; release the claim when a later step fails. */
    method Enqueue(req: Request, jobID: Id, io: Replies) returns (r: EnqueueResult)
      modifies queue`lists, jobs`rows, cache`entries
      ensures r.UnknownJobType? <==> req.jobType.UNKNOWN_TYPE?
      ensures r.InvalidPayload? <==> !req.jobType.UNKNOWN_TYPE? && (req.payload == "" || !req.validJson)
      ensures r.UnknownJobType? || r.InvalidPayload? ==> Here() == old(Here())
      ensures WellFormed(req) ==> Settles(req, KeyOf(req), jobID, io, r, old(Here()), Here())
      // what an accepted request becomes, and which list it heads
      ensures r.Accepted? ==> IsJobFor(r.job, req, jobID)
      ensures r.Accepted? ==> queue.lists == match req.jobType
        case PAYMENT_WEBHOOK => old(queue.lists).(high := [r.job] + old(queue.lists.high))
        case QR_SCAN => old(queue.lists).(high := [r.job] + old(queue.lists.high))
        case REGISTRATION => old(queue.lists).(medium := [r.job] + old(queue.lists.medium))
        case NOTIFICATION => old(queue.lists).(low := [r.job] + old(queue.lists.low))
        case UNKNOWN_TYPE(_) => old(queue.lists)
    {
      if !req.jobType.Valid() {
        return UnknownJobType;
      }
      if req.payload == "" || !req.validJson {
        return InvalidPayload;
      }
      r := EnqueueAs(KeyOf(req), req, jobID, io);
    }

    /** Enqueue once the request is known to be well formed. */
    method EnqueueAs(redisKey: string, req: Request, jobID: Id, io: Replies) returns (r: EnqueueResult)
      modifies queue`lists, jobs`rows, cache`entries
      ensures !r.UnknownJobType? && !r.InvalidPayload?
      ensures Settles(req, redisKey, jobID, io, r, old(Here()), Here())
    {
      var claim := cache.SetNX(redisKey, jobID, ttl, io.setNX);
      if claim == ClaimError {
        return ClaimFailed;
      }
      if claim == Taken {
        var existing := Existing(redisKey, req.jobType, jobID, io);
        return Duplicate(existing);
      }
      var job := NewJob(jobID, req.jobType, req.payload, maxRetries);
      r := Submit(job, redisKey, io);
      assert old(cache.entries)[redisKey := Entry(jobID, cache.now + ttl)] - {redisKey} ==
             old(cache.entries) - {redisKey};
    }

    /** What a duplicate is answered with: the stored job, or a stub with the id that holds the key. */
    method Existing(redisKey: string, jobType: JobType, jobID: Id, io: Replies) returns (job: Job)
      ensures var held := io.get && cache.Live(redisKey) && cache.entries[redisKey].value != "";
              var id := if held then cache.entries[redisKey].value else jobID;
              if io.lookup && id in jobs.rows then job == jobs.rows[id]
              else job.id == id && job.jobType == jobType && job.status == QUEUED
    {
      var existingID := cache.Get(redisKey, io.get);
      if existingID == "" {
        existingID := jobID;
      }
      var existing := jobs.GetByID(existingID, io.lookup);
      if existing.Found? {
        return existing.job;
      }
      return Job(existingID, jobType, "", QUEUED, 0, 0, UNKNOWN_PRIORITY(""));
    }

    /** The second half of Enqueue, once the claim is held: create the row and push, or release the claim. */
    method Submit(job: Job, redisKey: string, io: Replies) returns (r: EnqueueResult)
      modifies queue`lists, jobs`rows, cache`entries
      ensures r == if !io.create || job.id in old(jobs.rows) then PersistFailed
                   else if io.push == PQ.Ok then Accepted(job) else QueueFailed
      ensures jobs.rows == if r.PersistFailed? then old(jobs.rows) else old(jobs.rows)[job.id := job]
      ensures queue.lists == if r.Accepted? then old(queue.lists).LPush(PQ.KeyForPriority(job.priority), job)
                             else old(queue.lists)
      ensures cache.entries == if !r.Accepted? && io.del then old(cache.entries) - {redisKey} else old(cache.entries)
    {
      var created := jobs.Create(job, io.create);
      if !created {
        cache.Del(redisKey, io.del);
        return PersistFailed;
      }
      var pushed := queue.Push(job, io.push);
      if !pushed {
        cache.Del(redisKey, io.del);
        return QueueFailed;
      }
      return Accepted(job);
    }
  }

  // ---------------------------------------------------------------- which requests share a key

  /** Requests with a client key share their claim exactly when type and client key agree, whatever the payloads. */
  lemma ClientKeysDecide(g: GatewayService, a: Request, b: Request)
    requires g.WellFormed(a) && g.WellFormed(b) && a.idempotencyKey != "" && b.idempotencyKey != ""
    ensures g.KeyOf(a) == g.KeyOf(b) <==> a.jobType == b.jobType && a.idempotencyKey == b.idempotencyKey
  {
    RedisKeys.IdempotencyInjective(a.jobType, a.idempotencyKey, b.jobType, b.idempotencyKey);
  }

  ghost predicate Injective(hash: (JobType, string) -> string) {
    forall t, p, u, q :: hash(t, p) == hash(u, q) ==> t == u && p == q
  }

  /** Without client keys, and with a hash that has no collisions, exactly when type and payload agree. */
  lemma PayloadsDecide(g: GatewayService, a: Request, b: Request)
    requires g.WellFormed(a) && g.WellFormed(b) && a.idempotencyKey == "" == b.idempotencyKey && Injective(g.hash)
    ensures g.KeyOf(a) == g.KeyOf(b) <==> a.jobType == b.jobType && a.payload == b.payload
  {
    RedisKeys.IdempotencyInjective(a.jobType, g.hash(a.jobType, a.payload), b.jobType, g.hash(b.jobType, b.payload));
  }

  /** Two calls: request a is accepted, and b is handled within a's lifetime, with a's claim and row still there. If b
      has a's type and client key, it is a duplicate that changes nothing and names a's job, whatever its payload. */
  lemma SecondIsDuplicate(g: GatewayService, a: Request, b: Request, idA: Id, idB: Id, ioA: Replies, ioB: Replies,
                          rA: EnqueueResult, rB: EnqueueResult, w: World, w': World, v: World, v': World)
    requires g.WellFormed(a) && g.WellFormed(b) && a.idempotencyKey != "" && b.idempotencyKey != ""
    requires g.Settles(a, g.KeyOf(a), idA, ioA, rA, w, w') && rA.Accepted? && idA != ""
    requires g.Settles(b, g.KeyOf(b), idB, ioB, rB, v, v') && ioB.setNX == Done && ioB.get
    requires w.now <= v.now < w.now + g.ttl && g.KeyOf(a) in v.entries && idA in v.rows
    requires v.entries[g.KeyOf(a)] == w'.entries[g.KeyOf(a)] && v.rows[idA].id == idA
    requires a.jobType == b.jobType && a.idempotencyKey == b.idempotencyKey
    ensures rB.Duplicate? && rB.job.id == idA && (ioB.lookup ==> rB.job == v.rows[idA]) && v' == v
  {
    ClientKeysDecide(g, a, b);
  }

  /** If b has another type or another client key, and no claim of its own stood before, it is accepted, even with a's
      payload. */
  lemma OtherKeyIsAccepted(g: GatewayService, a: Request, b: Request, idA: Id, idB: Id, ioA: Replies, ioB: Replies,
                           rA: EnqueueResult, rB: EnqueueResult, w: World, w': World, v: World, v': World)
    requires g.WellFormed(a) && g.WellFormed(b) && a.idempotencyKey != "" && b.idempotencyKey != ""
    requires g.Settles(a, g.KeyOf(a), idA, ioA, rA, w, w') && rA.Accepted? && g.KeyOf(b) !in w.entries
    requires g.Settles(b, g.KeyOf(b), idB, ioB, rB, v, v') && v.entries == w'.entries && idB !in v.rows
    requires ioB.setNX == Done && ioB.create && ioB.push == PQ.Ok
    requires a.jobType != b.jobType || a.idempotencyKey != b.idempotencyKey
    ensures rB.Accepted? && g.IsJobFor(rB.job, b, idB)
  {
    ClientKeysDecide(g, a, b);
  }

  // ---------------------------------------------------------------- calls as runs of the protocol

  /** t is a protocol state after s, with the same calls in progress, the given cache contents and new pushes. */
  ghost predicate Extends(c: Idem.Config, s: Idem.State, t: Idem.State, w: World, pushes: seq<Idem.Push>) {
    && Idem.Reachable(c, t) && t.now == w.now && t.claims == w.entries
    && t.calls == s.calls && t.pushes == s.pushes + pushes
  }

  /** An Enqueue call with a fresh id, played in the idempotency protocol beside any calls in progress there: it leads
      from a reachable state to a reachable state, and its push is recorded exactly when the job was accepted. So what
      IdempotentIff says of the protocol holds of every history of such calls. */
  lemma EnqueueIsRun(g: GatewayService, req: Request, key: string, jobID: Id, io: Replies, r: EnqueueResult, w: World,
                     w': World, c: Idem.Config, s: Idem.State, cid: nat)
    returns (t: Idem.State)
    requires g.Settles(req, key, jobID, io, r, w, w') && c.ttl == g.ttl
    requires Idem.Reachable(c, s) && s.now == w.now && s.claims == w.entries && cid !in s.calls && jobID !in s.used
    ensures Extends(c, s, t, w', if r.Accepted? then [Idem.Push(key, jobID, w.now)] else [])
  {
    t := s;
    if io.setNX == Done && !s.Live(key) {
      EntriesAfterClaim(g, req, key, jobID, io, r, w, w');
      t := Idem.WholeCall(c, s, cid, key, jobID, !r.PersistFailed?, r.Accepted?, io.del);
    } else {
      EntriesWithoutClaim(g, req, key, jobID, io, r, w, w');
      if io.setNX == Unheard && !s.Live(key) {
        t := Idem.UnheardClaim(c, s, key, jobID);
      }
    }
  }

  lemma EntriesAfterClaim(g: GatewayService, req: Request, key: string, jobID: Id, io: Replies, r: EnqueueResult,
                          w: World, w': World)
    requires g.Settles(req, key, jobID, io, r, w, w') && io.setNX == Done
    requires !(key in w.entries && w.now < w.entries[key].expires)
    ensures r.Accepted? || r.PersistFailed? || r.QueueFailed?
    ensures w'.entries == if !r.Accepted? && io.del then w.entries - {key}
                          else w.entries[key := Entry(jobID, w.now + g.ttl)]
  {}

  lemma EntriesWithoutClaim(g: GatewayService, req: Request, key: string, jobID: Id, io: Replies, r: EnqueueResult,
                            w: World, w': World)
    requires g.Settles(req, key, jobID, io, r, w, w')
    requires io.setNX != Done || (key in w.entries && w.now < w.entries[key].expires)
    ensures !r.Accepted?
    ensures var live := key in w.entries && w.now < w.entries[key].expires;
            w'.entries == if io.setNX == Unheard && !live then w.entries[key := Entry(jobID, w.now + g.ttl)]
                          else w.entries
  {}

  datatype RetryResult = Requeued(job: Job) | RetryNotFound | LookupFailed | WrongState | UpdateFailed | RequeueFailed

  /** A retry that gets past its update resets the row, keeping everything else of the job, and one that gets past its
      push puts that job at the head of its list; nothing else changes. */
  predicate Retried(id: Id, r: RetryResult, rows: map<Id, Job>, rows': map<Id, Job>, lists: PQ.Lists<Job>,
                    lists': PQ.Lists<Job>)
  {
    if r.Requeued? || r.RequeueFailed? then
      && id in rows && rows[id].status in {FAILED, DEAD_LETTER}
      && var job := rows[id].(status := QUEUED, retryCount := 0);
      && rows' == rows[id := job]
      && (r.Requeued? ==> r.job == job)
      && lists' == if r.Requeued? then lists.LPush(PQ.KeyForPriority(job.priority), job) else lists
    else
      rows' == rows && lists' == lists
  }

  class AdminService {
    const queue: PQ.RedisQueue
    const jobs: JobStore

    constructor (queue: PQ.RedisQueue, jobs: JobStore)
      ensures this.queue == queue && this.jobs == jobs
    {
      this.queue, this.jobs := queue, jobs;
    }

    /** The only way back from a terminal state. A failed push leaves a QUEUED row that no list holds. */
    method RetryJob(id: Id, lookup: bool, save: bool, push: PQ.RedisReply) returns (r: RetryResult)
      requires jobs.Keyed()
      modifies queue`lists, jobs`rows
      ensures jobs.Keyed()
      ensures r.LookupFailed? <==> !lookup
      ensures r.RetryNotFound? <==> lookup && id !in old(jobs.rows)
      ensures r.WrongState? <==> lookup && id in old(jobs.rows) && old(jobs.rows)[id].status !in {FAILED, DEAD_LETTER}
      ensures r.UpdateFailed? <==> lookup && id in old(jobs.rows) && !r.WrongState? && !save
      ensures r.RequeueFailed? <==> lookup && id in old(jobs.rows) && !r.WrongState? && save && push != PQ.Ok
      ensures r.Requeued? <==> lookup && id in old(jobs.rows) && !r.WrongState? && save && push == PQ.Ok
      ensures Retried(id, r, old(jobs.rows), jobs.rows, old(queue.lists), queue.lists)
    {
      var got := jobs.GetByID(id, lookup);
      if got.LookupError? { return LookupFailed; }
      if got.NotFound? { return RetryNotFound; }
      var job := got.job;
      if job.status != FAILED && job.status != DEAD_LETTER {
        return WrongState;
      }
      job := job.(status := QUEUED, retryCount := 0);
      var saved := jobs.Update(job, save);
      if saved != Saved {
        return UpdateFailed;
      }
      var pushed := queue.Push(job, push);
      if !pushed {
        return RequeueFailed;
      }
      return Requeued(job);
    }
  }
}
