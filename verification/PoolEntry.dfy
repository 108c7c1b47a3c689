/** How work enters the pool: Enqueue and RetryJob, as the services perform them, are runs of the pool's protocol. */
module PoolEntry {
  import opened Domain
  import opened PoolProtocol
  import PQ = PriorityQueue
  import S = Services
  import opened PoolLoops

  function Jobs(xs: seq<Copy>): (js: seq<Job>)
    ensures |js| == |xs| && forall i :: 0 <= i < |xs| ==> js[i] == xs[i].job
  {
    seq(|xs|, i requires 0 <= i < |xs| => xs[i].job)
  }

  /** The jobs on the lists, without the attempts behind them. */
  function JobLists(q: PQ.Lists<Copy>): PQ.Lists<Job> {
    PQ.Lists(Jobs(q.high), Jobs(q.medium), Jobs(q.low))
  }

  lemma JobsCons(c: Copy, xs: seq<Copy>)
    ensures Jobs([c] + xs) == [c.job] + Jobs(xs)
  {}

  lemma JobListsPush(q: PQ.Lists<Copy>, l: PQ.Level, c: Copy)
    ensures JobLists(q.LPush(l, c)) == JobLists(q).LPush(l, c.job)
  {
    JobsCons(c, q.At(l));
  }

  ghost predicate Mirrors(s: State, rows: map<Id, Job>, lists: PQ.Lists<Job>) {
    s.sh.rows == rows && JobLists(s.sh.lists) == lists
  }

  /** The pool sees of an Enqueue call its row and its push: an accepted job is accepted by the pool, once. */
  lemma EnqueueEntersPool(cfg: Config, s: State, g: S.GatewayService, req: S.Request, key: string, jobID: Id,
                          io: S.Replies, r: S.EnqueueResult, w: S.World, w': S.World)
    returns (t: State)
    requires g.Settles(req, key, jobID, io, r, w, w') && cfg.maxRetries == g.maxRetries && Mirrors(s, w.rows, w.lists)
    ensures Leads(cfg, s, t) && Mirrors(t, w'.rows, w'.lists)
    ensures t.sh.accepted == if r.Accepted? then s.sh.accepted + [Copy(r.job, [])] else s.sh.accepted
    ensures t == s.(sh := s.sh.(rows := t.sh.rows, lists := t.sh.lists, accepted := t.sh.accepted))
  {
    Stay(cfg, s);
    t := s;
    if r.Accepted? || r.QueueFailed? {
      var job := NewJob(jobID, req.jobType, req.payload, cfg.maxRetries);
      t := Go(cfg, s, t, Create(job));
      var k := |s.pending|;
      assert t.pending == s.pending + [Copy(job, [])];
      assert t.pending[..k] + t.pending[k + 1..] == s.pending;
      t := Go(cfg, s, t, PushNew(k, r.Accepted?));
      JobListsPush(s.sh.lists, PQ.KeyForPriority(job.priority), Copy(job, []));
    }
  }

  /** ... and of a RetryJob call the reset row and the push of a fresh copy, in one step. */
  lemma RetryEntersPool(cfg: Config, s: State, id: Id, r: S.RetryResult, rows: map<Id, Job>, rows': map<Id, Job>,
                        lists: PQ.Lists<Job>, lists': PQ.Lists<Job>)
    returns (t: State)
    requires S.Retried(id, r, rows, rows', lists, lists') && Mirrors(s, rows, lists)
    requires id in rows ==> rows[id].id == id
    ensures Leads(cfg, s, t) && Mirrors(t, rows', lists')
    ensures t.sh.accepted == if r.Requeued? then s.sh.accepted + [Copy(r.job, [])] else s.sh.accepted
    ensures t == s.(sh := s.sh.(rows := t.sh.rows, lists := t.sh.lists, accepted := t.sh.accepted))
  {
    Stay(cfg, s);
    t := s;
    if r.Requeued? || r.RequeueFailed? {
      var c := Requeued(id, s.sh.rows[id]);
      t := Go(cfg, s, t, AdminRetry(id, r.Requeued?));
      assert UpdateRow(rows, c.job) == rows[id := c.job];
      JobListsPush(s.sh.lists, PQ.KeyForPriority(c.job.priority), c);
    }
  }
}
