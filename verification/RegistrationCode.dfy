/** RegistrationProcessor.Process and its fan-out (internal/worker/registration_processor.go): store a registration,
    then enqueue a welcome notification whose failure must not fail the registration. */
module RegistrationCode {
  import opened Domain
  import opened Adapters
  import opened Services
  import RedisKeys
  import PQ = PriorityQueue
  import Pool = PoolProtocol

  datatype Payload =
    | Undecodable
    | Decoded(eventID: string, attendeeName: string, email: string, phone: string, ticketType: string)

  datatype Registration = Registration(
    id: Id, jobID: Id, eventID: string, attendeeName: string, email: string, phone: string, ticketType: string)

  class RegistrationProcessor {
    const gateway: GatewayService
    var registrations: seq<Registration>

    constructor (gateway: GatewayService)
      ensures this.gateway == gateway && registrations == []
    {
      this.gateway, this.registrations := gateway, [];
    }

    /** The queue has one more notification than before, at the head of the low list. */
    ghost predicate Notified(noteID: Id, welcome: string, before: PQ.Lists<Job>)
      reads gateway.queue
    {
      gateway.queue.lists == before.(
        low := [Job(noteID, NOTIFICATION, welcome, QUEUED, 0, gateway.maxRetries, LOW)] + before.low)
    }

    /** regID and noteID: fresh ids; create: whether the table accepts the row; welcome: the notification's payload;
        io: how the enqueue path answers. */
    method Process(payload: Payload, jobID: Id, regID: Id, noteID: Id, create: bool, welcome: string, io: Replies)
      returns (outcome: Pool.Outcome)
      modifies this`registrations, gateway.queue`lists, gateway.jobs`rows, gateway.cache`entries
      // the outcome does not depend on the fan-out
      ensures outcome == Pool.NonRetryable <==>
              payload.Undecodable? || payload.eventID == "" || payload.attendeeName == "" || payload.email == ""
      ensures outcome == Pool.Success ==> create
      ensures outcome == Pool.Retryable ==> !create
      // a success stores one registration; no other outcome stores or enqueues anything
      ensures outcome == Pool.Success ==>
        && |registrations| == |old(registrations)| + 1 && old(registrations) <= registrations
        && var reg := registrations[|old(registrations)|];
        && reg.id == regID && reg.jobID == jobID && reg.eventID == payload.eventID && reg.email == payload.email
        && reg.attendeeName == payload.attendeeName && reg.phone == payload.phone
        && reg.ticketType == (if payload.ticketType != "" then payload.ticketType else "GENERAL")
      ensures outcome != Pool.Success ==> registrations == old(registrations) && gateway.Here() == old(gateway.Here())
      // the fan-out is one Enqueue call under the registration's own key: at most one notification, at low priority
      ensures outcome == Pool.Success && welcome != "" ==>
        exists r :: gateway.Settles(Welcome(regID, welcome), gateway.KeyOf(Welcome(regID, welcome)), noteID, io, r,
                                    old(gateway.Here()), gateway.Here())
      ensures gateway.queue.lists == old(gateway.queue.lists) || Notified(noteID, welcome, old(gateway.queue.lists))
      // and exactly one if the calls succeed, the id is new and the key is free
      ensures outcome == Pool.Success && welcome != "" && noteID !in old(gateway.jobs.rows) &&
              io.setNX == Done && io.create && io.push == PQ.Ok &&
              !old(gateway.cache.Live(gateway.KeyOf(Welcome(regID, welcome)))) ==>
                Notified(noteID, welcome, old(gateway.queue.lists))
    {
      if payload.Undecodable? || payload.eventID == "" || payload.attendeeName == "" || payload.email == "" {
        return Pool.NonRetryable;
      }
      if !create {
        return Pool.Retryable;
      }
      var ticket := if payload.ticketType == "" then "GENERAL" else payload.ticketType;
      var reg := Registration(regID, jobID, payload.eventID, payload.attendeeName, payload.email, payload.phone,
                              ticket);
      registrations := registrations + [reg];
      var ignored := gateway.Enqueue(Welcome(regID, welcome), noteID, io);
      return Pool.Success;
    }
  }

  /** Different registrations never share a notification key. */
  lemma WelcomeKeysDiffer(g: GatewayService, r1: Id, r2: Id, p1: string, p2: string)
    ensures g.KeyOf(Welcome(r1, p1)) == g.KeyOf(Welcome(r2, p2)) <==> r1 == r2
  {
    RedisKeys.IdempotencyInjective(NOTIFICATION, "notif:registration:" + r1, NOTIFICATION, "notif:registration:" + r2);
    RedisKeys.SamePrefix("notif:registration:", r1, r2);
  }

  ghost predicate NotificationKey(k: string) {
    exists key :: k == RedisKeys.Render(RedisKeys.Idempotency(NOTIFICATION, key))
  }

  /** A cache whose notification keys all come from other registrations does not hold this registration's key, so its
      welcome is not taken for a duplicate. */
  lemma OthersDoNotBlock(g: GatewayService, regID: Id, welcome: string, entries: map<string, Entry>)
    requires forall k :: k in entries && NotificationKey(k) ==> exists r, p :: r != regID && k == g.KeyOf(Welcome(r, p))
    ensures g.KeyOf(Welcome(regID, welcome)) !in entries
  {
    var mine := g.KeyOf(Welcome(regID, welcome));
    assert mine == RedisKeys.Render(RedisKeys.Idempotency(NOTIFICATION, "notif:registration:" + regID));
    if mine in entries {
      var r, p :| r != regID && mine == g.KeyOf(Welcome(r, p));
      WelcomeKeysDiffer(g, regID, r, welcome, p);
    }
  }

  function Welcome(regID: Id, payload: string): Request {
    Request(NOTIFICATION, payload, true, "notif:registration:" + regID)
  }
}
