/** The rate limiter as the requests share it: the Redis buckets, the fail-open switch,
    what each request in progress remembers of its own reservation and, as a ghost,
    everything asked of the limiter so far. */
module Limiter {
  import opened Wrappers
  import opened TokenBuckets
  import opened TickingBuckets
  import opened Settlement

  class RateLimiter {
    const redis: RedisBuckets
    const failOpen: bool
    var reservations: seq<Option<Reservation>>
    ghost const caps: Capacities
    ghost const start: System
    ghost var history: seq<Event>

    ghost predicate Valid()
      reads this, redis
    {
      && WellFormed(caps, start) && ValidRun(caps, failOpen, start, history)
      && var sys := Run(caps, failOpen, start, history); sys.store == redis.store && sys.open == reservations
    }

    // Where the history has led.
    ghost function Sys(): System
      requires Valid()
      reads this, redis
    {
      Run(caps, failOpen, start, history)
    }

    constructor (redis: RedisBuckets, failOpen: bool, ghost caps: Capacities, ghost clock: real)
      requires (forall id :: caps(id) > 0.0) && Stamped(redis.store, clock)
      ensures Valid() && this.redis == redis && this.failOpen == failOpen && this.caps == caps
      ensures history == [] && start == System(redis.store, clock, [])
    {
      this.redis, this.failOpen, this.caps, reservations := redis, failOpen, caps, [];
      start, history := System(redis.store, clock, []), [];
    }

    /** A request asks; an unreachable Redis admits it when failing open and is an
        error otherwise. */
    method Reserve(s: Scopes, cost: real, now: real, redisUp: bool) returns (d: Option<Decision>)
      requires Valid() && Agrees(caps, s) && Sys().clock <= now
      modifies this`history, this`reservations, redis
      ensures Valid() && history == old(history) + [Arrive(s, cost, now, redisUp)]
      ensures Sys() == Step(failOpen, old(Sys()), Arrive(s, cost, now, redisUp))
      ensures d.None? <==> !redisUp && !failOpen
      ensures redisUp ==> d.Some? && Decides(Balances(old(redis.store), s, now), s, cost, d.value)
      ensures (d.Some? && d.value.allowed) <==> Admitted(failOpen, old(redis.store), s, cost, now, redisUp)
    {
      RunGrows(caps, failOpen, start, history, Arrive(s, cost, now, redisUp));
      history := history + [Arrive(s, cost, now, redisUp)];
      if redisUp {
        var decision := redis.Reserve(s, cost, now);
        d := Some(decision);
      } else {
        d := if failOpen then Some(Decision(true, 0, None, 0)) else None;
      }
      reservations := reservations + [if d.Some? && d.value.allowed then Some(Reservation(s, cost)) else None];
    }

    /** An admitted request reconciles what it reserved with what it used. */
    method Adjust(request: nat, delta: real, now: real, redisUp: bool)
      requires Valid() && request < |reservations| && reservations[request].Some? && Sys().clock <= now
      modifies this`history, this`reservations, redis
      ensures
        var e := Settle(request, old(reservations[request].value.cost) - delta, now, redisUp);
        Valid() && history == old(history) + [e] && Sys() == Step(failOpen, old(Sys()), e)
    {
      var r := reservations[request].value;
      ghost var e := Settle(request, r.cost - delta, now, redisUp);
      RunGrows(caps, failOpen, start, history, e);
      Positive(request);
      history := history + [e];
      if redisUp {
        redis.Adjust(r.s, delta, now);
      }
      reservations := reservations[request := None];
    }

    lemma Positive(request: nat)
      requires Valid() && request < |reservations| && reservations[request].Some?
      ensures Agrees(caps, reservations[request].value.s)
    {
      RunKeepsWellFormed(caps, failOpen, start, history);
    }

    /** What other requests do meanwhile. */
    method Interleave(es: seq<Event>)
      requires Valid() && ValidRun(caps, failOpen, Sys(), es)
      modifies this`history, this`reservations, redis
      ensures Valid() && history == old(history) + es && Sys() == Run(caps, failOpen, old(Sys()), es)
      decreases |es|
    {
      if es != [] {
        Perform(es[0]);
        Interleave(es[1..]);
      }
    }

    method Perform(e: Event)
      requires Valid() && Enabled(caps, Sys(), e)
      modifies this`history, this`reservations, redis
      ensures Valid() && history == old(history) + [e] && Sys() == Step(failOpen, old(Sys()), e)
    {
      match e
      case Arrive(s, cost, now, redisUp) => var _ := Reserve(s, cost, now, redisUp);
      case Settle(request, actual, now, redisUp) =>
        Adjust(request, reservations[request].value.cost - actual, now, redisUp);
    }

    /** So at any time, for every bucket, the usage settled so far plus what is still
        reserved is within the bound. */
    lemma Bounded(b: BucketId)
      requires Valid()
      ensures
        var t := RunTally(caps, failOpen, start, history, b);
        t.settled + Outstanding(reservations, b) - Outstanding(start.open, b)
        <= caps(b) + Earned(caps(b), Sys().clock - start.clock) + t.overrun + t.unmetered
    {
      UsageBound(caps, failOpen, start, history, b);
    }
  }
}
