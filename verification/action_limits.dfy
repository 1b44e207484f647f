/** Rate limiting with expiring counters, one for each agent, window size and fixed bucket of time. */
module ActionLimits {

  datatype Window = Minute | Hour | Day

  function Size(w: Window): nat {
    match w
    case Minute => 60
    case Hour => 3600
    case Day => 86400
  }

  function Ttl(w: Window): nat {
    match w
    case Minute => 120
    case Hour => 7200
    case Day => 172800
  }

  datatype Key = Key(agent: string, window: Window, bucket: nat)

  datatype Counter = Counter(count: nat, deadline: nat)

  type Counters = map<Key, Counter>

  datatype Limits = Limits(perMinute: int, perHour: int, perDay: int)

  function Limit(limits: Limits, w: Window): int {
    match w
    case Minute => limits.perMinute
    case Hour => limits.perHour
    case Day => limits.perDay
  }

  function KeyAt(agent: string, w: Window, now: nat): Key {
    Key(agent, w, now / Size(w))
  }

  /** A key past its deadline reads as absent. */
  function CountAt(counters: Counters, key: Key, at: nat): nat {
    if key in counters && at < counters[key].deadline then counters[key].count else 0
  }

  /** INCR, then EXPIRE. */
  function Bump(counters: Counters, key: Key, at: nat): Counters {
    counters[key := Counter(CountAt(counters, key, at) + 1, at + Ttl(key.window))]
  }

  function BumpAll(counters: Counters, agent: string, now: nat, at: nat): Counters {
    var c1 := Bump(counters, KeyAt(agent, Minute, now), at);
    var c2 := Bump(c1, KeyAt(agent, Hour, now), at);
    Bump(c2, KeyAt(agent, Day, now), at)
  }

  predicate WithinLimits(counters: Counters, limits: Limits, agent: string, now: nat, at: nat) {
    forall w: Window :: CountAt(counters, KeyAt(agent, w, now), at) <= Limit(limits, w)
  }

  /**
   What becomes of a pipeline sent to Redis: it may not take effect, take effect with its reply lost,
   or succeed. A lost reply and a refusal both raise.
   */
  datatype Delivery = Lost | Unanswered | Answered

  class Redis {
    var counters: Counters

    /** The pipeline of INCR and EXPIRE for the three buckets, with the three counts it replies. */
    method Pipeline(agent: string, now: nat, at: nat, delivery: Delivery)
      returns (ok: bool, minuteCount: nat, hourCount: nat, dayCount: nat)
      modifies this
      ensures ok <==> delivery.Answered?
      ensures counters == if delivery.Lost? then old(counters) else BumpAll(old(counters), agent, now, at)
      ensures ok ==> minuteCount == CountAt(counters, KeyAt(agent, Minute, now), at)
      ensures ok ==> hourCount == CountAt(counters, KeyAt(agent, Hour, now), at)
      ensures ok ==> dayCount == CountAt(counters, KeyAt(agent, Day, now), at)
    {
      ok, minuteCount, hourCount, dayCount := delivery.Answered?, 0, 0, 0;
      if delivery.Lost? {
        return;
      }
      minuteCount := Incr(KeyAt(agent, Minute, now), at);
      hourCount := Incr(KeyAt(agent, Hour, now), at);
      dayCount := Incr(KeyAt(agent, Day, now), at);
    }

    method Incr(key: Key, at: nat) returns (count: nat)
      modifies this
      ensures counters == Bump(old(counters), key, at)
      ensures count == CountAt(counters, key, at)
    {
      counters := Bump(counters, key, at);
      count := counters[key].count;
    }
  }

  class ActionLimiter {
    const limits: Limits
    const redis: Redis

    constructor (limits: Limits, redis: Redis)
      ensures this.limits == limits && this.redis == redis
    {
      this.limits := limits;
      this.redis := redis;
    }

    method CheckRateLimit(agent: string, now: nat, at: nat, delivery: Delivery) returns (allowed: bool)
      modifies redis
      ensures redis.counters == if delivery.Lost? then old(redis.counters) else BumpAll(old(redis.counters), agent, now, at)
      ensures allowed <==> delivery.Answered? && WithinLimits(redis.counters, limits, agent, now, at)
    {
      var ok, minuteCount, hourCount, dayCount := redis.Pipeline(agent, now, at, delivery);
      if !ok {
        return false;
      }
      if minuteCount > limits.perMinute {
        assert CountAt(redis.counters, KeyAt(agent, Minute, now), at) > Limit(limits, Minute);
        return false;
      }
      if hourCount > limits.perHour {
        assert CountAt(redis.counters, KeyAt(agent, Hour, now), at) > Limit(limits, Hour);
        return false;
      }
      if dayCount > limits.perDay {
        assert CountAt(redis.counters, KeyAt(agent, Day, now), at) > Limit(limits, Day);
        return false;
      }
      return true;
    }

    method RecordAction(agent: string, now: nat, at: nat, delivery: Delivery)
      modifies redis
      ensures redis.counters == if delivery.Lost? then old(redis.counters) else BumpAll(old(redis.counters), agent, now, at)
    {
      var _, _, _, _ := redis.Pipeline(agent, now, at, delivery);
    }
  }
}
