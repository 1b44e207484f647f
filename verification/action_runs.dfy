/** What the counters bound, over every run of rate checks and recorded actions. */
module ActionRuns {
  import opened ActionLimits

  /**
   One call: `now` is the caller's clock when it forms the keys, `at` the moment Redis executes the
   pipeline. `checking` tells check_rate_limit from record_action.
   */
  datatype Call = Call(checking: bool, agent: string, now: nat, at: nat, delivery: Delivery)

  function After(calls: seq<Call>): Counters {
    if calls == [] then map[]
    else
      var last, before := calls[|calls| - 1], After(calls[..|calls| - 1]);
      if last.delivery.Lost? then before else BumpAll(before, last.agent, last.now, last.at)
  }

  /** The last call of the run was a check, and it allowed the action. */
  predicate Allowed(limits: Limits, calls: seq<Call>)
    requires calls != []
  {
    var last := calls[|calls| - 1];
    && last.checking
    && last.delivery.Answered?
    && WithinLimits(After(calls), limits, last.agent, last.now, last.at)
  }

  /** Redis executes one pipeline after the other, each within a minute of the caller's reading the clock. */
  predicate WellTimed(calls: seq<Call>) {
    && (forall i :: 0 <= i < |calls| ==> calls[i].now <= calls[i].at < calls[i].now + 60)
    && (forall i, j :: 0 <= i < j < |calls| ==> calls[i].at <= calls[j].at)
  }

  predicate Touches(call: Call, key: Key) {
    call.agent == key.agent && call.now / Size(key.window) == key.bucket
  }

  /** Calls that incremented this counter: checks, allowed or not, and recorded actions. */
  function Increments(calls: seq<Call>, key: Key): nat {
    if calls == [] then 0
    else
      var last := calls[|calls| - 1];
      Increments(calls[..|calls| - 1], key) + (if Touches(last, key) && !last.delivery.Lost? then 1 else 0)
  }

  /** Actions allowed in this bucket. */
  function AllowedIn(limits: Limits, calls: seq<Call>, key: Key): nat {
    if calls == [] then 0
    else
      AllowedIn(limits, calls[..|calls| - 1], key)
        + (if Touches(calls[|calls| - 1], key) && Allowed(limits, calls) then 1 else 0)
  }

  /**
   What a counter holds: all increments of its bucket, and a deadline beyond any moment at which the
   bucket can still be incremented.
   */
  predicate Faithful(counters: Counters, calls: seq<Call>, key: Key) {
    && (key in counters <==> Increments(calls, key) > 0)
    && (key in counters ==> counters[key].count == Increments(calls, key))
    && (key in counters ==> counters[key].deadline >= (key.bucket + 2) * Size(key.window))
  }

  lemma BucketBounds(now: nat, size: nat)
    requires size > 0
    ensures now / size * size <= now < (now / size + 1) * size
  {
  }

  /** Bumping the three keys of a call is, for each key, one bump or none. */
  lemma BumpAllPointwise(counters: Counters, call: Call, key: Key)
    ensures var after := BumpAll(counters, call.agent, call.now, call.at);
      && (Touches(call, key) ==> key in after && after[key] == Counter(CountAt(counters, key, call.at) + 1, call.at + Ttl(key.window)))
      && (!Touches(call, key) ==> (key in after <==> key in counters) && (key in counters ==> after[key] == counters[key]))
  {
    assert Touches(call, key) <==> key == KeyAt(call.agent, key.window, call.now);
  }

  lemma NotExpired(call: Call, key: Key)
    requires Touches(call, key) && call.now <= call.at < call.now + 60
    ensures call.at < (key.bucket + 2) * Size(key.window) <= call.at + Ttl(key.window)
  {
    var size := Size(key.window);
    BucketBounds(call.now, size);
    assert (key.bucket + 2) * size == (key.bucket + 1) * size + size == key.bucket * size + 2 * size;
  }

  /** Every counter is exact in every run: no bucket loses its counter while it can still be used. */
  lemma {:induction false} CountersAreExact(calls: seq<Call>, key: Key)
    requires WellTimed(calls)
    ensures Faithful(After(calls), calls, key)
  {
    if calls != [] {
      var last, before := calls[|calls| - 1], calls[..|calls| - 1];
      CountersAreExact(before, key);
      if !last.delivery.Lost? {
        BumpAllPointwise(After(before), last, key);
        if Touches(last, key) {
          NotExpired(last, key);
        }
      }
    }
  }

  /** The count that a check reads back is the number of increments of its bucket so far. */
  lemma CountRead(calls: seq<Call>, key: Key)
    requires WellTimed(calls) && calls != []
    requires Touches(calls[|calls| - 1], key)
    ensures CountAt(After(calls), key, calls[|calls| - 1].at) == Increments(calls, key)
  {
    CountersAreExact(calls, key);
    NotExpired(calls[|calls| - 1], key);
  }

  /**
   No bucket ever sees more allowed actions than its limit, whatever is denied, lost or recorded
   beside them.
   */
  lemma {:induction false} BucketBound(limits: Limits, calls: seq<Call>, key: Key)
    requires WellTimed(calls)
    ensures AllowedIn(limits, calls, key) <= Increments(calls, key)
    ensures AllowedIn(limits, calls, key) > 0 ==> AllowedIn(limits, calls, key) <= Limit(limits, key.window)
  {
    if calls != [] {
      var last := calls[|calls| - 1];
      BucketBound(limits, calls[..|calls| - 1], key);
      if Touches(last, key) && Allowed(limits, calls) {
        CountRead(calls, key);
        assert key == KeyAt(last.agent, key.window, last.now);
      }
    }
  }

  /** A check is decided by the calls made in its buckets, itself and the denied ones included. */
  lemma DecisionIsExact(limits: Limits, calls: seq<Call>)
    requires WellTimed(calls) && calls != []
    ensures var last := calls[|calls| - 1];
      Allowed(limits, calls) <==>
        (&& last.checking
         && last.delivery.Answered?
         && forall w: Window :: Increments(calls, KeyAt(last.agent, w, last.now)) <= Limit(limits, w))
  {
    var last := calls[|calls| - 1];
    forall w: Window
      ensures CountAt(After(calls), KeyAt(last.agent, w, last.now), last.at) == Increments(calls, KeyAt(last.agent, w, last.now))
    {
      CountRead(calls, KeyAt(last.agent, w, last.now));
    }
  }
}
