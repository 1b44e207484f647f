/** One message through `_handle` without a crash: the retry loop, its backoff, and the dead-letter queue. */
module RequestConsumer {
  import opened ConsumerProtocol
  import opened ConsumerSafety

  /** How one attempt ends: the agent raises, or the agent succeeds and the store write raises, or both succeed. */
  datatype Attempt = AgentRaises | SaveRaises | Succeeds

  function FirstSuccess(outcomes: seq<Attempt>): (n: nat)
    ensures n <= |outcomes|
    ensures n < |outcomes| ==> outcomes[n] == Succeeds
    ensures forall i :: 0 <= i < n ==> outcomes[i] != Succeeds
  {
    if outcomes == [] || outcomes[0] == Succeeds then 0 else 1 + FirstSuccess(outcomes[1..])
  }

  function Pow2(n: nat): (p: nat)
    ensures p >= 1
  {
    if n == 0 then 1 else 2 * Pow2(n - 1)
  }

  /** The two laws that make it the power of two. */
  lemma {:induction false} PowersMultiply(m: nat, n: nat)
    ensures Pow2(1) == 2 && Pow2(m + n) == Pow2(m) * Pow2(n)
  {
    if m > 0 { PowersMultiply(m - 1, n); }
  }

  /** The idempotency check lets a message through. */
  predicate Fresh(store: map<Id, Status>, message: Message) {
    message.Request? && (message.id !in store || store[message.id] in {Absent, Queued})
  }

  function Handled(store: map<Id, Status>, message: Message, outcomes: seq<Attempt>): map<Id, Status> {
    if !Fresh(store, message) then store
    else store[message.id := if FirstSuccess(outcomes) < |outcomes| then Completed else Failed]
  }

  class RequestConsumer {
    const maxRetries: nat
    const backoff: nat
    var store: map<Id, Status>
    var attempts: nat
    var slept: nat
    var dlqAttempts: nat
    var dlqMessages: nat

    constructor (maxRetries: nat, backoff: nat, store: map<Id, Status>)
      ensures this.maxRetries == maxRetries && this.backoff == backoff && this.store == store
      ensures attempts == slept == dlqAttempts == dlqMessages == 0
    {
      this.maxRetries, this.backoff, this.store := maxRetries, backoff, store;
      attempts, slept, dlqAttempts, dlqMessages := 0, 0, 0, 0;
    }

    /**
     `outcomes[i]` is what attempt i would do. A fresh request ends completed at its first success, or failed
     after `maxRetries + 1` attempts and exactly one try to publish to the dead-letter topic; between
     attempts the consumer sleeps 1, 2, 4, ... times the base, so (2^n - 1) times the base after n failures.
     */
    method Handle(message: Message, outcomes: seq<Attempt>, dlqAccepts: bool)
      requires |outcomes| == maxRetries + 1
      modifies this
      ensures store == Handled(old(store), message, outcomes)
      ensures !Fresh(old(store), message) ==>
                attempts == old(attempts) && slept == old(slept) && dlqAttempts == old(dlqAttempts)
                && dlqMessages == old(dlqMessages)
      ensures Fresh(old(store), message) ==>
                var n := FirstSuccess(outcomes);
                && attempts == old(attempts) + (if n <= maxRetries then n + 1 else maxRetries + 1)
                && slept == old(slept) + (Pow2(if n <= maxRetries then n else maxRetries) - 1) * backoff
                && dlqAttempts == old(dlqAttempts) + (if n <= maxRetries then 0 else 1)
                && dlqMessages == old(dlqMessages) + (if n > maxRetries && dlqAccepts then 1 else 0)
    {
      if !message.Request? { return; }
      var id := message.id;
      if id in store && store[id] != Queued && store[id] != Absent { return; }
      store := store[id := Processing];
      var attempt := 0;
      FirstFrom(outcomes, 0);
      while attempt <= maxRetries
        invariant 0 <= attempt <= maxRetries + 1
        invariant FirstSuccess(outcomes) >= attempt
        invariant store == old(store)[id := Processing]
        invariant attempts == old(attempts) + attempt
        invariant slept == old(slept) + (Pow2(if attempt <= maxRetries then attempt else maxRetries) - 1) * backoff
        invariant dlqAttempts == old(dlqAttempts) && dlqMessages == old(dlqMessages)
      {
        attempts := attempts + 1;
        FirstFrom(outcomes, attempt);
        if outcomes[attempt] == Succeeds {
          store := store[id := Completed];
          return;
        }
        if attempt < maxRetries {
          Doubles(attempt, backoff);
          slept := slept + Pow2(attempt) * backoff;
        }
        attempt := attempt + 1;
      }
      dlqAttempts := dlqAttempts + 1;
      if dlqAccepts { dlqMessages := dlqMessages + 1; }
      store := store[id := Failed];
    }
  }

  /** If the first success is not before `k`, it is at `k` exactly if attempt `k` succeeds. */
  lemma FirstFrom(outcomes: seq<Attempt>, k: nat)
    requires k < |outcomes| && FirstSuccess(outcomes) >= k
    ensures outcomes[k] == Succeeds ==> FirstSuccess(outcomes) == k
    ensures outcomes[k] != Succeeds ==> FirstSuccess(outcomes) >= k + 1
  {
  }

  lemma Doubles(n: nat, base: nat)
    ensures (Pow2(n) - 1) * base + Pow2(n) * base == (Pow2(n + 1) - 1) * base
  {
    assert Pow2(n + 1) == 2 * Pow2(n);
  }

  // ----- the same handling as a run of the protocol -----

  function AttemptSteps(outcomes: seq<Attempt>): seq<Step> {
    if outcomes == [] then [PublishDlq, SaveFailed]
    else match outcomes[0]
         case Succeeds => [Succeed, SaveCompleted]
         case AgentRaises => [Fail] + AttemptSteps(outcomes[1..])
         case SaveRaises => [Succeed, SaveCompletedRaises(false)] + AttemptSteps(outcomes[1..])
  }

  lemma {:induction false} RunAppend(c: Config, s: State, a: seq<Step>, b: seq<Step>)
    requires Feasible(c, s, a) && Feasible(c, Run(c, s, a), b)
    ensures Feasible(c, s, a + b) && Run(c, s, a + b) == Run(c, Run(c, s, a), b)
    decreases |a|
  {
    if a == [] {
      assert a + b == b;
    } else {
      RunAppend(c, Next(c, s, a[0]), a[1..], b);
      assert (a + b)[1..] == a[1..] + b;
    }
  }

  lemma {:induction false} AttemptsRun(c: Config, s: State, outcomes: seq<Attempt>)
    requires outcomes != [] ==> s.place.Attempting? && |outcomes| == c.maxRetries + 1 - s.place.attempt
    requires outcomes == [] ==> s.place.Exhausted?
    ensures Feasible(c, s, AttemptSteps(outcomes))
    ensures var s' := Run(c, s, AttemptSteps(outcomes));
            && s'.place == Returned(s.place.at) && s'.log == s.log && s'.committed == s.committed
            && s'.store == s.store[s.place.id := if FirstSuccess(outcomes) < |outcomes| then Completed else Failed]
    decreases |outcomes|
  {
    if outcomes == [] {
      assert Run(c, Next(c, s, PublishDlq), [SaveFailed]) == Next(c, Next(c, s, PublishDlq), SaveFailed);
    } else {
      match outcomes[0]
      case Succeeds =>
        assert Run(c, Next(c, s, Succeed), [SaveCompleted]) == Next(c, Next(c, s, Succeed), SaveCompleted);
      case AgentRaises =>
        var s1 := Next(c, s, Fail);
        AttemptsRun(c, s1, outcomes[1..]);
        assert Run(c, s, [Fail]) == s1;
        RunAppend(c, s, [Fail], AttemptSteps(outcomes[1..]));
      case SaveRaises =>
        var s1 := Next(c, Next(c, s, Succeed), SaveCompletedRaises(false));
        AttemptsRun(c, s1, outcomes[1..]);
        assert Run(c, Next(c, s, Succeed), [SaveCompletedRaises(false)]) == s1;
        RunAppend(c, s, [Succeed, SaveCompletedRaises(false)], AttemptSteps(outcomes[1..]));
    }
  }

  /** The steps of `_handle` on the next message, when nothing crashes. */
  function HandleSteps(s: State, outcomes: seq<Attempt>): seq<Step>
    requires s.place.Fetching? && s.place.at < |s.log|
  {
    var message := s.log[s.place.at];
    if !message.Request? then [Fetch]
    else if !Fresh(s.store, message) then [Fetch, Check]
    else [Fetch, Check, Begin] + AttemptSteps(outcomes)
  }

  lemma FreshBegins(c: Config, s: State)
    requires s.place.Fetching? && s.place.at < |s.log| && Fresh(s.store, s.log[s.place.at])
    ensures var s1 := Next(c, s, Fetch);
      && Enabled(c, s1, Check)
      && var s2 := Next(c, s1, Check);
         && Enabled(c, s2, Begin) && Feasible(c, s, [Fetch, Check, Begin])
         && Run(c, s, [Fetch, Check, Begin]) == Next(c, s2, Begin)
  {
    var s1 := Next(c, s, Fetch);
    var s2 := Next(c, s1, Check);
    var s3 := Next(c, s2, Begin);
    assert Run(c, s2, [Begin]) == s3;
    assert Run(c, s1, [Check, Begin]) == s3 by { assert [Check, Begin][1..] == [Begin]; }
    assert Run(c, s, [Fetch, Check, Begin]) == s3 by { assert [Fetch, Check, Begin][1..] == [Check, Begin]; }
  }

  /** Left alone, the protocol does to the store what `Handle` does, and is ready to commit. */
  lemma CrashFreeHandling(c: Config, s: State, outcomes: seq<Attempt>)
    requires s.place.Fetching? && s.place.at < |s.log| && |outcomes| == c.maxRetries + 1
    ensures Feasible(c, s, HandleSteps(s, outcomes))
    ensures var s' := Run(c, s, HandleSteps(s, outcomes));
            && s'.place == Returned(s.place.at) && s'.store == Handled(s.store, s.log[s.place.at], outcomes)
            && s'.log == s.log && s'.committed == s.committed
  {
    var message := s.log[s.place.at];
    var s1 := Next(c, s, Fetch);
    if message.Request? {
      var s2 := Next(c, s1, Check);
      assert Run(c, s1, [Check]) == s2;
      if Fresh(s.store, message) {
        FreshBegins(c, s);
        AttemptsRun(c, Next(c, s2, Begin), outcomes);
        RunAppend(c, s, [Fetch, Check, Begin], AttemptSteps(outcomes));
      }
    }
  }

  // ----- two runs worth knowing -----

  const R := Id("r")

  /**
   A crash between the idempotency check and the `processing` mark lets the same request through the check
   again, so it is starting, not passing the check, that happens at most once.
   */
  lemma CheckCanPassTwice(c: Config) returns (steps: seq<Step>)
    ensures Feasible(c, Start, steps) && Run(c, Start, steps).past.checks == [R, R]
    ensures Run(c, Start, steps).past.starts == []
  {
    steps := [Produce(Request(R)), Restart, Fetch, Check, Crash, Restart, Fetch, Check];
    var s1 := Next(c, Start, Produce(Request(R)));
    var s2 := Next(c, s1, Restart);
    var s3 := Next(c, s2, Fetch);
    var s4 := Next(c, s3, Check);
    var s5 := Next(c, s4, Crash);
    var s6 := Next(c, s5, Restart);
    var s7 := Next(c, s6, Fetch);
    var s8 := Next(c, s7, Check);
    assert s8.past.checks == [R, R];
    assert Feasible(c, s7, [Check]) && Run(c, s7, [Check]) == s8;
    Prepend(c, s6, Fetch, [Check]);
    Prepend(c, s5, Restart, [Fetch, Check]);
    Prepend(c, s4, Crash, [Restart, Fetch, Check]);
    Prepend(c, s3, Check, [Crash, Restart, Fetch, Check]);
    Prepend(c, s2, Fetch, [Check, Crash, Restart, Fetch, Check]);
    Prepend(c, s1, Restart, [Fetch, Check, Crash, Restart, Fetch, Check]);
    Prepend(c, Start, Produce(Request(R)), [Restart, Fetch, Check, Crash, Restart, Fetch, Check]);
  }

  lemma Prepend(c: Config, s: State, step: Step, rest: seq<Step>)
    requires Enabled(c, s, step) && Feasible(c, Next(c, s, step), rest)
    ensures Feasible(c, s, [step] + rest) && Run(c, s, [step] + rest) == Run(c, Next(c, s, step), rest)
  {
    assert ([step] + rest)[1..] == rest;
  }

  /** Every attempt from here on raises. */
  function AllRaise(n: nat): (outcomes: seq<Attempt>)
    ensures |outcomes| == n && FirstSuccess(outcomes) == n
  {
    if n == 0 then [] else [AgentRaises] + AllRaise(n - 1)
  }

  /** A fresh request is taken up, its first attempt succeeds, and the write of `completed` takes effect and raises. */
  function WrittenSteps(): seq<Step> {
    [Produce(Request(R)), Restart, Fetch, Check, Begin, Succeed, SaveCompletedRaises(true)]
  }

  lemma Taken(c: Config) returns (s: State)
    ensures Feasible(c, Start, [Produce(Request(R)), Restart, Fetch, Check])
    ensures s == Run(c, Start, [Produce(Request(R)), Restart, Fetch, Check])
    ensures s.place == Starting(0, R) && s.store == map[]
  {
    var s1 := Next(c, Start, Produce(Request(R)));
    var s2 := Next(c, s1, Restart);
    var s3 := Next(c, s2, Fetch);
    s := Next(c, s3, Check);
    Prepend(c, s3, Check, []);
    Prepend(c, s2, Fetch, [Check]);
    Prepend(c, s1, Restart, [Fetch, Check]);
    Prepend(c, Start, Produce(Request(R)), [Restart, Fetch, Check]);
    assert [Produce(Request(R))] + [Restart, Fetch, Check] == [Produce(Request(R)), Restart, Fetch, Check];
  }

  lemma WrittenFrom(c: Config, s: State) returns (s': State)
    requires c.ambiguous && s.place == Starting(0, R) && s.store == map[]
    ensures Feasible(c, s, [Begin, Succeed, SaveCompletedRaises(true)])
    ensures s' == Run(c, s, [Begin, Succeed, SaveCompletedRaises(true)])
    ensures s'.place == AfterFailure(c, 0, R, 0) && s'.store == map[R := Completed]
  {
    var s1 := Next(c, s, Begin);
    var s2 := Next(c, s1, Succeed);
    s' := Next(c, s2, SaveCompletedRaises(true));
    Prepend(c, s2, SaveCompletedRaises(true), []);
    Prepend(c, s1, Succeed, [SaveCompletedRaises(true)]);
    Prepend(c, s, Begin, [Succeed, SaveCompletedRaises(true)]);
    assert [Begin] + [Succeed, SaveCompletedRaises(true)] == [Begin, Succeed, SaveCompletedRaises(true)];
  }

  lemma Written(c: Config) returns (s: State)
    requires c.ambiguous
    ensures Feasible(c, Start, WrittenSteps()) && s == Run(c, Start, WrittenSteps())
    ensures s.place == AfterFailure(c, 0, R, 0) && s.store == map[R := Completed]
  {
    hide Next, Enabled, Run, Feasible;
    var taken := Taken(c);
    s := WrittenFrom(c, taken);
    RunAppend(c, Start, [Produce(Request(R)), Restart, Fetch, Check], [Begin, Succeed, SaveCompletedRaises(true)]);
    assert [Produce(Request(R)), Restart, Fetch, Check] + [Begin, Succeed, SaveCompletedRaises(true)] == WrittenSteps();
  }

  /**
   If a store write can take effect and still raise, then however many retries there are, a run from the
   start shows a request completed and later failed: the write of `completed` sits inside the retried block.
   */
  lemma AmbiguousWriteCanUndo(c: Config) returns (first: seq<Step>, rest: seq<Step>)
    requires c.ambiguous
    ensures Feasible(c, Start, first) && StatusOf(Run(c, Start, first), R) == Completed
    ensures Feasible(c, Start, first + rest) && StatusOf(Run(c, Start, first + rest), R) == Failed
  {
    var s := Written(c);
    first, rest := WrittenSteps(), AttemptSteps(AllRaise(c.maxRetries));
    AttemptsRun(c, s, AllRaise(c.maxRetries));
    RunAppend(c, Start, first, rest);
  }
}
