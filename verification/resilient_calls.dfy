/**
 Calls that retry with a circuit breaker: inside the retry loop for the database, around it for the
 language model. The script of a call says what each attempt would meet and when.
 */
module ResilientCalls {
  import opened CircuitBreakers
  import opened Maybe

  /**
   What an attempt meets: an answer, an error worth retrying (a timeout or a transient one), or any
   other exception.
   */
  datatype Outcome = Answer(text: string) | Transient(error: string) | Permanent(error: string)

  datatype Attempt = Attempt(checkedAt: int, outcome: Outcome, failedAt: int)

  /** How a call ends: with an answer or by raising. */
  datatype Result =
    | Answered(text: string)
    | TransientError(error: string)
    | OtherError(error: string)
    | CircuitBreakerError

  /** How an attempt ends that meets this. */
  function Meets(outcome: Outcome): Result {
    match outcome
    case Answer(text) => Answered(text)
    case Transient(error) => TransientError(error)
    case Permanent(error) => OtherError(error)
  }

  /** Attempts that meet transient errors before one that does not. */
  function TransientRun(script: seq<Attempt>): (n: nat)
    ensures n <= |script|
  {
    if script != [] && script[0].outcome.Transient? then 1 + TransientRun(script[1..]) else 0
  }

  function Min(a: nat, b: nat): nat {
    if a < b then a else b
  }

  /** No pause between attempts lasts as long as the breaker's reset interval. */
  predicate ShortPauses(script: seq<Attempt>, reset: int) {
    forall i :: 0 < i < |script| ==> script[i].checkedAt - script[i - 1].failedAt < reset
  }

  /** How many failures the breaker still allows a caller that arrives at `now`. */
  function Room(history: seq<Event>, threshold: nat, reset: int, now: int): nat
    requires threshold >= 1
  {
    if Failures(history) < threshold then threshold - Failures(history)
    else if now < LastFailure(history).value + reset then 0
    else 1
  }

  /**
   The outcome of a logical call, how often it invoked the pool, and what the breaker has on record
   afterwards.
   */
  datatype Run = Run(result: Result, invoked: nat, history: seq<Event>)

  function Logical(history: seq<Event>, script: seq<Attempt>, threshold: nat, reset: int): Run
    requires threshold >= 1 && script != []
    decreases |script|
  {
    var attempt := script[0];
    var checked := history + [Check(attempt.checkedAt)];
    if OpenAt(history, threshold, reset, attempt.checkedAt) then Run(CircuitBreakerError, 0, checked)
    else
      match attempt.outcome
      case Answer(text) => Run(Answered(text), 1, checked + [Success])
      case Permanent(error) => Run(OtherError(error), 1, checked)
      case Transient(error) =>
        var failed := checked + [Failure(attempt.failedAt)];
        if |script| == 1 then Run(TransientError(error), 1, failed)
        else
          var rest := Logical(failed, script[1..], threshold, reset);
          rest.(invoked := rest.invoked + 1)
  }

  class ResilientDBPool {
    const cb: CircuitBreaker

    constructor (cb: CircuitBreaker)
      ensures this.cb == cb
    {
      this.cb := cb;
    }

    /**
     One logical call, the breaker inside the retry loop. The script has one entry for each attempt
     that the retry policy allows.
     */
    method Call(script: seq<Attempt>) returns (result: Result, invoked: nat)
      requires cb.Valid() && script != []
      modifies cb
      ensures cb.Valid()
      ensures Run(result, invoked, cb.history) == Logical(old(cb.history), script, cb.threshold, cb.reset)
      ensures invoked >= 1 <==> LetsThrough(old(cb.history), cb.threshold, cb.reset, script[0].checkedAt)
    {
      CallsRecover(cb.history, script, cb.threshold, cb.reset);
      invoked := 0;
      assert script[0..] == script;
      while true
        invariant cb.Valid() && invoked < |script|
        invariant var rest := Logical(cb.history, script[invoked..], cb.threshold, cb.reset);
          rest.(invoked := rest.invoked + invoked) == Logical(old(cb.history), script, cb.threshold, cb.reset)
        decreases |script| - invoked
      {
        var attempt := script[invoked];
        assert script[invoked..][0] == attempt && script[invoked..][1..] == script[invoked + 1..];
        var open := cb.IsOpen(attempt.checkedAt);
        if open {
          return CircuitBreakerError, invoked;
        }
        invoked := invoked + 1;
        match attempt.outcome {
          case Answer(text) =>
            cb.RecordSuccess();
            return Answered(text), invoked;
          case Permanent(error) =>
            return OtherError(error), invoked;
          case Transient(error) =>
            cb.RecordFailure(attempt.failedAt);
            if invoked == |script| {
              return TransientError(error), invoked;
            }
        }
      }
    }
  }

  lemma FailuresGrow(history: seq<Event>, at: int, failedAt: int)
    ensures Failures(history + [Check(at)] + [Failure(failedAt)]) == Failures(history) + 1
    ensures LastFailure(history + [Check(at)] + [Failure(failedAt)]) == Some(failedAt)
    ensures Failures(history + [Check(at)]) == Failures(history)
    ensures Failures(history + [Check(at)] + [Success]) == 0
  {
    var checked := history + [Check(at)];
    assert checked[..|history|] == history;
    assert (checked + [Failure(failedAt)])[..|checked|] == checked;
    assert (checked + [Success])[..|checked|] == checked;
  }

  /**
   A lone caller whose pauses are shorter than the reset interval invokes the pool exactly as often
   as the first of three limits allows: the attempts of the retry policy, the first attempt that is
   not a transient error, and the failures the breaker still has room for.
   */
  lemma {:induction false} LoneCallerInvocations(history: seq<Event>, script: seq<Attempt>, threshold: nat, reset: int)
    requires threshold >= 1 && script != [] && ShortPauses(script, reset)
    ensures Logical(history, script, threshold, reset).invoked
         == Min(Min(|script|, TransientRun(script) + 1), Room(history, threshold, reset, script[0].checkedAt))
    decreases |script|
  {
    var attempt := script[0];
    FailuresGrow(history, attempt.checkedAt, attempt.failedAt);
    if !OpenAt(history, threshold, reset, attempt.checkedAt) && attempt.outcome.Transient? && |script| > 1 {
      assert script[1].checkedAt - script[0].failedAt < reset;
      LoneCallerInvocations(history + [Check(attempt.checkedAt)] + [Failure(attempt.failedAt)], script[1..], threshold, reset);
    }
  }

  /** The breaker lets a caller through at this moment. */
  predicate LetsThrough(history: seq<Event>, threshold: nat, reset: int, now: int) {
    Failures(history) < threshold || (LastFailure(history).Some? && now >= LastFailure(history).value + reset)
  }

  /**
   A call reaches the pool exactly if too few failures have come together or the last is a reset interval
   ago; so whoever arrives that late does, and an answer then leaves no failure on the breaker.
   */
  lemma CallsRecover(history: seq<Event>, script: seq<Attempt>, threshold: nat, reset: int)
    requires threshold >= 1 && script != []
    ensures var r := Logical(history, script, threshold, reset);
      && (r.invoked >= 1 <==> LetsThrough(history, threshold, reset, script[0].checkedAt))
      && (r.invoked == 0 ==> r.result == CircuitBreakerError)
      && (LetsThrough(history, threshold, reset, script[0].checkedAt) && script[0].outcome.Answer? ==>
            r.result == Answered(script[0].outcome.text) && r.invoked == 1
            && Failures(r.history) == 0 && LastFailure(r.history) == None)
  {
    var checked := history + [Check(script[0].checkedAt)];
    assert (checked + [Success])[..|checked|] == checked;
  }

  predicate EndsAsMet(r: Run, script: seq<Attempt>) {
    && r.invoked <= Min(|script|, TransientRun(script) + 1)
    && (r.result.CircuitBreakerError? <==> r.invoked <= TransientRun(script) && r.invoked < |script|)
    && (r.result.TransientError? <==> r.invoked == |script| == TransientRun(script))
    && (r.result.CircuitBreakerError? || (r.invoked > 0 && r.result == Meets(script[r.invoked - 1].outcome)))
  }

  /**
   Whatever the pauses, a call ends with the first answer or permanent error it meets, with the last
   transient error once the attempts are used up, or because an open breaker refused the next attempt.
   */
  lemma {:induction false} HowCallsEnd(history: seq<Event>, script: seq<Attempt>, threshold: nat, reset: int)
    requires threshold >= 1 && script != []
    ensures EndsAsMet(Logical(history, script, threshold, reset), script)
    decreases |script|
  {
    var attempt := script[0];
    if !OpenAt(history, threshold, reset, attempt.checkedAt) && attempt.outcome.Transient? && |script| > 1 {
      var failed := history + [Check(attempt.checkedAt)] + [Failure(attempt.failedAt)];
      HowCallsEnd(failed, script[1..], threshold, reset);
      var rest := Logical(failed, script[1..], threshold, reset);
      assert !rest.result.CircuitBreakerError? ==> script[1..][rest.invoked - 1] == script[rest.invoked];
    }
  }

  /**
   What one database call leaves on the breaker: nothing after an answer, otherwise one failure more
   for every transient error met. A permanent error is not counted.
   */
  lemma {:induction false} FailuresAfterCall(history: seq<Event>, script: seq<Attempt>, threshold: nat, reset: int)
    requires threshold >= 1 && script != []
    ensures var r := Logical(history, script, threshold, reset);
      Failures(r.history) == if r.result.Answered? then 0
                             else Failures(history) + r.invoked - (if r.result.OtherError? then 1 else 0)
    decreases |script|
  {
    var attempt := script[0];
    FailuresGrow(history, attempt.checkedAt, attempt.failedAt);
    if !OpenAt(history, threshold, reset, attempt.checkedAt) && attempt.outcome.Transient? && |script| > 1 {
      FailuresAfterCall(history + [Check(attempt.checkedAt)] + [Failure(attempt.failedAt)], script[1..], threshold, reset);
    }
  }

  /** Inner attempts that end in a transient error before one that does not. */
  function TransientErrors(script: seq<Result>): (n: nat)
    ensures n <= |script|
  {
    if script != [] && script[0].TransientError? then 1 + TransientErrors(script[1..]) else 0
  }

  class ResilientLLMClient {
    const cb: CircuitBreaker

    constructor (cb: CircuitBreaker)
      ensures this.cb == cb
    {
      this.cb := cb;
    }

    /**
     The retry loop by itself: it ends with the first attempt that is not a transient error, or with
     the last one allowed.
     */
    method CallWithRetry(script: seq<Result>) returns (result: Result, tried: nat)
      requires script != []
      ensures tried == Min(|script|, TransientErrors(script) + 1)
      ensures result == script[tried - 1]
    {
      tried := 0;
      assert script[0..] == script;
      while true
        invariant tried < |script| && TransientErrors(script) == tried + TransientErrors(script[tried..])
        decreases |script| - tried
      {
        result := script[tried];
        assert script[tried..][0] == result && script[tried..][1..] == script[tried + 1..];
        tried := tried + 1;
        if !result.TransientError? || tried == |script| {
          return;
        }
      }
    }

    /**
     One logical call, the breaker around the retry loop: however many attempts were made, it records
     one outcome, and nothing for a refusal, be it its own or one raised by the client it wraps.
     */
    method Complete(script: seq<Result>, checkedAt: int, failedAt: int) returns (result: Result, tried: nat)
      requires cb.Valid() && script != []
      modifies cb
      ensures cb.Valid()
      ensures !LetsThrough(old(cb.history), cb.threshold, cb.reset, checkedAt) ==> result == CircuitBreakerError && tried == 0
      ensures LetsThrough(old(cb.history), cb.threshold, cb.reset, checkedAt) ==>
                tried == Min(|script|, TransientErrors(script) + 1) && result == script[tried - 1]
      ensures cb.history == old(cb.history) + [Check(checkedAt)] +
                match result {
                  case Answered(_) => [Success]
                  case TransientError(_) => [Failure(failedAt)]
                  case OtherError(_) => [Failure(failedAt)]
                  case CircuitBreakerError => []
                }
    {
      var open := cb.IsOpen(checkedAt);
      if open {
        return CircuitBreakerError, 0;
      }
      result, tried := CallWithRetry(script);
      match result {
        case Answered(_) => cb.RecordSuccess();
        case CircuitBreakerError =>
        case _ => cb.RecordFailure(failedAt);
      }
    }
  }
}
