/**
 The circuit breaker as a field-mutating object whose whole state is read off the history of what
 was recorded on it.
 */
module CircuitBreakers {
  import opened Maybe

  /** A check is one evaluation of is_open; the success record reads no clock. */
  datatype Event = Success | Failure(at: int) | Check(at: int)

  const DEFAULT_THRESHOLD: nat := 5
  const DEFAULT_RESET: nat := 60

  /** Failures recorded since the last success. */
  function Failures(history: seq<Event>): nat {
    if history == [] then 0
    else
      var before := history[..|history| - 1];
      match history[|history| - 1]
      case Success => 0
      case Failure(_) => Failures(before) + 1
      case Check(_) => Failures(before)
  }

  function LastFailure(history: seq<Event>): (at: Option<int>)
    ensures at.Some? <==> Failures(history) > 0
  {
    if history == [] then None
    else
      var before := history[..|history| - 1];
      match history[|history| - 1]
      case Success => None
      case Failure(at) => Some(at)
      case Check(_) => LastFailure(before)
  }

  /**
   What the breaker promises its callers: it refuses while enough failures have followed the last
   success and the last of them is recent.
   */
  predicate OpenAt(history: seq<Event>, threshold: nat, reset: int, now: int)
    requires threshold >= 1
  {
    Failures(history) >= threshold && now - LastFailure(history).value < reset
  }

  /** A check has let a caller through since the last failure of a tripped breaker. */
  predicate Probing(history: seq<Event>, threshold: nat, reset: int)
    requires threshold >= 1
  {
    history != [] &&
    var before := history[..|history| - 1];
    match history[|history| - 1]
    case Success => false
    case Failure(_) => false
    case Check(at) =>
      Probing(before, threshold, reset)
      || (Failures(before) >= threshold && !OpenAt(before, threshold, reset, at))
  }

  /**
   Only a breaker with at least `threshold` failures is ever half-open, so that the half-open
   disjunct of record_failure never decides anything.
   */
  lemma {:induction false} ProbingNeedsTrip(history: seq<Event>, threshold: nat, reset: int)
    requires threshold >= 1
    ensures Probing(history, threshold, reset) ==> Failures(history) >= threshold
  {
    if history != [] {
      ProbingNeedsTrip(history[..|history| - 1], threshold, reset);
    }
  }

  class CircuitBreaker {
    const threshold: nat
    const reset: int
    var failureCount: nat
    var openedAt: Option<int>
    var halfOpen: bool
    var gauge: real
    ghost var history: seq<Event>

    ghost predicate Valid()
      reads this
    {
      && threshold >= 1
      && failureCount == Failures(history)
      && openedAt == (if Failures(history) >= threshold then LastFailure(history) else None)
      && halfOpen == Probing(history, threshold, reset)
      && gauge == (if openedAt.None? then 0.0 else if halfOpen then 0.5 else 1.0)
    }

    constructor (threshold: Option<nat>, reset: Option<int>)
      ensures Valid() && history == []
      ensures this.threshold == if threshold.Some? && threshold.value != 0 then threshold.value else 5
      ensures this.reset == if reset.Some? && reset.value != 0 then reset.value else 60
    {
      this.threshold := if threshold.Some? && threshold.value != 0 then threshold.value else DEFAULT_THRESHOLD;
      this.reset := if reset.Some? && reset.value != 0 then reset.value else DEFAULT_RESET;
      failureCount := 0;
      openedAt := None;
      halfOpen := false;
      gauge := 0.0;
      history := [];
    }

    /** Reading is_open may move the breaker to half-open. */
    method IsOpen(now: int) returns (open: bool)
      requires Valid()
      modifies this
      ensures Valid() && history == old(history) + [Check(now)]
      ensures open <==> Failures(old(history)) >= threshold && now < LastFailure(old(history)).value + reset
      ensures open == OpenAt(old(history), threshold, reset, now)
      ensures halfOpen <==> old(halfOpen) || (Failures(old(history)) >= threshold && !open)
      ensures gauge == if Failures(old(history)) < threshold then 0.0 else if halfOpen then 0.5 else 1.0
    {
      ghost var before := history;
      history := history + [Check(now)];
      assert history[..|history| - 1] == before;
      ProbingNeedsTrip(before, threshold, reset);
      if openedAt.None? {
        return false;
      }
      if now - openedAt.value >= reset {
        EnterHalfOpen();
        return false;
      }
      return true;
    }

    method EnterHalfOpen()
      modifies `halfOpen, `gauge
      ensures halfOpen && gauge == 0.5
    {
      halfOpen := true;
      gauge := 0.5;
    }

    method RecordSuccess()
      requires Valid()
      modifies this
      ensures Valid() && history == old(history) + [Success]
      ensures failureCount == 0 && openedAt == None && !halfOpen && gauge == 0.0
    {
      failureCount := 0;
      openedAt := None;
      halfOpen := false;
      gauge := 0.0;
      history := history + [Success];
    }

    method RecordFailure(now: int)
      requires Valid()
      modifies this
      ensures Valid() && history == old(history) + [Failure(now)]
      ensures failureCount == old(failureCount) + 1 && !halfOpen
      ensures openedAt == (if old(failureCount) + 1 >= threshold then Some(now) else None)
      ensures gauge == if old(failureCount) + 1 >= threshold then 1.0 else 0.0
    {
      ghost var before := history;
      history := history + [Failure(now)];
      assert history[..|history| - 1] == before;
      ProbingNeedsTrip(before, threshold, reset);
      failureCount := failureCount + 1;
      if failureCount >= threshold || halfOpen {
        openedAt := Some(now);
        halfOpen := false;
        gauge := 1.0;
      }
    }
  }

  predicate OnlyChecks(events: seq<Event>) {
    forall e :: e in events ==> e.Check?
  }

  lemma {:induction false} ChecksChangeNothing(history: seq<Event>, checks: seq<Event>)
    requires OnlyChecks(checks)
    ensures Failures(history + checks) == Failures(history)
    ensures LastFailure(history + checks) == LastFailure(history)
  {
    if checks == [] {
      assert history + checks == history;
    } else {
      var all, fewer := history + checks, checks[..|checks| - 1];
      assert all[..|all| - 1] == history + fewer;
      assert all[|all| - 1] == checks[|checks| - 1];
      assert checks[|checks| - 1] in checks;
      ChecksChangeNothing(history, fewer);
    }
  }

  /**
   The class comment allows one probe. The code does not hold to that: once one caller is let
   through, so is every later one until an outcome is recorded.
   */
  lemma ProbesAreUnlimited(history: seq<Event>, checks: seq<Event>, threshold: nat, reset: int, now: int, later: int)
    requires threshold >= 1 && OnlyChecks(checks) && now <= later
    requires !OpenAt(history, threshold, reset, now)
    ensures !OpenAt(history + checks, threshold, reset, later)
  {
    ChecksChangeNothing(history, checks);
  }

  /** An invocation that was let through and failed. */
  datatype Try = Try(checkedAt: int, failedAt: int)

  function AfterTries(history: seq<Event>, tries: seq<Try>): seq<Event> {
    if tries == [] then history
    else
      var last := tries[|tries| - 1];
      AfterTries(history, tries[..|tries| - 1]) + [Check(last.checkedAt)] + [Failure(last.failedAt)]
  }

  /** One failing invocation after the other, each let through by the breaker as the ones before left it. */
  predicate Admitted(history: seq<Event>, tries: seq<Try>, threshold: nat, reset: int)
    requires threshold >= 1
  {
    tries == [] ||
    (var last, before := tries[|tries| - 1], tries[..|tries| - 1];
     && Admitted(history, before, threshold, reset)
     && !OpenAt(AfterTries(history, before), threshold, reset, last.checkedAt)
     && last.checkedAt <= last.failedAt)
  }

  lemma {:induction false} TriesCount(history: seq<Event>, tries: seq<Try>)
    ensures Failures(AfterTries(history, tries)) == Failures(history) + |tries|
    ensures tries != [] ==> LastFailure(AfterTries(history, tries)) == Some(tries[|tries| - 1].failedAt)
  {
    if tries != [] {
      var last, before := tries[|tries| - 1], AfterTries(history, tries[..|tries| - 1]);
      TriesCount(history, tries[..|tries| - 1]);
      var checked := before + [Check(last.checkedAt)];
      assert checked[..|checked| - 1] == before;
      assert (checked + [Failure(last.failedAt)])[..|checked|] == checked;
    }
  }

  /** The moment of the last failure before invocation i, if there was one. */
  function FailedBefore(history: seq<Event>, tries: seq<Try>, i: nat): Option<int>
    requires i <= |tries|
  {
    if i > 0 then Some(tries[i - 1].failedAt) else LastFailure(history)
  }

  /** Once enough failures have come together, each invocation is a reset interval or more after the last failure. */
  predicate Spaced(history: seq<Event>, tries: seq<Try>, threshold: nat, reset: int)
    requires threshold >= 1
  {
    forall i :: 0 <= i < |tries| ==>
      && tries[i].checkedAt <= tries[i].failedAt
      && (Failures(history) + i >= threshold && FailedBefore(history, tries, i).Some? ==>
           tries[i].checkedAt >= FailedBefore(history, tries, i).value + reset)
  }

  /** Exactly which failing invocations, one after the other, the breaker lets through. */
  lemma {:induction false} AdmittedExactly(history: seq<Event>, tries: seq<Try>, threshold: nat, reset: int)
    requires threshold >= 1
    ensures Admitted(history, tries, threshold, reset) <==> Spaced(history, tries, threshold, reset)
  {
    if tries != [] {
      var last, before := tries[|tries| - 1], tries[..|tries| - 1];
      AdmittedExactly(history, before, threshold, reset);
      TriesCount(history, before);
      forall i | 0 <= i < |before| ensures before[i] == tries[i] && FailedBefore(history, before, i) == FailedBefore(history, tries, i) {
      }
      assert FailedBefore(history, tries, |before|) == LastFailure(AfterTries(history, before));
      hide Failures, LastFailure, AfterTries;
    }
  }

  /**
   While the upstream stays down, one caller at a time gets through freely only until the breaker
   trips; from then on there is at most one invocation per reset interval.
   */
  lemma {:induction false} OutageTraffic(history: seq<Event>, tries: seq<Try>, threshold: nat, reset: nat, free: nat)
    requires threshold >= 1 && Admitted(history, tries, threshold, reset)
    requires free >= 1 && Failures(history) + free >= threshold
    ensures |tries| > free ==>
              tries[|tries| - 1].failedAt - tries[free - 1].failedAt >= (|tries| - free) * reset
  {
    if |tries| > free {
      var before := tries[..|tries| - 1];
      OutageTraffic(history, before, threshold, reset, free);
      TriesCount(history, before);
      assert (|tries| - free) * reset == (|before| - free) * reset + reset;
    }
  }

  /** Failing invocations that come at once until the breaker trips, and then one reset interval apart. */
  function Probes(n: nat, threshold: nat, reset: nat, at: int): seq<Try> {
    seq(n, i requires i >= 0 => Try(ProbeTime(i, threshold, reset, at), ProbeTime(i, threshold, reset, at)))
  }

  function ProbeTime(i: nat, threshold: nat, reset: nat, at: int): int {
    if i < threshold || i == 0 then at else ProbeTime(i - 1, threshold, reset, at) + reset
  }

  lemma {:induction false} ProbeTimes(i: nat, threshold: nat, reset: nat, at: int)
    requires 1 <= threshold <= i
    ensures ProbeTime(i, threshold, reset, at) == at + (i - threshold + 1) * reset
  {
    if i > threshold {
      ProbeTimes(i - 1, threshold, reset, at);
      assert (i - threshold + 1) * reset == (i - threshold) * reset + reset;
    }
  }

  /** That rate is reached: so many invocations are let through, the last exactly so many intervals on. */
  lemma {:induction false} OutageTrafficIsReached(n: nat, threshold: nat, reset: nat, at: int)
    requires threshold >= 1
    ensures Admitted([], Probes(n, threshold, reset, at), threshold, reset)
    ensures n > threshold ==>
      Probes(n, threshold, reset, at)[n - 1].failedAt - Probes(n, threshold, reset, at)[threshold - 1].failedAt
        == (n - threshold) * reset
  {
    AdmittedExactly([], Probes(n, threshold, reset, at), threshold, reset);
    if n > threshold { ProbeTimes(n - 1, threshold, reset, at); }
  }
}
