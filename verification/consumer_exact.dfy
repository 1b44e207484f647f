/** Exactly when a request passes the idempotency check again, and when a completed request becomes failed. */
module ConsumerExact {
  import opened ConsumerProtocol
  import opened ConsumerSafety

  // ----- passing the idempotency check -----

  function Passes(s: State, id: Id): nat {
    multiset(s.past.checks)[id]
  }

  function Starts(s: State, id: Id): nat {
    multiset(s.past.starts)[id]
  }

  /** The request has passed the check and is not yet marked as processing. */
  predicate OnTheWay(s: State, id: Id) {
    s.place.Starting? && s.place.id == id
  }

  function AsCount(b: bool): nat {
    if b then 1 else 0
  }

  /** Crashes of the run that hit the request between the check and the mark. */
  function LostStarts(c: Config, s: State, steps: seq<Step>, id: Id): nat
    requires Feasible(c, s, steps)
    decreases |steps|
  {
    if steps == [] then 0
    else AsCount(steps[0].Crash? && OnTheWay(s, id)) + LostStarts(c, Next(c, s, steps[0]), steps[1..], id)
  }

  lemma AppendCount(s: seq<Id>, x: Id, id: Id)
    ensures multiset(s + [x])[id] == multiset(s)[id] + AsCount(x == id)
  {
  }

  lemma StepPasses(c: Config, s: State, step: Step, id: Id)
    requires Enabled(c, s, step)
    ensures var s' := Next(c, s, step);
      Passes(s', id) + Starts(s, id) + AsCount(OnTheWay(s, id))
        == Passes(s, id) + Starts(s', id) + AsCount(OnTheWay(s', id)) + AsCount(step.Crash? && OnTheWay(s, id))
  {
    if step.Check? { AppendCount(s.past.checks, s.place.id, id); }
    if step.Begin? { AppendCount(s.past.starts, s.place.id, id); }
  }

  /** Every pass of the check ends in a start or in a crash before it, or the start is still to come. */
  lemma {:induction false} PassesAddUp(c: Config, s: State, steps: seq<Step>, id: Id)
    requires Feasible(c, s, steps)
    ensures var s' := Run(c, s, steps);
      Passes(s', id) + Starts(s, id) + AsCount(OnTheWay(s, id))
        == Passes(s, id) + Starts(s', id) + AsCount(OnTheWay(s', id)) + LostStarts(c, s, steps, id)
    decreases |steps|
  {
    hide Enabled, Next, Passes, Starts, OnTheWay;
    if steps != [] {
      StepPasses(c, s, steps[0], id);
      PassesAddUp(c, Next(c, s, steps[0]), steps[1..], id);
    }
  }

  lemma {:induction false} CountInDistinct(s: seq<Id>, id: Id)
    requires forall i, j :: 0 <= i < j < |s| ==> s[i] != s[j]
    ensures multiset(s)[id] == AsCount(id in s)
  {
    if s != [] {
      var init, last := s[..|s| - 1], s[|s| - 1];
      assert s == init + [last];
      CountInDistinct(init, id);
      AppendCount(init, last, id);
    }
  }

  lemma NotTwiceUnderWay(c: Config, s: State, id: Id)
    requires Inv(c, s)
    ensures OnTheWay(s, id) ==> id !in s.past.starts
  {
  }

  /**
   How often a request has passed the idempotency check: once for its one start, if it was started, once
   for every crash between the check and the mark, and once more if it is between the two right now. So it
   passed at most once if and only if these come to at most one.
   */
  lemma PassesExactly(c: Config, steps: seq<Step>, id: Id)
    requires Feasible(c, Start, steps)
    ensures var s, lost := Run(c, Start, steps), LostStarts(c, Start, steps, id);
      && Passes(s, id) == AsCount(id in s.past.starts) + lost + AsCount(OnTheWay(s, id))
      && (Passes(s, id) <= 1 <==> lost == 0 || (lost == 1 && id !in s.past.starts && !OnTheWay(s, id)))
  {
    var s := Run(c, Start, steps);
    PassesAddUp(c, Start, steps, id);
    ReachableInv(c, steps);
    CountInDistinct(s.past.starts, id);
    NotTwiceUnderWay(c, s, id);
  }

  // ----- finality -----

  /** No step ever changes a failed request, ambiguous writes or not. */
  lemma FailedStep(c: Config, s: State, step: Step, id: Id)
    requires Inv(c, s) && Enabled(c, s, step) && StatusOf(s, id) == Failed
    ensures StatusOf(Next(c, s, step), id) == Failed
  {
    hide OffsetsOk;
  }

  // ----- runs, position by position -----

  lemma {:induction false} PrefixFeasible(c: Config, s: State, steps: seq<Step>, k: nat)
    requires k <= |steps| && Feasible(c, s, steps)
    ensures Feasible(c, s, steps[..k])
    ensures Feasible(c, Run(c, s, steps[..k]), steps[k..])
    ensures Run(c, Run(c, s, steps[..k]), steps[k..]) == Run(c, s, steps)
    decreases k
  {
    hide Enabled, Next;
    if k == 0 {
      assert steps[0..] == steps;
    } else {
      PrefixFeasible(c, Next(c, s, steps[0]), steps[1..], k - 1);
      assert steps[..k][1..] == steps[1..][..k - 1] && steps[1..][k - 1..] == steps[k..];
    }
  }

  /** The state before step `k` of a run from the start. */
  function At(c: Config, steps: seq<Step>, k: nat): State
    requires k <= |steps| && Feasible(c, Start, steps)
  {
    PrefixFeasible(c, Start, steps, k);
    Run(c, Start, steps[..k])
  }

  lemma AtNext(c: Config, steps: seq<Step>, k: nat)
    requires k < |steps| && Feasible(c, Start, steps)
    ensures Enabled(c, At(c, steps, k), steps[k]) && At(c, steps, k + 1) == Next(c, At(c, steps, k), steps[k])
  {
    hide Enabled, Next;
    PrefixFeasible(c, Start, steps, k);
    PrefixFeasible(c, Start, steps, k + 1);
    PrefixFeasible(c, Start, steps[..k + 1], k);
    assert steps[..k + 1][..k] == steps[..k] && steps[..k + 1][k..] == [steps[k]];
    assert [steps[k]][1..] == [];
  }

  lemma AtEnds(c: Config, steps: seq<Step>)
    requires Feasible(c, Start, steps)
    ensures At(c, steps, 0) == Start && At(c, steps, |steps|) == Run(c, Start, steps)
  {
    assert steps[..|steps|] == steps;
  }

  lemma AtInv(c: Config, steps: seq<Step>, k: nat)
    requires Feasible(c, Start, steps) && k <= |steps|
    ensures Inv(c, At(c, steps, k))
  {
    PrefixFeasible(c, Start, steps, k);
    ReachableInv(c, steps[..k]);
  }

  // ----- when completed becomes failed -----

  /** Steps with which a handling goes on without succeeding, and steps of others. */
  predicate GoesOn(step: Step) {
    step.Fail? || step.Succeed? || step.SaveCompletedRaises? || step.PublishDlq? || step.ApiSave? || step.Produce?
  }

  /** At position `i` the write of `completed` for this request took effect and raised. */
  predicate WroteAndRaised(c: Config, steps: seq<Step>, i: nat, id: Id)
    requires i < |steps| && Feasible(c, Start, steps)
  {
    steps[i] == SaveCompletedRaises(true) && At(c, steps, i).place.Completing? && At(c, steps, i).place.id == id
  }

  predicate AllGoOn(steps: seq<Step>, i: nat, k: nat)
    requires k <= |steps|
  {
    forall j :: i < j < k ==> GoesOn(steps[j])
  }

  /** From such a write on, every attempt of the same handling failed, through to the write of `failed`. */
  ghost predicate Undone(c: Config, steps: seq<Step>, id: Id)
    requires Feasible(c, Start, steps)
  {
    exists i, k :: 0 <= i < k < |steps| && WroteAndRaised(c, steps, i, id) && AllGoOn(steps, i, k) && steps[k] == SaveFailed
  }

  lemma GoingOnIsBusy(c: Config, s: State, step: Step, id: Id)
    requires Enabled(c, s, step) && Busy(s.place, id) && GoesOn(step)
    ensures Busy(Next(c, s, step).place, id)
  {
  }

  /** The only ways to be busy with a request that shows as completed. */
  lemma BusyAndCompleted(c: Config, s: State, step: Step, id: Id)
    requires Enabled(c, s, step)
    requires Busy(Next(c, s, step).place, id) && StatusOf(Next(c, s, step), id) == Completed
    ensures (Busy(s.place, id) && StatusOf(s, id) == Completed && GoesOn(step))
         || (step == SaveCompletedRaises(true) && s.place.Completing? && s.place.id == id)
  {
  }

  lemma {:induction false} WhereItCameFrom(c: Config, steps: seq<Step>, k: nat, id: Id) returns (i: nat)
    requires Feasible(c, Start, steps) && k <= |steps|
    requires Busy(At(c, steps, k).place, id) && StatusOf(At(c, steps, k), id) == Completed
    ensures i < k && WroteAndRaised(c, steps, i, id) && AllGoOn(steps, i, k)
  {
    hide Enabled, Next;
    if k == 0 {
      AtEnds(c, steps);
    } else {
      AtNext(c, steps, k - 1);
      BusyAndCompleted(c, At(c, steps, k - 1), steps[k - 1], id);
      if WroteAndRaised(c, steps, k - 1, id) {
        i := k - 1;
      } else {
        i := WhereItCameFrom(c, steps, k - 1, id);
      }
    }
  }

  lemma CompletedStep(c: Config, s: State, step: Step, id: Id)
    requires Inv(c, s) && Enabled(c, s, step) && StatusOf(s, id) == Completed
    ensures StatusOf(Next(c, s, step), id) == Completed
         || (StatusOf(Next(c, s, step), id) == Failed && step == SaveFailed && Busy(s.place, id))
  {
    hide OffsetsOk;
  }

  lemma {:induction false} WhenItFailed(c: Config, steps: seq<Step>, m: nat, n: nat, id: Id) returns (k: nat)
    requires Feasible(c, Start, steps) && m <= n <= |steps|
    requires StatusOf(At(c, steps, m), id) == Completed && StatusOf(At(c, steps, n), id) == Failed
    ensures k < n && steps[k] == SaveFailed && Busy(At(c, steps, k).place, id) && StatusOf(At(c, steps, k), id) == Completed
  {
    hide Inv, Enabled, Next, StatusOf;
    if m < n {
      AtNext(c, steps, n - 1);
      AtInv(c, steps, n - 1);
      var s := At(c, steps, n - 1);
      StatusBetween(c, steps, m, n - 1, id);
      if StatusOf(s, id) == Failed {
        k := WhenItFailed(c, steps, m, n - 1, id);
      } else {
        CompletedStep(c, s, steps[n - 1], id);
        k := n - 1;
      }
    }
  }

  /** Once completed, a request shows completed or failed. */
  lemma {:induction false} StatusBetween(c: Config, steps: seq<Step>, m: nat, n: nat, id: Id)
    requires Feasible(c, Start, steps) && m <= n <= |steps| && StatusOf(At(c, steps, m), id) == Completed
    ensures StatusOf(At(c, steps, n), id) in {Completed, Failed}
  {
    hide Inv, Enabled, Next, StatusOf;
    if m < n {
      StatusBetween(c, steps, m, n - 1, id);
      AtNext(c, steps, n - 1);
      AtInv(c, steps, n - 1);
      if StatusOf(At(c, steps, n - 1), id) == Failed {
        FailedStep(c, At(c, steps, n - 1), steps[n - 1], id);
      } else {
        CompletedStep(c, At(c, steps, n - 1), steps[n - 1], id);
      }
    }
  }

  lemma {:induction false} BusyThrough(c: Config, steps: seq<Step>, i: nat, k: nat, id: Id)
    requires Feasible(c, Start, steps) && i < k <= |steps| && WroteAndRaised(c, steps, i, id) && AllGoOn(steps, i, k)
    ensures Busy(At(c, steps, k).place, id)
  {
    AtNext(c, steps, k - 1);
    hide Enabled, Next;
    if k > i + 1 {
      BusyThrough(c, steps, i, k - 1, id);
      assert GoesOn(steps[k - 1]);
      GoingOnIsBusy(c, At(c, steps, k - 1), steps[k - 1], id);
    } else {
      RaisedIsBusy(c, At(c, steps, i), id);
    }
  }

  lemma RaisedIsBusy(c: Config, s: State, id: Id)
    requires Enabled(c, s, SaveCompletedRaises(true)) && s.place.id == id
    ensures Busy(Next(c, s, SaveCompletedRaises(true)).place, id)
    ensures StatusOf(Next(c, s, SaveCompletedRaises(true)), id) == Completed
  {
  }

  lemma FailingFails(c: Config, s: State, id: Id)
    requires Enabled(c, s, SaveFailed) && Busy(s.place, id)
    ensures StatusOf(Next(c, s, SaveFailed), id) == Failed
  {
  }

  lemma {:induction false} FailedSince(c: Config, steps: seq<Step>, k: nat, n: nat, id: Id)
    requires Feasible(c, Start, steps) && k <= n <= |steps| && StatusOf(At(c, steps, k), id) == Failed
    ensures StatusOf(At(c, steps, n), id) == Failed
  {
    hide Inv, Enabled, Next, StatusOf;
    if k < n {
      FailedSince(c, steps, k, n - 1, id);
      AtNext(c, steps, n - 1);
      AtInv(c, steps, n - 1);
      FailedStep(c, At(c, steps, n - 1), steps[n - 1], id);
    }
  }

  /**
   Exactly when a completed request ends up failed: the write of `completed` took effect and raised, and
   every later attempt of that same handling failed, through to the write of `failed`.
   */
  lemma CompletedFailsExactly(c: Config, steps: seq<Step>, id: Id)
    requires Feasible(c, Start, steps)
    ensures Undone(c, steps, id)
       <==> && StatusOf(Run(c, Start, steps), id) == Failed
            && exists m :: 0 <= m <= |steps| && StatusOf(At(c, steps, m), id) == Completed
  {
    hide Enabled, Next, StatusOf, WroteAndRaised, AllGoOn;
    AtEnds(c, steps);
    if Undone(c, steps, id) {
      var i, k :| 0 <= i < k < |steps| && WroteAndRaised(c, steps, i, id) && AllGoOn(steps, i, k) && steps[k] == SaveFailed;
      BusyThrough(c, steps, i, k, id);
      AtNext(c, steps, k);
      FailingFails(c, At(c, steps, k), id);
      FailedSince(c, steps, k + 1, |steps|, id);
      WrittenIsCompleted(c, steps, i, id);
    }
    if StatusOf(Run(c, Start, steps), id) == Failed && exists m :: 0 <= m <= |steps| && StatusOf(At(c, steps, m), id) == Completed {
      var m :| 0 <= m <= |steps| && StatusOf(At(c, steps, m), id) == Completed;
      var k := WhenItFailed(c, steps, m, |steps|, id);
      var i := WhereItCameFrom(c, steps, k, id);
    }
  }

  lemma WrittenIsCompleted(c: Config, steps: seq<Step>, i: nat, id: Id)
    requires Feasible(c, Start, steps) && i < |steps| && WroteAndRaised(c, steps, i, id)
    ensures StatusOf(At(c, steps, i + 1), id) == Completed
  {
    AtNext(c, steps, i);
    hide Enabled, Next, StatusOf;
    RaisedIsBusy(c, At(c, steps, i), id);
  }
}
