/** Which requests can still be completed or failed, whatever happened before. */
module ConsumerSettles {
  import opened ConsumerProtocol
  import opened ConsumerSafety
  import opened RequestConsumer

  /** Some further run brings the request to an end. */
  ghost predicate CanSettle(c: Config, s: State, id: Id) {
    exists steps :: Feasible(c, s, steps) && Terminal(StatusOf(Run(c, s, steps), id))
  }

  lemma HasSettled(c: Config, s: State, id: Id)
    requires Terminal(StatusOf(s, id))
    ensures CanSettle(c, s, id)
  {
    assert Feasible(c, s, []) && Run(c, s, []) == s;
  }

  lemma SettlesAfter(c: Config, s: State, steps: seq<Step>, id: Id)
    requires Feasible(c, s, steps) && CanSettle(c, Run(c, s, steps), id)
    ensures CanSettle(c, s, id)
  {
    hide Enabled, Next, StatusOf;
    var rest :| Feasible(c, Run(c, s, steps), rest) && Terminal(StatusOf(Run(c, Run(c, s, steps), rest), id));
    RunAppend(c, s, steps, rest);
  }

  lemma SettlesAfterStep(c: Config, s: State, step: Step, id: Id)
    requires Enabled(c, s, step) && CanSettle(c, Next(c, s, step), id)
    ensures CanSettle(c, s, id)
  {
    hide Enabled, Next, CanSettle;
    assert Feasible(c, s, [step]) && Run(c, s, [step]) == Next(c, s, step);
    SettlesAfter(c, s, [step], id);
  }

  /** The call that is working on the request can finish. */
  lemma BusySettles(c: Config, s: State, id: Id)
    requires Busy(s.place, id)
    ensures CanSettle(c, s, id)
    decreases s.place.Attempting?, s.place.Exhausted?
  {
    hide CanSettle;
    match s.place
    case Attempting(_, _, _) =>
      BusySettles(c, Next(c, s, Succeed), id);
      SettlesAfterStep(c, s, Succeed, id);
    case Completing(_, _, _) =>
      HasSettled(c, Next(c, s, SaveCompleted), id);
      SettlesAfterStep(c, s, SaveCompleted, id);
    case Exhausted(_, _) =>
      BusySettles(c, Next(c, s, PublishDlq), id);
      SettlesAfterStep(c, s, PublishDlq, id);
    case Failing(_, _) =>
      HasSettled(c, Next(c, s, SaveFailed), id);
      SettlesAfterStep(c, s, SaveFailed, id);
  }

  function AllSucceed(n: nat): (outcomes: seq<Attempt>)
    ensures |outcomes| == n && (n > 0 ==> FirstSuccess(outcomes) == 0)
  {
    seq(n, i => Succeeds)
  }

  /** Consuming one message without a crash: its request completes if it was fresh, and no other changes. */
  lemma Consumed(c: Config, s: State) returns (s': State)
    requires s.place == Fetching(s.committed) && s.committed < |s.log|
    ensures s'.place == Fetching(s'.committed) && s'.committed == s.committed + 1 && s'.log == s.log
    ensures s'.store == Handled(s.store, s.log[s.committed], AllSucceed(c.maxRetries + 1))
    ensures forall id :: CanSettle(c, s', id) ==> CanSettle(c, s, id)
  {
    var outcomes := AllSucceed(c.maxRetries + 1);
    CrashFreeHandling(c, s, outcomes);
    var s1 := Run(c, s, HandleSteps(s, outcomes));
    s' := Next(c, s1, Commit);
    hide CanSettle, HandleSteps, Handled;
    forall id | CanSettle(c, s', id) ensures CanSettle(c, s, id) {
      SettlesAfterStep(c, s1, Commit, id);
      SettlesAfter(c, s, HandleSteps(s, outcomes), id);
    }
  }

  /** A waiting consumer works through its log; once the request is produced again, it takes that up as well. */
  lemma {:induction false} WaitingSettles(c: Config, s: State, id: Id)
    requires s.place == Fetching(s.committed) && s.committed <= |s.log| && StatusOf(s, id) != Processing
    ensures CanSettle(c, s, id)
    decreases |s.log| - s.committed
  {
    hide CanSettle;
    if Terminal(StatusOf(s, id)) {
      HasSettled(c, s, id);
    } else if s.committed < |s.log| {
      var s' := Consumed(c, s);
      WaitingSettles(c, s', id);
    } else {
      var s1 := Next(c, s, Produce(Request(id)));
      var s' := Consumed(c, s1);
      HasSettled(c, s', id);
      SettlesAfterStep(c, s, Produce(Request(id)), id);
    }
  }

  /**
   Exactly when a request can still reach completed or failed, in any state: unless it is in processing and
   nobody is working on it. A crash that leaves it so is the one thing that is never made good.
   */
  lemma SettlesExactly(c: Config, s: State, id: Id)
    requires Inv(c, s)
    ensures CanSettle(c, s, id) <==> !(StatusOf(s, id) == Processing && !Busy(s.place, id))
  {
    hide CanSettle;
    if StatusOf(s, id) == Processing && !Busy(s.place, id) {
      NeverSettles(c, s, id);
    } else if Busy(s.place, id) {
      BusySettles(c, s, id);
    } else {
      var s1 := Next(c, s, Crash);
      var s2 := Next(c, s1, Restart);
      WaitingSettles(c, s2, id);
      SettlesAfterStep(c, s1, Restart, id);
      SettlesAfterStep(c, s, Crash, id);
    }
  }

  lemma NeverSettles(c: Config, s: State, id: Id)
    requires Inv(c, s) && StatusOf(s, id) == Processing && !Busy(s.place, id)
    ensures !CanSettle(c, s, id)
  {
    hide Inv;
    forall steps | Feasible(c, s, steps) ensures !Terminal(StatusOf(Run(c, s, steps), id)) {
      CutIsForever(c, s, steps, id);
    }
  }
}
