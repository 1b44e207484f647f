/** What holds of the request consumer under any crashes, restarts, redelivery and duplicate messages. */
module ConsumerSafety {
  import opened ConsumerProtocol

  // ----- the invariant -----

  predicate Terminal(status: Status) {
    status == Completed || status == Failed
  }

  /** What became of a message whose handling returned. */
  predicate Settled(s: State, message: Message) {
    message.Request? ==>
      || Terminal(StatusOf(s, message.id))
      || (StatusOf(s, message.id) == Processing && message.id in s.past.cut)
  }

  predicate AtHead(s: State, at: nat) {
    at == s.committed && at < |s.log|
  }

  /** The request in hand is in processing; after a write of `completed` that took effect and raised, it may
      show as completed while it is tried again. */
  predicate HandlingOk(c: Config, s: State, at: nat, id: Id) {
    && AtHead(s, at) && s.log[at] == Request(id)
    && (StatusOf(s, id) == Processing || (c.ambiguous && StatusOf(s, id) == Completed))
  }

  predicate PlaceOk(c: Config, s: State) {
    match s.place
    case Down => true
    case Fetching(at) => at == s.committed
    case Checking(at, id) => AtHead(s, at) && s.log[at] == Request(id)
    case Starting(at, id) => AtHead(s, at) && s.log[at] == Request(id) && StatusOf(s, id) in {Absent, Queued}
    case Attempting(at, id, attempt) => HandlingOk(c, s, at, id) && attempt <= c.maxRetries
    case Completing(at, id, attempt) => HandlingOk(c, s, at, id) && attempt <= c.maxRetries
    case Exhausted(at, id) => HandlingOk(c, s, at, id)
    case Failing(at, id) => HandlingOk(c, s, at, id)
    case Returned(at) => AtHead(s, at) && at in s.past.returned && Settled(s, s.log[at])
  }

  /** Every committed message was handled to the end, and its request is settled. */
  ghost predicate OffsetsOk(s: State) {
    && s.committed <= |s.log|
    && (forall o :: 0 <= o < s.committed ==> o in s.past.returned && Settled(s, s.log[o]))
  }

  /** Each request was started at most once, and exactly those started have left the queue. */
  ghost predicate StartedOnce(s: State) {
    && (forall id :: id in s.past.starts <==> StatusOf(s, id) == Processing || Terminal(StatusOf(s, id)))
    && (forall i, j :: 0 <= i < j < |s.past.starts| ==> s.past.starts[i] != s.past.starts[j])
  }

  /** A request is left in processing only by a cut. */
  ghost predicate LeftByCut(s: State) {
    && (forall id :: StatusOf(s, id) == Processing ==> Busy(s.place, id) || id in s.past.cut)
    && (forall id :: id in s.store ==> s.store[id] != Absent)
  }

  ghost predicate StartsOk(s: State) {
    StartedOnce(s) && LeftByCut(s)
  }

  ghost predicate Inv(c: Config, s: State) {
    PlaceOk(c, s) && OffsetsOk(s) && StartsOk(s)
  }

  // ----- one step -----

  /** How far a request has come. */
  function Rank(status: Status): nat {
    match status
    case Absent => 0
    case Queued => 1
    case Processing => 2
    case _ => 3
  }

  /** A step leaves a request's status or moves it one legal step on: an unknown id may start without queueing,
      and only after a write that took effect and raised can completed become failed. */
  predicate Advances(c: Config, before: Status, after: Status) {
    || after == before
    || (before == Absent && after == Queued)
    || (before in {Absent, Queued} && after == Processing)
    || (before == Processing && Terminal(after))
    || (c.ambiguous && before == Completed && after == Failed)
  }

  ghost predicate AllAdvance(c: Config, s: State, s': State) {
    forall id :: Advances(c, StatusOf(s, id), StatusOf(s', id))
  }

  lemma StepAdvances(c: Config, s: State, step: Step)
    requires PlaceOk(c, s) && StartsOk(s) && Enabled(c, s, step)
    ensures AllAdvance(c, s, Next(c, s, step))
    ensures Next(c, s, step).committed >= s.committed && s.log <= Next(c, s, step).log
    ensures s.past.cut <= Next(c, s, step).past.cut && s.past.returned <= Next(c, s, step).past.returned
  {
  }

  lemma SettledStays(c: Config, s: State, s': State, message: Message)
    requires Settled(s, message) && AllAdvance(c, s, s') && s.past.cut <= s'.past.cut
    ensures Settled(s', message)
  {
    if message.Request? { assert Advances(c, StatusOf(s, message.id), StatusOf(s', message.id)); }
  }

  lemma OffsetsKeep(c: Config, s: State, step: Step)
    requires Inv(c, s) && Enabled(c, s, step)
    ensures OffsetsOk(Next(c, s, step))
  {
    var s' := Next(c, s, step);
    StepAdvances(c, s, step);
    forall o | 0 <= o < s'.committed ensures o in s'.past.returned && Settled(s', s'.log[o]) {
      assert s'.log[o] == s.log[o];
      SettledStays(c, s, s', s.log[o]);
    }
  }

  lemma PlaceKeeps(c: Config, s: State, step: Step)
    requires PlaceOk(c, s) && StartsOk(s) && Enabled(c, s, step)
    ensures PlaceOk(c, Next(c, s, step))
  {
  }

  lemma StartedOnceKeeps(c: Config, s: State, step: Step)
    requires PlaceOk(c, s) && StartedOnce(s) && Enabled(c, s, step)
    ensures StartedOnce(Next(c, s, step))
  {
    var starts := Next(c, s, step).past.starts;
    if step.Begin? {
      assert s.place.id !in s.past.starts && starts == s.past.starts + [s.place.id];
    } else {
      assert starts == s.past.starts;
    }
  }

  lemma LeftByCutKeeps(c: Config, s: State, step: Step)
    requires PlaceOk(c, s) && LeftByCut(s) && Enabled(c, s, step)
    ensures LeftByCut(Next(c, s, step))
  {
  }

  lemma StepKeeps(c: Config, s: State, step: Step)
    requires Inv(c, s) && Enabled(c, s, step)
    ensures Inv(c, Next(c, s, step))
  {
    hide PlaceOk, StartedOnce, LeftByCut, OffsetsOk, Next, Enabled;
    OffsetsKeep(c, s, step);
    PlaceKeeps(c, s, step);
    StartedOnceKeeps(c, s, step);
    LeftByCutKeeps(c, s, step);
  }

  // ----- runs -----

  lemma {:induction false} RunKeeps(c: Config, s: State, steps: seq<Step>)
    requires Inv(c, s) && Feasible(c, s, steps)
    ensures Inv(c, Run(c, s, steps))
    decreases |steps|
  {
    hide Inv;
    if steps != [] {
      StepKeeps(c, s, steps[0]);
      RunKeeps(c, Next(c, s, steps[0]), steps[1..]);
    }
  }

  lemma ReachableInv(c: Config, steps: seq<Step>)
    requires Feasible(c, Start, steps)
    ensures Inv(c, Run(c, Start, steps))
  {
    RunKeeps(c, Start, steps);
  }

  /**
   However often the consumer crashes and messages are delivered again: a request is started at most once,
   and it has been started exactly if its status is past `queued`.
   */
  lemma StartedAtMostOnce(c: Config, steps: seq<Step>, i: nat, j: nat)
    requires Feasible(c, Start, steps)
    requires i < |Run(c, Start, steps).past.starts| && j < |Run(c, Start, steps).past.starts|
    ensures var s := Run(c, Start, steps);
            && (s.past.starts[i] == s.past.starts[j] ==> i == j)
            && (StatusOf(s, s.past.starts[i]) == Processing || Terminal(StatusOf(s, s.past.starts[i])))
  {
    ReachableInv(c, steps);
    var starts := Run(c, Start, steps).past.starts;
    assert starts[i] in starts;
    if i < j { assert starts[i] != starts[j]; }
    if j < i { assert starts[j] != starts[i]; }
  }

  /**
   The committed offset never passes a message whose handling did not return; and a committed request has
   completed, or failed, or was cut off while it was being processed.
   */
  lemma CommittedIsHandled(c: Config, steps: seq<Step>, o: nat)
    requires Feasible(c, Start, steps)
    requires o < Run(c, Start, steps).committed
    ensures var s := Run(c, Start, steps);
            o < |s.log| && o in s.past.returned && Settled(s, s.log[o])
  {
    ReachableInv(c, steps);
  }

  /** Statuses only move forward over any further run; failed is final, and so is completed unless a store write
      can take effect and still raise. */
  lemma {:induction false} StatusMovesForward(c: Config, s: State, steps: seq<Step>, id: Id)
    requires Inv(c, s) && Feasible(c, s, steps)
    ensures var before, after := StatusOf(s, id), StatusOf(Run(c, s, steps), id);
            && Rank(before) <= Rank(after)
            && (before == Failed ==> after == Failed)
            && (before == Completed ==> after == Completed || (c.ambiguous && after == Failed))
    decreases |steps|
  {
    if steps != [] {
      StepAdvances(c, s, steps[0]);
      StepKeeps(c, s, steps[0]);
      assert Advances(c, StatusOf(s, id), StatusOf(Next(c, s, steps[0]), id));
      StatusMovesForward(c, Next(c, s, steps[0]), steps[1..], id);
    }
  }

  /** A request in processing that nobody is working on was cut off, and no run ever takes it further. */
  lemma {:induction false} CutIsForever(c: Config, s: State, steps: seq<Step>, id: Id)
    requires Inv(c, s) && Feasible(c, s, steps)
    requires StatusOf(s, id) == Processing && !Busy(s.place, id)
    ensures id in s.past.cut && StatusOf(Run(c, s, steps), id) == Processing && !Busy(Run(c, s, steps).place, id)
    decreases |steps|
  {
    if steps != [] {
      var s' := Next(c, s, steps[0]);
      StepKeeps(c, s, steps[0]);
      CutStep(c, s, steps[0], id);
      CutIsForever(c, s', steps[1..], id);
    }
  }

  lemma CutStep(c: Config, s: State, step: Step, id: Id)
    requires PlaceOk(c, s) && StartsOk(s) && Enabled(c, s, step)
    requires StatusOf(s, id) == Processing && !Busy(s.place, id)
    ensures StatusOf(Next(c, s, step), id) == Processing && !Busy(Next(c, s, step).place, id)
  {
  }
}
