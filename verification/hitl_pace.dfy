/**
 The protocol's steps as one event loop runs them. The steps go from await to await, but not every await gives
 up control: the in-memory store's coroutines never suspend, and a free lock is taken without suspending.
 Here a task is left only where it really waits: for Redis, the audit log, the broker, or a lock that another
 task holds. The runs below are of this kind, so that the code can take them.
 */
module HitlPace {
  import opened Maybe
  import opened HitlProtocol

  /** The task waits for the audit log or the broker, or is finished. */
  predicate Parked(task: Task) {
    match task
    case Proposing(_) => true
    case Executing(_, _) => true
    case Submitting(at, _, _) => at == Notifying || at == Proposed
    case Deciding(at, _, _, _, _) => at == Reporting || at == Announcing
    case Sweeping(at, _, _, _) => at == Auditing || at == Publishing
    case Finished(_) => true
    case _ => false
  }

  /** The task waits for a reply of the store: over Redis only, and not between two sections under the lock. */
  predicate AtStore(c: Config, task: Task) {
    c.backend == Redis && Holding(task)
  }

  /** The event loop may turn to another task while this one is where it is. */
  predicate Suspended(c: Config, s: State, task: Task) {
    Parked(task) || AtStore(c, task) || (Waiting(task) && s.lock.Some?)
  }

  /** A step of one task needs every other one suspended; a task is cut short only where it waits. */
  predicate InTurn(c: Config, s: State, step: Step) {
    step.Tick? || step.LoseActive? || step.LoseArchived? ||
    ((forall u :: u in s.tasks && u != step.t ==> Suspended(c, s, s.tasks[u]))
     && (step.Abort? && step.t in s.tasks ==> Suspended(c, s, s.tasks[step.t])))
  }

  predicate Paced(c: Config, s: State, steps: seq<Step>)
    requires Feasible(c, s, steps)
    decreases |steps|
  {
    steps == [] || (InTurn(c, s, steps[0]) && Paced(c, Next(c, s, steps[0]), steps[1..]))
  }

  lemma {:induction false} Extends(c: Config, s: State, steps: seq<Step>, step: Step)
    requires Feasible(c, s, steps) && Paced(c, s, steps)
    requires Enabled(c, Run(c, s, steps), step) && InTurn(c, Run(c, s, steps), step)
    ensures Feasible(c, s, steps + [step]) && Paced(c, s, steps + [step])
    ensures Run(c, s, steps + [step]) == Next(c, Run(c, s, steps), step)
    decreases |steps|
  {
    hide Enabled, Next, InTurn;
    if steps == [] {
      assert [] + [step] == [step];
    } else {
      Extends(c, Next(c, s, steps[0]), steps[1..], step);
      assert (steps + [step])[1..] == steps[1..] + [step];
    }
  }

  /** A run of the event loop leads to `s`. */
  ghost predicate Reachable(c: Config, s: State) {
    exists steps :: Feasible(c, Start, steps) && Paced(c, Start, steps) && Run(c, Start, steps) == s
  }

  lemma StartReachable(c: Config)
    ensures Reachable(c, Start)
  {
    assert Feasible(c, Start, []) && Paced(c, Start, []) && Run(c, Start, []) == Start;
  }

  lemma Reach(c: Config, s: State, step: Step) returns (s': State)
    requires Reachable(c, s) && Enabled(c, s, step) && InTurn(c, s, step)
    ensures s' == Next(c, s, step) && Reachable(c, s')
  {
    hide Enabled, Next, InTurn;
    var steps :| Feasible(c, Start, steps) && Paced(c, Start, steps) && Run(c, Start, steps) == s;
    Extends(c, Start, steps, step);
    s' := Next(c, s, step);
    assert Feasible(c, Start, steps + [step]);
  }

  /** All but this task are parked. */
  ghost predicate OthersParked(s: State, t: TaskId) {
    forall u :: u in s.tasks && u != t ==> Parked(s.tasks[u])
  }

  predicate Of(step: Step, t: TaskId) {
    !step.Tick? && !step.LoseActive? && !step.LoseArchived? && !step.Abort? && step.t == t
  }

  /** The next step of the one task that is not parked. */
  lemma Go(c: Config, s: State, t: TaskId, step: Step) returns (s': State)
    requires Reachable(c, s) && Enabled(c, s, step) && Of(step, t) && OthersParked(s, t)
    ensures s' == Next(c, s, step) && Reachable(c, s')
  {
    hide Enabled, Next, Reachable, Parked;
    s' := Reach(c, s, step);
  }

  lemma StillParked(s: State, s': State, t: TaskId)
    requires OthersParked(s, t) && t in s'.tasks && s'.tasks == s.tasks[t := s'.tasks[t]]
    ensures OthersParked(s', t)
  {
  }

  // ----- stretches of one task -----

  /** A submission from where it queues for the lock to its audit write. */
  lemma Submitted(c: Config, s0: State, t: TaskId, ref: Ref, act: Option<Action>) returns (s: State)
    requires Reachable(c, s0) && OthersParked(s0, t) && s0.lock == None && |s0.store.index| < c.capacity
    requires t in s0.tasks && s0.tasks[t] == Submitting(AwaitSlot, ref, act) && ref in s0.store.heap
    ensures Reachable(c, s) && OthersParked(s, t)
    ensures var q := s0.store.heap[ref]; s == Bumped(Moved(Saves(c, s0, ref), t, Submitting(Notifying, ref, act)), q.agent, 1)
  {
    hide Reachable, OthersParked;
    var s1 := Go(c, s0, t, Acquire(t));
    assert s1 == s0.(tasks := s0.tasks[t := Submitting(Counting, ref, act)], lock := Some(t));
    StillParked(s0, s1, t);
    var s2 := Go(c, s1, t, Count(t));
    assert s2 == s0.(tasks := s0.tasks[t := Submitting(Saving, ref, act)], lock := Some(t));
    StillParked(s1, s2, t);
    s := SavedOn(c, s0, s2, t, ref, act);
  }

  lemma SavedOn(c: Config, s0: State, s2: State, t: TaskId, ref: Ref, act: Option<Action>) returns (s: State)
    requires Reachable(c, s2) && OthersParked(s2, t) && ref in s0.store.heap && s0.lock == None
    requires s2 == s0.(tasks := s0.tasks[t := Submitting(Saving, ref, act)], lock := Some(t))
    ensures Reachable(c, s) && OthersParked(s, t)
    ensures var q := s0.store.heap[ref]; s == Bumped(Moved(Saves(c, s0, ref), t, Submitting(Notifying, ref, act)), q.agent, 1)
  {
    hide Reachable, OthersParked;
    var s3 := Go(c, s2, t, Save(t));
    assert s3 == Saves(c, s0, ref).(tasks := s0.tasks[t := Submitting(Saved, ref, act)], lock := Some(t));
    StillParked(s2, s3, t);
    hide Next, Enabled;
    s := Counted(c, Saves(c, s0, ref), s3, t, ref, act);
  }

  lemma Counted(c: Config, s0: State, s1: State, t: TaskId, ref: Ref, act: Option<Action>) returns (s: State)
    requires Reachable(c, s1) && OthersParked(s1, t) && ref in s0.store.heap && s0.lock == None
    requires s1 == s0.(tasks := s0.tasks[t := Submitting(Saved, ref, act)], lock := Some(t))
    ensures Reachable(c, s) && OthersParked(s, t)
    ensures s == Bumped(Moved(s0, t, Submitting(Notifying, ref, act)), s0.store.heap[ref].agent, 1)
  {
    hide Reachable, OthersParked;
    s := Go(c, s1, t, Release(t));
    assert s.tasks == s0.tasks[t := Submitting(Notifying, ref, act)];
    StillParked(s1, s, t);
  }

  /** A decision call up to the object that the store hands it. */
  lemma Fetched(c: Config, s0: State, t: TaskId, id: Id, decision: Status) returns (s: State)
    requires Reachable(c, s0) && OthersParked(s0, t) && t !in s0.tasks && s0.lock == None
    requires id in s0.store.active && Readable(s0, s0.store.active[id])
    ensures Reachable(c, s) && OthersParked(s, t)
    ensures var (ref, store) := Handed(s0, s0.store.active[id]);
      s == s0.(tasks := s0.tasks[t := Deciding(Judging, id, decision, ref, false)], lock := Some(t), store := store)
  {
    hide Reachable, OthersParked;
    var s1 := Go(c, s0, t, BeginDecide(t, id, decision));
    StillParked(s0, s1, t);
    var s2 := Go(c, s1, t, Acquire(t));
    assert s2 == s0.(tasks := s0.tasks[t := Task.Fetching(true, id, decision)], lock := Some(t));
    StillParked(s1, s2, t);
    hide Next, Enabled;
    s := FetchedOn(c, s0, s2, t, id, decision);
  }

  lemma FetchedOn(c: Config, s0: State, s1: State, t: TaskId, id: Id, decision: Status) returns (s: State)
    requires Reachable(c, s1) && OthersParked(s1, t)
    requires s1 == s0.(tasks := s0.tasks[t := Task.Fetching(true, id, decision)], lock := Some(t))
    requires id in s0.store.active && Readable(s0, s0.store.active[id])
    ensures Reachable(c, s) && OthersParked(s, t)
    ensures var (ref, store) := Handed(s0, s0.store.active[id]);
      s == s0.(tasks := s0.tasks[t := Deciding(Judging, id, decision, ref, false)], lock := Some(t), store := store)
  {
    hide Reachable, OthersParked;
    s := Go(c, s1, t, Fetch(t));
    assert s.tasks == s0.tasks[t := Deciding(Judging, id, decision, Handed(s0, s0.store.active[id]).0, false)];
    StillParked(s1, s, t);
  }

  lemma Shelved(c: Config, s0: State, s1: State, t: TaskId, id: Id, decision: Status, ref: Ref, late: bool) returns (s: State)
    requires Reachable(c, s1) && OthersParked(s1, t) && ref in s0.store.heap
    requires s1 == s0.(tasks := s0.tasks[t := Deciding(Filing, id, decision, ref, late)], lock := Some(t))
    ensures Reachable(c, s) && OthersParked(s, t)
    ensures s == Archives(c, s0, id, ref).(tasks := s0.tasks[t := Deciding(Filed, id, decision, ref, late)], lock := Some(t))
  {
    hide Reachable, OthersParked;
    s := Go(c, s1, t, File(t));
    assert s.tasks == s0.tasks[t := Deciding(Filed, id, decision, ref, late)];
    StillParked(s1, s, t);
  }

  lemma Reported(c: Config, s0: State, s1: State, t: TaskId, id: Id, decision: Status, ref: Ref, late: bool) returns (s: State)
    requires Reachable(c, s1) && OthersParked(s1, t) && s0.lock == None && ref in s0.store.heap
    requires s1 == s0.(tasks := s0.tasks[t := Deciding(Filed, id, decision, ref, late)], lock := Some(t))
    ensures Reachable(c, s) && OthersParked(s, t)
    ensures var s' := Moved(s0, t, Deciding(Reporting, id, decision, ref, late));
      s == if late then Bumped(s', s0.store.heap[ref].agent, -1) else s'
  {
    hide Reachable, OthersParked;
    s := Go(c, s1, t, Release(t));
    assert s.tasks == s0.tasks[t := Deciding(Reporting, id, decision, ref, late)];
    StillParked(s1, s, t);
  }

  /** A decision in hand, from where it queues for the lock again to its audit write. */
  lemma Closed(c: Config, s0: State, t: TaskId, id: Id, decision: Status, ref: Ref, late: bool) returns (s: State)
    requires Reachable(c, s0) && OthersParked(s0, t) && s0.lock == None && ref in s0.store.heap
    requires t in s0.tasks && s0.tasks[t] == Deciding(AwaitFiling, id, decision, ref, late)
    ensures Reachable(c, s) && OthersParked(s, t)
    ensures var s' := Moved(Archives(c, s0, id, ref), t, Deciding(Reporting, id, decision, ref, late));
      s == if late then Bumped(s', s0.store.heap[ref].agent, -1) else s'
  {
    hide Reachable, OthersParked;
    var s1 := Go(c, s0, t, Acquire(t));
    assert s1 == s0.(tasks := s0.tasks[t := Deciding(Filing, id, decision, ref, late)], lock := Some(t));
    StillParked(s0, s1, t);
    hide Next, Enabled;
    var s2 := Shelved(c, s0, s1, t, id, decision, ref, late);
    s := Reported(c, Archives(c, s0, id, ref), s2, t, id, decision, ref, late);
  }

  /** A sweep up to its list of due ids. */
  lemma Listed(c: Config, s0: State, t: TaskId, ids: seq<Id>) returns (s: State)
    requires Reachable(c, s0) && OthersParked(s0, t) && t !in s0.tasks && s0.lock == None
    requires forall i, j :: 0 <= i < j < |ids| ==> ids[i] != ids[j]
    requires forall id :: id in ids <==> id in s0.store.index && s0.store.index[id] <= s0.clock
    ensures Reachable(c, s) && OthersParked(s, t)
    ensures s == s0.(tasks := s0.tasks[t := Scanning(s0.clock, ids, [])], lock := Some(t))
  {
    hide Reachable, OthersParked;
    var s1 := Go(c, s0, t, BeginSweep(t));
    StillParked(s0, s1, t);
    var s2 := Go(c, s1, t, Acquire(t));
    assert s2 == s0.(tasks := s0.tasks[t := Snapshotting(true, s0.clock)], lock := Some(t));
    StillParked(s1, s2, t);
    s := Go(c, s2, t, List(t, ids));
    assert s.tasks == s0.tasks[t := Scanning(s0.clock, ids, [])];
    StillParked(s2, s, t);
  }

  /** A scan that finds the request PENDING. */
  lemma Found(c: Config, s0: State, t: TaskId, now: int, ids: seq<Id>, found: seq<Ref>) returns (s: State)
    requires Reachable(c, s0) && OthersParked(s0, t) && t in s0.tasks && s0.tasks[t] == Scanning(now, ids, found) && ids != []
    requires ids[0] in s0.store.active && Readable(s0, s0.store.active[ids[0]])
    requires Read(s0, s0.store.active[ids[0]]).status == PENDING
    ensures Reachable(c, s) && OthersParked(s, t)
    ensures var (ref, store) := Handed(s0, s0.store.active[ids[0]]);
      s == s0.(tasks := s0.tasks[t := Scanning(now, ids[1..], found + [ref])], store := store)
  {
    hide Reachable, OthersParked;
    s := Go(c, s0, t, Scan(t));
    StillParked(s0, s, t);
  }

  /** In memory the object found is the stored one. */
  lemma FoundInPlace(c: Config, s0: State, t: TaskId, now: int, ids: seq<Id>, found: seq<Ref>, ref: Ref, more: seq<Ref>) returns (s: State)
    requires Reachable(c, s0) && OthersParked(s0, t) && t in s0.tasks && s0.tasks[t] == Scanning(now, ids, found) && ids != []
    requires ids[0] in s0.store.active && s0.store.active[ids[0]] == Alias(ref) && ref in s0.store.heap
    requires s0.store.heap[ref].status == PENDING && more == found + [ref]
    ensures Reachable(c, s) && OthersParked(s, t)
    ensures s == Moved(s0, t, Scanning(now, ids[1..], more))
  {
    hide Reachable, OthersParked, Next, Enabled;
    s := Found(c, s0, t, now, ids, found);
  }

  /** A scan that finds the request closed. */
  lemma Skipped(c: Config, s0: State, t: TaskId, now: int, ids: seq<Id>, found: seq<Ref>) returns (s: State)
    requires Reachable(c, s0) && OthersParked(s0, t) && t in s0.tasks && s0.tasks[t] == Scanning(now, ids, found) && ids != []
    requires ids[0] in s0.store.active && Readable(s0, s0.store.active[ids[0]])
    requires Read(s0, s0.store.active[ids[0]]).status != PENDING
    ensures Reachable(c, s) && OthersParked(s, t)
    ensures s == Moved(s0, t, Scanning(now, ids[1..], found))
  {
    hide Reachable, OthersParked;
    s := Go(c, s0, t, Scan(t));
    StillParked(s0, s, t);
  }

  /** A sweep that has found something, up to the audit write of the first expiry. */
  lemma Expired(c: Config, s0: State, t: TaskId, now: int, found: seq<Ref>) returns (s: State)
    requires Reachable(c, s0) && OthersParked(s0, t) && s0.lock == Some(t)
    requires t in s0.tasks && s0.tasks[t] == Scanning(now, [], found) && found != [] && found[0] in s0.store.heap
    ensures Reachable(c, s) && OthersParked(s, t)
    ensures s == Bumped(Moved(Freed(Marked(s0, found[0], EXPIRED)), t, Sweeping(Auditing, now, found, 0)),
                        s0.store.heap[found[0]].agent, -1)
  {
    hide Reachable, OthersParked;
    var s1 := Go(c, s0, t, Release(t));
    assert s1 == s0.(tasks := s0.tasks[t := Sweeping(Expiring, now, found, 0)], lock := None);
    StillParked(s0, s1, t);
    s := Go(c, s1, t, Expire(t));
    assert s.tasks == s0.tasks[t := Sweeping(Auditing, now, found, 0)];
    StillParked(s1, s, t);
  }
}
