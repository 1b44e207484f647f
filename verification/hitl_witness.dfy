/** Runs of the approval protocol worth knowing, step by step, each as one event loop runs it. */
module HitlWitness {
  import opened Maybe
  import opened HitlProtocol
  import opened HitlPace

  const T0 := TaskId(0)
  const T1 := TaskId(1)
  const T2 := TaskId(2)
  const T3 := TaskId(3)
  const R0 := Id("r0")
  const R1 := Id("r1")

  // ----- one request -----

  /** One request, object 0, is saved and counted, and its submission writes the audit log. */
  predicate OnePending(c: Config, s: State, agent: Name, act: Option<Action>) {
    var q := Request(R0, agent, c.timeout, PENDING);
    && s.tasks == map[T0 := Submitting(Notifying, 0, act)] && s.lock == None && s.gauge == map[agent := 1]
    && s.store == Store(map[0 := q], 1, map[R0 := Stored(c, 0, q)], map[], map[R0 := c.timeout])
    && s.past.expiry.Keys == {R0}
  }

  lemma Saved0(c: Config, s0: State, agent: Name, act: Option<Action>) returns (s: State)
    requires Reachable(c, s0) && c.capacity > 0 && s0.lock == None && s0.gauge == map[] && s0.past.expiry.Keys == {R0}
    requires s0.tasks == map[T0 := Submitting(AwaitSlot, 0, act)]
    requires s0.store == Store(map[0 := Request(R0, agent, c.timeout, PENDING)], 1, map[], map[], map[])
    ensures Reachable(c, s) && OnePending(c, s, agent, act) && s.clock == s0.clock
  {
    hide Reachable;
    s := Submitted(c, s0, T0, 0, act);
    assert s.tasks == map[T0 := Submitting(Notifying, 0, act)];
    assert s.gauge == map[agent := 1];
    assert s.store.index == map[R0 := c.timeout] && s.store.active == map[R0 := Stored(c, 0, s0.store.heap[0])];
  }

  /** A submission of its own. */
  lemma Submission(c: Config, agent: Name) returns (s: State)
    requires c.capacity > 0
    ensures Reachable(c, s) && OnePending(c, s, agent, None) && s.clock == 0
  {
    hide Reachable;
    StartReachable(c);
    var s1 := Reach(c, Start, BeginSubmit(T0, R0, agent));
    assert s1.tasks == map[T0 := Submitting(AwaitSlot, 0, None)];
    s := Saved0(c, s1, agent, None);
  }

  /** A submission by the act phase. */
  lemma Proposal(c: Config, action: Action) returns (s: State)
    requires c.capacity > 0 && Gated(c, action)
    ensures Reachable(c, s) && OnePending(c, s, action.agent, Some(action)) && s.clock == 0
  {
    hide Reachable;
    StartReachable(c);
    var s1 := Reach(c, Start, BeginAct(T0, action));
    var s2 := Reach(c, s1, Propose(T0, R0));
    assert s2.tasks == map[T0 := Submitting(AwaitSlot, 0, Some(action))];
    s := Saved0(c, s2, action.agent, Some(action));
  }

  // ----- the gate -----

  /** A decision in time, from the object in hand to its audit write. */
  lemma Decided0(c: Config, s0: State, t: TaskId, id: Id, ref: Ref) returns (s: State)
    requires Reachable(c, s0) && OthersParked(s0, t) && s0.lock == Some(t) && ref in s0.store.heap
    requires t in s0.tasks && s0.tasks[t] == Deciding(Judging, id, APPROVED, ref, false)
    requires s0.store.heap[ref].status == PENDING && s0.clock < s0.store.heap[ref].expiresAt
    ensures Reachable(c, s) && OthersParked(s, t)
    ensures s.tasks == s0.tasks[t := Deciding(AwaitFiling, id, APPROVED, ref, false)] && s.lock == None
    ensures s.store == Saves(c, Marked(s0, ref, APPROVED), ref).store
  {
    hide Reachable, OthersParked;
    var s1 := Go(c, s0, t, Judge(t));
    assert s1.tasks == s0.tasks[t := Deciding(Persisted, id, APPROVED, ref, false)] && ref in s1.store.heap;
    StillParked(s0, s1, t);
    hide Next, Enabled;
    s := Settled(c, s1, t, id, ref);
    assert s.tasks == s0.tasks[t := Deciding(AwaitFiling, id, APPROVED, ref, false)];
  }

  lemma Settled(c: Config, s0: State, t: TaskId, id: Id, ref: Ref) returns (s: State)
    requires Reachable(c, s0) && OthersParked(s0, t) && ref in s0.store.heap
    requires t in s0.tasks && s0.tasks[t] == Deciding(Persisted, id, APPROVED, ref, false)
    ensures Reachable(c, s) && OthersParked(s, t) && s.store == s0.store && s.lock == None
    ensures s.tasks == s0.tasks[t := Deciding(AwaitFiling, id, APPROVED, ref, false)]
  {
    hide Reachable, OthersParked;
    s := Go(c, s0, t, Release(t));
    StillParked(s0, s, t);
  }

  lemma Approved(c: Config, s0: State, action: Action) returns (s: State)
    requires Reachable(c, s0) && OnePending(c, s0, action.agent, Some(action)) && s0.clock < c.timeout && c.backend == InMemory
    ensures Reachable(c, s)
    ensures s.tasks == map[T0 := Submitting(Notifying, 0, Some(action)), T1 := Deciding(Reporting, R0, APPROVED, 0, false)]
    ensures 0 in s.store.heap && s.store.heap[0].status == APPROVED && s.store.heap[0].id == R0
  {
    hide Reachable, Next, Enabled;
    var s1 := Fetched(c, s0, T1, R0, APPROVED);
    hide OthersParked;
    var s2 := Decided0(c, s1, T1, R0, 0);
    s := Closed(c, s2, T1, R0, APPROVED, 0, false);
    assert s.tasks == map[T0 := Submitting(Notifying, 0, Some(action)), T1 := Deciding(Reporting, R0, APPROVED, 0, false)];
  }

  lemma Executed(c: Config, s0: State, action: Action) returns (s: State)
    requires Reachable(c, s0)
    requires s0.tasks == map[T0 := Submitting(Notifying, 0, Some(action)), T1 := Deciding(Reporting, R0, APPROVED, 0, false)]
    requires 0 in s0.store.heap && s0.store.heap[0].status == APPROVED && s0.store.heap[0].id == R0
    ensures Reachable(c, s) && ActionExecuted(T0, action, Some(R0)) in s.audit
  {
    assert OthersParked(s0, T0);
    hide Reachable, OthersParked;
    var s1 := Go(c, s0, T0, Audit(T0));
    assert s1.tasks == s0.tasks[T0 := Submitting(Proposed, 0, Some(action))] && s1.store == s0.store;
    StillParked(s0, s1, T0);
    hide Next, Enabled;
    s := Acted(c, s1, action);
  }

  lemma Acted(c: Config, s0: State, action: Action) returns (s: State)
    requires Reachable(c, s0) && OthersParked(s0, T0)
    requires T0 in s0.tasks && s0.tasks[T0] == Submitting(Proposed, 0, Some(action))
    requires 0 in s0.store.heap && s0.store.heap[0].status == APPROVED && s0.store.heap[0].id == R0
    ensures Reachable(c, s) && ActionExecuted(T0, action, Some(R0)) in s.audit
  {
    hide Reachable, OthersParked;
    var s1 := Go(c, s0, T0, Publish(T0));
    assert s1.tasks == s0.tasks[T0 := Executing(action, Some(R0))];
    StillParked(s0, s1, T0);
    s := Go(c, s1, T0, Audit(T0));
    assert s.audit[|s1.audit|] == ActionExecuted(T0, action, Some(R0));
  }

  /** With the in-memory store a decision can reach `_act` in time: while the submission writes its audit record. */
  lemma GateCanOpen(c: Config, action: Action) returns (s: State)
    requires c.backend == InMemory && Gated(c, action) && c.capacity > 0 && c.timeout > 0
    ensures Reachable(c, s) && ActionExecuted(T0, action, Some(R0)) in s.audit
  {
    hide Reachable, OnePending, Gated;
    var s1 := Proposal(c, action);
    var s2 := Approved(c, s1, action);
    s := Executed(c, s2, action);
  }

  // ----- one request expired twice, over Redis -----

  /** A sweep of the one request there is, up to its audit write. */
  lemma SweptOne(c: Config, s0: State, t: TaskId) returns (s: State)
    requires Reachable(c, s0) && OthersParked(s0, t) && t !in s0.tasks && s0.lock == None
    requires R0 in s0.store.active && Readable(s0, s0.store.active[R0]) && Read(s0, s0.store.active[R0]).status == PENDING
    requires s0.store.index.Keys == {R0} && s0.store.index[R0] <= s0.clock
    ensures Reachable(c, s) && OthersParked(s, t)
    ensures var (ref, store) := Handed(s0, s0.store.active[R0]);
      && s == Bumped(Moved(Marked(s0.(store := store), ref, EXPIRED), t, Sweeping(Auditing, s0.clock, [ref], 0)),
                     Read(s0, s0.store.active[R0]).agent, -1)
  {
    hide Reachable, OthersParked;
    var (ref, store) := Handed(s0, s0.store.active[R0]);
    assert R0 in s0.store.index.Keys;
    forall id ensures id in [R0] <==> id in s0.store.index && s0.store.index[id] <= s0.clock {
      assert id in s0.store.index <==> id in s0.store.index.Keys;
    }
    var s1 := Listed(c, s0, t, [R0]);
    hide Next, Enabled;
    s := SweptOn(c, s0, s1, t);
  }

  lemma SweptOn(c: Config, s0: State, s1: State, t: TaskId) returns (s: State)
    requires Reachable(c, s1) && OthersParked(s1, t) && s0.lock == None
    requires s1 == s0.(tasks := s0.tasks[t := Scanning(s0.clock, [R0], [])], lock := Some(t))
    requires R0 in s0.store.active && Readable(s0, s0.store.active[R0]) && Read(s0, s0.store.active[R0]).status == PENDING
    ensures Reachable(c, s) && OthersParked(s, t)
    ensures var (ref, store) := Handed(s0, s0.store.active[R0]);
      && s == Bumped(Moved(Marked(s0.(store := store), ref, EXPIRED), t, Sweeping(Auditing, s0.clock, [ref], 0)),
                     Read(s0, s0.store.active[R0]).agent, -1)
  {
    hide Reachable, OthersParked, Next, Enabled;
    var (ref, store) := Handed(s0, s0.store.active[R0]);
    var s2 := FoundFirst(c, s0, s1, t);
    assert ref in store.heap && store.heap[ref].agent == Read(s0, s0.store.active[R0]).agent;
    hide Handed, Readable, Read;
    s := Expired(c, s2, t, s0.clock, [ref]);
    assert s.tasks == s0.tasks[t := Sweeping(Auditing, s0.clock, [ref], 0)];
  }

  lemma FoundFirst(c: Config, s0: State, s1: State, t: TaskId) returns (s: State)
    requires Reachable(c, s1) && OthersParked(s1, t)
    requires s1 == s0.(tasks := s0.tasks[t := Scanning(s0.clock, [R0], [])], lock := Some(t))
    requires R0 in s0.store.active && Readable(s0, s0.store.active[R0]) && Read(s0, s0.store.active[R0]).status == PENDING
    ensures Reachable(c, s) && OthersParked(s, t)
    ensures var (ref, store) := Handed(s0, s0.store.active[R0]);
      s == s0.(tasks := s0.tasks[t := Scanning(s0.clock, [], [ref])], lock := Some(t), store := store)
  {
    hide Reachable, OthersParked, Next, Enabled;
    var ref := Handed(s0, s0.store.active[R0]).0;
    assert [R0][1..] == [] && [] + [ref] == [ref];
    s := Found(c, s1, t, s0.clock, [R0], []);
    assert s.tasks == s0.tasks[t := Scanning(s0.clock, [], [ref])];
  }

  /** A decision after the deadline, up to its audit write. */
  lemma Late(c: Config, s0: State, t: TaskId, id: Id) returns (s: State)
    requires Reachable(c, s0) && OthersParked(s0, t) && t !in s0.tasks && s0.lock == None
    requires id in s0.store.active && Readable(s0, s0.store.active[id]) && Read(s0, s0.store.active[id]).status == PENDING
    requires Read(s0, s0.store.active[id]).expiresAt <= s0.clock
    ensures Reachable(c, s) && OthersParked(s, t)
    ensures var (ref, store) := Handed(s0, s0.store.active[id]);
      s == Bumped(Moved(Archives(c, Marked(s0.(store := store), ref, EXPIRED), id, ref), t,
                        Deciding(Reporting, id, APPROVED, ref, true)), Read(s0, s0.store.active[id]).agent, -1)
  {
    hide Reachable, OthersParked;
    var (ref, store) := Handed(s0, s0.store.active[id]);
    hide Next, Enabled;
    var s1 := Fetched(c, s0, t, id, APPROVED);
    assert ref in store.heap && store.heap[ref] == Read(s0, s0.store.active[id]);
    hide Handed, Readable, Read;
    var s2 := LateJudged(c, s1, t, id, ref);
    assert s2.tasks == s0.tasks[t := Deciding(AwaitFiling, id, APPROVED, ref, true)];
    s := Closed(c, s2, t, id, APPROVED, ref, true);
    assert s.tasks == s0.tasks[t := Deciding(Reporting, id, APPROVED, ref, true)];
  }

  lemma LateJudged(c: Config, s0: State, t: TaskId, id: Id, ref: Ref) returns (s: State)
    requires Reachable(c, s0) && OthersParked(s0, t) && ref in s0.store.heap
    requires t in s0.tasks && s0.tasks[t] == Deciding(Judging, id, APPROVED, ref, false)
    requires s0.store.heap[ref].status == PENDING && s0.store.heap[ref].expiresAt <= s0.clock
    ensures Reachable(c, s) && OthersParked(s, t)
    ensures s == Freed(Moved(Marked(s0, ref, EXPIRED), t, Deciding(AwaitFiling, id, APPROVED, ref, true)))
  {
    hide Reachable, OthersParked;
    s := Go(c, s0, t, Judge(t));
    StillParked(s0, s, t);
  }

  /** The one request is due, and a sweep has expired a copy of it. */
  lemma FirstSweep(c: Config, agent: Name) returns (s: State)
    requires c.backend == Redis && c.capacity > 0 && c.timeout > 0
    ensures Reachable(c, s) && OthersParked(s, T1) && T1 !in s.tasks && s.lock == None && s.clock == c.timeout
    ensures s.store.active == map[R0 := Copy(Request(R0, agent, c.timeout, PENDING))] && s.store.index == map[R0 := c.timeout]
    ensures s.gauge == map[agent := 0]
  {
    hide Reachable;
    var s1 := Submission(c, agent);
    var s2 := Reach(c, s1, Tick(c.timeout));
    s := SweptOne(c, s2, T2);
    assert s.gauge == map[agent := 0];
  }

  lemma LateOverRedis(c: Config, agent: Name) returns (s: State)
    requires c.backend == Redis && c.capacity > 0 && c.timeout > 0
    ensures Reachable(c, s) && s.gauge == map[agent := -1] && s.store.active == map[]
  {
    hide Reachable, OthersParked;
    var s1 := FirstSweep(c, agent);
    s := Late(c, s1, T1, R0);
    assert s.gauge == map[agent := -1];
  }

  lemma SweepsOverRedis(c: Config, agent: Name) returns (s: State)
    requires c.backend == Redis && c.capacity > 0 && c.timeout > 0
    ensures Reachable(c, s) && s.gauge == map[agent := -1]
  {
    hide Reachable, OthersParked;
    var s1 := FirstSweep(c, agent);
    s := SweptOne(c, s1, T1);
    assert s.gauge == map[agent := -1];
  }

  // ----- the second of two requests expired twice, in memory -----

  /** Two requests in memory, objects 0 and 1, both due. */
  predicate TwoDue(c: Config, s: State, agent: Name) {
    && s.tasks == map[T0 := Submitting(Notifying, 0, None), T3 := Submitting(Notifying, 1, None)]
    && s.lock == None && s.gauge == map[agent := 2] && s.clock == c.timeout
    && s.store == Store(map[0 := Request(R0, agent, c.timeout, PENDING), 1 := Request(R1, agent, c.timeout, PENDING)], 2,
                        map[R0 := Alias(0), R1 := Alias(1)], map[], map[R0 := c.timeout, R1 := c.timeout])
  }

  lemma SecondAsked(c: Config, agent: Name) returns (s: State)
    requires c.backend == InMemory && c.capacity > 1
    ensures Reachable(c, s) && s.lock == None && s.gauge == map[agent := 1] && s.clock == 0
    ensures s.tasks == map[T0 := Submitting(Notifying, 0, None), T3 := Submitting(AwaitSlot, 1, None)]
    ensures s.store == Store(map[0 := Request(R0, agent, c.timeout, PENDING), 1 := Request(R1, agent, c.timeout, PENDING)], 2,
                             map[R0 := Alias(0)], map[], map[R0 := c.timeout])
  {
    hide Reachable;
    var s1 := Submission(c, agent);
    s := Reach(c, s1, BeginSubmit(T3, R1, agent));
    assert s.tasks == map[T0 := Submitting(Notifying, 0, None), T3 := Submitting(AwaitSlot, 1, None)];
  }

  lemma TwoSubmissions(c: Config, agent: Name) returns (s: State)
    requires c.backend == InMemory && c.capacity > 1 && c.timeout > 0
    ensures Reachable(c, s) && TwoDue(c, s, agent)
  {
    hide Reachable;
    var s1 := SecondAsked(c, agent);
    assert OthersParked(s1, T3);
    hide OthersParked;
    var s2 := Submitted(c, s1, T3, 1, None);
    assert s2.store.active == map[R0 := Alias(0), R1 := Alias(1)] && s2.store.index == map[R0 := c.timeout, R1 := c.timeout];
    assert s2.tasks == map[T0 := Submitting(Notifying, 0, None), T3 := Submitting(Notifying, 1, None)];
    assert s2.gauge == map[agent := 2];
    s := Reach(c, s2, Tick(c.timeout));
  }

  /** A sweep has found both and expired the first. */
  predicate FirstExpired(c: Config, s: State, agent: Name) {
    && s.tasks == map[T0 := Submitting(Notifying, 0, None), T3 := Submitting(Notifying, 1, None),
                      T2 := Sweeping(Auditing, c.timeout, [0, 1], 0)]
    && s.lock == None && s.gauge == map[agent := 1] && s.clock == c.timeout
    && s.store == Store(map[0 := Request(R0, agent, c.timeout, EXPIRED), 1 := Request(R1, agent, c.timeout, PENDING)], 2,
                        map[R0 := Alias(0), R1 := Alias(1)], map[], map[R0 := c.timeout, R1 := c.timeout])
  }

  lemma BothFound(c: Config, s0: State, agent: Name) returns (s: State)
    requires Reachable(c, s0) && TwoDue(c, s0, agent)
    ensures Reachable(c, s) && OthersParked(s, T2)
    ensures s == s0.(tasks := s0.tasks[T2 := Scanning(c.timeout, [], [0, 1])], lock := Some(T2))
  {
    hide Reachable, Next, Enabled;
    var s1 := Listed(c, s0, T2, [R0, R1]);
    assert [R0, R1][1..] == [R1] && [R1][1..] == [];
    hide OthersParked;
    var s2 := FoundInPlace(c, s1, T2, c.timeout, [R0, R1], [], 0, [0]);
    assert s2.tasks == s0.tasks[T2 := Scanning(c.timeout, [R1], [0])];
    s := FoundInPlace(c, s2, T2, c.timeout, [R1], [0], 1, [0, 1]);
    assert s.tasks == s0.tasks[T2 := Scanning(c.timeout, [], [0, 1])];
  }

  lemma SweptFirst(c: Config, agent: Name) returns (s: State)
    requires c.backend == InMemory && c.capacity > 1 && c.timeout > 0
    ensures Reachable(c, s) && FirstExpired(c, s, agent)
  {
    hide Reachable, Next, Enabled, OthersParked;
    var s0 := TwoSubmissions(c, agent);
    var s1 := BothFound(c, s0, agent);
    s := Expired(c, s1, T2, c.timeout, [0, 1]);
    assert s.tasks == s0.tasks[T2 := Sweeping(Auditing, c.timeout, [0, 1], 0)];
    assert s.gauge == map[agent := 1];
  }

  /** The first sweep goes on and expires the second request, whatever became of it in the meantime. */
  lemma SweepGoesOn(c: Config, s0: State, now: int, agent: Name) returns (s: State)
    requires Reachable(c, s0) && OthersParked(s0, T2) && s0.lock == None && s0.gauge == map[agent := 0]
    requires T2 in s0.tasks && s0.tasks[T2] == Sweeping(Auditing, now, [0, 1], 0)
    requires 0 in s0.store.heap && s0.store.heap[0].id == R0 && 1 in s0.store.heap && s0.store.heap[1].agent == agent
    ensures Reachable(c, s) && s.gauge == map[agent := -1] && s.store.active == s0.store.active - {R0}
  {
    hide Reachable, OthersParked;
    var s1 := Go(c, s0, T2, Audit(T2));
    assert s1.tasks == s0.tasks[T2 := Sweeping(Publishing, now, [0, 1], 0)] && s1.store == s0.store && s1.lock == None;
    StillParked(s0, s1, T2);
    var s2 := Go(c, s1, T2, Publish(T2));
    assert s2.tasks == s0.tasks[T2 := Sweeping(AwaitShelf, now, [0, 1], 0)] && s2.store == s0.store && s2.lock == None;
    StillParked(s1, s2, T2);
    hide Next, Enabled;
    s := SweepFiles(c, s2, now, agent);
  }

  lemma SweepFiles(c: Config, s0: State, now: int, agent: Name) returns (s: State)
    requires Reachable(c, s0) && OthersParked(s0, T2) && s0.lock == None && s0.gauge == map[agent := 0]
    requires T2 in s0.tasks && s0.tasks[T2] == Sweeping(AwaitShelf, now, [0, 1], 0)
    requires 0 in s0.store.heap && s0.store.heap[0].id == R0 && 1 in s0.store.heap && s0.store.heap[1].agent == agent
    ensures Reachable(c, s) && s.gauge == map[agent := -1] && s.store.active == s0.store.active - {R0}
  {
    hide Reachable, OthersParked;
    var s1 := Go(c, s0, T2, Acquire(T2));
    assert s1.tasks == s0.tasks[T2 := Sweeping(Shelving, now, [0, 1], 0)] && s1.store == s0.store;
    StillParked(s0, s1, T2);
    var s2 := Go(c, s1, T2, File(T2));
    assert s2.tasks == s0.tasks[T2 := Sweeping(Shelved, now, [0, 1], 0)] && s2.store.heap == s0.store.heap;
    StillParked(s1, s2, T2);
    hide Next, Enabled;
    s := SweepExpires(c, s2, now, agent);
  }

  lemma SweepExpires(c: Config, s0: State, now: int, agent: Name) returns (s: State)
    requires Reachable(c, s0) && OthersParked(s0, T2) && s0.gauge == map[agent := 0]
    requires T2 in s0.tasks && s0.tasks[T2] == Sweeping(Shelved, now, [0, 1], 0)
    requires 1 in s0.store.heap && s0.store.heap[1].agent == agent
    ensures Reachable(c, s) && s.gauge == map[agent := -1] && s.store.active == s0.store.active
  {
    hide Reachable, OthersParked;
    var s1 := Go(c, s0, T2, Release(T2));
    assert s1.tasks == s0.tasks[T2 := Sweeping(Expiring, now, [0, 1], 1)] && s1.store == s0.store;
    StillParked(s0, s1, T2);
    s := Go(c, s1, T2, Expire(T2));
    assert s.gauge == map[agent := -1];
  }

  lemma LateInMemory(c: Config, agent: Name) returns (s: State)
    requires c.backend == InMemory && c.capacity > 1 && c.timeout > 0
    ensures Reachable(c, s) && s.gauge == map[agent := -1] && s.store.active == map[]
  {
    hide Reachable;
    var s1 := SweptFirst(c, agent);
    var s2 := Late(c, s1, T1, R1);
    assert s2.tasks == s1.tasks[T1 := Deciding(Reporting, R1, APPROVED, 1, true)];
    assert s2.gauge == map[agent := 0] && s2.store.active == map[R0 := Alias(0)];
    s := SweepGoesOn(c, s2, c.timeout, agent);
  }

  lemma SecondFound(c: Config, s0: State, agent: Name) returns (s: State)
    requires Reachable(c, s0) && FirstExpired(c, s0, agent)
    ensures Reachable(c, s) && OthersParked(s, T1)
    ensures s == s0.(tasks := s0.tasks[T1 := Scanning(c.timeout, [], [1])], lock := Some(T1))
  {
    hide Reachable, Next, Enabled;
    var s1 := Listed(c, s0, T1, [R0, R1]);
    assert [R0, R1][1..] == [R1] && [R1][1..] == [];
    hide OthersParked;
    var s2 := Skipped(c, s1, T1, c.timeout, [R0, R1], []);
    assert s2.tasks == s0.tasks[T1 := Scanning(c.timeout, [R1], [])];
    s := FoundInPlace(c, s2, T1, c.timeout, [R1], [], 1, [1]);
    assert s.tasks == s0.tasks[T1 := Scanning(c.timeout, [], [1])];
  }

  /** Another sweep skips the first request, which is EXPIRED, and expires the second. */
  lemma SecondSweep(c: Config, s0: State, agent: Name) returns (s: State)
    requires Reachable(c, s0) && FirstExpired(c, s0, agent)
    ensures Reachable(c, s) && s.lock == None && s.gauge == map[agent := 0]
    ensures s.tasks == s0.tasks[T1 := Sweeping(Auditing, c.timeout, [1], 0)]
    ensures s.store.active == s0.store.active && s.store.heap == s0.store.heap[1 := Request(R1, agent, c.timeout, EXPIRED)]
  {
    hide Reachable, Next, Enabled, OthersParked;
    var s1 := SecondFound(c, s0, agent);
    s := Expired(c, s1, T1, c.timeout, [1]);
    assert s.tasks == s0.tasks[T1 := Sweeping(Auditing, c.timeout, [1], 0)];
    assert s.gauge == map[agent := 0];
  }

  lemma SweepsInMemory(c: Config, agent: Name) returns (s: State)
    requires c.backend == InMemory && c.capacity > 1 && c.timeout > 0
    ensures Reachable(c, s) && s.gauge == map[agent := -1]
  {
    hide Reachable;
    var s1 := SweptFirst(c, agent);
    var s2 := SecondSweep(c, s1, agent);
    s := SweepGoesOn(c, s2, c.timeout, agent);
  }

  // ----- both stores -----

  /** Room for the requests that the run needs: over Redis one is enough, in memory it takes two. */
  predicate Roomy(c: Config) {
    c.capacity > (if c.backend == InMemory then 1 else 0)
  }

  /**
   A sweep's snapshot and a late decision can both expire one request: the gauge goes to -1 with nothing
   active.
   */
  lemma GaugeMiscounts(c: Config, agent: Name) returns (s: State)
    requires Roomy(c) && c.timeout > 0
    ensures Reachable(c, s) && s.store.active == map[] && s.gauge == map[agent := -1]
  {
    hide Reachable;
    if c.backend == Redis { s := LateOverRedis(c, agent); } else { s := LateInMemory(c, agent); }
  }

  /** So can two sweeps that overlap: each found the request pending, and neither looks again. */
  lemma SweepsMiscount(c: Config, agent: Name) returns (s: State)
    requires Roomy(c) && c.timeout > 0
    ensures Reachable(c, s) && s.gauge == map[agent := -1]
  {
    hide Reachable;
    if c.backend == Redis { s := SweepsOverRedis(c, agent); } else { s := SweepsInMemory(c, agent); }
  }

  // ----- calls cut short -----

  /** Over Redis: a decision is saved, and its call is cancelled while it waits for the archiving. */
  lemma CutBeforeFiling(c: Config, agent: Name) returns (s: State)
    requires c.backend == Redis && c.capacity > 0 && c.timeout > 0
    ensures Reachable(c, s) && s.tasks == map[T0 := Submitting(Notifying, 0, None), T1 := Finished(Raised)]
    ensures s.store.active == map[R0 := Copy(Request(R0, agent, c.timeout, APPROVED))] && R0 in s.store.index
  {
    hide Reachable;
    var s0 := Submission(c, agent);
    var s1 := Fetched(c, s0, T1, R0, APPROVED);
    var s2 := Decided0(c, s1, T1, R0, 1);
    assert s2.store.active == map[R0 := Copy(Request(R0, agent, c.timeout, APPROVED))] && R0 in s2.store.index;
    assert s2.tasks == map[T0 := Submitting(Notifying, 0, None), T1 := Deciding(AwaitFiling, R0, APPROVED, 1, false)];
    s := CutFiling(c, s2);
  }

  lemma CutFiling(c: Config, s0: State) returns (s: State)
    requires Reachable(c, s0) && c.backend == Redis && s0.lock == None
    requires s0.tasks == map[T0 := Submitting(Notifying, 0, None), T1 := Deciding(AwaitFiling, R0, APPROVED, 1, false)]
    ensures Reachable(c, s) && s.store == s0.store
    ensures s.tasks == map[T0 := Submitting(Notifying, 0, None), T1 := Finished(Raised)]
  {
    hide Reachable;
    var s1 := Go(c, s0, T1, Acquire(T1));
    assert s1.tasks == s0.tasks[T1 := Deciding(Filing, R0, APPROVED, 1, false)];
    s := Reach(c, s1, Abort(T1));
    assert s.tasks == map[T0 := Submitting(Notifying, 0, None), T1 := Finished(Raised)];
  }

  /** In memory: a sweep is cancelled while it writes the audit record of an expiry. */
  lemma CutAtAudit(c: Config, agent: Name) returns (s: State)
    requires c.backend == InMemory && c.capacity > 0 && c.timeout > 0
    ensures Reachable(c, s) && s.tasks == map[T0 := Submitting(Notifying, 0, None), T2 := Finished(Raised)]
    ensures s.store.active == map[R0 := Alias(0)] && R0 in s.store.index
    ensures 0 in s.store.heap && s.store.heap[0].status == EXPIRED
  {
    hide Reachable;
    var s1 := Submission(c, agent);
    var s2 := Reach(c, s1, Tick(c.timeout));
    var s3 := SweptOne(c, s2, T2);
    assert s3.tasks == map[T0 := Submitting(Notifying, 0, None), T2 := Sweeping(Auditing, c.timeout, [0], 0)];
    s := Reach(c, s3, Abort(T2));
    assert s.tasks == map[T0 := Submitting(Notifying, 0, None), T2 := Finished(Raised)];
  }
}
