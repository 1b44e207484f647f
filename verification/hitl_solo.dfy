/**
 One call at a time: a task of the approval protocol that runs alone over the in-memory store, from its
 first step to its last, does to the state what the corresponding ledger operation does to the ledger.
 */
module HitlSolo {
  import opened Maybe
  import opened HitlProtocol
  import opened HitlLedger
  import opened HitlProgress

  // ----- a task running alone -----

  /** The steps of a task already begun, other than being cut short. */
  predicate Ongoing(step: Step, t: TaskId) {
    && MovesTask(step, t)
    && !step.BeginAct? && !step.Propose? && !step.BeginSubmit? && !step.BeginDecide? && !step.BeginSweep?
  }

  /** Those of them that leave nothing open: the store may list the due requests in any order. */
  predicate Forced(step: Step, t: TaskId) {
    Ongoing(step, t) && !step.List?
  }

  /** A run from `s` to `s'` in which only task `t` moves. */
  ghost predicate Solo(c: Config, s: State, t: TaskId, s': State) {
    exists steps :: AllForced(steps, t) && Feasible(c, s, steps) && Run(c, s, steps) == s'
  }

  predicate AllForced(steps: seq<Step>, t: TaskId) {
    forall step :: step in steps ==> Forced(step, t)
  }

  predicate AllOngoing(steps: seq<Step>, t: TaskId) {
    forall step :: step in steps ==> Ongoing(step, t)
  }

  predicate Done(s: State, t: TaskId) {
    t in s.tasks && s.tasks[t].Finished?
  }

  /** A task has one forced step at most. */
  lemma OneWay(c: Config, s: State, t: TaskId, a: Step, b: Step)
    requires Enabled(c, s, a) && Forced(a, t) && Enabled(c, s, b) && Ongoing(b, t)
    ensures a == b && !Done(s, t)
  {
  }

  /** A task that runs alone by forced steps until it is done can reach no other end. */
  lemma {:induction false} SameEnd(c: Config, s: State, t: TaskId, p: seq<Step>, q: seq<Step>)
    requires AllForced(p, t) && Feasible(c, s, p) && Done(Run(c, s, p), t)
    requires AllOngoing(q, t) && Feasible(c, s, q) && Done(Run(c, s, q), t)
    ensures p == q
    decreases |p|
  {
    hide Enabled, Next, Forced, Ongoing, Done;
    if p == [] {
      if q != [] {
        DoneIsStuck(c, s, t, q[0]);
      }
    } else {
      assert p[0] in p;
      if q == [] {
        ForcedIsOngoing(p[0], t);
        DoneIsStuck(c, s, t, p[0]);
      } else {
        assert q[0] in q;
        OneWay(c, s, t, p[0], q[0]);
        assert forall step :: step in p[1..] ==> step in p;
        assert forall step :: step in q[1..] ==> step in q;
        SameEnd(c, Next(c, s, p[0]), t, p[1..], q[1..]);
        assert p == [p[0]] + p[1..] && q == [q[0]] + q[1..];
      }
    }
  }

  lemma ForcedIsOngoing(step: Step, t: TaskId)
    requires Forced(step, t)
    ensures Ongoing(step, t)
  {
  }

  lemma DoneIsStuck(c: Config, s: State, t: TaskId, step: Step)
    requires Done(s, t) && Ongoing(step, t)
    ensures !Enabled(c, s, step)
  {
  }

  lemma OnlyEnd(c: Config, s: State, t: TaskId, s': State, q: seq<Step>)
    requires Solo(c, s, t, s') && Done(s', t)
    requires AllOngoing(q, t) && Feasible(c, s, q) && Done(Run(c, s, q), t)
    ensures Run(c, s, q) == s'
  {
    hide Enabled, Next, Forced, Ongoing, Done;
    var p :| AllForced(p, t) && Feasible(c, s, p) && Run(c, s, p) == s';
    SameEnd(c, s, t, p, q);
  }

  lemma {:induction false} RunOneMore(c: Config, s: State, steps: seq<Step>, step: Step)
    requires Feasible(c, s, steps) && Enabled(c, Run(c, s, steps), step)
    ensures Feasible(c, s, steps + [step]) && Run(c, s, steps + [step]) == Next(c, Run(c, s, steps), step)
    decreases |steps|
  {
    hide Enabled, Next;
    if steps == [] {
      assert [] + [step] == [step];
      assert [step][1..] == [];
    } else {
      RunOneMore(c, Next(c, s, steps[0]), steps[1..], step);
      assert (steps + [step])[1..] == steps[1..] + [step];
    }
  }

  /** No task or request was begun on the way, and no time has passed. */
  predicate Kept(s: State, s': State) {
    s'.tasks.Keys == s.tasks.Keys && s'.past.expiry.Keys == s.past.expiry.Keys && s'.clock == s.clock
  }

  ghost predicate Alone(c: Config, s0: State, t: TaskId, s: State) {
    Solo(c, s0, t, s) && Kept(s0, s)
  }

  lemma AloneStarts(c: Config, s: State, t: TaskId)
    ensures Alone(c, s, t, s)
  {
    assert AllForced([], t) && Feasible(c, s, []) && Run(c, s, []) == s;
  }

  lemma OngoingBeginsNothing(c: Config, s: State, t: TaskId, step: Step)
    requires Ongoing(step, t) && Enabled(c, s, step)
    ensures Kept(s, Next(c, s, step))
  {
    assert t in s.tasks;
    assert s.tasks.Keys + {t} == s.tasks.Keys;
  }

  lemma Onward(c: Config, s0: State, t: TaskId, s: State, step: Step) returns (s': State)
    requires Alone(c, s0, t, s) && Forced(step, t) && Enabled(c, s, step)
    ensures Alone(c, s0, t, s') && s' == Next(c, s, step)
  {
    OngoingBeginsNothing(c, s, t, step);
    hide Enabled, Next;
    var steps :| AllForced(steps, t) && Feasible(c, s0, steps) && Run(c, s0, steps) == s;
    RunOneMore(c, s0, steps, step);
    s' := Next(c, s, step);
    assert AllForced(steps + [step], t);
  }

  // ----- what a state shows -----

  /** The entries alias objects that hold what the ledger holds. */
  ghost predicate Holds(entries: map<Id, Entry>, heap: map<Ref, Request>, book: map<Id, Request>) {
    && (forall id :: id in entries <==> id in book)
    && (forall id :: id in book ==> entries[id].Alias? && entries[id].ref in heap && heap[entries[id].ref] == book[id])
  }

  predicate Below(heap: map<Ref, Request>, next: Ref) {
    forall r :: r in heap ==> r < next
  }

  /** Between calls, state `s` of the protocol is ledger `l`. */
  ghost predicate Shows(s: State, l: Ledger) {
    && s.lock == None
    && Below(s.store.heap, s.store.next)
    && Holds(s.store.active, s.store.heap, l.active)
    && Holds(s.store.archived, s.store.heap, l.archived)
    && Indexed(s.store.index, l.active)
    && s.gauge == l.gauge
    && s.audit == l.audit
  }

  ghost predicate Indexed(index: map<Id, int>, active: map<Id, Request>) {
    index.Keys == active.Keys && forall id :: id in active ==> index[id] == active[id].expiresAt
  }

  // ----- a submission -----

  function Created(c: Config, s: State, id: Id, agent: Name): Request {
    Request(id, agent, s.clock + c.timeout, PENDING)
  }

  /** Task `t` is at `task`; the rest is as given. */
  predicate At(s: State, t: TaskId, task: Task, lock: Option<TaskId>, store: Store, gauge: map<Name, int>, audit: seq<Record>) {
    && t in s.tasks && s.tasks[t] == task
    && s.lock == lock && s.store == store && s.gauge == gauge && s.audit == audit
  }

  /** Task `t` and the requests `ids` were begun. */
  predicate Begun(s: State, t: TaskId, ids: set<Id>, s': State) {
    && s'.tasks.Keys == s.tasks.Keys + {t}
    && s'.past.expiry.Keys == s.past.expiry.Keys + ids
    && s'.clock == s.clock
  }

  lemma AcquireAt(c: Config, s0: State, t: TaskId, s: State, task: Task) returns (s': State)
    requires Alone(c, s0, t, s) && s.lock == None && t in s.tasks && s.tasks[t] == task && Waiting(task)
    ensures Alone(c, s0, t, s') && At(s', t, Entered(task), Some(t), s.store, s.gauge, s.audit)
  {
    hide Alone;
    s' := Onward(c, s0, t, s, Acquire(t));
  }

  lemma AuditAt(c: Config, s0: State, t: TaskId, s: State, task: Task) returns (s': State)
    requires Alone(c, s0, t, s) && t in s.tasks && s.tasks[t] == task && CanAudit(s, task)
    ensures Alone(c, s0, t, s')
    ensures At(s', t, Written(s, t, task).1, s.lock, s.store, s.gauge, s.audit + [Written(s, t, task).0])
  {
    hide Alone, Written, CanAudit;
    s' := Onward(c, s0, t, s, Audit(t));
  }

  lemma PublishAt(c: Config, s0: State, t: TaskId, s: State, task: Task) returns (s': State)
    requires Alone(c, s0, t, s) && t in s.tasks && s.tasks[t] == task && CanPublish(s, task)
    ensures Alone(c, s0, t, s') && At(s', t, Published(s, task), s.lock, s.store, s.gauge, s.audit)
  {
    hide Alone, Published, CanPublish;
    s' := Onward(c, s0, t, s, Publish(t));
  }

  function WithObject(c: Config, s: State, id: Id, agent: Name): Store {
    s.store.(heap := s.store.heap[s.store.next := Created(c, s, id, agent)], next := s.store.next + 1)
  }

  lemma BeginSubmitAt(c: Config, s: State, t: TaskId, id: Id, agent: Name) returns (s': State)
    requires t !in s.tasks && id !in s.past.expiry
    ensures s' == Next(c, s, BeginSubmit(t, id, agent)) && Alone(c, s', t, s') && Begun(s, t, {id}, s')
    ensures At(s', t, Submitting(AwaitSlot, s.store.next, None), s.lock, WithObject(c, s, id, agent), s.gauge, s.audit)
  {
    hide Solo;
    s' := Next(c, s, BeginSubmit(t, id, agent));
    AloneStarts(c, s', t);
  }

  lemma CountAt(c: Config, s0: State, t: TaskId, s: State, ref: Ref) returns (s': State)
    requires Alone(c, s0, t, s) && s.lock == Some(t) && t in s.tasks && s.tasks[t] == Submitting(Counting, ref, None)
    ensures Alone(c, s0, t, s')
    ensures var full := |s.store.index| >= c.capacity;
      At(s', t, if full then Finished(Raised) else Submitting(Saving, ref, None), if full then None else s.lock, s.store, s.gauge, s.audit)
  {
    hide Alone;
    s' := Onward(c, s0, t, s, Count(t));
  }

  function SavedStore(store: Store, ref: Ref): Store
    requires ref in store.heap
  {
    var q := store.heap[ref];
    store.(active := store.active[q.id := Alias(ref)], index := store.index[q.id := q.expiresAt])
  }

  lemma SaveAt(c: Config, s0: State, t: TaskId, s: State, ref: Ref) returns (s': State)
    requires Alone(c, s0, t, s) && t in s.tasks && s.tasks[t] == Submitting(Saving, ref, None)
    requires c.backend == InMemory && ref in s.store.heap
    ensures Alone(c, s0, t, s') && At(s', t, Submitting(Saved, ref, None), s.lock, SavedStore(s.store, ref), s.gauge, s.audit)
  {
    hide Alone;
    s' := Onward(c, s0, t, s, Save(t));
  }

  function Added(gauge: map<Name, int>, agent: Name, delta: int): map<Name, int> {
    gauge[agent := (if agent in gauge then gauge[agent] else 0) + delta]
  }

  /** How the gauge moves when the task leaves its critical section. */
  function LeftGauge(s: State, task: Task): map<Name, int>
    requires CanRelease(s, task)
  {
    match task
    case Submitting(_, ref, _) => Added(s.gauge, s.store.heap[ref].agent, 1)
    case Deciding(at, _, _, ref, late) =>
      if at == Persisted || late then Added(s.gauge, s.store.heap[ref].agent, -1) else s.gauge
    case _ => s.gauge
  }

  lemma ReleaseAt(c: Config, s0: State, t: TaskId, s: State, task: Task) returns (s': State)
    requires Alone(c, s0, t, s) && t in s.tasks && s.tasks[t] == task && CanRelease(s, task)
    ensures Alone(c, s0, t, s') && At(s', t, Left(s, task), None, s.store, LeftGauge(s, task), s.audit)
  {
    hide Alone, CanRelease;
    s' := Onward(c, s0, t, s, Release(t));
  }

  // ----- a submission -----

  /** The call of task `t` is over: it finished, and the state shows `l`. */
  ghost predicate Ends(c: Config, s0: State, t: TaskId, s: State, outcome: Outcome, l: Ledger) {
    Alone(c, s0, t, s) && t in s.tasks && s.tasks[t] == Finished(outcome) && Shows(s, l)
  }

  lemma ShowsSize(s: State, l: Ledger)
    requires Shows(s, l)
    ensures |s.store.index| == |l.active|
  {
    assert |s.store.index.Keys| == |l.active.Keys|;
  }

  /** A new object is nobody's entry. */
  lemma NewObjectShows(heap: map<Ref, Request>, next: Ref, q: Request, entries: map<Id, Entry>, book: map<Id, Request>)
    requires Below(heap, next) && Holds(entries, heap, book)
    ensures Holds(entries, heap[next := q], book)
    ensures Below(heap[next := q], next + 1)
  {
  }

  lemma SavedShows(heap: map<Ref, Request>, ref: Ref, entries: map<Id, Entry>, book: map<Id, Request>)
    requires ref in heap && Holds(entries, heap, book)
    ensures Holds(entries[heap[ref].id := Alias(ref)], heap, book[heap[ref].id := heap[ref]])
  {
  }

  lemma RefusedShows(c: Config, s: State, l: Ledger, id: Id, agent: Name, s': State)
    requires Shows(s, l)
    requires s'.lock == None && s'.store == WithObject(c, s, id, agent) && s'.gauge == s.gauge && s'.audit == s.audit
    ensures Shows(s', l)
  {
    NewObjectShows(s.store.heap, s.store.next, Created(c, s, id, agent), s.store.active, l.active);
    NewObjectShows(s.store.heap, s.store.next, Created(c, s, id, agent), s.store.archived, l.archived);
    hide Holds;
  }

  lemma AdmittedShows(c: Config, s: State, l: Ledger, id: Id, agent: Name, s': State)
    requires Shows(s, l)
    requires s'.lock == None && s'.store == SavedStore(WithObject(c, s, id, agent), s.store.next)
    requires s'.gauge == Added(s.gauge, agent, 1) && s'.audit == s.audit + [RequestSubmitted(id)]
    ensures Shows(s', Admit(l, Created(c, s, id, agent)))
  {
    var q := Created(c, s, id, agent);
    NewObjectShows(s.store.heap, s.store.next, q, s.store.active, l.active);
    NewObjectShows(s.store.heap, s.store.next, q, s.store.archived, l.archived);
    SavedShows(s'.store.heap, s.store.next, s.store.active, l.active);
    hide Holds;
  }

  lemma ShowsUnlocked(s: State, l: Ledger)
    requires Shows(s, l)
    ensures s.lock == None && s.store.next !in s.store.heap
  {
  }

  /** From the count to the end, when there is room. */
  lemma Admitting(c: Config, s0: State, t: TaskId, s: State, ref: Ref) returns (s': State)
    requires Alone(c, s0, t, s) && t in s.tasks && s.tasks[t] == Submitting(Saving, ref, None)
    requires c.backend == InMemory && s.lock == Some(t) && ref in s.store.heap
    ensures Alone(c, s0, t, s')
    ensures At(s', t, Finished(Returned), None, SavedStore(s.store, ref), Added(s.gauge, s.store.heap[ref].agent, 1),
               s.audit + [RequestSubmitted(s.store.heap[ref].id)])
  {
    hide Alone;
    var s1 := SaveAt(c, s0, t, s, ref);
    var s2 := ReleaseAt(c, s0, t, s1, Submitting(Saved, ref, None));
    var s3 := AuditAt(c, s0, t, s2, Submitting(Notifying, ref, None));
    s' := PublishAt(c, s0, t, s3, Submitting(Proposed, ref, None));
  }

  /** `submit_for_approval`, alone. */
  lemma SubmitAlone(c: Config, s: State, l: Ledger, t: TaskId, id: Id, agent: Name) returns (s1: State, s': State)
    requires c.backend == InMemory && Shows(s, l) && t !in s.tasks && id !in s.past.expiry
    ensures s1 == Next(c, s, BeginSubmit(t, id, agent)) && Begun(s, t, {id}, s1)
    ensures if |l.active| < c.capacity
            then Ends(c, s1, t, s', Returned, Admit(l, Created(c, s, id, agent)))
            else Ends(c, s1, t, s', Raised, l)
  {
    hide Alone, Shows, Next, Enabled;
    var ref := s.store.next;
    ShowsSize(s, l);
    ShowsUnlocked(s, l);
    s1 := BeginSubmitAt(c, s, t, id, agent);
    var s2 := AcquireAt(c, s1, t, s1, Submitting(AwaitSlot, ref, None));
    var s3 := CountAt(c, s1, t, s2, ref);
    if |l.active| >= c.capacity {
      RefusedShows(c, s, l, id, agent, s3);
      return s1, s3;
    }
    s' := Admitting(c, s1, t, s3, ref);
    AdmittedShows(c, s, l, id, agent, s');
  }

  // ----- a decision -----

  lemma BeginDecideAt(c: Config, s: State, t: TaskId, id: Id, decision: Status) returns (s': State)
    requires t !in s.tasks
    ensures s' == Next(c, s, BeginDecide(t, id, decision)) && Alone(c, s', t, s') && Begun(s, t, {}, s')
    ensures At(s', t, Task.Fetching(false, id, decision), s.lock, s.store, s.gauge, s.audit)
  {
    hide Solo;
    s' := Next(c, s, BeginDecide(t, id, decision));
    AloneStarts(c, s', t);
  }

  lemma FetchAt(c: Config, s0: State, t: TaskId, s: State, id: Id, decision: Status) returns (s': State)
    requires Alone(c, s0, t, s) && s.lock == Some(t) && t in s.tasks && s.tasks[t] == Task.Fetching(true, id, decision)
    requires id in s.store.active ==> s.store.active[id].Alias? && s.store.active[id].ref in s.store.heap
    ensures Alone(c, s0, t, s')
    ensures id !in s.store.active ==> At(s', t, Finished(Raised), None, s.store, s.gauge, s.audit)
    ensures id in s.store.active ==>
              At(s', t, Deciding(Judging, id, decision, s.store.active[id].ref, false), s.lock, s.store, s.gauge, s.audit)
  {
    hide Alone;
    s' := Onward(c, s0, t, s, Fetch(t));
  }

  function MarkedStore(store: Store, ref: Ref, status: Status): Store
    requires ref in store.heap
  {
    store.(heap := store.heap[ref := store.heap[ref].(status := status)])
  }

  predicate Refused(s: State, ref: Ref, decision: Status)
    requires ref in s.store.heap
  {
    s.store.heap[ref].status != PENDING || decision !in {APPROVED, REJECTED}
  }

  predicate Late(s: State, ref: Ref)
    requires ref in s.store.heap
  {
    s.clock >= s.store.heap[ref].expiresAt
  }

  lemma JudgeRefuses(c: Config, s0: State, t: TaskId, s: State, id: Id, decision: Status, ref: Ref) returns (s': State)
    requires Alone(c, s0, t, s) && t in s.tasks && s.tasks[t] == Deciding(Judging, id, decision, ref, false)
    requires s.lock == Some(t) && ref in s.store.heap && Refused(s, ref, decision)
    ensures Alone(c, s0, t, s') && At(s', t, Finished(Raised), None, s.store, s.gauge, s.audit)
  {
    hide Alone;
    s' := Onward(c, s0, t, s, Judge(t));
  }

  lemma JudgeExpires(c: Config, s0: State, t: TaskId, s: State, id: Id, decision: Status, ref: Ref) returns (s': State)
    requires Alone(c, s0, t, s) && t in s.tasks && s.tasks[t] == Deciding(Judging, id, decision, ref, false)
    requires s.lock == Some(t) && ref in s.store.heap && !Refused(s, ref, decision) && Late(s, ref)
    ensures Alone(c, s0, t, s')
    ensures At(s', t, Deciding(AwaitFiling, id, decision, ref, true), None, MarkedStore(s.store, ref, EXPIRED), s.gauge, s.audit)
  {
    hide Alone;
    s' := Onward(c, s0, t, s, Judge(t));
  }

  lemma JudgeAccepts(c: Config, s0: State, t: TaskId, s: State, id: Id, decision: Status, ref: Ref) returns (s': State)
    requires Alone(c, s0, t, s) && t in s.tasks && s.tasks[t] == Deciding(Judging, id, decision, ref, false)
    requires c.backend == InMemory
    requires s.lock == Some(t) && ref in s.store.heap && !Refused(s, ref, decision) && !Late(s, ref)
    ensures Alone(c, s0, t, s')
    ensures At(s', t, Deciding(Persisted, id, decision, ref, false), Some(t),
               SavedStore(MarkedStore(s.store, ref, decision), ref), s.gauge, s.audit)
  {
    hide Alone;
    s' := Onward(c, s0, t, s, Judge(t));
  }

  function FiledStore(store: Store, id: Id, ref: Ref): Store {
    store.(active := store.active - {id}, index := store.index - {id}, archived := store.archived[id := Alias(ref)])
  }

  lemma FileAt(c: Config, s0: State, t: TaskId, s: State, id: Id, decision: Status, ref: Ref, late: bool) returns (s': State)
    requires Alone(c, s0, t, s) && t in s.tasks && s.tasks[t] == Deciding(Filing, id, decision, ref, late)
    requires c.backend == InMemory && ref in s.store.heap
    ensures Alone(c, s0, t, s')
    ensures At(s', t, Deciding(Filed, id, decision, ref, late), s.lock, FiledStore(s.store, id, ref), s.gauge, s.audit)
  {
    hide Alone;
    s' := Onward(c, s0, t, s, File(t));
  }

  predicate OwnIds(book: map<Id, Request>) {
    forall i :: i in book ==> book[i].id == i
  }

  /** Marking the object of one id leaves the entries of all others as they were. */
  lemma ActiveDrops(heap: map<Ref, Request>, ref: Ref, q: Request, entries: map<Id, Entry>, book: map<Id, Request>)
    requires ref in heap && heap[ref].id == q.id && Holds(entries, heap, book) && OwnIds(book)
    ensures Holds(entries - {q.id}, heap[ref := q], book - {q.id})
  {
  }

  lemma ArchivedGains(heap: map<Ref, Request>, ref: Ref, q: Request, entries: map<Id, Entry>, book: map<Id, Request>)
    requires ref in heap && heap[ref].id == q.id && Holds(entries, heap, book) && OwnIds(book) && q.id !in book
    ensures Holds(entries[q.id := Alias(ref)], heap[ref := q], book[q.id := q])
  {
  }

  lemma IndexDrops(index: map<Id, int>, active: map<Id, Request>, id: Id)
    requires Indexed(index, active)
    ensures Indexed(index - {id}, active - {id})
  {
  }

  lemma MarkedBelow(heap: map<Ref, Request>, next: Ref, ref: Ref, q: Request)
    requires ref in heap && Below(heap, next)
    ensures Below(heap[ref := q], next)
  {
  }

  /** What a call that closes a request does to the state. */
  predicate Closes(s: State, l: Ledger, id: Id, ref: Ref, status: Status, r: Record, s': State)
    requires id in l.active && ref in s.store.heap
  {
    && s'.lock == None && s'.gauge == Added(s.gauge, l.active[id].agent, -1) && s'.audit == s.audit + [r]
    && s'.store.heap == s.store.heap[ref := s.store.heap[ref].(status := status)] && s'.store.next == s.store.next
    && s'.store.active == s.store.active - {id} && s'.store.index == s.store.index - {id}
    && s'.store.archived == s.store.archived[id := Alias(ref)]
  }

  lemma ActiveRef(s: State, l: Ledger, id: Id) returns (ref: Ref)
    requires Shows(s, l) && Ordered(l) && id in l.active
    ensures id in s.store.active && s.store.active[id] == Alias(ref)
    ensures ref in s.store.heap && s.store.heap[ref] == l.active[id] && l.active[id].id == id
    ensures l.active[id].status == PENDING
  {
    ref := s.store.active[id].ref;
  }

  /** From the ledger to the ledger after `Close`. */
  lemma ClosedShows(s: State, l: Ledger, id: Id, ref: Ref, status: Status, r: Record, s': State)
    requires Shows(s, l) && Ordered(l) && id in l.active && s.store.active[id] == Alias(ref)
    requires Closes(s, l, id, ref, status, r, s')
    ensures Shows(s', Close(l, id, status, r))
  {
    var q := l.active[id].(status := status);
    assert OwnIds(l.active) && OwnIds(l.archived);
    ActiveDrops(s.store.heap, ref, q, s.store.active, l.active);
    ArchivedGains(s.store.heap, ref, q, s.store.archived, l.archived);
    IndexDrops(s.store.index, l.active, id);
    MarkedBelow(s.store.heap, s.store.next, ref, q);
    hide Holds, Indexed, Below, Ordered, OwnIds;
  }

  lemma ActiveExactly(s: State, l: Ledger, id: Id)
    requires Shows(s, l)
    ensures id in s.store.active <==> id in l.active
    ensures id in s.store.active ==> s.store.active[id].Alias? && s.store.active[id].ref in s.store.heap
  {
  }

  lemma SameClock(c: Config, s0: State, t: TaskId, s: State)
    requires Alone(c, s0, t, s)
    ensures s.clock == s0.clock
  {
  }

  lemma UntouchedShows(s: State, l: Ledger, s': State)
    requires Shows(s, l) && s'.lock == None && s'.store == s.store && s'.gauge == s.gauge && s'.audit == s.audit
    ensures Shows(s', l)
  {
    hide Holds, Indexed, Below;
  }

  lemma UpdateThenDrop<V>(m: map<Id, V>, id: Id, v: V)
    ensures m[id := v] - {id} == m - {id}
  {
  }

  lemma LateClosing(c: Config, s0: State, t: TaskId, s: State, l: Ledger, id: Id, decision: Status, ref: Ref, base: State)
    returns (s': State)
    requires Alone(c, s0, t, s) && c.backend == InMemory && ref in base.store.heap && id in l.active
    requires base.store.heap[ref] == l.active[id]
    requires At(s, t, Deciding(AwaitFiling, id, decision, ref, true), None, MarkedStore(base.store, ref, EXPIRED), base.gauge, base.audit)
    ensures Alone(c, s0, t, s') && t in s'.tasks && s'.tasks[t] == Finished(Raised)
    ensures Closes(base, l, id, ref, EXPIRED, RequestExpired(id), s')
  {
    hide Alone;
    var s1 := AcquireAt(c, s0, t, s, Deciding(AwaitFiling, id, decision, ref, true));
    var s2 := FileAt(c, s0, t, s1, id, decision, ref, true);
    var s3 := ReleaseAt(c, s0, t, s2, Deciding(Filed, id, decision, ref, true));
    var s4 := AuditAt(c, s0, t, s3, Deciding(Reporting, id, decision, ref, true));
    s' := PublishAt(c, s0, t, s4, Deciding(Announcing, id, decision, ref, true));
  }

  lemma TimelyClosing(c: Config, s0: State, t: TaskId, s: State, l: Ledger, id: Id, decision: Status, ref: Ref, base: State)
    returns (s': State)
    requires Alone(c, s0, t, s) && c.backend == InMemory && ref in base.store.heap && id in l.active
    requires base.store.heap[ref] == l.active[id] && l.active[id].id == id
    requires At(s, t, Deciding(Persisted, id, decision, ref, false), Some(t),
                SavedStore(MarkedStore(base.store, ref, decision), ref), base.gauge, base.audit)
    ensures Alone(c, s0, t, s') && t in s'.tasks && s'.tasks[t] == Finished(Decided(id, decision))
    ensures Closes(base, l, id, ref, decision, DecisionRecorded(id, decision), s')
  {
    hide Alone;
    var s1 := ReleaseAt(c, s0, t, s, Deciding(Persisted, id, decision, ref, false));
    var s2 := AcquireAt(c, s0, t, s1, Deciding(AwaitFiling, id, decision, ref, false));
    var s3 := FileAt(c, s0, t, s2, id, decision, ref, false);
    var s4 := ReleaseAt(c, s0, t, s3, Deciding(Filed, id, decision, ref, false));
    var s5 := AuditAt(c, s0, t, s4, Deciding(Reporting, id, decision, ref, false));
    s' := PublishAt(c, s0, t, s5, Deciding(Announcing, id, decision, ref, false));
    UpdateThenDrop(base.store.active, id, Alias(ref));
    UpdateThenDrop(base.store.index, id, l.active[id].expiresAt);
  }

  /** `record_decision`, alone. */
  lemma DecideAlone(c: Config, s: State, l: Ledger, t: TaskId, id: Id, decision: Status) returns (s1: State, s': State)
    requires c.backend == InMemory && Shows(s, l) && Ordered(l) && t !in s.tasks
    ensures s1 == Next(c, s, BeginDecide(t, id, decision)) && Begun(s, t, {}, s1)
    ensures if id !in l.active || decision !in {APPROVED, REJECTED} then Ends(c, s1, t, s', Raised, l)
            else if s.clock >= l.active[id].expiresAt then Ends(c, s1, t, s', Raised, Lapse(l, id))
            else Ends(c, s1, t, s', Decided(id, decision), Close(l, id, decision, DecisionRecorded(id, decision)))
  {
    ShowsUnlocked(s, l);
    ActiveExactly(s, l, id);
    hide Alone, Shows, Ordered;
    s1 := BeginDecideAt(c, s, t, id, decision);
    var s2 := AcquireAt(c, s1, t, s1, Task.Fetching(false, id, decision));
    var s3 := FetchAt(c, s1, t, s2, id, decision);
    SameClock(c, s1, t, s3);
    if id !in l.active {
      UntouchedShows(s, l, s3);
      return s1, s3;
    }
    var ref := ActiveRef(s, l, id);
    if decision !in {APPROVED, REJECTED} {
      s' := JudgeRefuses(c, s1, t, s3, id, decision, ref);
      UntouchedShows(s, l, s');
    } else if s.clock >= l.active[id].expiresAt {
      var s4 := JudgeExpires(c, s1, t, s3, id, decision, ref);
      s' := LateClosing(c, s1, t, s4, l, id, decision, ref, s);
      ClosedShows(s, l, id, ref, EXPIRED, RequestExpired(id), s');
    } else {
      var s4 := JudgeAccepts(c, s1, t, s3, id, decision, ref);
      s' := TimelyClosing(c, s1, t, s4, l, id, decision, ref, s);
      ClosedShows(s, l, id, ref, decision, DecisionRecorded(id, decision), s');
    }
  }

  // ----- a sweep -----

  /** `ids` lists the requests whose deadline has passed at time `now`, in some order. */
  ghost predicate Due(l: Ledger, now: int, ids: seq<Id>) {
    && Distinct(ids)
    && forall id :: id in ids <==> id in l.active && l.active[id].expiresAt <= now
  }

  lemma BeginSweepAt(c: Config, s: State, t: TaskId) returns (s': State)
    requires t !in s.tasks
    ensures s' == Next(c, s, BeginSweep(t)) && Alone(c, s', t, s') && Begun(s, t, {}, s')
    ensures At(s', t, Snapshotting(false, s.clock), s.lock, s.store, s.gauge, s.audit)
  {
    hide Solo;
    s' := Next(c, s, BeginSweep(t));
    AloneStarts(c, s', t);
  }

  lemma ListAt(c: Config, s: State, t: TaskId, l: Ledger, now: int, ids: seq<Id>) returns (s': State)
    requires t in s.tasks && s.tasks[t] == Snapshotting(true, now)
    requires Indexed(s.store.index, l.active) && Due(l, now, ids)
    ensures Enabled(c, s, List(t, ids)) && s' == Next(c, s, List(t, ids)) && Alone(c, s', t, s') && Kept(s, s')
    ensures At(s', t, Scanning(now, ids, []), s.lock, s.store, s.gauge, s.audit)
  {
    hide Solo;
    assert forall id :: id in s.store.index <==> id in l.active;
    s' := Next(c, s, List(t, ids));
    AloneStarts(c, s', t);
  }

  lemma ScanAt(c: Config, s0: State, t: TaskId, s: State, now: int, ids: seq<Id>, found: seq<Ref>, ref: Ref) returns (s': State)
    requires Alone(c, s0, t, s) && t in s.tasks && s.tasks[t] == Scanning(now, ids, found) && ids != []
    requires ids[0] in s.store.active && s.store.active[ids[0]] == Alias(ref)
    requires ref in s.store.heap && s.store.heap[ref].status == PENDING
    ensures Alone(c, s0, t, s') && At(s', t, Scanning(now, ids[1..], found + [ref]), s.lock, s.store, s.gauge, s.audit)
  {
    hide Alone;
    s' := Onward(c, s0, t, s, Scan(t));
  }

  /** `found` are the objects of `ids`. */
  predicate ObjectsOf(active: map<Id, Entry>, ids: seq<Id>, found: seq<Ref>) {
    |found| == |ids| && forall i :: 0 <= i < |ids| ==> ids[i] in active && active[ids[i]] == Alias(found[i])
  }

  lemma {:induction false} ScanAll(c: Config, s0: State, t: TaskId, s: State, l: Ledger, now: int, ids: seq<Id>, k: nat, found: seq<Ref>)
    returns (s': State, all: seq<Ref>)
    requires k <= |ids| && Alone(c, s0, t, s) && t in s.tasks && s.tasks[t] == Scanning(now, ids[k..], found)
    requires ObjectsOf(s.store.active, ids[..k], found)
    requires Holds(s.store.active, s.store.heap, l.active) && Ordered(l) && forall id :: id in ids ==> id in l.active
    ensures Alone(c, s0, t, s') && At(s', t, Scanning(now, [], all), s.lock, s.store, s.gauge, s.audit)
    ensures ObjectsOf(s.store.active, ids, all)
    decreases |ids| - k
  {
    hide Alone;
    if k == |ids| {
      assert ids[k..] == [] && ids[..k] == ids;
      return s, found;
    }
    var ref := s.store.active[ids[k]].ref;
    assert ids[k] in ids && ids[k..][0] == ids[k] && ids[k..][1..] == ids[k + 1..];
    var s1 := ScanAt(c, s0, t, s, now, ids[k..], found, ref);
    assert ids[..k + 1] == ids[..k] + [ids[k]];
    s', all := ScanAll(c, s0, t, s1, l, now, ids, k + 1, found + [ref]);
  }

  lemma ExpireAt(c: Config, s0: State, t: TaskId, s: State, now: int, found: seq<Ref>, k: nat) returns (s': State)
    requires Alone(c, s0, t, s) && t in s.tasks && s.tasks[t] == Sweeping(Expiring, now, found, k)
    requires k < |found| && found[k] in s.store.heap
    ensures Alone(c, s0, t, s')
    ensures At(s', t, Sweeping(Auditing, now, found, k), s.lock, MarkedStore(s.store, found[k], EXPIRED),
               Added(s.gauge, s.store.heap[found[k]].agent, -1), s.audit)
  {
    hide Alone;
    s' := Onward(c, s0, t, s, Expire(t));
  }

  lemma SweepEnds(c: Config, s0: State, t: TaskId, s: State, now: int, found: seq<Ref>) returns (s': State)
    requires Alone(c, s0, t, s) && t in s.tasks && s.tasks[t] == Sweeping(Expiring, now, found, |found|)
    ensures Alone(c, s0, t, s') && At(s', t, Finished(Returned), s.lock, s.store, s.gauge, s.audit)
  {
    hide Alone;
    s' := Onward(c, s0, t, s, Expire(t));
  }

  lemma ShelveAt(c: Config, s0: State, t: TaskId, s: State, now: int, found: seq<Ref>, k: nat) returns (s': State)
    requires Alone(c, s0, t, s) && t in s.tasks && s.tasks[t] == Sweeping(Shelving, now, found, k)
    requires c.backend == InMemory && k < |found| && found[k] in s.store.heap
    ensures Alone(c, s0, t, s')
    ensures At(s', t, Sweeping(Shelved, now, found, k), s.lock, FiledStore(s.store, s.store.heap[found[k]].id, found[k]), s.gauge, s.audit)
  {
    hide Alone;
    s' := Onward(c, s0, t, s, File(t));
  }

  /** One turn of the sweep's loop, step by step. */
  lemma SweepTurn(c: Config, s0: State, t: TaskId, s: State, now: int, found: seq<Ref>, k: nat) returns (s': State)
    requires Alone(c, s0, t, s) && t in s.tasks && s.tasks[t] == Sweeping(Expiring, now, found, k)
    requires c.backend == InMemory && s.lock == None && k < |found| && found[k] in s.store.heap
    ensures Alone(c, s0, t, s')
    ensures var q := s.store.heap[found[k]];
      At(s', t, Sweeping(Expiring, now, found, k + 1), None, FiledStore(MarkedStore(s.store, found[k], EXPIRED), q.id, found[k]),
         Added(s.gauge, q.agent, -1), s.audit + [RequestExpired(q.id)])
  {
    hide Alone;
    var s1 := ExpireAt(c, s0, t, s, now, found, k);
    var s2 := AuditAt(c, s0, t, s1, Sweeping(Auditing, now, found, k));
    var s3 := PublishAt(c, s0, t, s2, Sweeping(Publishing, now, found, k));
    var s4 := AcquireAt(c, s0, t, s3, Sweeping(AwaitShelf, now, found, k));
    var s5 := ShelveAt(c, s0, t, s4, now, found, k);
    s' := ReleaseAt(c, s0, t, s5, Sweeping(Shelved, now, found, k));
  }

  lemma SweepOne(c: Config, s0: State, t: TaskId, s: State, l: Ledger, now: int, found: seq<Ref>, k: nat, id: Id) returns (s': State)
    requires Alone(c, s0, t, s) && t in s.tasks && s.tasks[t] == Sweeping(Expiring, now, found, k)
    requires c.backend == InMemory && k < |found| && Shows(s, l) && Ordered(l)
    requires id in l.active && id in s.store.active && s.store.active[id] == Alias(found[k])
    ensures Alone(c, s0, t, s') && t in s'.tasks && s'.tasks[t] == Sweeping(Expiring, now, found, k + 1)
    ensures Shows(s', Lapse(l, id)) && s'.store.active == s.store.active - {id}
  {
    var ref := ActiveRef(s, l, id);
    ShowsUnlocked(s, l);
    hide Alone, Shows, Ordered;
    s' := SweepTurn(c, s0, t, s, now, found, k);
    ClosedShows(s, l, id, ref, EXPIRED, RequestExpired(id), s');
  }

  /** The objects still to be expired are those of the requests still to be expired. */
  predicate Remaining(active: map<Id, Entry>, ids: seq<Id>, found: seq<Ref>, k: nat) {
    |found| == |ids| && forall i :: k <= i < |ids| ==> ids[i] in active && active[ids[i]] == Alias(found[i])
  }

  lemma RemainingAfterOne(active: map<Id, Entry>, ids: seq<Id>, found: seq<Ref>, k: nat)
    requires Remaining(active, ids, found, k) && Distinct(ids) && k < |ids|
    ensures Remaining(active - {ids[k]}, ids, found, k + 1)
  {
  }

  lemma LapsedSoFar(l: Ledger, ids: seq<Id>, k: nat)
    requires Sound(l) && Distinct(ids) && (forall id :: id in ids ==> id in l.active) && k < |ids|
    ensures Distinct(ids[..k]) && Distinct(ids[..k + 1])
    ensures forall id :: id in ids[..k] || id in ids[..k + 1] ==> id in l.active
    ensures Ordered(LapseAll(l, ids[..k])) && ids[k] in LapseAll(l, ids[..k]).active
    ensures LapseAll(l, ids[..k + 1]) == Lapse(LapseAll(l, ids[..k]), ids[k])
  {
    LapseAllKeeps(l, ids[..k]);
    assert ids[k] in ids && ids[..k + 1] == ids[..k] + [ids[k]];
    LapseOneMore(l, ids[..k], ids[k]);
  }

  lemma {:induction false} SweepAll(c: Config, s0: State, t: TaskId, s: State, l: Ledger, now: int, ids: seq<Id>, found: seq<Ref>, k: nat)
    returns (s': State)
    requires c.backend == InMemory && Sound(l) && Distinct(ids) && forall id :: id in ids ==> id in l.active
    requires k <= |ids| && Distinct(ids[..k]) && forall id :: id in ids[..k] ==> id in l.active
    requires Alone(c, s0, t, s) && t in s.tasks && s.tasks[t] == Sweeping(Expiring, now, found, k)
    requires Shows(s, LapseAll(l, ids[..k])) && Remaining(s.store.active, ids, found, k)
    ensures Ends(c, s0, t, s', Returned, LapseAll(l, ids))
    decreases |ids| - k
  {
    hide Alone, Shows, Sound, LapseAll, Ordered;
    if k == |ids| {
      assert ids[..k] == ids;
      s' := SweepEnds(c, s0, t, s, now, found);
      ShowsUnlocked(s, LapseAll(l, ids));
      UntouchedShows(s, LapseAll(l, ids), s');
    } else {
      LapsedSoFar(l, ids, k);
      RemainingAfterOne(s.store.active, ids, found, k);
      var s1 := SweepOne(c, s0, t, s, LapseAll(l, ids[..k]), now, found, k, ids[k]);
      hide Distinct, Remaining;
      s' := SweepAll(c, s0, t, s1, l, now, ids, found, k + 1);
    }
  }

  /** `expire_stale_requests`, alone, up to its listing of the due requests. */
  lemma SweepLooks(c: Config, s: State, l: Ledger, t: TaskId) returns (s1: State, s': State)
    requires c.backend == InMemory && Shows(s, l) && t !in s.tasks
    ensures s1 == Next(c, s, BeginSweep(t)) && Begun(s, t, {}, s1)
    ensures Enabled(c, s1, Acquire(t)) && s' == Next(c, s1, Acquire(t)) && Kept(s1, s')
    ensures At(s', t, Snapshotting(true, s.clock), Some(t), s.store, s.gauge, s.audit)
  {
    s1 := BeginSweepAt(c, s, t);
    OngoingBeginsNothing(c, s1, t, Acquire(t));
    hide Solo, Kept;
    s' := Next(c, s1, Acquire(t));
  }

  /** And from there, in whatever order the store listed them. */
  lemma SweepAlone(c: Config, s: State, l: Ledger, t: TaskId, s2: State, ids: seq<Id>) returns (s3: State, s': State)
    requires c.backend == InMemory && Shows(s, l) && Sound(l) && Due(l, s.clock, ids)
    requires At(s2, t, Snapshotting(true, s.clock), Some(t), s.store, s.gauge, s.audit)
    ensures Enabled(c, s2, List(t, ids)) && s3 == Next(c, s2, List(t, ids)) && Kept(s2, s3)
    ensures Ends(c, s3, t, s', Returned, LapseAll(l, ids))
  {
    var now := s.clock;
    hide Alone, GaugeExact, ExpiryAuditExact;
    s3 := ListAt(c, s2, t, l, now, ids);
    assert ids[0..] == ids && ids[..0] == [];
    var s4, found := ScanAll(c, s3, t, s3, l, now, ids, 0, []);
    var s5 := ReleaseAt(c, s3, t, s4, Scanning(now, [], found));
    UntouchedShows(s, l, s5);
    s' := SweepAll(c, s3, t, s5, l, now, ids, found, 0);
  }
}
