/**
 The human-approval protocol as a state machine.

 asyncio switches tasks only at an `await`, so a task is a program point between two awaits and a step
 runs one task from one await to the next. Three kinds of task share the gateway: submissions (on their
 own or inside the orchestrator's act phase), decisions and expiry sweeps. The lock is explicit, and so
 are the Python objects, because the two stores differ in exactly that: the in-memory store hands out
 the object it holds, the Redis store hands out a fresh copy of what it holds.

 `Abort` ends a task at any await. It stands for every exception an external call can raise and for
 cancellation, so nothing here assumes that the store, the audit log or the broker is reliable.
 */
module HitlProtocol {
  import opened Maybe

  /** Ids and names are opaque to the protocol: only their equality matters. */
  datatype Id = Id(text: string)
  datatype Name = Name(number: nat)
  datatype TaskId = TaskId(number: nat)
  type Ref = nat

  datatype Status = PENDING | APPROVED | REJECTED | EXPIRED

  datatype Request = Request(id: Id, agent: Name, expiresAt: int, status: Status)

  datatype Backend = InMemory | Redis

  /** What a store key holds: a reference to a live object, or a serialised copy. */
  datatype Entry = Alias(ref: Ref) | Copy(request: Request)

  datatype Action = Action(agent: Name, name: Name, score: real)

  datatype SubmitPoint = AwaitSlot | Counting | Saving | Saved | Notifying | Proposed
  datatype DecidePoint = Judging | Persisted | AwaitFiling | Filing | Filed | Reporting | Announcing
  datatype SweepPoint = Expiring | Auditing | Publishing | AwaitShelf | Shelving | Shelved

  datatype Outcome = Returned | Raised | Decided(id: Id, decision: Status)

  datatype Task =
    | Proposing(action: Action)
    | Executing(action: Action, gate: Option<Id>)
    | Submitting(submitAt: SubmitPoint, ref: Ref, act: Option<Action>)
    | Fetching(holding: bool, id: Id, decision: Status)
    | Deciding(decideAt: DecidePoint, id: Id, decision: Status, ref: Ref, late: bool)
    | Snapshotting(holding: bool, now: int)
    | Scanning(now: int, ids: seq<Id>, found: seq<Ref>)
    | Sweeping(sweepAt: SweepPoint, now: int, found: seq<Ref>, done: nat)
    | Finished(outcome: Outcome)

  /** A decision that took effect in the store: which call made it, on what, and the gateway clock then. */
  datatype Acceptance = Acceptance(task: TaskId, id: Id, decision: Status, at: int)

  datatype Record =
    | ActionProposed(task: TaskId, action: Action)
    | ActionExecuted(task: TaskId, action: Action, gate: Option<Id>)
    | RequestSubmitted(id: Id)
    | DecisionRecorded(id: Id, decision: Status)
    | RequestExpired(id: Id)

  datatype Config = Config(backend: Backend, timeout: int, capacity: nat, threshold: real, autonomous: bool)

  /** The Python objects of the process (`next` is the next unused reference) and what the store keeps. */
  datatype Store = Store(
    heap: map<Ref, Request>,
    next: Ref,
    active: map<Id, Entry>,
    archived: map<Id, Entry>,
    index: map<Id, int>)

  /**
   History: written by steps, never read by them. `expiry` and `author` remember each request id's deadline
   and the task that created it, `saved` and `retired` the ids ever saved and ever archived, `originals`
   the objects created by a submission, and `verdict` and `accepted` the decisions that took effect.
   */
  datatype History = History(
    expiry: map<Id, int>,
    author: map<Id, TaskId>,
    saved: set<Id>,
    retired: set<Id>,
    originals: set<Ref>,
    verdict: map<Id, Status>,
    accepted: seq<Acceptance>)

  datatype State = State(
    clock: int,
    lock: Option<TaskId>,
    gauge: map<Name, int>,
    tasks: map<TaskId, Task>,
    audit: seq<Record>,
    store: Store,
    past: History)

  const Start := State(0, None, map[], map[], [], Store(map[], 0, map[], map[], map[]),
                       History(map[], map[], {}, {}, {}, map[], []))

  datatype Step =
    | Tick(seconds: nat)
    | BeginAct(t: TaskId, action: Action)
    | Propose(t: TaskId, uuid: Id)
    | BeginSubmit(t: TaskId, id: Id, agent: Name)
    | BeginDecide(t: TaskId, id: Id, decision: Status)
    | BeginSweep(t: TaskId)
    | Acquire(t: TaskId)
    | Release(t: TaskId)
    | Count(t: TaskId)
    | Save(t: TaskId)
    | Fetch(t: TaskId)
    | Judge(t: TaskId)
    | List(t: TaskId, ids: seq<Id>)
    | Scan(t: TaskId)
    | Expire(t: TaskId)
    | File(t: TaskId)
    | Audit(t: TaskId)
    | Publish(t: TaskId)
    | Abort(t: TaskId)
    | LoseActive(lost: Id)
    | LoseArchived(lost: Id)

  // ----- reading the store -----

  predicate Readable(s: State, e: Entry) {
    e.Alias? ==> e.ref in s.store.heap
  }

  function Read(s: State, e: Entry): Request
    requires Readable(s, e)
  {
    match e
    case Alias(ref) => s.store.heap[ref]
    case Copy(request) => request
  }

  /** The entry a store keeps when it is handed the object at `ref`. */
  function Stored(c: Config, ref: Ref, request: Request): Entry {
    match c.backend
    case InMemory => Alias(ref)
    case Redis => Copy(request)
  }

  /** The object a read hands out: the stored one itself, or a new object holding a copy. */
  function Handed(s: State, e: Entry): (Ref, Store)
    requires Readable(s, e)
  {
    match e
    case Alias(ref) => (ref, s.store)
    case Copy(request) =>
      (s.store.next, s.store.(heap := s.store.heap[s.store.next := request], next := s.store.next + 1))
  }

  /** The status `get_request` shows for an id: the active entry if there is one, else the archived one. */
  function View(s: State, id: Id): Option<Status> {
    if id in s.store.active && Readable(s, s.store.active[id]) then Some(Read(s, s.store.active[id]).status)
    else if id in s.store.archived && Readable(s, s.store.archived[id]) then Some(Read(s, s.store.archived[id]).status)
    else None
  }

  // ----- small state changes -----

  function Moved(s: State, t: TaskId, task: Task): State {
    s.(tasks := s.tasks[t := task])
  }

  function Freed(s: State): State {
    s.(lock := None)
  }

  function Bumped(s: State, agent: Name, delta: int): State {
    s.(gauge := s.gauge[agent := (if agent in s.gauge then s.gauge[agent] else 0) + delta])
  }

  function Marked(s: State, ref: Ref, status: Status): State
    requires ref in s.store.heap
  {
    s.(store := s.store.(heap := s.store.heap[ref := s.store.heap[ref].(status := status)]))
  }

  function Accepted(s: State, a: Acceptance): State {
    s.(past := s.past.(verdict := s.past.verdict[a.id := a.decision], accepted := s.past.accepted + [a]))
  }

  function Logged(s: State, r: Record): State {
    s.(audit := s.audit + [r])
  }

  function Saves(c: Config, s: State, ref: Ref): State
    requires ref in s.store.heap
  {
    var q := s.store.heap[ref];
    s.(store := s.store.(active := s.store.active[q.id := Stored(c, ref, q)],
                         index := s.store.index[q.id := q.expiresAt]),
       past := s.past.(saved := s.past.saved + {q.id}))
  }

  function Archives(c: Config, s: State, id: Id, ref: Ref): State
    requires ref in s.store.heap
  {
    s.(store := s.store.(active := s.store.active - {id},
                         index := s.store.index - {id},
                         archived := s.store.archived[id := Stored(c, ref, s.store.heap[ref])]),
       past := s.past.(retired := s.past.retired + {id}))
  }

  /** The part of `submit_for_approval` before its first await: stamp a fresh object and queue for the lock. */
  function Submits(c: Config, s: State, t: TaskId, id: Id, agent: Name, act: Option<Action>): State {
    var ref := s.store.next;
    var q := Request(id, agent, s.clock + c.timeout, PENDING);
    s.(tasks := s.tasks[t := Submitting(AwaitSlot, ref, act)],
       store := s.store.(heap := s.store.heap[ref := q], next := ref + 1),
       past := s.past.(expiry := s.past.expiry[id := q.expiresAt],
                       author := s.past.author[id := t],
                       originals := s.past.originals + {ref}))
  }

  // ----- the lock -----

  predicate Waiting(task: Task) {
    match task
    case Submitting(at, _, _) => at == AwaitSlot
    case Fetching(holding, _, _) => !holding
    case Deciding(at, _, _, _, _) => at == AwaitFiling
    case Snapshotting(holding, _) => !holding
    case Sweeping(at, _, _, _) => at == AwaitShelf
    case _ => false
  }

  predicate Holding(task: Task) {
    match task
    case Submitting(at, _, _) => at == Counting || at == Saving || at == Saved
    case Fetching(holding, _, _) => holding
    case Deciding(at, _, _, _, _) => at == Judging || at == Persisted || at == Filing || at == Filed
    case Snapshotting(holding, _) => holding
    case Scanning(_, _, _) => true
    case Sweeping(at, _, _, _) => at == Shelving || at == Shelved
    case _ => false
  }

  function Entered(task: Task): Task
    requires Waiting(task)
  {
    match task
    case Submitting(_, ref, act) => Submitting(Counting, ref, act)
    case Fetching(_, id, decision) => Fetching(true, id, decision)
    case Deciding(_, id, decision, ref, late) => Deciding(Filing, id, decision, ref, late)
    case Snapshotting(_, now) => Snapshotting(true, now)
    case Sweeping(_, now, found, done) => Sweeping(Shelving, now, found, done)
  }

  // ----- steps -----

  predicate Enabled(c: Config, s: State, step: Step) {
    match step
    case Tick(_) => true
    case BeginAct(t, _) => t !in s.tasks
    case Propose(t, id) => t in s.tasks && s.tasks[t].Proposing? && id !in s.past.expiry
    case BeginSubmit(t, id, _) => t !in s.tasks && id !in s.past.expiry
    case BeginDecide(t, _, _) => t !in s.tasks
    case BeginSweep(t) => t !in s.tasks
    case Acquire(t) => t in s.tasks && s.lock == None && Waiting(s.tasks[t])
    case Release(t) => t in s.tasks && CanRelease(s, s.tasks[t])
    case Count(t) => t in s.tasks && s.tasks[t].Submitting? && s.tasks[t].submitAt == Counting
    case Save(t) =>
      t in s.tasks && s.tasks[t].Submitting? && s.tasks[t].submitAt == Saving && s.tasks[t].ref in s.store.heap
    case Fetch(t) =>
      && t in s.tasks && s.tasks[t].Fetching? && s.tasks[t].holding
      && (s.tasks[t].id in s.store.active ==> Readable(s, s.store.active[s.tasks[t].id]))
    case Judge(t) =>
      t in s.tasks && s.tasks[t].Deciding? && s.tasks[t].decideAt == Judging && s.tasks[t].ref in s.store.heap
    case List(t, ids) =>
      && t in s.tasks && s.tasks[t].Snapshotting? && s.tasks[t].holding
      && (forall i, j :: 0 <= i < j < |ids| ==> ids[i] != ids[j])
      && (forall id :: id in ids ==> id in s.store.index && s.store.index[id] <= s.tasks[t].now)
      && (forall id :: id in s.store.index && s.store.index[id] <= s.tasks[t].now ==> id in ids)
    case Scan(t) =>
      && t in s.tasks && s.tasks[t].Scanning? && s.tasks[t].ids != []
      && (s.tasks[t].ids[0] in s.store.active ==> Readable(s, s.store.active[s.tasks[t].ids[0]]))
    case Expire(t) =>
      && t in s.tasks && s.tasks[t].Sweeping? && s.tasks[t].sweepAt == Expiring
      && (s.tasks[t].done < |s.tasks[t].found| ==> s.tasks[t].found[s.tasks[t].done] in s.store.heap)
    case File(t) => t in s.tasks && CanFile(s, s.tasks[t])
    case Audit(t) => t in s.tasks && CanAudit(s, s.tasks[t])
    case Publish(t) => t in s.tasks && CanPublish(s, s.tasks[t])
    case Abort(t) => t in s.tasks && !s.tasks[t].Finished?
    case LoseActive(_) => c.backend == Redis
    case LoseArchived(_) => c.backend == Redis
  }

  predicate CanRelease(s: State, task: Task) {
    match task
    case Submitting(at, ref, _) => at == Saved && ref in s.store.heap
    case Deciding(at, _, _, ref, _) => (at == Persisted || at == Filed) && ref in s.store.heap
    case Scanning(_, ids, _) => ids == []
    case Sweeping(at, _, _, _) => at == Shelved
    case _ => false
  }

  predicate CanFile(s: State, task: Task) {
    match task
    case Deciding(at, _, _, ref, _) => at == Filing && ref in s.store.heap
    case Sweeping(at, _, found, done) => at == Shelving && done < |found| && found[done] in s.store.heap
    case _ => false
  }

  predicate CanAudit(s: State, task: Task) {
    match task
    case Executing(_, _) => true
    case Submitting(at, ref, _) => at == Notifying && ref in s.store.heap
    case Deciding(at, _, _, _, _) => at == Reporting
    case Sweeping(at, _, found, done) => at == Auditing && done < |found| && found[done] in s.store.heap
    case _ => false
  }

  predicate CanPublish(s: State, task: Task) {
    match task
    case Submitting(at, ref, _) => at == Proposed && ref in s.store.heap
    case Deciding(at, _, _, _, _) => at == Announcing
    case Sweeping(at, _, _, _) => at == Publishing
    case _ => false
  }

  function Next(c: Config, s: State, step: Step): State
    requires Enabled(c, s, step)
  {
    match step
    case Tick(seconds) => s.(clock := s.clock + seconds)
    case BeginAct(t, action) => Moved(s, t, Proposing(action))
    case Propose(t, id) => ProposeStep(c, s, t, id)
    case BeginSubmit(t, id, agent) => Submits(c, s, t, id, agent, None)
    case BeginDecide(t, id, decision) => Moved(s, t, Fetching(false, id, decision))
    case BeginSweep(t) => Moved(s, t, Snapshotting(false, s.clock))
    case Acquire(t) => Moved(s, t, Entered(s.tasks[t])).(lock := Some(t))
    case Release(t) => Leave(s, t)
    case Count(t) => CountStep(c, s, t)
    case Save(t) => Moved(Saves(c, s, s.tasks[t].ref), t, s.tasks[t].(submitAt := Saved))
    case Fetch(t) => FetchStep(s, t)
    case Judge(t) => JudgeStep(c, s, t)
    case List(t, ids) => Moved(s, t, Scanning(s.tasks[t].now, ids, []))
    case Scan(t) => ScanStep(s, t)
    case Expire(t) => ExpireStep(s, t)
    case File(t) => FileStep(c, s, t)
    case Audit(t) => AuditStep(s, t)
    case Publish(t) => Moved(s, t, Published(s, s.tasks[t]))
    case Abort(t) =>
      Moved(s, t, Finished(Raised)).(lock := if s.lock == Some(t) then None else s.lock)
    case LoseActive(lost) => s.(store := s.store.(active := s.store.active - {lost}))
    case LoseArchived(lost) => s.(store := s.store.(archived := s.store.archived - {lost}))
  }

  /** Where a task is once it has left its critical section. */
  function Left(s: State, task: Task): Task
    requires CanRelease(s, task)
  {
    match task
    case Submitting(_, ref, act) => Submitting(Notifying, ref, act)
    case Deciding(at, id, decision, ref, late) =>
      Deciding(if at == Persisted then AwaitFiling else Reporting, id, decision, ref, late)
    case Scanning(now, _, found) => Sweeping(Expiring, now, found, 0)
    case Sweeping(_, now, found, done) => Sweeping(Expiring, now, found, done + 1)
  }

  /** Leaving a critical section, with the gauge update that follows it before the next await. */
  function Leave(s: State, t: TaskId): State
    requires t in s.tasks && CanRelease(s, s.tasks[t])
  {
    var s' := Freed(Moved(s, t, Left(s, s.tasks[t])));
    match s.tasks[t]
    case Submitting(_, ref, _) => Bumped(s', s.store.heap[ref].agent, 1)
    case Deciding(at, _, _, ref, late) => if at == Persisted || late then Bumped(s', s.store.heap[ref].agent, -1) else s'
    case _ => s'
  }

  function CountStep(c: Config, s: State, t: TaskId): State
    requires t in s.tasks && s.tasks[t].Submitting?
  {
    if |s.store.index| >= c.capacity then Freed(Moved(s, t, Finished(Raised)))
    else Moved(s, t, s.tasks[t].(submitAt := Saving))
  }

  function FetchStep(s: State, t: TaskId): State
    requires t in s.tasks && s.tasks[t].Fetching?
    requires s.tasks[t].id in s.store.active ==> Readable(s, s.store.active[s.tasks[t].id])
  {
    var Fetching(_, id, decision) := s.tasks[t];
    if id !in s.store.active then Freed(Moved(s, t, Finished(Raised)))
    else
      var (ref, store) := Handed(s, s.store.active[id]);
      Moved(s.(store := store), t, Deciding(Judging, id, decision, ref, false))
  }

  function JudgeStep(c: Config, s: State, t: TaskId): State
    requires t in s.tasks && s.tasks[t].Deciding? && s.tasks[t].ref in s.store.heap
  {
    var Deciding(_, id, decision, ref, _) := s.tasks[t];
    if s.store.heap[ref].status != PENDING || decision !in {APPROVED, REJECTED} then
      Freed(Moved(s, t, Finished(Raised)))
    else if s.clock >= s.store.heap[ref].expiresAt then
      Freed(Moved(Marked(s, ref, EXPIRED), t, Deciding(AwaitFiling, id, decision, ref, true)))
    else
      var s' := Accepted(Saves(c, Marked(s, ref, decision), ref), Acceptance(t, id, decision, s.clock));
      Moved(s', t, Deciding(Persisted, id, decision, ref, false))
  }

  function ScanStep(s: State, t: TaskId): State
    requires t in s.tasks && s.tasks[t].Scanning? && s.tasks[t].ids != []
    requires s.tasks[t].ids[0] in s.store.active ==> Readable(s, s.store.active[s.tasks[t].ids[0]])
  {
    var Scanning(now, ids, found) := s.tasks[t];
    if ids[0] !in s.store.active || Read(s, s.store.active[ids[0]]).status != PENDING then
      Moved(s, t, Scanning(now, ids[1..], found))
    else
      var (ref, store) := Handed(s, s.store.active[ids[0]]);
      Moved(s.(store := store), t, Scanning(now, ids[1..], found + [ref]))
  }

  /** `_expire_single` up to its first await: outside the lock, on the object from the snapshot. */
  function ExpireStep(s: State, t: TaskId): State
    requires t in s.tasks && s.tasks[t].Sweeping?
    requires s.tasks[t].done < |s.tasks[t].found| ==> s.tasks[t].found[s.tasks[t].done] in s.store.heap
  {
    var Sweeping(_, now, found, done) := s.tasks[t];
    if done >= |found| then Moved(s, t, Finished(Returned))
    else
      Bumped(Moved(Marked(s, found[done], EXPIRED), t, Sweeping(Auditing, now, found, done)),
             s.store.heap[found[done]].agent, -1)
  }

  function FileStep(c: Config, s: State, t: TaskId): State
    requires t in s.tasks && CanFile(s, s.tasks[t])
  {
    match s.tasks[t]
    case Deciding(_, id, decision, ref, late) =>
      Moved(Archives(c, s, id, ref), t, Deciding(Filed, id, decision, ref, late))
    case Sweeping(_, now, found, done) =>
      Moved(Archives(c, s, s.store.heap[found[done]].id, found[done]), t, Sweeping(Shelved, now, found, done))
  }

  /** The orchestrator asks for approval exactly when this holds. */
  predicate Gated(c: Config, action: Action) {
    action.score >= c.threshold && !c.autonomous
  }

  /** `_act` up to and past its first audit write; `id` is the uuid drawn for the request, if one is made. */
  function ProposeStep(c: Config, s: State, t: TaskId, id: Id): State
    requires t in s.tasks && s.tasks[t].Proposing?
  {
    var action := s.tasks[t].action;
    var s' := Logged(s, ActionProposed(t, action));
    if Gated(c, action) then Submits(c, s', t, id, action.agent, Some(action))
    else Moved(s', t, Executing(action, None))
  }

  /** The record an audit write appends, and where the task goes on. */
  function Written(s: State, t: TaskId, task: Task): (Record, Task)
    requires CanAudit(s, task)
  {
    match task
    case Executing(action, gate) => (ActionExecuted(t, action, gate), Finished(Returned))
    case Submitting(_, ref, act) => (RequestSubmitted(s.store.heap[ref].id), Submitting(Proposed, ref, act))
    case Deciding(_, id, decision, ref, late) =>
      (if late then RequestExpired(id) else DecisionRecorded(id, decision), Deciding(Announcing, id, decision, ref, late))
    case Sweeping(_, now, found, done) =>
      (RequestExpired(s.store.heap[found[done]].id), Sweeping(Publishing, now, found, done))
  }

  function AuditStep(s: State, t: TaskId): State
    requires t in s.tasks && CanAudit(s, s.tasks[t])
  {
    var (r, task) := Written(s, t, s.tasks[t]);
    Moved(Logged(s, r), t, task)
  }

  /** After the broker call a submission returns its own object, and `_act` looks at that object's status. */
  function Published(s: State, task: Task): Task
    requires CanPublish(s, task)
  {
    match task
    case Submitting(_, ref, act) =>
      if act.None? then Finished(Returned)
      else if s.store.heap[ref].status == APPROVED then Executing(act.value, Some(s.store.heap[ref].id))
      else Finished(Raised)
    case Deciding(_, id, decision, _, late) => Finished(if late then Raised else Decided(id, decision))
    case Sweeping(_, now, found, done) => Sweeping(AwaitShelf, now, found, done)
  }

  // ----- runs -----

  /** Steps after which the store, the objects and the decisions are what they were. */
  predicate LeavesStore(step: Step) {
    || step.Tick? || step.BeginAct? || step.BeginDecide? || step.BeginSweep? || step.Acquire? || step.Release?
    || step.Count? || step.List? || step.Audit? || step.Publish? || step.Abort?
  }

  predicate Feasible(c: Config, s: State, steps: seq<Step>)
    decreases |steps|
  {
    steps == [] || (Enabled(c, s, steps[0]) && Feasible(c, Next(c, s, steps[0]), steps[1..]))
  }

  /** The state after a run. */
  function Run(c: Config, s: State, steps: seq<Step>): State
    requires Feasible(c, s, steps)
    decreases |steps|
  {
    if steps == [] then s else Run(c, Next(c, s, steps[0]), steps[1..])
  }
}
