/** How any one step changes what is already there: the relation that whole runs are built from. */
module HitlChanges {
  import opened Maybe
  import opened HitlProtocol
  import opened HitlInvariant
  import opened HitlFrames
  import opened HitlMoves
  import opened HitlEnvironment
  import opened HitlCreating
  import opened HitlSaving
  import opened HitlReading
  import opened HitlExpiring
  import opened HitlDeciding
  import opened HitlArchiving

  // ----- a terminal status is final -----

  /** The task whose step it is, if any. */
  function Mover(step: Step): Option<TaskId> {
    if step.Tick? || step.LoseActive? || step.LoseArchived? then None else Some(step.t)
  }

  /** An active entry is new only for a request saved for the first time or just decided. */
  ghost predicate EntryMoves(s: State, s': State) {
    forall id :: id in s'.store.active ==>
      || (id in s.store.active && s'.store.active[id] == s.store.active[id])
      || id !in s.past.saved
      || id in s'.past.verdict
  }

  /** What a step does to everything but the task that takes it. */
  ghost predicate Changes(c: Config, s: State, s': State, mover: Option<TaskId>) {
    Evolves(c, s, s', mover) && EntryMoves(s, s')
  }

  lemma SameStoreChanges(c: Config, s: State, s': State, mover: Option<TaskId>)
    requires SameStore(s, s')
    ensures Changes(c, s, s', mover)
  {
    SameStoreEvolves(c, s, s', mover);
  }

  lemma LoggedSubmits(c: Config, s: State, r: Record, t: TaskId, id: Id, agent: Name, act: Option<Action>)
    requires s.store.next !in s.store.heap && id !in s.past.expiry && id !in s.past.author
    ensures Changes(c, s, Submits(c, Logged(s, r), t, id, agent, act), Some(t))
  {
    var s' := Submits(c, Logged(s, r), t, id, agent, act);
    forall q | q in s.store.heap ensures q in s'.store.heap && SameRequest(c, s, s.store.heap[q], s'.store.heap[q], q) {}
  }

  lemma ProposeChanges(c: Config, s: State, t: TaskId, id: Id)
    requires s.store.next !in s.store.heap && id !in s.past.author && t in s.tasks && s.tasks[t].Proposing? && id !in s.past.expiry
    ensures Changes(c, s, ProposeStep(c, s, t, id), Some(t))
  {
    hide Changes;
    var action := s.tasks[t].action;
    if Gated(c, action) {
      LoggedSubmits(c, s, ActionProposed(t, action), t, id, action.agent, Some(action));
    } else {
      SameStoreChanges(c, s, ProposeStep(c, s, t, id), Some(t));
    }
  }

  lemma FetchChanges(c: Config, s: State, t: TaskId, id: Id, decision: Status)
    requires HeapInv(c, s) && ActiveInv(c, s) && t in s.tasks && s.tasks[t] == Fetching(true, id, decision)
    requires id in s.store.active ==> Readable(s, s.store.active[id])
    ensures Changes(c, s, FetchStep(s, t), Some(t))
  {
    if id in s.store.active {
      HandsOutEvolves(c, s, FetchStep(s, t), id, Handed(s, s.store.active[id]).0, Some(t));
    } else {
      SameStoreChanges(c, s, FetchStep(s, t), Some(t));
    }
  }

  lemma ScanChanges(c: Config, s: State, t: TaskId, now: int, ids: seq<Id>, found: seq<Ref>)
    requires HeapInv(c, s) && ActiveInv(c, s) && t in s.tasks && s.tasks[t] == Scanning(now, ids, found) && ids != []
    requires ids[0] in s.store.active ==> Readable(s, s.store.active[ids[0]])
    ensures Changes(c, s, ScanStep(s, t), Some(t))
  {
    if ids[0] in s.store.active && Read(s, s.store.active[ids[0]]).status == PENDING {
      HandsOutEvolves(c, s, ScanStep(s, t), ids[0], Handed(s, s.store.active[ids[0]]).0, Some(t));
    } else {
      SameStoreChanges(c, s, ScanStep(s, t), Some(t));
    }
  }

  lemma MarkChanges(c: Config, s: State, s': State, ref: Ref, mover: Option<TaskId>)
    requires FetchedOk(c, s, ref) && s.store.heap[ref].status in {PENDING, EXPIRED}
    requires s' == Marked(s, ref, EXPIRED).(tasks := s'.tasks, lock := s'.lock, gauge := s'.gauge)
    ensures Changes(c, s, s', mover)
  {
    MarkEvolves(c, s, s', ref, EXPIRED, mover);
  }

  lemma AcceptChanges(c: Config, s: State, s': State, t: TaskId, id: Id, decision: Status, ref: Ref)
    requires Accepts(c, s, s', t, id, decision, ref)
    ensures Changes(c, s, s', Some(t))
  {
    AcceptEvolves(c, s, s', t, id, decision, ref);
  }

  lemma JudgeChanges(c: Config, s: State, t: TaskId, id: Id, decision: Status, ref: Ref)
    requires t in s.tasks && s.tasks[t] == Deciding(Judging, id, decision, ref, false)
    requires DecidingOk(c, s, t, Judging, id, decision, ref, false) && RequestOk(s, s.store.heap[ref])
    ensures Changes(c, s, JudgeStep(c, s, t), Some(t))
  {
    var s' := JudgeStep(c, s, t);
    if s.store.heap[ref].status != PENDING || decision !in {APPROVED, REJECTED} {
      SameStoreChanges(c, s, s', Some(t));
    } else if s.clock >= s.store.heap[ref].expiresAt {
      MarkChanges(c, s, s', ref, Some(t));
    } else {
      AcceptChanges(c, s, s', t, id, decision, ref);
    }
  }

  lemma ExpireChanges(c: Config, s: State, t: TaskId, now: int, found: seq<Ref>, done: nat)
    requires HeapInv(c, s) && t in s.tasks && s.tasks[t] == Sweeping(Expiring, now, found, done)
    requires SweepingOk(c, s, Expiring, now, found, done)
    ensures Changes(c, s, ExpireStep(s, t), Some(t))
  {
    if done >= |found| {
      SameStoreChanges(c, s, ExpireStep(s, t), Some(t));
    } else {
      assert StaleOk(c, s, found[done]) && RequestOk(s, s.store.heap[found[done]]);
      MarkChanges(c, s, ExpireStep(s, t), found[done], Some(t));
    }
  }

  lemma FileChanges(c: Config, s: State, s': State, id: Id, ref: Ref, mover: Option<TaskId>)
    requires Files(c, s, s', id, ref)
    ensures Changes(c, s, s', mover)
  {
    FileEvolves(c, s, s', id, ref, mover);
  }

  lemma FileStepChanges(c: Config, s: State, t: TaskId)
    requires HeapInv(c, s) && t in s.tasks && CanFile(s, s.tasks[t]) && TaskOk(c, s, t, s.tasks[t])
    ensures Changes(c, s, FileStep(c, s, t), Some(t))
  {
    match s.tasks[t]
    case Deciding(_, id, _, ref, _) =>
      assert RequestOk(s, s.store.heap[ref]);
      FileChanges(c, s, FileStep(c, s, t), id, ref, Some(t));
    case Sweeping(_, _, found, done) =>
      assert StaleOk(c, s, found[done]);
      FileChanges(c, s, FileStep(c, s, t), s.store.heap[found[done]].id, found[done], Some(t));
  }

  lemma SaveChanges(c: Config, s: State, s': State, t: TaskId, ref: Ref)
    requires SubmittingOk(c, s, t, Saving, ref) && s' == Saves(c, s, ref).(tasks := s'.tasks)
    ensures Changes(c, s, s', Some(t))
  {
    SaveEvolves(c, s, t, s', ref);
  }

  lemma InvParts(c: Config, s: State, mover: Option<TaskId>)
    requires Inv(c, s)
    ensures HeapInv(c, s) && ActiveInv(c, s)
    ensures s.store.next !in s.store.heap && s.past.author.Keys == s.past.expiry.Keys
    ensures mover.Some? && mover.value in s.tasks ==> TaskOk(c, s, mover.value, s.tasks[mover.value])
    ensures forall r :: r in s.store.heap ==> RequestOk(s, s.store.heap[r])
  {
  }

  lemma ReleaseChanges(c: Config, s: State, t: TaskId)
    requires t in s.tasks && CanRelease(s, s.tasks[t])
    ensures Changes(c, s, Leave(s, t), Some(t))
  {
    hide Changes;
    SameStoreChanges(c, s, Leave(s, t), Some(t));
  }

  lemma CountChanges(c: Config, s: State, t: TaskId)
    requires t in s.tasks && s.tasks[t].Submitting?
    ensures Changes(c, s, CountStep(c, s, t), Some(t))
  {
    hide Changes;
    SameStoreChanges(c, s, CountStep(c, s, t), Some(t));
  }

  lemma AuditChanges(c: Config, s: State, t: TaskId)
    requires t in s.tasks && CanAudit(s, s.tasks[t])
    ensures Changes(c, s, AuditStep(s, t), Some(t))
  {
    hide Changes;
    SameStoreChanges(c, s, AuditStep(s, t), Some(t));
  }

  lemma QuietStepChanges(c: Config, s: State, step: Step)
    requires Enabled(c, s, step) && LeavesStore(step)
    ensures Changes(c, s, Next(c, s, step), Mover(step))
  {
    hide Changes;
    var s' := Next(c, s, step);
    match step {
      case Tick(_) => SameStoreChanges(c, s, s', None);
      case BeginAct(t, _) => SameStoreChanges(c, s, s', Some(t));
      case BeginDecide(t, _, _) => SameStoreChanges(c, s, s', Some(t));
      case BeginSweep(t) => SameStoreChanges(c, s, s', Some(t));
      case Acquire(t) => SameStoreChanges(c, s, s', Some(t));
      case Release(t) => ReleaseChanges(c, s, t);
      case Count(t) => CountChanges(c, s, t);
      case List(t, _) => SameStoreChanges(c, s, s', Some(t));
      case Audit(t) => AuditChanges(c, s, t);
      case Publish(t) => SameStoreChanges(c, s, s', Some(t));
      case Abort(t) => SameStoreChanges(c, s, s', Some(t));
    }
  }

  lemma StepChanges(c: Config, s: State, step: Step)
    requires Inv(c, s) && Enabled(c, s, step)
    ensures Changes(c, s, Next(c, s, step), Mover(step))
  {
    hide Inv, Changes, HeapInv, ActiveInv;
    InvParts(c, s, Mover(step));
    if LeavesStore(step) {
      QuietStepChanges(c, s, step);
    } else {
      StoreStepChanges(c, s, step);
    }
  }

  lemma StoreStepChanges(c: Config, s: State, step: Step)
    requires Enabled(c, s, step) && !LeavesStore(step)
    requires HeapInv(c, s) && ActiveInv(c, s) && s.store.next !in s.store.heap && s.past.author.Keys == s.past.expiry.Keys
    requires Mover(step).Some? && Mover(step).value in s.tasks ==>
               TaskOk(c, s, Mover(step).value, s.tasks[Mover(step).value])
    requires forall r :: r in s.store.heap ==> RequestOk(s, s.store.heap[r])
    ensures Changes(c, s, Next(c, s, step), Mover(step))
  {
    hide Changes, HeapInv, ActiveInv;
    match step {
      case Propose(t, id) => ProposeChanges(c, s, t, id);
      case BeginSubmit(t, id, agent) => SubmitsChanges(c, s, t, id, agent);
      case LoseActive(_) => LossChanges(c, s, Next(c, s, step));
      case LoseArchived(_) => LossChanges(c, s, Next(c, s, step));
      case Save(t) => OwnStepChanges(c, s, step, t);
      case Fetch(t) => OwnStepChanges(c, s, step, t);
      case Judge(t) => OwnStepChanges(c, s, step, t);
      case Scan(t) => OwnStepChanges(c, s, step, t);
      case Expire(t) => OwnStepChanges(c, s, step, t);
      case File(t) => OwnStepChanges(c, s, step, t);
    }
  }

  /** The steps of a task that uses the store. */
  lemma OwnStepChanges(c: Config, s: State, step: Step, t: TaskId)
    requires Enabled(c, s, step) && step in {Save(t), Fetch(t), Judge(t), Scan(t), Expire(t), File(t)}
    requires HeapInv(c, s) && ActiveInv(c, s) && s.store.next !in s.store.heap
    requires TaskOk(c, s, t, s.tasks[t])
    requires forall r :: r in s.store.heap ==> RequestOk(s, s.store.heap[r])
    ensures Changes(c, s, Next(c, s, step), Some(t))
  {
    hide Changes, HeapInv, ActiveInv;
    match step {
      case Save(_) => SaveChanges(c, s, Next(c, s, step), t, s.tasks[t].ref);
      case Fetch(_) => FetchChanges(c, s, t, s.tasks[t].id, s.tasks[t].decision);
      case Judge(_) => JudgeChanges(c, s, t, s.tasks[t].id, s.tasks[t].decision, s.tasks[t].ref);
      case Scan(_) => ScanChanges(c, s, t, s.tasks[t].now, s.tasks[t].ids, s.tasks[t].found);
      case Expire(_) => ExpireChanges(c, s, t, s.tasks[t].now, s.tasks[t].found, s.tasks[t].done);
      case File(_) => FileStepChanges(c, s, t);
    }
  }

  lemma SubmitsChanges(c: Config, s: State, t: TaskId, id: Id, agent: Name)
    requires s.store.next !in s.store.heap && id !in s.past.expiry && id !in s.past.author
    ensures Changes(c, s, Submits(c, s, t, id, agent, None), Some(t))
  {
    SubmitsEvolves(c, s, t, id, agent, None);
  }

  lemma LossChanges(c: Config, s: State, s': State)
    requires c.backend == Redis && Lost(s, s')
    ensures Changes(c, s, s', None)
  {
    LossEvolves(c, s, s');
  }
}
