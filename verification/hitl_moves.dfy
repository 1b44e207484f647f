/** Steps that only move a task, or only write the audit log, keep the invariant. */
module HitlMoves {
  import opened Maybe
  import opened HitlProtocol
  import opened HitlInvariant
  import opened HitlFrames

  // ----- steps that only move a task -----

  /** Task `t` moves to `task`, taking or giving up the lock as its new place says. */
  ghost predicate Moves(s: State, s': State, t: TaskId, task: Task) {
    && s'.tasks == s.tasks[t := task]
    && (Holding(task) ==> s'.lock == Some(t) && (s.lock == None || s.lock == Some(t)))
    && (!Holding(task) ==> s'.lock == (if s.lock == Some(t) then None else s.lock))
  }

  lemma MoveKeeps(c: Config, s: State, s': State, t: TaskId, task: Task)
    requires Inv(c, s) && SameStore(s, s') && Moves(s, s', t, task) && TaskOk(c, s', t, task)
    requires s'.audit == s.audit
    ensures Inv(c, s')
  {
    StoreStays(c, s, s', Some(t));
    AuditStays(c, s, s', Some(t));
    TasksStay(c, s, s', t);
  }

  lemma BeginKeeps(c: Config, s: State, t: TaskId, task: Task)
    requires Inv(c, s) && t !in s.tasks
    requires task.Proposing? || (task.Fetching? && !task.holding) || task == Snapshotting(false, s.clock)
    ensures Inv(c, Moved(s, t, task))
  {
    MoveKeeps(c, s, Moved(s, t, task), t, task);
  }

  lemma AcquireKeeps(c: Config, s: State, t: TaskId)
    requires Inv(c, s) && t in s.tasks && s.lock == None && Waiting(s.tasks[t])
    ensures Inv(c, Moved(s, t, Entered(s.tasks[t])).(lock := Some(t)))
  {
    var s' := Moved(s, t, Entered(s.tasks[t])).(lock := Some(t));
    assert TaskOk(c, s, t, s.tasks[t]);
    SameTask(c, s, s', t, Entered(s.tasks[t]));
    MoveKeeps(c, s, s', t, Entered(s.tasks[t]));
  }

  /** With the store and the audit log unchanged, a task's obligations are unchanged. */
  lemma SameTask(c: Config, s: State, s': State, t: TaskId, task: Task)
    requires SameStore(s, s') && TaskOk(c, s, t, task) && s'.audit == s.audit
    ensures TaskOk(c, s', t, task)
  {
    match task
    case Scanning(now, ids, found) =>
      forall i | 0 <= i < |found| ensures StaleOk(c, s', found[i]) { assert StaleOk(c, s, found[i]); }
    case Sweeping(at, now, found, done) =>
      forall i | 0 <= i < |found| ensures StaleOk(c, s', found[i]) { assert StaleOk(c, s, found[i]); }
    case _ =>
  }

  lemma LeftOk(c: Config, s: State, t: TaskId, task: Task)
    requires TaskOk(c, s, t, task) && CanRelease(s, task)
    ensures TaskOk(c, s, t, Left(s, task)) && Holding(task) && !Holding(Left(s, task))
  {
  }

  lemma ReleaseKeeps(c: Config, s: State, t: TaskId)
    requires Inv(c, s) && t in s.tasks && CanRelease(s, s.tasks[t])
    ensures Inv(c, Leave(s, t))
  {
    LeftOk(c, s, t, s.tasks[t]);
    ReleasesTo(c, s, Leave(s, t), t, Left(s, s.tasks[t]));
  }

  lemma ReleasesTo(c: Config, s: State, s': State, t: TaskId, task: Task)
    requires Inv(c, s) && s.lock == Some(t) && TaskOk(c, s, t, task) && !Holding(task)
    requires s' == Freed(Moved(s, t, task)).(gauge := s'.gauge)
    ensures Inv(c, s')
  {
    SameTask(c, s, s', t, task);
    MoveKeeps(c, s, s', t, task);
  }

  lemma CountKeeps(c: Config, s: State, t: TaskId)
    requires Inv(c, s) && t in s.tasks && s.tasks[t].Submitting? && s.tasks[t].submitAt == Counting
    ensures Inv(c, CountStep(c, s, t))
  {
    assert TaskOk(c, s, t, s.tasks[t]) && s.lock == Some(t);
    if |s.store.index| >= c.capacity {
      ReleasesTo(c, s, CountStep(c, s, t), t, Finished(Raised));
    } else {
      var task := s.tasks[t].(submitAt := Saving);
      SameTask(c, s, Moved(s, t, task), t, task);
      MoveKeeps(c, s, Moved(s, t, task), t, task);
    }
  }

  lemma ListKeeps(c: Config, s: State, t: TaskId, ids: seq<Id>)
    requires Inv(c, s) && t in s.tasks && s.tasks[t].Snapshotting? && s.tasks[t].holding
    requires forall id :: id in ids ==> id in s.store.index && s.store.index[id] <= s.tasks[t].now
    ensures Inv(c, Moved(s, t, Scanning(s.tasks[t].now, ids, [])))
  {
    var task := Scanning(s.tasks[t].now, ids, []);
    assert TaskOk(c, s, t, s.tasks[t]);
    SameTask(c, s, Moved(s, t, task), t, task);
    MoveKeeps(c, s, Moved(s, t, task), t, task);
  }

  lemma PublishedOk(c: Config, s: State, t: TaskId, task: Task)
    requires HeapInv(c, s) && TaskOk(c, s, t, task) && CanPublish(s, task)
    ensures TaskOk(c, s, t, Published(s, task)) && !Holding(task) && !Holding(Published(s, task))
  {
    if task.Submitting? { assert RequestOk(s, s.store.heap[task.ref]); }
  }

  lemma PublishKeeps(c: Config, s: State, t: TaskId)
    requires Inv(c, s) && t in s.tasks && CanPublish(s, s.tasks[t])
    ensures Inv(c, Moved(s, t, Published(s, s.tasks[t])))
  {
    var task := Published(s, s.tasks[t]);
    PublishedOk(c, s, t, s.tasks[t]);
    SameTask(c, s, Moved(s, t, task), t, task);
    MoveKeeps(c, s, Moved(s, t, task), t, task);
  }

  lemma AbortKeeps(c: Config, s: State, t: TaskId)
    requires Inv(c, s) && t in s.tasks
    ensures Inv(c, Moved(s, t, Finished(Raised)).(lock := if s.lock == Some(t) then None else s.lock))
  {
    MoveKeeps(c, s, Moved(s, t, Finished(Raised)).(lock := if s.lock == Some(t) then None else s.lock),
              t, Finished(Raised));
  }

  // ----- the audit log -----

  lemma ExecutionRecorded(c: Config, s: State, s': State, t: TaskId, action: Action, gate: Option<Id>)
    requires AuditInv(c, s) && Evolves(c, s, s', Some(t))
    requires TaskOk(c, s, t, Executing(action, gate))
    requires s'.audit == s.audit + [ActionExecuted(t, action, gate)]
    ensures AuditInv(c, s')
  {
    forall j | 0 <= j < |s'.audit| && s'.audit[j].ActionExecuted?
      ensures ProposedBefore(s'.audit, j, s'.audit[j].task, s'.audit[j].action)
      ensures Cleared(c, s', s'.audit[j].task, s'.audit[j].action, s'.audit[j].gate)
    {
      var r := s'.audit[j];
      if j < |s.audit| { assert r == s.audit[j]; }
      assert ProposedBefore(s.audit, j, r.task, r.action);
      var i :| 0 <= i < j && i < |s.audit| && s.audit[i] == ActionProposed(r.task, r.action);
      assert s'.audit[i] == s.audit[i];
      ClearedStays(c, s, s', Some(t), r.task, r.action, r.gate);
    }
  }

  lemma WrittenOk(c: Config, s: State, s': State, t: TaskId, task: Task)
    requires TaskOk(c, s, t, task) && CanAudit(s, task) && SameStore(s, s')
    ensures TaskOk(c, s', t, Written(s, t, task).1) && !Holding(task) && !Holding(Written(s, t, task).1)
  {
    if task.Submitting? && task.act.Some? { ProposedStays(s, s', t, task.act.value); }
  }

  lemma AuditKeeps(c: Config, s: State, t: TaskId)
    requires Inv(c, s) && t in s.tasks && CanAudit(s, s.tasks[t])
    ensures Inv(c, AuditStep(s, t))
  {
    var s' := AuditStep(s, t);
    var task := s.tasks[t];
    WrittenOk(c, s, s', t, task);
    StoreStays(c, s, s', Some(t));
    if task.Executing? {
      ExecutionRecorded(c, s, s', t, task.action, task.gate);
    } else {
      AuditStays(c, s, s', Some(t));
    }
    TasksStay(c, s, s', t);
  }
}
