/** The account is balanced after every undisturbed run of the approval protocol. */
module HitlBalance {
  import opened Maybe
  import opened HitlProtocol
  import opened HitlInvariant
  import opened HitlAccount
  import opened HitlAccounting

  ghost predicate Sound(s: State, a: Account) {
    Balanced(s, a) && TasksOwe(s, a)
  }

  /** Whatever the step: if the task that moves pays its part, the account stays sound. */
  lemma Paid(c: Config, s: State, s': State, a: Account, a': Account, t: TaskId)
    requires Inv(c, s) && Sound(s, a) && t in s'.tasks && s'.tasks == s.tasks[t := s'.tasks[t]]
    requires SameObjects(s, s') && Pays(s, s', a, a', PlaceOf(s, t), s'.tasks[t])
    ensures Sound(s', a')
  {
    hide HeapInv, ActiveInv, ArchivedInv, IndexInv, LogInv, AuditInv, Pays, SameObjects, Balanced, TasksOwe, TasksInv;
    PaidStaysBalanced(c, s, s', a, a', t, PlaceOf(s, t));
  }

  /** A task in its place, with what the invariant and the account say of it. */
  lemma AtPlace(c: Config, s: State, a: Account, t: TaskId)
    requires Inv(c, s) && Sound(s, a) && t in s.tasks
    ensures TaskOk(c, s, t, s.tasks[t]) && TaskOwes(s, a, s.tasks[t]) && PlaceOf(s, t) == s.tasks[t]
    ensures Balanced(s, a) && ActiveInv(c, s) && IndexInv(c, s) && HeapInv(c, s)
  {
    hide HeapInv, ActiveInv, ArchivedInv, IndexInv, LogInv, AuditInv, Balanced, TaskOk, TaskOwes;
  }

  lemma BeginBalances(c: Config, s: State, a: Account, t: TaskId, task: Task)
    requires Inv(c, s) && Sound(s, a) && t !in s.tasks
    requires task.Proposing? || task.Fetching? || task.Snapshotting?
    ensures Sound(Moved(s, t, task), a)
  {
    hide Inv, Balanced, TasksOwe, Pays, SameObjects;
    BeginPays(s, Moved(s, t, task), a, task);
    Paid(c, s, Moved(s, t, task), a, a, t);
  }

  lemma AcquireBalances(c: Config, s: State, a: Account, t: TaskId)
    requires Inv(c, s) && Sound(s, a) && Enabled(c, s, Acquire(t))
    ensures Sound(Next(c, s, Acquire(t)), a)
  {
    hide Inv, Balanced, TasksOwe, Pays, SameObjects, TaskOwes, TaskOk, ActiveInv, IndexInv, HeapInv;
    var s' := Next(c, s, Acquire(t));
    AtPlace(c, s, a, t);
    AcquirePays(s, s', a, s.tasks[t]);
    Paid(c, s, s', a, a, t);
  }

  lemma ReleaseBalances(c: Config, s: State, a: Account, t: TaskId)
    requires Inv(c, s) && Sound(s, a) && Enabled(c, s, Release(t))
    ensures Sound(Next(c, s, Release(t)), AtRelease(s, a, s.tasks[t]))
  {
    hide Inv, Balanced, TasksOwe, Pays, SameObjects, TaskOwes, TaskOk, ActiveInv, IndexInv, HeapInv, CanRelease, AtRelease;
    var s' := Next(c, s, Release(t));
    AtPlace(c, s, a, t);
    ReleasePays(c, s, s', a, t, s.tasks[t]);
    Paid(c, s, s', a, AtRelease(s, a, s.tasks[t]), t);
  }

  lemma CountBalances(c: Config, s: State, a: Account, t: TaskId)
    requires Inv(c, s) && Sound(s, a) && Enabled(c, s, Count(t))
    ensures Sound(Next(c, s, Count(t)), a)
  {
    hide Inv, Balanced, TasksOwe, Pays, SameObjects, TaskOwes, TaskOk, ActiveInv, IndexInv, HeapInv;
    var s' := Next(c, s, Count(t));
    AtPlace(c, s, a, t);
    CountPays(s, s', a, s.tasks[t], s'.tasks[t]);
    Paid(c, s, s', a, a, t);
  }

  lemma SaveBalances(c: Config, s: State, a: Account, t: TaskId)
    requires Inv(c, s) && Sound(s, a) && Enabled(c, s, Save(t))
    ensures Sound(Next(c, s, Save(t)), a)
  {
    hide Inv, Balanced, TasksOwe, Pays, SameObjects, TaskOwes, TaskOk, ActiveInv, IndexInv, HeapInv;
    var s' := Next(c, s, Save(t));
    AtPlace(c, s, a, t);
    SavePays(c, s, s', a, t, s.tasks[t].ref, s.tasks[t].act);
    Paid(c, s, s', a, a, t);
  }

  lemma ListBalances(c: Config, s: State, a: Account, t: TaskId, ids: seq<Id>)
    requires Inv(c, s) && Sound(s, a) && Enabled(c, s, List(t, ids))
    ensures Sound(Next(c, s, List(t, ids)), a)
  {
    hide Inv, Balanced, TasksOwe, Pays, SameObjects, TaskOk, ActiveInv, IndexInv, HeapInv;
    var s' := Next(c, s, List(t, ids));
    AtPlace(c, s, a, t);
    QuietPays(s, s', a, s.tasks[t], s'.tasks[t]);
    Paid(c, s, s', a, a, t);
  }

  lemma AuditBalances(c: Config, s: State, a: Account, t: TaskId)
    requires Inv(c, s) && Sound(s, a) && Enabled(c, s, Audit(t))
    ensures Sound(Next(c, s, Audit(t)), a)
  {
    hide Inv, Balanced, TasksOwe, Pays, SameObjects, TaskOwes, TaskOk, ActiveInv, IndexInv, HeapInv, CanAudit, Written;
    var s' := Next(c, s, Audit(t));
    AtPlace(c, s, a, t);
    AuditPays(s, s', a, t, s.tasks[t]);
    Paid(c, s, s', a, a, t);
  }

  lemma PublishBalances(c: Config, s: State, a: Account, t: TaskId)
    requires Inv(c, s) && Sound(s, a) && Enabled(c, s, Publish(t))
    ensures Sound(Next(c, s, Publish(t)), a)
  {
    hide Inv, Balanced, TasksOwe, Pays, SameObjects, TaskOwes, TaskOk, ActiveInv, IndexInv, HeapInv, CanPublish, Published;
    var s' := Next(c, s, Publish(t));
    AtPlace(c, s, a, t);
    PublishPays(s, s', a, s.tasks[t]);
    Paid(c, s, s', a, a, t);
  }

  /** Steps that make or hand out an object. */
  lemma NewObjectBalances(c: Config, s: State, s': State, a: Account, a': Account, t: TaskId, task': Task)
    requires Inv(c, s) && Sound(s, a) && s'.tasks == s.tasks[t := task']
    requires forall r :: r in s.store.heap ==> r in s'.store.heap && s'.store.heap[r] == s.store.heap[r]
    requires s'.store.active == s.store.active && s'.store.index == s.store.index
    requires s'.past.retired == s.past.retired && s'.past.saved == s.past.saved && a'.inn == a.inn && a'.out == a.out
    requires PlaceOf(s, t).Finished? || PlaceOf(s, t).Proposing? || PlaceOf(s, t).Fetching? || PlaceOf(s, t).Scanning?
    requires (task'.Submitting? && task'.submitAt == AwaitSlot) || (task'.Deciding? && task'.decideAt == Judging)
             || task'.Scanning? || task'.Finished? || task'.Executing?
    ensures Sound(s', a')
  {
    hide Balanced, TasksOwe, Pays, SameObjects, LogInv, AuditInv, TasksInv, ArchivedInv, IndexInv, HeapInv, ActiveInv;
    assert Balanced(s, a);
    NewObjectPays(c, s, s', a, a', PlaceOf(s, t), task');
    Paid(c, s, s', a, a', t);
  }

  lemma SubmitBalances(c: Config, s: State, a: Account, t: TaskId, id: Id, agent: Name)
    requires Inv(c, s) && Sound(s, a) && Enabled(c, s, BeginSubmit(t, id, agent))
    ensures Sound(Next(c, s, BeginSubmit(t, id, agent)), a.(agents := a.agents[id := agent]))
  {
    hide Inv, Sound;
    NextUnused(c, s);
    NewObjectBalances(c, s, Next(c, s, BeginSubmit(t, id, agent)), a, a.(agents := a.agents[id := agent]), t,
                      Submitting(AwaitSlot, s.store.next, None));
  }

  lemma ProposeBalances(c: Config, s: State, a: Account, t: TaskId, id: Id)
    requires Inv(c, s) && Sound(s, a) && Enabled(c, s, Propose(t, id))
    ensures Sound(Next(c, s, Propose(t, id)), Posted(c, s, a, Propose(t, id)))
  {
    hide Inv, Sound;
    NextUnused(c, s);
    var s' := Next(c, s, Propose(t, id));
    NewObjectBalances(c, s, s', a, Posted(c, s, a, Propose(t, id)), t, s'.tasks[t]);
  }

  lemma FetchBalances(c: Config, s: State, a: Account, t: TaskId)
    requires Inv(c, s) && Sound(s, a) && Enabled(c, s, Fetch(t))
    ensures Sound(Next(c, s, Fetch(t)), a)
  {
    hide Inv, Sound;
    NextUnused(c, s);
    var s' := Next(c, s, Fetch(t));
    NewObjectBalances(c, s, s', a, a, t, s'.tasks[t]);
  }

  lemma ScanBalances(c: Config, s: State, a: Account, t: TaskId)
    requires Inv(c, s) && Sound(s, a) && Enabled(c, s, Scan(t))
    ensures Sound(Next(c, s, Scan(t)), a)
  {
    hide Inv, Sound;
    NextUnused(c, s);
    var s' := Next(c, s, Scan(t));
    NewObjectBalances(c, s, s', a, a, t, s'.tasks[t]);
  }

  /** What a decision about to be judged knows of its request. */
  lemma JudgedRequest(c: Config, s: State, a: Account, t: TaskId)
    requires Inv(c, s) && Sound(s, a) && Enabled(c, s, Judge(t))
    ensures var id := s.tasks[t].id;
      && s.store.heap[s.tasks[t].ref].id == id && id in s.past.saved && id in s.store.active && id in s.store.index
      && s.tasks[t] == Deciding(Judging, id, s.tasks[t].decision, s.tasks[t].ref, false)
  {
    hide HeapInv, ActiveInv, ArchivedInv, LogInv, AuditInv;
    assert TaskOk(c, s, t, s.tasks[t]);
    assert s.store.active.Keys == s.store.index.Keys;
  }

  lemma RefusedPays(s: State, s': State, a: Account, task: Task)
    requires Balanced(s, a) && task.Deciding? && task.decideAt == Judging && s'.store == s.store && s'.past == s.past
    requires !task.late
    ensures SameObjects(s, s') && Pays(s, s', a, a, task, Finished(Raised))
  {
    QuietPays(s, s', a, task, Finished(Raised));
  }

  lemma KeptObjects(s: State, s': State, id: Id)
    requires ClosesOnly(s, s', id)
    ensures SameObjects(s, s')
  {
  }

  lemma LateBalances(c: Config, s: State, s': State, a: Account, t: TaskId, id: Id, decision: Status, ref: Ref)
    requires Inv(c, s) && Sound(s, a) && t in s.tasks && s.tasks[t] == Deciding(Judging, id, decision, ref, false)
    requires ref in s.store.heap && s.store.heap[ref].id == id && s'.store == Marked(s, ref, EXPIRED).store && s'.past == s.past
    requires s'.tasks == s.tasks[t := Deciding(AwaitFiling, id, decision, ref, true)]
    ensures Sound(s', a)
  {
    hide Inv, Sound, Balanced, TasksOwe, Pays, TaskOwes, TaskOk, ActiveInv, IndexInv, HeapInv, ClosesOnly, SameObjects;
    AtPlace(c, s, a, t);
    MarkClosesOnly(c, s, s', ref, EXPIRED);
    JudgedPays(s, s', a, id, decision, ref, AwaitFiling, true);
    KeptObjects(s, s', id);
    Paid(c, s, s', a, a, t);
  }

  lemma AcceptBalances(c: Config, s: State, s': State, a: Account, t: TaskId, id: Id, decision: Status, ref: Ref)
    requires Inv(c, s) && Sound(s, a) && t in s.tasks && s.tasks[t] == Deciding(Judging, id, decision, ref, false)
    requires ref in s.store.heap && s.store.heap[ref].id == id && id in s.store.active && id in s.store.index
    requires s'.store == Saves(c, Marked(s, ref, decision), ref).store
    requires s'.past.saved == s.past.saved && s'.past.retired == s.past.retired
    requires s'.tasks == s.tasks[t := Deciding(Persisted, id, decision, ref, false)]
    ensures Sound(s', a)
  {
    hide Inv, Sound, Balanced, TasksOwe, Pays, TaskOwes, TaskOk, ActiveInv, IndexInv, HeapInv, ClosesOnly, SameObjects;
    AtPlace(c, s, a, t);
    AcceptClosesOnly(c, s, s', ref, decision);
    JudgedPays(s, s', a, id, decision, ref, Persisted, false);
    KeptObjects(s, s', id);
    Paid(c, s, s', a, a, t);
  }

  lemma RefuseBalances(c: Config, s: State, s': State, a: Account, t: TaskId)
    requires Inv(c, s) && Sound(s, a) && t in s.tasks && s.tasks[t].Deciding? && s.tasks[t].decideAt == Judging && !s.tasks[t].late
    requires s'.store == s.store && s'.past == s.past && s'.tasks == s.tasks[t := Finished(Raised)]
    ensures Sound(s', a)
  {
    hide Inv, Sound, Balanced, TasksOwe, Pays, TaskOwes, TaskOk, ActiveInv, IndexInv, HeapInv, SameObjects;
    AtPlace(c, s, a, t);
    RefusedPays(s, s', a, s.tasks[t]);
    Paid(c, s, s', a, a, t);
  }

  lemma JudgeBalances(c: Config, s: State, a: Account, t: TaskId)
    requires Inv(c, s) && Sound(s, a) && Enabled(c, s, Judge(t))
    ensures Sound(Next(c, s, Judge(t)), a)
  {
    hide Inv, Sound;
    JudgedRequest(c, s, a, t);
    var s' := JudgeStep(c, s, t);
    var Deciding(_, id, decision, ref, _) := s.tasks[t];
    if s.store.heap[ref].status != PENDING || decision !in {APPROVED, REJECTED} {
      RefuseBalances(c, s, s', a, t);
    } else if s.clock >= s.store.heap[ref].expiresAt {
      LateBalances(c, s, s', a, t, id, decision, ref);
    } else {
      assert s'.past.saved == s.past.saved + {id} == s.past.saved;
      AcceptBalances(c, s, s', a, t, id, decision, ref);
    }
  }

  lemma SweepDonePays(s: State, s': State, a: Account, task: Task)
    requires Balanced(s, a) && task.Sweeping? && task.sweepAt == Expiring && s'.store == s.store && s'.past == s.past
    ensures SameObjects(s, s') && Pays(s, s', a, a, task, Finished(Returned))
  {
    QuietPays(s, s', a, task, Finished(Returned));
  }

  lemma ExpiredBalances(c: Config, s: State, s': State, a: Account, t: TaskId, q: Request, now: int, found: seq<Ref>, k: nat)
    requires Inv(c, s) && Sound(s, a) && t in s.tasks && s.tasks[t] == Sweeping(Expiring, now, found, k)
    requires k < |found| && found[k] in s.store.heap && s.store.heap[found[k]] == q && q.id in s.past.saved
    requires s'.store == Marked(s, found[k], EXPIRED).store && s'.past == s.past
    requires s'.tasks == s.tasks[t := Sweeping(Auditing, now, found, k)]
    ensures Sound(s', CountedOut(a, q.id, q.agent))
  {
    hide Inv, Sound, Balanced, TasksOwe, Pays, TaskOwes, TaskOk, ActiveInv, IndexInv, HeapInv, ClosesOnly, SameObjects, CountedOut;
    AtPlace(c, s, a, t);
    MarkClosesOnly(c, s, s', found[k], EXPIRED);
    ExpiredPays(s, s', a, q.id, now, found, k, q.agent);
    KeptObjects(s, s', q.id);
    Paid(c, s, s', a, CountedOut(a, q.id, q.agent), t);
  }

  lemma SweepDoneBalances(c: Config, s: State, s': State, a: Account, t: TaskId)
    requires Inv(c, s) && Sound(s, a) && t in s.tasks && s.tasks[t].Sweeping? && s.tasks[t].sweepAt == Expiring
    requires s'.store == s.store && s'.past == s.past && s'.tasks == s.tasks[t := Finished(Returned)]
    ensures Sound(s', a)
  {
    hide Inv, Sound, Balanced, TasksOwe, Pays, TaskOwes, TaskOk, ActiveInv, IndexInv, HeapInv, SameObjects;
    AtPlace(c, s, a, t);
    SweepDonePays(s, s', a, s.tasks[t]);
    Paid(c, s, s', a, a, t);
  }

  lemma ExpiredSaved(c: Config, s: State, a: Account, t: TaskId)
    requires Inv(c, s) && Sound(s, a) && Enabled(c, s, Expire(t)) && s.tasks[t].done < |s.tasks[t].found|
    ensures s.store.heap[s.tasks[t].found[s.tasks[t].done]].id in s.past.saved
  {
    AtPlace(c, s, a, t);
    hide Inv, Sound, Balanced, IndexInv, HeapInv, ActiveInv;
    assert StaleOk(c, s, s.tasks[t].found[s.tasks[t].done]);
  }

  lemma ExpireBalances(c: Config, s: State, a: Account, t: TaskId)
    requires Inv(c, s) && Sound(s, a) && Enabled(c, s, Expire(t))
    ensures Sound(Next(c, s, Expire(t)), Posted(c, s, a, Expire(t)))
  {
    hide Inv, Sound;
    var s' := ExpireStep(s, t);
    var Sweeping(_, now, found, done) := s.tasks[t];
    if done < |found| {
      ExpiredSaved(c, s, a, t);
      ExpiredBalances(c, s, s', a, t, s.store.heap[found[done]], now, found, done);
    } else {
      SweepDoneBalances(c, s, s', a, t);
    }
  }

  lemma FiledObjects(s: State, s': State, id: Id)
    requires FilesOnly(s, s', id)
    ensures SameObjects(s, s')
  {
  }

  lemma DecisionFiledBalances(c: Config, s: State, s': State, a: Account, t: TaskId, id: Id, decision: Status, ref: Ref, late: bool)
    requires Inv(c, s) && Sound(s, a) && t in s.tasks && s.tasks[t] == Deciding(Filing, id, decision, ref, late)
    requires ref in s.store.heap && s' == Moved(Archives(c, s, id, ref), t, Deciding(Filed, id, decision, ref, late))
    ensures Sound(s', a)
  {
    hide Inv, Sound, Balanced, TasksOwe, Pays, TaskOwes, TaskOk, ActiveInv, IndexInv, HeapInv, FilesOnly, SameObjects;
    AtPlace(c, s, a, t);
    ArchiveFilesOnly(c, s, s', id, ref);
    DecisionFiledPays(s, s', a, id, decision, ref, late);
    FiledObjects(s, s', id);
    Paid(c, s, s', a, a, t);
  }

  lemma SweptFiledBalances(c: Config, s: State, s': State, a: Account, t: TaskId, id: Id, now: int, found: seq<Ref>, k: nat)
    requires Inv(c, s) && Sound(s, a) && t in s.tasks && s.tasks[t] == Sweeping(Shelving, now, found, k)
    requires k < |found| && found[k] in s.store.heap && s.store.heap[found[k]].id == id
    requires s' == Moved(Archives(c, s, id, found[k]), t, Sweeping(Shelved, now, found, k))
    ensures Sound(s', a)
  {
    hide Inv, Sound, Balanced, TasksOwe, Pays, TaskOwes, TaskOk, ActiveInv, IndexInv, HeapInv, FilesOnly, SameObjects;
    AtPlace(c, s, a, t);
    ArchiveFilesOnly(c, s, s', id, found[k]);
    SweptFiledPays(s, s', a, id, now, found, k);
    FiledObjects(s, s', id);
    Paid(c, s, s', a, a, t);
  }

  lemma FileBalances(c: Config, s: State, a: Account, t: TaskId)
    requires Inv(c, s) && Sound(s, a) && Enabled(c, s, File(t))
    ensures Sound(Next(c, s, File(t)), a)
  {
    hide Inv, Sound;
    var s' := FileStep(c, s, t);
    match s.tasks[t]
    case Deciding(_, id, decision, ref, late) => DecisionFiledBalances(c, s, s', a, t, id, decision, ref, late);
    case Sweeping(_, now, found, done) =>
      SweptFiledBalances(c, s, s', a, t, s.store.heap[found[done]].id, now, found, done);
  }

  lemma TickBalances(c: Config, s: State, a: Account, seconds: nat)
    requires Sound(s, a)
    ensures Sound(Next(c, s, Tick(seconds)), a)
  {
    var s' := Next(c, s, Tick(seconds));
    assert forall id :: Closed(s', id) <==> Closed(s, id);
    assert forall id :: (OwedIn(s', id) <==> OwedIn(s, id)) && (OwedOut(s', id) <==> OwedOut(s, id));
    assert forall id :: OwedFiling(s', id) <==> OwedFiling(s, id);
    assert forall t :: t in s.tasks ==> TaskOwes(s, a, s.tasks[t]) && TaskOwes(s', a, s'.tasks[t]);
  }
}
