/** Archiving a request keeps the invariant. */
module HitlArchiving {
  import opened Maybe
  import opened HitlProtocol
  import opened HitlInvariant
  import opened HitlFrames
  import opened HitlOneEntry

  // ----- archiving -----

  /** `s'` is `s` after object `ref`, no longer PENDING, was archived under `id`. */
  ghost predicate Files(c: Config, s: State, s': State, id: Id, ref: Ref) {
    && ref in s.store.heap && s.store.heap[ref].id == id && id in s.past.saved && s.store.heap[ref].status != PENDING
    && (id in s.past.verdict ==> s.store.heap[ref].status == s.past.verdict[id])
    && s' == Archives(c, s, id, ref).(tasks := s'.tasks)
  }

  lemma FileEvolves(c: Config, s: State, s': State, id: Id, ref: Ref, mover: Option<TaskId>)
    requires Files(c, s, s', id, ref)
    ensures Evolves(c, s, s', mover)
  {
    forall r | r in s.store.heap ensures r in s'.store.heap && SameRequest(c, s, s.store.heap[r], s'.store.heap[r], r) {}
  }

  lemma Dropped(index: map<Id, int>, id: Id)
    ensures (index - {id}).Keys == index.Keys - {id} && |index - {id}| <= |index|
  {
    assert |(index - {id}).Keys| == |index - {id}| && |index.Keys| == |index|;
  }

  lemma Retired(saved: set<Id>, retired: set<Id>, id: Id)
    ensures saved - (retired + {id}) == (saved - retired) - {id}
  {
  }

  lemma FileIndex(c: Config, s: State, s': State, id: Id, ref: Ref)
    requires IndexInv(c, s) && Files(c, s, s', id, ref)
    ensures IndexInv(c, s')
  {
    Dropped(s.store.index, id);
    assert s'.store.index == s.store.index - {id};
    assert s'.store.active.Keys == s.store.active.Keys - {id};
    Retired(s.past.saved, s.past.retired, id);
  }

  lemma FileEntries(c: Config, s: State, s': State, id: Id, ref: Ref)
    requires HeapInv(c, s) && ActiveInv(c, s) && ArchivedInv(c, s) && Files(c, s, s', id, ref)
    ensures HeapInv(c, s') && ActiveInv(c, s') && ArchivedInv(c, s')
  {
    FileEvolves(c, s, s', id, ref, None);
    HeapGrows(c, s, s', None);
    ActiveStays(c, s, s', None, id);
    assert ArchivedOk(c, s', id, s'.store.archived[id]) by {
      RequestStays(c, s, s', None, s.store.heap[ref]);
    }
    ArchivedStays(c, s, s', None, id);
  }

  lemma FilesKeep(c: Config, s: State, s': State, t: TaskId, id: Id, ref: Ref)
    requires Inv(c, s) && Files(c, s, s', id, ref) && s.lock == Some(t)
    requires t in s'.tasks && s'.tasks == s.tasks[t := s'.tasks[t]]
    requires Holding(s'.tasks[t]) && TaskOk(c, s', t, s'.tasks[t])
    ensures Inv(c, s')
  {
    hide HeapInv, AuditInv, ActiveInv, ArchivedInv, IndexInv, LogInv, Evolves;
    FileEvolves(c, s, s', id, ref, Some(t));
    FileIndex(c, s, s', id, ref);
    FileEntries(c, s, s', id, ref);
    LogStays(c, s, s', Some(t));
    AuditStays(c, s, s', Some(t));
    TasksStay(c, s, s', t);
  }

  lemma FileDecisionKeeps(c: Config, s: State, s': State, t: TaskId, id: Id, decision: Status, ref: Ref, late: bool)
    requires Inv(c, s) && t in s.tasks && s.tasks[t] == Deciding(Filing, id, decision, ref, late)
    requires ref in s.store.heap
    requires s' == Moved(Archives(c, s, id, ref), t, Deciding(Filed, id, decision, ref, late))
    ensures Inv(c, s')
  {
    assert TaskOk(c, s, t, s.tasks[t]) && s.lock == Some(t);
    assert RequestOk(s, s.store.heap[ref]);
    assert Files(c, s, s', id, ref);
    FileDecisionTask(c, s, s', t, id, decision, ref, late);
    FilesKeep(c, s, s', t, id, ref);
  }

  lemma FileDecisionTask(c: Config, s: State, s': State, t: TaskId, id: Id, decision: Status, ref: Ref, late: bool)
    requires TaskOk(c, s, t, Deciding(Filing, id, decision, ref, late)) && Files(c, s, s', id, ref)
    ensures TaskOk(c, s', t, Deciding(Filed, id, decision, ref, late))
  {
  }

  lemma FileSweptKeeps(c: Config, s: State, s': State, t: TaskId, now: int, found: seq<Ref>, done: nat)
    requires Inv(c, s) && t in s.tasks && s.tasks[t] == Sweeping(Shelving, now, found, done)
    requires done < |found| && found[done] in s.store.heap
    requires s' == Moved(Archives(c, s, s.store.heap[found[done]].id, found[done]), t, Sweeping(Shelved, now, found, done))
    ensures Inv(c, s')
  {
    assert TaskOk(c, s, t, s.tasks[t]) && s.lock == Some(t);
    var id := s.store.heap[found[done]].id;
    assert StaleOk(c, s, found[done]) && Files(c, s, s', id, found[done]);
    FileSweptTask(c, s, s', t, now, found, done);
    FilesKeep(c, s, s', t, id, found[done]);
  }

  lemma FileSweptTask(c: Config, s: State, s': State, t: TaskId, now: int, found: seq<Ref>, done: nat)
    requires SweepingOk(c, s, Shelving, now, found, done)
    requires Files(c, s, s', s.store.heap[found[done]].id, found[done])
    ensures TaskOk(c, s', t, Sweeping(Shelved, now, found, done))
  {
    forall i | 0 <= i < |found| ensures StaleOk(c, s', found[i]) { assert StaleOk(c, s, found[i]); }
  }

  lemma FileKeeps(c: Config, s: State, t: TaskId)
    requires Inv(c, s) && t in s.tasks && CanFile(s, s.tasks[t])
    ensures Inv(c, FileStep(c, s, t))
  {
    hide HeapInv, AuditInv, ActiveInv, ArchivedInv, IndexInv, LogInv, TasksInv;
    match s.tasks[t]
    case Deciding(_, id, decision, ref, late) =>
      FileDecisionKeeps(c, s, FileStep(c, s, t), t, id, decision, ref, late);
    case Sweeping(_, now, found, done) =>
      FileSweptKeeps(c, s, FileStep(c, s, t), t, now, found, done);
  }
}
