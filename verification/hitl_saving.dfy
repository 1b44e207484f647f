/** Saving a submission keeps the invariant. */
module HitlSaving {
  import opened Maybe
  import opened HitlProtocol
  import opened HitlInvariant
  import opened HitlFrames
  import opened HitlOneEntry

  // ----- saving a submission -----

  lemma SaveEvolves(c: Config, s: State, t: TaskId, s': State, ref: Ref)
    requires SubmittingOk(c, s, t, Saving, ref)
    requires s' == Saves(c, s, ref).(tasks := s'.tasks)
    ensures Evolves(c, s, s', Some(t))
  {
    forall r | r in s.store.heap ensures r in s'.store.heap && SameRequest(c, s, s.store.heap[r], s'.store.heap[r], r) {}
  }

  lemma OneMoreKey<V>(m: map<Id, V>, m': map<Id, V>, id: Id, v: V)
    requires m' == m[id := v]
    ensures m'.Keys == m.Keys + {id}
    ensures id !in m ==> |m'| == |m| + 1
  {
    assert m'.Keys == m.Keys + {id};
  }

  lemma OneMoreMember(index: set<Id>, index': set<Id>, saved: set<Id>, retired: set<Id>, id: Id)
    requires index == saved - retired && index' == index + {id} && id !in retired
    ensures index' == (saved + {id}) - retired
  {
  }

  lemma IndexOneMore(c: Config, s: State, s': State, id: Id, v: int)
    requires IndexInv(c, s) && id !in s.past.saved && id in s.past.expiry && s.past.expiry[id] == v
    requires s'.store.index == s.store.index[id := v] && |s.store.index| < c.capacity
    requires s'.past == s.past.(saved := s.past.saved + {id})
    requires c.backend == InMemory ==> s'.store.active.Keys == s.store.active.Keys + {id}
    ensures IndexInv(c, s')
  {
    assert id !in s.store.index.Keys;
    OneMoreKey(s.store.index, s'.store.index, id, v);
    OneMoreMember(s.store.index.Keys, s'.store.index.Keys, s.past.saved, s.past.retired, id);
    Deadlines(s.store.index, s'.store.index, s.past.expiry, id, v);
  }

  lemma SaveIndex(c: Config, s: State, t: TaskId, s': State, ref: Ref)
    requires IndexInv(c, s) && SubmittingOk(c, s, t, Saving, ref)
    requires RequestOk(s, s.store.heap[ref]) && s' == Saves(c, s, ref).(tasks := s'.tasks)
    ensures IndexInv(c, s')
  {
    var q := s.store.heap[ref];
    hide IndexInv;
    OneMoreKey(s.store.active, s'.store.active, q.id, Stored(c, ref, q));
    IndexOneMore(c, s, s', q.id, q.expiresAt);
  }

  lemma Deadlines(index: map<Id, int>, index': map<Id, int>, expiry: map<Id, int>, id: Id, v: int)
    requires index' == index[id := v] && id in expiry && expiry[id] == v
    requires forall i :: i in index ==> i in expiry && index[i] == expiry[i]
    ensures forall i :: i in index' ==> i in expiry && index'[i] == expiry[i]
  {
  }

  /** The entry just saved, and an archived one: of another request, as this one was not saved before. */
  lemma SavedEntry(c: Config, s: State, t: TaskId, s': State, ref: Ref)
    requires HeapInv(c, s) && IndexInv(c, s) && ArchivedInv(c, s) && SubmittingOk(c, s, t, Saving, ref)
    requires s' == Saves(c, s, ref).(tasks := s'.tasks)
    ensures var id := s.store.heap[ref].id;
      && id in s'.store.active && EntryOk(c, s', id, s'.store.active[id]) && id in s'.store.index && id !in s.store.archived
  {
    SaveEvolves(c, s, t, s', ref);
    RequestStays(c, s, s', Some(t), s.store.heap[ref]);
  }

  lemma SaveEntries(c: Config, s: State, t: TaskId, s': State, ref: Ref)
    requires HeapInv(c, s) && IndexInv(c, s) && ActiveInv(c, s) && ArchivedInv(c, s)
    requires SubmittingOk(c, s, t, Saving, ref)
    requires s' == Saves(c, s, ref).(tasks := s'.tasks)
    ensures ActiveInv(c, s') && ArchivedInv(c, s')
  {
    SaveEvolves(c, s, t, s', ref);
    SavedEntry(c, s, t, s', ref);
    hide HeapInv, IndexInv, ActiveInv, ArchivedInv, EntryOk, Evolves;
    ActiveStays(c, s, s', Some(t), s.store.heap[ref].id);
    ArchivedStays(c, s, s', Some(t), s.store.heap[ref].id);
  }

  lemma SaveHeap(c: Config, s: State, t: TaskId, s': State, ref: Ref)
    requires HeapInv(c, s) && SubmittingOk(c, s, t, Saving, ref)
    requires s' == Saves(c, s, ref).(tasks := s'.tasks)
    ensures HeapInv(c, s')
  {
    SaveEvolves(c, s, t, s', ref);
    HeapGrows(c, s, s', Some(t));
  }

  lemma SaveStore(c: Config, s: State, t: TaskId, s': State, ref: Ref)
    requires HeapInv(c, s) && IndexInv(c, s) && ActiveInv(c, s) && ArchivedInv(c, s)
    requires SubmittingOk(c, s, t, Saving, ref)
    requires s' == Saves(c, s, ref).(tasks := s'.tasks)
    ensures HeapInv(c, s') && IndexInv(c, s') && ActiveInv(c, s') && ArchivedInv(c, s')
  {
    SaveEvolves(c, s, t, s', ref);
    SaveHeap(c, s, t, s', ref);
    SaveEntries(c, s, t, s', ref);
    assert RequestOk(s, s.store.heap[ref]);
    SaveIndex(c, s, t, s', ref);
  }

  lemma SaveKeeps(c: Config, s: State, t: TaskId, s': State, ref: Ref, act: Option<Action>)
    requires Inv(c, s) && t in s.tasks && s.tasks[t] == Submitting(Saving, ref, act) && ref in s.store.heap
    requires s' == Moved(Saves(c, s, ref), t, Submitting(Saved, ref, act))
    ensures Inv(c, s')
  {
    assert TaskOk(c, s, t, s.tasks[t]) && s.lock == Some(t);
    SaveEvolves(c, s, t, s', ref);
    SaveStore(c, s, t, s', ref);
    AuditStays(c, s, s', Some(t));
    LogStays(c, s, s', Some(t));
    SavedTask(c, s, s', t, ref, act);
    TasksStay(c, s, s', t);
  }

  lemma SavedTask(c: Config, s: State, s': State, t: TaskId, ref: Ref, act: Option<Action>)
    requires TaskOk(c, s, t, Submitting(Saving, ref, act)) && s' == Saves(c, s, ref).(tasks := s'.tasks)
    ensures TaskOk(c, s', t, Submitting(Saved, ref, act))
  {
  }
}
