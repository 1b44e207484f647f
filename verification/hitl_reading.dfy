/** Reading a request out of the store, for a decision or a sweep, keeps the invariant. */
module HitlReading {
  import opened Maybe
  import opened HitlProtocol
  import opened HitlInvariant
  import opened HitlFrames
  import opened HitlOneEntry
  import opened HitlMoves

  // ----- reading a request out of the store -----

  /** `s'` is `s` after handing out active entry `id` as `ref`; Redis puts a new object there. */
  ghost predicate HandsOut(c: Config, s: State, s': State, id: Id, ref: Ref) {
    && id in s.store.active && Readable(s, s.store.active[id])
    && Handed(s, s.store.active[id]) == (ref, s'.store)
    && s' == s.(store := s'.store, tasks := s'.tasks)
  }

  lemma HandsOutEvolves(c: Config, s: State, s': State, id: Id, ref: Ref, mover: Option<TaskId>)
    requires HeapInv(c, s) && ActiveInv(c, s) && HandsOut(c, s, s', id, ref)
    ensures Evolves(c, s, s', mover) && Excluded(c, s, s')
    ensures forall r :: r in s.store.heap ==> s'.store.heap[r] == s.store.heap[r]
  {
    assert EntryOk(c, s, id, s.store.active[id]);
    forall r | r in s.store.heap ensures r in s'.store.heap && SameRequest(c, s, s.store.heap[r], s'.store.heap[r], r) {}
  }

  lemma HandsOutHeap(c: Config, s: State, s': State, id: Id, ref: Ref)
    requires HeapInv(c, s) && ActiveInv(c, s) && HandsOut(c, s, s', id, ref)
    ensures HeapInv(c, s')
  {
    HandsOutEvolves(c, s, s', id, ref, None);
    assert EntryOk(c, s, id, s.store.active[id]);
    RequestStays(c, s, s', None, Read(s, s.store.active[id]));
    HeapGrows(c, s, s', None);
  }

  lemma HandsOutEntries(c: Config, s: State, s': State, id: Id, ref: Ref)
    requires HeapInv(c, s) && IndexInv(c, s) && ActiveInv(c, s) && ArchivedInv(c, s)
    requires HandsOut(c, s, s', id, ref)
    ensures ActiveInv(c, s') && ArchivedInv(c, s')
  {
    HandsOutEvolves(c, s, s', id, ref, None);
    EntryStays(c, s, s', None, id, s.store.active[id]);
    ActiveStays(c, s, s', None, id);
    assert id !in s.store.archived;
    ArchivedStays(c, s, s', None, id);
  }

  lemma HandsOutStore(c: Config, s: State, s': State, id: Id, ref: Ref)
    requires HeapInv(c, s) && IndexInv(c, s) && ActiveInv(c, s) && ArchivedInv(c, s) && LogInv(s)
    requires HandsOut(c, s, s', id, ref)
    ensures HeapInv(c, s') && IndexInv(c, s') && ActiveInv(c, s') && ArchivedInv(c, s') && LogInv(s')
  {
    HandsOutHeap(c, s, s', id, ref);
    HandsOutEvolves(c, s, s', id, ref, None);
    LogStays(c, s, s', None);
    HandsOutEntries(c, s, s', id, ref);
  }

  lemma HandsOutGood(c: Config, s: State, s': State, id: Id, ref: Ref)
    requires HeapInv(c, s) && IndexInv(c, s) && ActiveInv(c, s) && LogInv(s) && HandsOut(c, s, s', id, ref)
    ensures FetchedOk(c, s', ref) && s'.store.heap[ref] == Read(s, s.store.active[id]) && s'.store.heap[ref].id == id
    ensures id !in s'.past.retired && (s'.store.heap[ref].status == PENDING ==> id !in s'.past.verdict)
    ensures c.backend == InMemory ==> s'.store.active[id] == Alias(ref)
    ensures id in s.past.expiry && s'.store.heap[ref].expiresAt == s.past.expiry[id]
  {
    assert EntryOk(c, s, id, s.store.active[id]);
  }

  lemma FetchFinds(c: Config, s: State, s': State, t: TaskId, id: Id, decision: Status, ref: Ref)
    requires Inv(c, s) && s.lock == Some(t) && HandsOut(c, s, s', id, ref)
    requires s'.tasks == s.tasks[t := Deciding(Judging, id, decision, ref, false)] && s'.lock == s.lock
    ensures Inv(c, s')
  {
    HandsOutEvolves(c, s, s', id, ref, Some(t));
    HandsOutStore(c, s, s', id, ref);
    HandsOutGood(c, s, s', id, ref);
    assert DecidingOk(c, s', t, Judging, id, decision, ref, false);
    AuditStays(c, s, s', Some(t));
    TasksStay(c, s, s', t);
  }

  lemma FetchKeeps(c: Config, s: State, t: TaskId)
    requires Inv(c, s) && t in s.tasks && s.tasks[t].Fetching? && s.tasks[t].holding
    requires s.tasks[t].id in s.store.active ==> Readable(s, s.store.active[s.tasks[t].id])
    ensures Inv(c, FetchStep(s, t))
  {
    var Fetching(_, id, decision) := s.tasks[t];
    assert s.lock == Some(t);
    if id !in s.store.active {
      ReleasesTo(c, s, FetchStep(s, t), t, Finished(Raised));
    } else {
      FetchFinds(c, s, FetchStep(s, t), t, id, decision, Handed(s, s.store.active[id]).0);
    }
  }

  lemma ScanTask(c: Config, s: State, s': State, t: TaskId, ref: Ref)
    requires HeapInv(c, s) && t in s.tasks && s.tasks[t].Scanning? && s.tasks[t].ids != []
    requires TaskOk(c, s, t, s.tasks[t]) && Evolves(c, s, s', Some(t))
    requires StaleOk(c, s', ref)
    ensures TaskOk(c, s', t, Scanning(s.tasks[t].now, s.tasks[t].ids[1..], s.tasks[t].found + [ref]))
  {
    var found := s.tasks[t].found;
    forall i | 0 <= i < |found + [ref]| ensures StaleOk(c, s', (found + [ref])[i]) {
      if i < |found| { StaleStays(c, s, s', Some(t), found[i]); }
    }
  }

  lemma ScanFinds(c: Config, s: State, s': State, t: TaskId, id: Id, ref: Ref)
    requires Inv(c, s) && t in s.tasks && s.tasks[t].Scanning? && s.tasks[t].ids != [] && s.tasks[t].ids[0] == id
    requires s.lock == Some(t) && HandsOut(c, s, s', id, ref) && Read(s, s.store.active[id]).status == PENDING
    requires s'.tasks == s.tasks[t := Scanning(s.tasks[t].now, s.tasks[t].ids[1..], s.tasks[t].found + [ref])]
    requires s'.lock == s.lock
    ensures Inv(c, s')
  {
    hide AuditInv, ActiveInv, ArchivedInv, LogInv, Evolves;
    HandsOutEvolves(c, s, s', id, ref, Some(t));
    HandsOutStore(c, s, s', id, ref);
    HandsOutGood(c, s, s', id, ref);
    assert TaskOk(c, s, t, s.tasks[t]);
    assert StaleOk(c, s', ref);
    ScanTask(c, s, s', t, ref);
    AuditStays(c, s, s', Some(t));
    TasksStay(c, s, s', t);
  }

  lemma ScanSkips(c: Config, s: State, t: TaskId, now: int, ids: seq<Id>, found: seq<Ref>)
    requires Inv(c, s) && t in s.tasks && s.tasks[t] == Scanning(now, ids, found) && ids != []
    ensures Inv(c, Moved(s, t, Scanning(now, ids[1..], found)))
  {
    var task := Scanning(now, ids[1..], found);
    assert TaskOk(c, s, t, s.tasks[t]) && s.lock == Some(t);
    SameTask(c, s, Moved(s, t, task), t, task);
    MoveKeeps(c, s, Moved(s, t, task), t, task);
  }

  lemma ScanKeeps(c: Config, s: State, t: TaskId)
    requires Inv(c, s) && t in s.tasks && s.tasks[t].Scanning? && s.tasks[t].ids != []
    requires s.tasks[t].ids[0] in s.store.active ==> Readable(s, s.store.active[s.tasks[t].ids[0]])
    ensures Inv(c, ScanStep(s, t))
  {
    var Scanning(now, ids, found) := s.tasks[t];
    if ids[0] !in s.store.active || Read(s, s.store.active[ids[0]]).status != PENDING {
      ScanSkips(c, s, t, now, ids, found);
    } else {
      assert s.lock == Some(t);
      ScanFinds(c, s, ScanStep(s, t), t, ids[0], Handed(s, s.store.active[ids[0]]).0);
    }
  }
}
