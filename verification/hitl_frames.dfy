/** What the steps of the approval protocol have in common when they keep the invariant. */
module HitlFrames {
  import opened Maybe
  import opened HitlProtocol
  import opened HitlInvariant

  // ----- parts shared by many steps -----

  /** One task moves: its own obligations plus `TaskStays` for the rest give the task part of the invariant. */
  lemma TasksStay(c: Config, s: State, s': State, t: TaskId)
    requires Inv(c, s) && Evolves(c, s, s', Some(t))
    requires t in s'.tasks && s'.tasks == s.tasks[t := s'.tasks[t]]
    requires TaskOk(c, s', t, s'.tasks[t])
    requires s.lock != Some(t) ==> Excluded(c, s, s')
    requires Holding(s'.tasks[t]) <==> s'.lock == Some(t)
    requires s'.lock == Some(t) ==> s.lock == None || s.lock == Some(t)
    requires s'.lock != Some(t) ==> s'.lock == (if s.lock == Some(t) then None else s.lock)
    ensures TasksInv(c, s')
  {
    forall u | u in s'.tasks
      ensures TaskOk(c, s', u, s'.tasks[u]) && (Holding(s'.tasks[u]) <==> s'.lock == Some(u))
    {
      if u != t {
        assert s'.tasks[u] == s.tasks[u];
        TaskStays(c, s, s', Some(t), u, s.tasks[u]);
      }
    }
  }

  lemma ClearedStays(c: Config, s: State, s': State, mover: Option<TaskId>, t: TaskId, action: Action, gate: Option<Id>)
    requires Cleared(c, s, t, action, gate) && Evolves(c, s, s', mover)
    ensures Cleared(c, s', t, action, gate)
  {
  }

  /** The audit part holds on as long as no execution is recorded. */
  lemma AuditStays(c: Config, s: State, s': State, mover: Option<TaskId>)
    requires AuditInv(c, s) && Evolves(c, s, s', mover)
    requires |s'.audit| <= |s.audit| + 1
    requires |s'.audit| == |s.audit| + 1 ==> !s'.audit[|s.audit|].ActionExecuted?
    ensures AuditInv(c, s')
  {
    forall j | 0 <= j < |s'.audit| && s'.audit[j].ActionExecuted?
      ensures ProposedBefore(s'.audit, j, s'.audit[j].task, s'.audit[j].action)
      ensures Cleared(c, s', s'.audit[j].task, s'.audit[j].action, s'.audit[j].gate)
    {
      assert s'.audit[j] == s.audit[j];
      var r := s.audit[j];
      var i :| 0 <= i < j && i < |s.audit| && s.audit[i] == ActionProposed(r.task, r.action);
      assert s'.audit[i] == s.audit[i];
      ClearedStays(c, s, s', mover, r.task, r.action, r.gate);
    }
  }

  /** A request in good order stays so while the clock and the history move on. */
  lemma RequestStays(c: Config, s: State, s': State, mover: Option<TaskId>, q: Request)
    requires RequestOk(s, q) && Evolves(c, s, s', mover)
    ensures RequestOk(s', q)
  {
  }

  /** Steps that leave the objects, the store and the decisions alone. */
  predicate SameStore(s: State, s': State) {
    && s' == s.(clock := s'.clock, lock := s'.lock, gauge := s'.gauge, tasks := s'.tasks, audit := s'.audit)
    && s.audit <= s'.audit && s.clock <= s'.clock
  }

  lemma EntryStays(c: Config, s: State, s': State, mover: Option<TaskId>, id: Id, e: Entry)
    requires EntryOk(c, s, id, e) && Evolves(c, s, s', mover)
    requires e.Alias? ==> s'.store.heap[e.ref] == s.store.heap[e.ref]
    requires id in s'.past.verdict ==> id in s.past.verdict
    ensures EntryOk(c, s', id, e) && Read(s', e) == Read(s, e)
  {
    RequestStays(c, s, s', mover, Read(s, e));
  }

  lemma SameStoreEvolves(c: Config, s: State, s': State, mover: Option<TaskId>)
    requires SameStore(s, s')
    ensures Evolves(c, s, s', mover) && Excluded(c, s, s')
  {
    forall r | r in s.store.heap ensures r in s'.store.heap && SameRequest(c, s, s.store.heap[r], s'.store.heap[r], r) {}
  }

  lemma HeapStays(c: Config, s: State, s': State)
    requires HeapInv(c, s) && SameStore(s, s')
    ensures HeapInv(c, s')
  {
    SameStoreEvolves(c, s, s', None);
    forall r | r in s'.store.heap ensures r < s'.store.next && RequestOk(s', s'.store.heap[r]) {
      RequestStays(c, s, s', None, s.store.heap[r]);
    }
  }

  lemma EntriesStay(c: Config, s: State, s': State)
    requires ActiveInv(c, s) && ArchivedInv(c, s) && SameStore(s, s')
    ensures ActiveInv(c, s') && ArchivedInv(c, s')
  {
    SameStoreEvolves(c, s, s', None);
    forall id | id in s'.store.active ensures EntryOk(c, s', id, s'.store.active[id]) && id in s'.store.index {
      EntryStays(c, s, s', None, id, s.store.active[id]);
    }
    forall id | id in s'.store.archived ensures ArchivedOk(c, s', id, s'.store.archived[id]) {
      EntryStays(c, s, s', None, id, s.store.archived[id]);
    }
  }

  lemma LogStays(c: Config, s: State, s': State, mover: Option<TaskId>)
    requires LogInv(s) && Evolves(c, s, s', mover)
    requires s'.past.accepted == s.past.accepted && s'.past.verdict == s.past.verdict
    ensures LogInv(s')
  {
  }

  lemma StoreStays(c: Config, s: State, s': State, mover: Option<TaskId>)
    requires HeapInv(c, s) && ActiveInv(c, s) && ArchivedInv(c, s) && IndexInv(c, s) && LogInv(s)
    requires SameStore(s, s')
    ensures Evolves(c, s, s', mover) && Excluded(c, s, s')
    ensures HeapInv(c, s') && ActiveInv(c, s') && ArchivedInv(c, s') && IndexInv(c, s') && LogInv(s')
  {
    SameStoreEvolves(c, s, s', mover);
    LogStays(c, s, s', mover);
    HeapStays(c, s, s');
    EntriesStay(c, s, s');
  }
}
