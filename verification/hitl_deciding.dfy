/** A decision in time keeps the invariant. */
module HitlDeciding {
  import opened Maybe
  import opened HitlProtocol
  import opened HitlInvariant
  import opened HitlFrames
  import opened HitlOneEntry
  import opened HitlMoves
  import opened HitlExpiring

  /** `s'` is `s` after the decision of task `t` on request `id`, held in object `ref`, took effect. */
  ghost predicate Accepts(c: Config, s: State, s': State, t: TaskId, id: Id, decision: Status, ref: Ref) {
    && DecidingOk(c, s, t, Judging, id, decision, ref, false)
    && s.store.heap[ref].status == PENDING && s.clock < s.store.heap[ref].expiresAt && decision in {APPROVED, REJECTED}
    && RequestOk(s, s.store.heap[ref])
    && s' == Accepted(Saves(c, Marked(s, ref, decision), ref), Acceptance(t, id, decision, s.clock)).(tasks := s'.tasks)
  }

  lemma AcceptEvolves(c: Config, s: State, s': State, t: TaskId, id: Id, decision: Status, ref: Ref)
    requires Accepts(c, s, s', t, id, decision, ref)
    ensures Evolves(c, s, s', Some(t))
  {
    forall r | r in s.store.heap ensures r in s'.store.heap && SameRequest(c, s, s.store.heap[r], s'.store.heap[r], r) {}
  }

  lemma AcceptHeap(c: Config, s: State, s': State, t: TaskId, id: Id, decision: Status, ref: Ref)
    requires HeapInv(c, s) && Accepts(c, s, s', t, id, decision, ref)
    ensures HeapInv(c, s')
  {
    AcceptEvolves(c, s, s', t, id, decision, ref);
    forall r | r in s'.store.heap ensures r < s'.store.next && RequestOk(s', s'.store.heap[r]) {
      RequestStays(c, s, s', Some(t), s.store.heap[r]);
    }
  }

  lemma AcceptIndex(c: Config, s: State, s': State, t: TaskId, id: Id, decision: Status, ref: Ref)
    requires IndexInv(c, s) && ActiveInv(c, s) && Accepts(c, s, s', t, id, decision, ref)
    ensures IndexInv(c, s')
  {
    assert id in s.store.index && s.store.index[id] == s.store.heap[ref].expiresAt;
    assert s'.store.index == s.store.index;
    assert s'.past.saved == s.past.saved;
    assert c.backend == InMemory ==> s'.store.active.Keys == s.store.active.Keys;
  }

  /** An entry of another request is not touched; in memory the decided object belongs to `id` alone. */
  lemma AcceptOther(c: Config, s: State, s': State, t: TaskId, id: Id, decision: Status, ref: Ref, i: Id, e: Entry)
    requires Accepts(c, s, s', t, id, decision, ref) && EntryOk(c, s, i, e) && i != id
    ensures EntryOk(c, s', i, e) && Read(s', e) == Read(s, e)
  {
    AcceptEvolves(c, s, s', t, id, decision, ref);
    if e.Alias? { assert e.ref != ref; }
    EntryStays(c, s, s', Some(t), i, e);
  }

  lemma AcceptEntries(c: Config, s: State, s': State, t: TaskId, id: Id, decision: Status, ref: Ref)
    requires ActiveInv(c, s) && ArchivedInv(c, s) && HeapInv(c, s') && IndexInv(c, s')
    requires Accepts(c, s, s', t, id, decision, ref)
    ensures ActiveInv(c, s') && ArchivedInv(c, s')
  {
    forall i | i in s'.store.active ensures EntryOk(c, s', i, s'.store.active[i]) && i in s'.store.index {
      if i == id {
        assert RequestOk(s', s'.store.heap[ref]);
      } else {
        AcceptOther(c, s, s', t, id, decision, ref, i, s.store.active[i]);
      }
    }
    forall i | i in s'.store.archived ensures ArchivedOk(c, s', i, s'.store.archived[i]) {
      assert ArchivedOk(c, s, i, s.store.archived[i]);
      AcceptOther(c, s, s', t, id, decision, ref, i, s.store.archived[i]);
    }
  }

  lemma LogGrows(log: seq<Acceptance>, verdict: map<Id, Status>, expiry: map<Id, int>, a: Acceptance)
    requires LogOk(log, verdict, expiry)
    requires a.id !in verdict && a.decision in {APPROVED, REJECTED} && a.id in expiry && a.at < expiry[a.id]
    ensures LogOk(log + [a], verdict[a.id := a.decision], expiry)
  {
    var log', verdict' := log + [a], verdict[a.id := a.decision];
    forall i | 0 <= i < |log| ensures log'[i] == log[i] && log[i].id != a.id {}
    forall id | id in verdict' ensures exists j :: 0 <= j < |log'| && log'[j].id == id {
      if id == a.id {
        assert log'[|log|] == a;
      } else {
        var j :| 0 <= j < |log| && log[j].id == id;
        assert log'[j].id == id;
      }
    }
  }

  lemma AcceptLog(c: Config, s: State, s': State, t: TaskId, id: Id, decision: Status, ref: Ref)
    requires LogInv(s) && Accepts(c, s, s', t, id, decision, ref)
    ensures LogInv(s') && AcceptedBy(s', t, id, decision)
  {
    var a := Acceptance(t, id, decision, s.clock);
    assert s'.past.accepted[|s.past.accepted|] == a;
    LogGrows(s.past.accepted, s.past.verdict, s.past.expiry, a);
  }

  /** `Judge` in time: the decision takes effect and is saved before the lock is released. */
  lemma AcceptKeeps(c: Config, s: State, s': State, t: TaskId, id: Id, decision: Status, ref: Ref)
    requires Inv(c, s) && t in s.tasks && s.tasks[t] == Deciding(Judging, id, decision, ref, false)
    requires Accepts(c, s, s', t, id, decision, ref) && s.lock == Some(t)
    requires s'.tasks == s.tasks[t := Deciding(Persisted, id, decision, ref, false)]
    ensures Inv(c, s')
  {
    hide HeapInv, AuditInv, ActiveInv, ArchivedInv, IndexInv, LogInv, Evolves;
    AcceptEvolves(c, s, s', t, id, decision, ref);
    AcceptHeap(c, s, s', t, id, decision, ref);
    AcceptIndex(c, s, s', t, id, decision, ref);
    AcceptEntries(c, s, s', t, id, decision, ref);
    AcceptLog(c, s, s', t, id, decision, ref);
    AuditStays(c, s, s', Some(t));
    AcceptTask(c, s, s', t, id, decision, ref);
    TasksStay(c, s, s', t);
  }

  lemma AcceptTask(c: Config, s: State, s': State, t: TaskId, id: Id, decision: Status, ref: Ref)
    requires Accepts(c, s, s', t, id, decision, ref) && AcceptedBy(s', t, id, decision)
    ensures TaskOk(c, s', t, Deciding(Persisted, id, decision, ref, false))
  {
  }

  lemma JudgeKeeps(c: Config, s: State, t: TaskId, id: Id, decision: Status, ref: Ref, late: bool)
    requires Inv(c, s) && t in s.tasks && s.tasks[t] == Deciding(Judging, id, decision, ref, late) && ref in s.store.heap
    ensures Inv(c, JudgeStep(c, s, t))
  {
    hide AuditInv, ActiveInv, ArchivedInv, IndexInv, LogInv, Evolves, Excluded;
    assert TaskOk(c, s, t, s.tasks[t]) && s.lock == Some(t);
    if s.store.heap[ref].status != PENDING || decision !in {APPROVED, REJECTED} {
      ReleasesTo(c, s, JudgeStep(c, s, t), t, Finished(Raised));
    } else if s.clock >= s.store.heap[ref].expiresAt {
      LateKeeps(c, s, JudgeStep(c, s, t), t, id, decision, ref);
    } else {
      assert RequestOk(s, s.store.heap[ref]);
      AcceptKeeps(c, s, JudgeStep(c, s, t), t, id, decision, ref);
    }
  }
}
