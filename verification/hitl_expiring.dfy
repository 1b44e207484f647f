/** Marking a request EXPIRED, by a sweep or by a late decision, keeps the invariant. */
module HitlExpiring {
  import opened Maybe
  import opened HitlProtocol
  import opened HitlInvariant
  import opened HitlFrames
  import opened HitlOneEntry
  import opened HitlMoves

  // ----- deciding -----

  /** Only the object at `ref` changes, from PENDING (or no change) to `status`. */
  lemma MarkEvolves(c: Config, s: State, s': State, ref: Ref, status: Status, mover: Option<TaskId>)
    requires FetchedOk(c, s, ref) && (s.store.heap[ref].status == PENDING || s.store.heap[ref].status == status)
    requires s' == Marked(s, ref, status).(tasks := s'.tasks, lock := s'.lock, gauge := s'.gauge)
    ensures Evolves(c, s, s', mover) && Excluded(c, s, s')
  {
    forall r | r in s.store.heap ensures r in s'.store.heap && SameRequest(c, s, s.store.heap[r], s'.store.heap[r], r) {}
  }

  /** Marking an undecided object past its deadline as EXPIRED is always safe, whoever else can see the object. */
  lemma ExpiryHeap(c: Config, s: State, s': State, ref: Ref)
    requires HeapInv(c, s) && IndexInv(c, s) && StaleOk(c, s, ref)
    requires s.store.heap[ref].status == PENDING || s.store.heap[ref].status == EXPIRED
    requires s' == Marked(s, ref, EXPIRED).(tasks := s'.tasks, lock := s'.lock, gauge := s'.gauge)
    ensures HeapInv(c, s') && IndexInv(c, s')
  {
    MarkEvolves(c, s, s', ref, EXPIRED, None);
    forall r | r in s'.store.heap ensures r < s'.store.next && RequestOk(s', s'.store.heap[r]) {
      RequestStays(c, s, s', None, s.store.heap[r]);
    }
  }

  lemma ExpiryEntry(c: Config, s: State, s': State, ref: Ref, id: Id, e: Entry)
    requires HeapInv(c, s) && IndexInv(c, s) && StaleOk(c, s, ref) && EntryOk(c, s, id, e)
    requires s.store.heap[ref].status == PENDING || s.store.heap[ref].status == EXPIRED
    requires s' == Marked(s, ref, EXPIRED).(tasks := s'.tasks, lock := s'.lock, gauge := s'.gauge)
    ensures EntryOk(c, s', id, e) && (Read(s, e).status != PENDING ==> Read(s', e).status != PENDING)
  {
    MarkEvolves(c, s, s', ref, EXPIRED, None);
    ExpiryHeap(c, s, s', ref);
    RequestStays(c, s, s', None, Read(s, e));
    if e.Alias? && e.ref == ref { assert RequestOk(s', s'.store.heap[ref]); }
  }

  lemma ExpiryEntries(c: Config, s: State, s': State, ref: Ref)
    requires HeapInv(c, s) && IndexInv(c, s) && ActiveInv(c, s) && ArchivedInv(c, s) && StaleOk(c, s, ref)
    requires s.store.heap[ref].status == PENDING || s.store.heap[ref].status == EXPIRED
    requires s' == Marked(s, ref, EXPIRED).(tasks := s'.tasks, lock := s'.lock, gauge := s'.gauge)
    ensures ActiveInv(c, s') && ArchivedInv(c, s')
  {
    forall i | i in s'.store.active ensures EntryOk(c, s', i, s'.store.active[i]) && i in s'.store.index {
      ExpiryEntry(c, s, s', ref, i, s.store.active[i]);
    }
    forall i | i in s'.store.archived ensures ArchivedOk(c, s', i, s'.store.archived[i]) {
      ExpiryEntry(c, s, s', ref, i, s.store.archived[i]);
    }
  }

  /** The common part of a late decision and a sweep: task `t` marks a stale object and moves on without the lock. */
  lemma ExpiryKeeps(c: Config, s: State, s': State, t: TaskId, ref: Ref, task: Task)
    requires Inv(c, s) && StaleOk(c, s, ref)
    requires s.store.heap[ref].status == PENDING || s.store.heap[ref].status == EXPIRED
    requires s' == Marked(s, ref, EXPIRED).(tasks := s'.tasks, lock := s'.lock, gauge := s'.gauge)
    requires Moves(s, s', t, task) && TaskOk(c, s', t, task)
    ensures Inv(c, s')
  {
    MarkEvolves(c, s, s', ref, EXPIRED, Some(t));
    ExpiryHeap(c, s, s', ref);
    ExpiryEntries(c, s, s', ref);
    LogStays(c, s, s', Some(t));
    AuditStays(c, s, s', Some(t));
    TasksStay(c, s, s', t);
  }

  lemma ExpireTask(c: Config, s: State, s': State, t: TaskId, now: int, found: seq<Ref>, done: nat)
    requires HeapInv(c, s) && SweepingOk(c, s, Expiring, now, found, done) && done < |found|
    requires Evolves(c, s, s', Some(t)) && s'.store.heap[found[done]].status == EXPIRED
    ensures TaskOk(c, s', t, Sweeping(Auditing, now, found, done))
  {
    forall i | 0 <= i < |found| ensures StaleOk(c, s', found[i]) {
      StaleStays(c, s, s', Some(t), found[i]);
    }
  }

  lemma ExpireMarks(c: Config, s: State, s': State, t: TaskId, now: int, found: seq<Ref>, done: nat)
    requires Inv(c, s) && t in s.tasks && s.tasks[t] == Sweeping(Expiring, now, found, done)
    requires done < |found| && found[done] in s.store.heap
    requires s' == Marked(s, found[done], EXPIRED).(tasks := s'.tasks, gauge := s'.gauge)
    requires s'.tasks == s.tasks[t := Sweeping(Auditing, now, found, done)]
    ensures Inv(c, s')
  {
    hide AuditInv, ActiveInv, ArchivedInv, IndexInv, LogInv, Evolves, Excluded;
    var ref := found[done];
    assert TaskOk(c, s, t, s.tasks[t]);
    assert StaleOk(c, s, ref) && RequestOk(s, s.store.heap[ref]);
    MarkEvolves(c, s, s', ref, EXPIRED, Some(t));
    ExpireTask(c, s, s', t, now, found, done);
    ExpiryKeeps(c, s, s', t, ref, Sweeping(Auditing, now, found, done));
  }

  lemma ExpireKeeps(c: Config, s: State, t: TaskId, now: int, found: seq<Ref>, done: nat)
    requires Inv(c, s) && t in s.tasks && s.tasks[t] == Sweeping(Expiring, now, found, done)
    requires done < |found| ==> found[done] in s.store.heap
    ensures Inv(c, ExpireStep(s, t))
  {
    if done >= |found| {
      MoveKeeps(c, s, ExpireStep(s, t), t, Finished(Returned));
    } else {
      ExpireMarks(c, s, ExpireStep(s, t), t, now, found, done);
    }
  }

  /** `Judge` on a request whose deadline has passed: the decider's object, which may be the stored one, is marked. */
  lemma LateKeeps(c: Config, s: State, s': State, t: TaskId, id: Id, decision: Status, ref: Ref)
    requires Inv(c, s) && t in s.tasks && s.tasks[t] == Deciding(Judging, id, decision, ref, false)
    requires ref in s.store.heap && s.store.heap[ref].status == PENDING && s.clock >= s.store.heap[ref].expiresAt
    requires decision in {APPROVED, REJECTED}
    requires s' == Freed(Moved(Marked(s, ref, EXPIRED), t, Deciding(AwaitFiling, id, decision, ref, true)))
    ensures Inv(c, s')
  {
    hide AuditInv, ActiveInv, ArchivedInv, IndexInv, LogInv, Evolves, Excluded;
    assert TaskOk(c, s, t, s.tasks[t]) && s.lock == Some(t);
    assert StaleOk(c, s, ref);
    assert TaskOk(c, s', t, Deciding(AwaitFiling, id, decision, ref, true));
    ExpiryKeeps(c, s, s', t, ref, Deciding(AwaitFiling, id, decision, ref, true));
  }
}
