/** Every undisturbed step of the approval protocol keeps the account balanced. */
module HitlAccounting {
  import opened Maybe
  import opened HitlProtocol
  import opened HitlInvariant
  import opened HitlAccount

  // ----- one task moves -----

  /** Objects keep their request and their agent. */
  ghost predicate SameObjects(s: State, s': State) {
    forall r :: r in s.store.heap ==>
      r in s'.store.heap && s'.store.heap[r].id == s.store.heap[r].id && s'.store.heap[r].agent == s.store.heap[r].agent
  }

  /** What a move of task `t` from one place to the next does for the account. */
  ghost predicate Pays(s: State, s': State, a: Account, a': Account, task: Task, task': Task) {
    && s.past.saved <= s'.past.saved && s.past.retired <= s'.past.retired
    && a.inn <= a'.inn <= s'.past.saved && a.out <= a'.out <= s'.past.saved
    && s'.store.active.Keys == s'.store.index.Keys
    && (forall id :: id in s'.past.saved && id !in s.past.saved ==> id in a'.inn || CountsIn(s'.store.heap, task', id))
    && (forall id :: id in a'.inn && id !in a.inn ==> CountsIn(s.store.heap, task, id))
    && (forall id :: CountsIn(s.store.heap, task, id) ==> id in a'.inn || CountsIn(s'.store.heap, task', id))
    && (forall id :: CountsOut(task, id) ==> id in a'.out || CountsOut(task', id))
    && (forall id :: Files(s.store.heap, task, id) ==> id in s'.past.retired || Files(s'.store.heap, task', id))
    && (forall id :: id in s'.past.saved && Closed(s', id) ==>
         (id in s.past.saved && Closed(s, id)) || id in a'.out || CountsOut(task', id))
    && (forall id :: id in a'.out && id !in a.out ==> id in s'.past.retired || Files(s'.store.heap, task', id))
    && TaskOwes(s', a', task')
  }

  /** Two submissions are never about the same request. */
  lemma OtherSubmission(c: Config, s: State, t: TaskId, u: TaskId, id: Id)
    requires TasksInv(c, s) && t in s.tasks && u in s.tasks
    requires CountsIn(s.store.heap, s.tasks[t], id) && CountsIn(s.store.heap, s.tasks[u], id)
    ensures t == u
  {
    assert TaskOk(c, s, t, s.tasks[t]) && TaskOk(c, s, u, s.tasks[u]);
  }

  lemma OthersOwe(c: Config, s: State, s': State, a: Account, a': Account, t: TaskId, task: Task, u: TaskId)
    requires TasksInv(c, s) && SameObjects(s, s') && t in s'.tasks && Pays(s, s', a, a', task, s'.tasks[t])
    requires (t in s.tasks ==> task == s.tasks[t]) && (t !in s.tasks ==> task.Finished?)
    requires u in s.tasks && u != t && TaskOwes(s, a, s.tasks[u]) && TaskOk(c, s, u, s.tasks[u])
    ensures TaskOwes(s', a', s.tasks[u])
  {
    match s.tasks[u]
    case Submitting(at, ref, _) =>
      if at == Saved {
        var id := s.store.heap[ref].id;
        assert CountsIn(s.store.heap, s.tasks[u], id);
        if id in a'.inn && id !in a.inn {
          OtherSubmission(c, s, t, u, id);
        }
      }
    case Sweeping(_, _, found, done) => if done < |found| { assert StaleOk(c, s, found[done]); }
    case _ =>
  }

  lemma InStays(s: State, s': State, a: Account, a': Account, t: TaskId, task: Task, id: Id)
    requires SameObjects(s, s') && t in s'.tasks && Pays(s, s', a, a', task, s'.tasks[t])
    requires (t in s.tasks ==> task == s.tasks[t]) && s'.tasks == s.tasks[t := s'.tasks[t]]
    requires id in s.past.saved && (id in a.inn || OwedIn(s, id))
    ensures id in a'.inn || OwedIn(s', id)
  {
    if id !in a'.inn {
      var u :| u in s.tasks && CountsIn(s.store.heap, s.tasks[u], id);
      assert u in s'.tasks && CountsIn(s'.store.heap, s'.tasks[u], id);
    }
  }

  lemma OutStays(s: State, s': State, a: Account, a': Account, t: TaskId, task: Task, id: Id)
    requires t in s'.tasks && Pays(s, s', a, a', task, s'.tasks[t])
    requires (t in s.tasks ==> task == s.tasks[t]) && s'.tasks == s.tasks[t := s'.tasks[t]]
    requires id in a.out || OwedOut(s, id)
    ensures id in a'.out || OwedOut(s', id)
  {
    if id !in a'.out {
      var u :| u in s.tasks && CountsOut(s.tasks[u], id);
      assert u in s'.tasks && CountsOut(s'.tasks[u], id);
    }
  }

  lemma FilingStays(s: State, s': State, a: Account, a': Account, t: TaskId, task: Task, id: Id)
    requires SameObjects(s, s') && t in s'.tasks && Pays(s, s', a, a', task, s'.tasks[t])
    requires (t in s.tasks ==> task == s.tasks[t]) && s'.tasks == s.tasks[t := s'.tasks[t]]
    requires id in s.past.retired || OwedFiling(s, id)
    ensures id in s'.past.retired || OwedFiling(s', id)
  {
    if id !in s'.past.retired {
      var u :| u in s.tasks && Files(s.store.heap, s.tasks[u], id);
      assert u in s'.tasks && Files(s'.store.heap, s'.tasks[u], id);
    }
  }

  /** The account stays balanced whenever the task that moves pays its part. */
  lemma PaidStaysBalanced(c: Config, s: State, s': State, a: Account, a': Account, t: TaskId, task: Task)
    requires TasksInv(c, s) && Balanced(s, a) && TasksOwe(s, a) && SameObjects(s, s')
    requires t in s'.tasks && s'.tasks == s.tasks[t := s'.tasks[t]]
    requires (t in s.tasks ==> task == s.tasks[t]) && (t !in s.tasks ==> task.Finished?)
    requires Pays(s, s', a, a', task, s'.tasks[t])
    ensures Balanced(s', a') && TasksOwe(s', a')
  {
    forall id | id in s'.past.saved ensures id in a'.inn || OwedIn(s', id) {
      if id in s.past.saved {
        InStays(s, s', a, a', t, task, id);
      } else if id !in a'.inn {
        assert CountsIn(s'.store.heap, s'.tasks[t], id);
      }
    }
    forall id | id in s'.past.saved && Closed(s', id) ensures id in a'.out || OwedOut(s', id) {
      if id in s.past.saved && Closed(s, id) {
        OutStays(s, s', a, a', t, task, id);
      } else if id !in a'.out {
        assert CountsOut(s'.tasks[t], id);
      }
    }
    forall id | id in a'.out ensures id in s'.past.retired || OwedFiling(s', id) {
      if id in a.out {
        FilingStays(s, s', a, a', t, task, id);
      } else if id !in s'.past.retired {
        assert Files(s'.store.heap, s'.tasks[t], id);
      }
    }
    forall u | u in s'.tasks ensures TaskOwes(s', a', s'.tasks[u]) {
      if u != t {
        assert TaskOwes(s, a, s.tasks[u]) && TaskOk(c, s, u, s.tasks[u]);
        OthersOwe(c, s, s', a, a', t, task, u);
      }
    }
  }

  // ----- steps that leave the store and the account -----

  /** The task owes the same after its move. */
  ghost predicate SameDebts(heap: map<Ref, Request>, task: Task, task': Task) {
    && (forall id :: CountsIn(heap, task, id) ==> CountsIn(heap, task', id))
    && (forall id :: CountsOut(task, id) ==> CountsOut(task', id))
    && (forall id :: Files(heap, task, id) ==> Files(heap, task', id))
  }

  lemma QuietPays(s: State, s': State, a: Account, task: Task, task': Task)
    requires Balanced(s, a) && s'.store == s.store && s'.past == s.past
    requires SameDebts(s.store.heap, task, task') && TaskOwes(s, a, task')
    ensures SameObjects(s, s') && Pays(s, s', a, a, task, task')
  {
    assert TaskOwes(s', a, task');
    forall id | Closed(s', id) ensures Closed(s, id) {}
  }

  /** From here on, `task` stands for the place of `t`, or for one that owes nothing if `t` is new. */
  function PlaceOf(s: State, t: TaskId): Task {
    if t in s.tasks then s.tasks[t] else Finished(Raised)
  }

  lemma BeginPays(s: State, s': State, a: Account, task': Task)
    requires Balanced(s, a) && s'.store == s.store && s'.past == s.past
    requires task'.Proposing? || task'.Fetching? || task'.Snapshotting? || task'.Executing? || task'.Finished?
    ensures SameObjects(s, s') && Pays(s, s', a, a, Finished(Raised), task')
  {
    QuietPays(s, s', a, Finished(Raised), task');
  }

  lemma AcquirePays(s: State, s': State, a: Account, task: Task)
    requires Balanced(s, a) && TaskOwes(s, a, task) && Waiting(task) && s'.store == s.store && s'.past == s.past
    ensures SameObjects(s, s') && Pays(s, s', a, a, task, HitlProtocol.Entered(task))
  {
    QuietPays(s, s', a, task, HitlProtocol.Entered(task));
  }

  lemma AuditPays(s: State, s': State, a: Account, t: TaskId, task: Task)
    requires Balanced(s, a) && TaskOwes(s, a, task) && CanAudit(s, task) && s'.store == s.store && s'.past == s.past
    ensures SameObjects(s, s') && Pays(s, s', a, a, task, Written(s, t, task).1)
  {
    QuietPays(s, s', a, task, Written(s, t, task).1);
  }

  lemma PublishPays(s: State, s': State, a: Account, task: Task)
    requires Balanced(s, a) && TaskOwes(s, a, task) && CanPublish(s, task) && s'.store == s.store && s'.past == s.past
    ensures SameObjects(s, s') && Pays(s, s', a, a, task, Published(s, task))
  {
    QuietPays(s, s', a, task, Published(s, task));
  }

  // ----- counting -----

  lemma SubmissionPays(s: State, s': State, a: Account, ref: Ref, act: Option<Action>)
    requires Balanced(s, a) && ref in s.store.heap && TaskOwes(s, a, Submitting(Saved, ref, act))
    requires s'.store == s.store && s'.past == s.past
    ensures SameObjects(s, s')
    ensures Pays(s, s', a, CountedIn(a, s.store.heap[ref].id), Submitting(Saved, ref, act), Submitting(Notifying, ref, act))
  {
    forall id | Closed(s', id) ensures Closed(s, id) {}
  }

  lemma DecisionPays(s: State, s': State, a: Account, at: DecidePoint, id: Id, decision: Status, ref: Ref, late: bool, agent: Name)
    requires Balanced(s, a) && (at == Persisted || at == Filed) && id in s.past.saved
    requires TaskOwes(s, a, Deciding(at, id, decision, ref, late)) && (late ==> at == Filed)
    requires s'.store == s.store && s'.past == s.past
    ensures SameObjects(s, s')
    ensures Pays(s, s', a, if at == Persisted || late then CountedOut(a, id, agent) else a,
                 Deciding(at, id, decision, ref, late),
                 Deciding(if at == Persisted then AwaitFiling else Reporting, id, decision, ref, late))
  {
    forall i | Closed(s', i) ensures Closed(s, i) {}
  }

  lemma ReleasePays(c: Config, s: State, s': State, a: Account, t: TaskId, task: Task)
    requires Balanced(s, a) && TaskOwes(s, a, task) && TaskOk(c, s, t, task) && CanRelease(s, task)
    requires s'.store == s.store && s'.past == s.past
    ensures SameObjects(s, s') && Pays(s, s', a, AtRelease(s, a, task), task, Left(s, task))
  {
    hide Balanced, TaskOwes, Pays, SameObjects;
    match task
    case Submitting(_, ref, act) => SubmissionPays(s, s', a, ref, act);
    case Deciding(at, id, decision, ref, late) =>
      DecisionPays(s, s', a, at, id, decision, ref, late, s.store.heap[ref].agent);
    case Scanning(_, _, _) => LeavingPays(s, s', a, task, Left(s, task));
    case Sweeping(_, _, _, _) => LeavingPays(s, s', a, task, Left(s, task));
  }

  lemma LeavingPays(s: State, s': State, a: Account, task: Task, task': Task)
    requires Balanced(s, a) && (task.Scanning? || task.Sweeping?) && task'.Sweeping? && task'.sweepAt == Expiring
    requires task.Sweeping? ==> task.sweepAt == Shelved
    requires s'.store == s.store && s'.past == s.past
    ensures SameObjects(s, s') && Pays(s, s', a, a, task, task')
  {
    QuietPays(s, s', a, task, task');
  }

  lemma CountPays(s: State, s': State, a: Account, task: Task, task': Task)
    requires Balanced(s, a) && task.Submitting? && task.submitAt == Counting
    requires task'.Finished? || (task'.Submitting? && task'.submitAt == Saving)
    requires s'.store == s.store && s'.past == s.past
    ensures SameObjects(s, s') && Pays(s, s', a, a, task, task')
  {
    QuietPays(s, s', a, task, task');
  }

  // ----- steps that create or hand out an object -----

  /** A new object changes nothing that the store shows. */
  lemma NewObjectClosed(c: Config, s: State, s': State, id: Id)
    requires ActiveInv(c, s) && HeapInv(c, s)
    requires forall r :: r in s.store.heap ==> r in s'.store.heap && s'.store.heap[r] == s.store.heap[r]
    requires s'.store.active == s.store.active && s'.past.retired == s.past.retired
    ensures Closed(s', id) <==> Closed(s, id)
  {
    if id in s.store.active {
      assert EntryOk(c, s, id, s.store.active[id]);
    }
  }

  lemma NewObjectPays(c: Config, s: State, s': State, a: Account, a': Account, task: Task, task': Task)
    requires ActiveInv(c, s) && HeapInv(c, s) && Balanced(s, a)
    requires forall r :: r in s.store.heap ==> r in s'.store.heap && s'.store.heap[r] == s.store.heap[r]
    requires s'.store.active == s.store.active && s'.store.index == s.store.index
    requires s'.past.retired == s.past.retired && s'.past.saved == s.past.saved && a'.inn == a.inn && a'.out == a.out
    requires task.Finished? || task.Proposing? || task.Fetching? || task.Scanning?
    requires (task'.Submitting? && task'.submitAt == AwaitSlot) || (task'.Deciding? && task'.decideAt == Judging) || task'.Scanning?
             || task'.Finished? || task'.Executing?
    ensures SameObjects(s, s') && Pays(s, s', a, a', task, task')
  {
    hide Closed, HeapInv, ActiveInv, OwedIn, OwedOut, OwedFiling, EntryOk;
    forall id | Closed(s', id) ensures Closed(s, id) {
      NewObjectClosed(c, s, s', id);
    }
  }

  // ----- saving -----

  lemma SaveCloses(c: Config, s: State, s': State, ref: Ref, id: Id)
    requires ActiveInv(c, s) && ref in s.store.heap && s' == Saves(c, s, ref).(tasks := s'.tasks)
    requires s.store.heap[ref].status == PENDING && s.store.heap[ref].id !in s.past.retired
    requires Closed(s', id)
    ensures Closed(s, id)
  {
    if id in s.store.active {
      assert EntryOk(c, s, id, s.store.active[id]);
    }
  }

  lemma SavePays(c: Config, s: State, s': State, a: Account, t: TaskId, ref: Ref, act: Option<Action>)
    requires ActiveInv(c, s) && IndexInv(c, s) && Balanced(s, a) && TaskOk(c, s, t, Submitting(Saving, ref, act))
    requires ref in s.store.heap && s' == Saves(c, s, ref).(tasks := s'.tasks)
    ensures SameObjects(s, s') && Pays(s, s', a, a, Submitting(Saving, ref, act), Submitting(Saved, ref, act))
  {
    var own := s.store.heap[ref].id;
    assert own !in s.past.saved && s.store.heap[ref].status == PENDING;
    forall id | Closed(s', id) ensures Closed(s, id) {
      SaveCloses(c, s, s', ref, id);
    }
    SavedIfActive(c, s, own);
    SavedKeys(s, s', ref, Stored(c, ref, s.store.heap[ref]), s.store.heap[ref].expiresAt);
    hide Closed, TaskOk, IndexInv, ActiveInv, Balanced, Pays, SameObjects;
    SavedPays(s, s', a, own, ref, act);
  }

  lemma SavedKeys(s: State, s': State, ref: Ref, e: Entry, n: int)
    requires ref in s.store.heap && s'.store.heap == s.store.heap
    requires s'.store.active == s.store.active[s.store.heap[ref].id := e] && s'.store.index == s.store.index[s.store.heap[ref].id := n]
    ensures s'.store.active.Keys == s.store.active.Keys + {s.store.heap[ref].id}
    ensures s'.store.index.Keys == s.store.index.Keys + {s.store.heap[ref].id}
  {
  }

  lemma SavedPays(s: State, s': State, a: Account, own: Id, ref: Ref, act: Option<Action>)
    requires Balanced(s, a) && ref in s.store.heap && s.store.heap[ref].id == own && own !in s.past.saved
    requires s'.store.heap == s.store.heap && s'.past.retired == s.past.retired && s'.past.saved == s.past.saved + {own}
    requires s'.store.active.Keys == s.store.active.Keys + {own} && s'.store.index.Keys == s.store.index.Keys + {own}
    requires own !in s.store.active && own !in s.past.retired
    requires forall id :: Closed(s', id) ==> Closed(s, id)
    ensures SameObjects(s, s') && Pays(s, s', a, a, Submitting(Saving, ref, act), Submitting(Saved, ref, act))
  {
    assert !Closed(s, own);
    hide Closed;
  }

  lemma SavedIfActive(c: Config, s: State, id: Id)
    requires ActiveInv(c, s) && IndexInv(c, s) && id !in s.past.saved
    ensures id !in s.store.active && id !in s.past.retired
  {
  }

  // ----- steps that close a request -----

  /** Only request `id` may have been closed; nothing was filed. */
  ghost predicate ClosesOnly(s: State, s': State, id: Id) {
    && SameObjects(s, s') && (forall i :: i != id && Closed(s', i) ==> Closed(s, i))
    && s'.past.saved == s.past.saved && s'.past.retired == s.past.retired
    && s'.store.active.Keys == s.store.active.Keys && s'.store.index.Keys == s.store.index.Keys
  }

  lemma MarkClosesOnly(c: Config, s: State, s': State, ref: Ref, status: Status)
    requires ActiveInv(c, s) && ref in s.store.heap && s'.store == Marked(s, ref, status).store && s'.past == s.past
    ensures ClosesOnly(s, s', s.store.heap[ref].id)
  {
    forall i | i != s.store.heap[ref].id && Closed(s', i) ensures Closed(s, i) {
      if i in s.store.active {
        assert EntryOk(c, s, i, s.store.active[i]);
      }
    }
  }

  lemma AcceptClosesOnly(c: Config, s: State, s': State, ref: Ref, status: Status)
    requires ActiveInv(c, s) && ref in s.store.heap && s'.store == Saves(c, Marked(s, ref, status), ref).store
    requires s.store.heap[ref].id in s.store.active && s.store.heap[ref].id in s.store.index
    requires s'.past.saved == s.past.saved && s'.past.retired == s.past.retired
    ensures ClosesOnly(s, s', s.store.heap[ref].id)
  {
    var own := s.store.heap[ref].id;
    forall i | i != own && Closed(s', i) ensures Closed(s, i) {
      if i in s.store.active {
        assert EntryOk(c, s, i, s.store.active[i]);
      }
    }
    assert s'.store.active.Keys == s.store.active.Keys + {own} && s'.store.index.Keys == s.store.index.Keys + {own};
  }

  lemma JudgedPays(s: State, s': State, a: Account, id: Id, decision: Status, ref: Ref, at: DecidePoint, late: bool)
    requires Balanced(s, a) && ClosesOnly(s, s', id)
    requires (at == AwaitFiling && late) || (at == Persisted && !late)
    ensures Pays(s, s', a, a, Deciding(Judging, id, decision, ref, false), Deciding(at, id, decision, ref, late))
  {
    hide Closed;
  }

  lemma ExpiredPays(s: State, s': State, a: Account, id: Id, now: int, found: seq<Ref>, k: nat, agent: Name)
    requires Balanced(s, a) && ClosesOnly(s, s', id) && id in s.past.saved
    requires k < |found| && found[k] in s.store.heap && s.store.heap[found[k]].id == id
    ensures Pays(s, s', a, CountedOut(a, id, agent), Sweeping(Expiring, now, found, k), Sweeping(Auditing, now, found, k))
  {
    hide Closed;
  }

  /** Request `id` was filed. */
  ghost predicate FilesOnly(s: State, s': State, id: Id) {
    && SameObjects(s, s') && (forall i :: i != id && Closed(s', i) ==> Closed(s, i))
    && s'.past.saved == s.past.saved && s'.past.retired == s.past.retired + {id}
    && s'.store.active.Keys == s.store.active.Keys - {id} && s'.store.index.Keys == s.store.index.Keys - {id}
  }

  lemma ArchiveFilesOnly(c: Config, s: State, s': State, id: Id, ref: Ref)
    requires ref in s.store.heap && s' == Archives(c, s, id, ref).(tasks := s'.tasks)
    ensures FilesOnly(s, s', id)
  {
  }

  lemma DecisionFiledPays(s: State, s': State, a: Account, id: Id, decision: Status, ref: Ref, late: bool)
    requires Balanced(s, a) && FilesOnly(s, s', id) && TaskOwes(s, a, Deciding(Filing, id, decision, ref, late))
    ensures Pays(s, s', a, a, Deciding(Filing, id, decision, ref, late), Deciding(Filed, id, decision, ref, late))
  {
    hide Closed;
  }

  lemma SweptFiledPays(s: State, s': State, a: Account, id: Id, now: int, found: seq<Ref>, k: nat)
    requires Balanced(s, a) && FilesOnly(s, s', id) && TaskOwes(s, a, Sweeping(Shelving, now, found, k))
    requires k < |found| && found[k] in s.store.heap && s.store.heap[found[k]].id == id
    ensures Pays(s, s', a, a, Sweeping(Shelving, now, found, k), Sweeping(Shelved, now, found, k))
  {
    hide Closed;
  }
}
