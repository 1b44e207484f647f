/**
 Room that never comes back. A call cut short after it closed a request and before it filed it leaves the
 id in the pending set: the sweep skips it because it is not PENDING, decisions refuse it for the same
 reason, and it counts against the capacity for ever. So does a pending member whose key Redis dropped.
 */
module HitlCapacity {
  import opened Maybe
  import opened HitlProtocol
  import opened HitlInvariant
  import opened HitlRuns

  /**
   The task will file request `id` unless it is cut short. A decision that is neither an approval nor a
   rejection, or on an object that is not PENDING, will only be refused.
   */
  predicate InHands(heap: map<Ref, Request>, task: Task, id: Id) {
    match task
    case Deciding(at, own, decision, ref, _) =>
      && own == id
      && match at {
           case Judging => decision in {APPROVED, REJECTED} && ref in heap && heap[ref].status == PENDING
           case Persisted => true
           case AwaitFiling => true
           case Filing => true
           case _ => false
         }
    case Scanning(_, _, found) => exists i :: 0 <= i < |found| && found[i] in heap && heap[found[i]].id == id
    case Sweeping(at, _, found, done) =>
      exists i :: ToFile(at, done) <= i < |found| && found[i] in heap && heap[found[i]].id == id
    case _ => false
  }

  /** The request takes up room, is not waiting for a decision, and no call is about to file it. */
  ghost predicate Stranded(s: State, id: Id) {
    && id in s.store.index
    && (id in s.store.active ==>
         Readable(s, s.store.active[id]) && Read(s, s.store.active[id]).status != PENDING)
    && (forall t :: t in s.tasks ==> !InHands(s.store.heap, s.tasks[t], id))
  }

  /** Objects that were there keep their id, and leave PENDING for good. */
  ghost predicate Matures(s: State, s': State) {
    forall r :: r in s.store.heap ==>
      && r in s'.store.heap && s'.store.heap[r].id == s.store.heap[r].id
      && (s.store.heap[r].status != PENDING ==> s'.store.heap[r].status != PENDING)
  }

  lemma OtherHands(s: State, s': State, task: Task, id: Id)
    requires Matures(s, s') && !InHands(s.store.heap, task, id)
    requires task.Scanning? || task.Sweeping? ==> forall i :: 0 <= i < |task.found| ==> task.found[i] in s.store.heap
    requires task.Deciding? ==> task.ref in s.store.heap
    ensures !InHands(s'.store.heap, task, id)
  {
  }

  lemma ObjectsFound(c: Config, s: State, t: TaskId)
    requires Inv(c, s) && t in s.tasks && (s.tasks[t].Scanning? || s.tasks[t].Sweeping?)
    ensures forall i :: 0 <= i < |s.tasks[t].found| ==> s.tasks[t].found[i] in s.store.heap
  {
    hide HeapInv, ActiveInv, ArchivedInv, IndexInv, LogInv, AuditInv;
    assert TaskOk(c, s, t, s.tasks[t]);
    forall i | 0 <= i < |s.tasks[t].found| ensures s.tasks[t].found[i] in s.store.heap {
      assert StaleOk(c, s, s.tasks[t].found[i]);
    }
  }

  lemma ObjectFetched(c: Config, s: State, t: TaskId)
    requires Inv(c, s) && t in s.tasks && s.tasks[t].Deciding?
    ensures s.tasks[t].ref in s.store.heap && s.store.heap[s.tasks[t].ref].id == s.tasks[t].id
  {
    hide HeapInv, ActiveInv, ArchivedInv, IndexInv, LogInv, AuditInv;
    assert TaskOk(c, s, t, s.tasks[t]);
  }

  /** One task moves, nothing about `id` changes in the store, and the task does not take `id` up. */
  lemma StaysStranded(c: Config, s: State, s': State, t: TaskId, id: Id)
    requires Inv(c, s) && Stranded(s, id) && Matures(s, s') && t in s'.tasks && s'.tasks == s.tasks[t := s'.tasks[t]]
    requires id in s'.store.index && (id in s'.store.active ==> id in s.store.active && s'.store.active[id] == s.store.active[id])
    requires !InHands(s'.store.heap, s'.tasks[t], id)
    ensures Stranded(s', id)
  {
    forall u | u in s'.tasks ensures !InHands(s'.store.heap, s'.tasks[u], id) {
      if u != t {
        if s.tasks[u].Scanning? || s.tasks[u].Sweeping? { ObjectsFound(c, s, u); }
        if s.tasks[u].Deciding? { ObjectFetched(c, s, u); }
        OtherHands(s, s', s.tasks[u], id);
      }
    }
    hide InHands, Inv;
  }

  // ----- every step -----

  lemma SameHeapMatures(s: State, s': State)
    requires s'.store.heap == s.store.heap
    ensures Matures(s, s')
  {
  }

  lemma MarkedMatures(s: State, s': State, ref: Ref, status: Status)
    requires ref in s.store.heap && status != PENDING
    requires s'.store.heap == s.store.heap[ref := s.store.heap[ref].(status := status)]
    ensures Matures(s, s')
  {
  }

  lemma MoreMatures(s: State, s': State, q: Request)
    requires s.store.next !in s.store.heap && s'.store.heap == s.store.heap[s.store.next := q]
    ensures Matures(s, s')
  {
  }

  /** Steps that leave the store do not put a request into a task's hands that was not there. */
  lemma QuietHands(c: Config, s: State, step: Step, id: Id)
    requires Enabled(c, s, step) && LeavesStore(step) && !step.Tick?
    requires step.t in s.tasks ==> !InHands(s.store.heap, s.tasks[step.t], id)
    ensures var s' := Next(c, s, step);
      step.t in s'.tasks && s'.tasks == s.tasks[step.t := s'.tasks[step.t]] && !InHands(s.store.heap, s'.tasks[step.t], id)
  {
    if step.Release? {
      ReleaseHands(c, s, step.t, id);
    }
  }

  lemma ReleaseHands(c: Config, s: State, t: TaskId, id: Id)
    requires Enabled(c, s, Release(t)) && !InHands(s.store.heap, s.tasks[t], id)
    ensures var s' := Next(c, s, Release(t));
      t in s'.tasks && s'.tasks == s.tasks[t := s'.tasks[t]] && !InHands(s.store.heap, s'.tasks[t], id)
  {
  }

  lemma QuietStep(c: Config, s: State, step: Step, id: Id)
    requires Inv(c, s) && Stranded(s, id) && Enabled(c, s, step) && LeavesStore(step) && !step.Tick?
    ensures Stranded(Next(c, s, step), id)
  {
    var s' := Next(c, s, step);
    QuietHands(c, s, step, id);
    QuietStore(c, s, step);
    SameHeapMatures(s, s');
    hide Inv, InHands, Matures, Next, Enabled;
    StaysStranded(c, s, s', step.t, id);
  }

  lemma QuietStore(c: Config, s: State, step: Step)
    requires Enabled(c, s, step) && LeavesStore(step)
    ensures Next(c, s, step).store == s.store
  {
  }

  lemma WasSaved(c: Config, s: State, id: Id)
    requires Inv(c, s) && id in s.store.index
    ensures id in s.past.saved && id in s.past.expiry
  {
    hide HeapInv, ActiveInv, ArchivedInv, LogInv, AuditInv, TasksInv;
  }

  lemma SubmitMatures(c: Config, s: State, step: Step)
    requires s.store.next !in s.store.heap && Enabled(c, s, step) && (step.BeginSubmit? || step.Propose?)
    ensures var s' := Next(c, s, step);
      && Matures(s, s') && s'.store.index == s.store.index && s'.store.active == s.store.active
      && step.t in s'.tasks && s'.tasks == s.tasks[step.t := s'.tasks[step.t]]
      && (s'.tasks[step.t].Submitting? || s'.tasks[step.t].Executing?)
  {
    var s' := Next(c, s, step);
    hide Matures;
    if s'.store.heap == s.store.heap {
      SameHeapMatures(s, s');
    } else {
      MoreMatures(s, s', s'.store.heap[s.store.next]);
    }
  }

  lemma MakingStep(c: Config, s: State, step: Step, id: Id)
    requires Inv(c, s) && Stranded(s, id) && Enabled(c, s, step) && (step.BeginSubmit? || step.Propose?)
    ensures Stranded(Next(c, s, step), id)
  {
    assert id in s.store.index;
    NextUnused(c, s);
    SubmitMatures(c, s, step);
    hide Inv, Matures, Next, Enabled, Stranded;
    StaysStranded(c, s, Next(c, s, step), step.t, id);
  }

  lemma SaveStep(c: Config, s: State, t: TaskId, id: Id)
    requires Inv(c, s) && Stranded(s, id) && Enabled(c, s, Save(t))
    ensures Stranded(Next(c, s, Save(t)), id)
  {
    WasSaved(c, s, id);
    TaskOf(c, s, t);
    var s' := Next(c, s, Save(t));
    SameHeapMatures(s, s');
    hide Inv, Matures;
    StaysStranded(c, s, s', t, id);
  }

  lemma TaskOf(c: Config, s: State, t: TaskId)
    requires Inv(c, s) && t in s.tasks
    ensures TaskOk(c, s, t, s.tasks[t])
  {
    hide TaskOk, HeapInv, ActiveInv, ArchivedInv, IndexInv, LogInv, AuditInv;
  }

  lemma EntryOf(c: Config, s: State, id: Id)
    requires Inv(c, s) && id in s.store.active
    ensures EntryOk(c, s, id, s.store.active[id])
  {
    hide EntryOk, HeapInv, ArchivedInv, IndexInv, LogInv, AuditInv, TasksInv;
  }

  /** Handing out an object: the one there is, or a new copy. */
  lemma HandedMatures(s: State, s': State, id: Id)
    requires s.store.next !in s.store.heap && id in s.store.active && Readable(s, s.store.active[id])
    requires s'.store == Handed(s, s.store.active[id]).1
    ensures Matures(s, s') && s'.store.active == s.store.active && s'.store.index == s.store.index
    ensures var ref := Handed(s, s.store.active[id]).0;
      ref in s'.store.heap && s'.store.heap[ref] == Read(s, s.store.active[id])
  {
    hide Matures;
    if s.store.active[id].Alias? {
      SameHeapMatures(s, s');
    } else {
      MoreMatures(s, s', s.store.active[id].request);
    }
  }

  lemma FetchStranded(c: Config, s: State, t: TaskId, id: Id)
    requires Inv(c, s) && Stranded(s, id) && Enabled(c, s, Fetch(t))
    ensures Stranded(Next(c, s, Fetch(t)), id)
  {
    NextUnused(c, s);
    var own := s.tasks[t].id;
    var s' := FetchStep(s, t);
    if own in s.store.active {
      HandedMatures(s, s', own);
    } else {
      SameHeapMatures(s, s');
    }
    hide Inv, Matures;
    StaysStranded(c, s, s', t, id);
  }

  lemma JudgeMatures(c: Config, s: State, t: TaskId)
    requires Enabled(c, s, Judge(t))
    ensures Matures(s, JudgeStep(c, s, t))
  {
    var s', task := JudgeStep(c, s, t), s.tasks[t];
    hide Matures;
    if s'.store.heap == s.store.heap {
      SameHeapMatures(s, s');
    } else if s.clock >= s.store.heap[task.ref].expiresAt {
      MarkedMatures(s, s', task.ref, EXPIRED);
    } else {
      MarkedMatures(s, s', task.ref, task.decision);
    }
  }

  /** A decision whose object is not `id`'s, or that will be refused. */
  lemma JudgeHands(c: Config, s: State, t: TaskId, id: Id)
    requires Enabled(c, s, Judge(t)) && s.store.heap[s.tasks[t].ref].id == s.tasks[t].id
    requires id in s.store.index && !InHands(s.store.heap, s.tasks[t], id)
    ensures var s' := JudgeStep(c, s, t);
      && t in s'.tasks && s'.tasks == s.tasks[t := s'.tasks[t]] && !InHands(s'.store.heap, s'.tasks[t], id)
      && id in s'.store.index
      && (id in s'.store.active ==> id in s.store.active && s'.store.active[id] == s.store.active[id])
  {
  }

  lemma JudgeStranded(c: Config, s: State, t: TaskId, id: Id)
    requires Inv(c, s) && Stranded(s, id) && Enabled(c, s, Judge(t))
    ensures Stranded(Next(c, s, Judge(t)), id)
  {
    assert id in s.store.index && !InHands(s.store.heap, s.tasks[t], id);
    hide Inv, Stranded, Matures, InHands;
    ObjectFetched(c, s, t);
    JudgeMatures(c, s, t);
    JudgeHands(c, s, t, id);
    StaysStranded(c, s, JudgeStep(c, s, t), t, id);
  }

  lemma ScanStranded(c: Config, s: State, t: TaskId, id: Id)
    requires Inv(c, s) && Stranded(s, id) && Enabled(c, s, Scan(t))
    ensures Stranded(Next(c, s, Scan(t)), id)
  {
    NextUnused(c, s);
    ObjectsFound(c, s, t);
    var own := s.tasks[t].ids[0];
    if own in s.store.active { EntryOf(c, s, own); }
    hide Inv;
    var s' := ScanStep(s, t);
    if s'.store == s.store { SameHeapMatures(s, s'); } else { HandedMatures(s, s', own); }
    ScanHands(s, s', t, id);
    hide Matures, InHands;
    StaysStranded(c, s, s', t, id);
  }

  lemma ScanHands(s: State, s': State, t: TaskId, id: Id)
    requires Stranded(s, id) && t in s.tasks && s.tasks[t].Scanning? && s.tasks[t].ids != [] && t in s'.tasks
    requires s.tasks[t].ids[0] in s.store.active ==> Readable(s, s.store.active[s.tasks[t].ids[0]])
    requires s.tasks[t].ids[0] in s.store.active ==> Read(s, s.store.active[s.tasks[t].ids[0]]).id == s.tasks[t].ids[0]
    requires s' == ScanStep(s, t) && Matures(s, s')
    requires forall i :: 0 <= i < |s.tasks[t].found| ==> s.tasks[t].found[i] in s.store.heap
    ensures !InHands(s'.store.heap, s'.tasks[t], id)
  {
    var found, found' := s.tasks[t].found, s'.tasks[t].found;
    assert !InHands(s.store.heap, s.tasks[t], id);
    forall i | 0 <= i < |found'| && found'[i] in s'.store.heap ensures s'.store.heap[found'[i]].id != id {
      if i < |found| {
        assert found'[i] == found[i];
      }
    }
  }

  lemma ExpireMatures(s: State, t: TaskId)
    requires t in s.tasks && s.tasks[t].Sweeping?
    requires s.tasks[t].done < |s.tasks[t].found| ==> s.tasks[t].found[s.tasks[t].done] in s.store.heap
    ensures Matures(s, ExpireStep(s, t))
  {
    var s', task := ExpireStep(s, t), s.tasks[t];
    hide Matures;
    if task.done < |task.found| { MarkedMatures(s, s', task.found[task.done], EXPIRED); } else { SameHeapMatures(s, s'); }
  }

  lemma ExpireHands(s: State, t: TaskId, id: Id)
    requires Stranded(s, id) && t in s.tasks && s.tasks[t].Sweeping? && s.tasks[t].sweepAt == Expiring
    requires forall i :: 0 <= i < |s.tasks[t].found| ==> s.tasks[t].found[i] in s.store.heap
    ensures var s' := ExpireStep(s, t);
      && Matures(s, s') && s'.tasks == s.tasks[t := s'.tasks[t]] && !InHands(s'.store.heap, s'.tasks[t], id)
      && s'.store.index == s.store.index && s'.store.active == s.store.active && id in s'.store.index
  {
    var s' := ExpireStep(s, t);
    ExpireMatures(s, t);
    assert !InHands(s.store.heap, s.tasks[t], id);
    OtherHands(s, s', s.tasks[t], id);
    hide Matures, Stranded;
  }

  lemma ExpireStranded(c: Config, s: State, t: TaskId, id: Id)
    requires Inv(c, s) && Stranded(s, id) && Enabled(c, s, Expire(t))
    ensures Stranded(Next(c, s, Expire(t)), id)
  {
    hide Inv, Stranded;
    ObjectsFound(c, s, t);
    ExpireHands(s, t, id);
    hide Matures, InHands;
    StaysStranded(c, s, ExpireStep(s, t), t, id);
  }

  lemma FileStranded(c: Config, s: State, t: TaskId, id: Id)
    requires Inv(c, s) && Stranded(s, id) && Enabled(c, s, File(t))
    ensures Stranded(Next(c, s, File(t)), id)
  {
    hide Inv;
    var s' := FileStep(c, s, t);
    SameHeapMatures(s, s');
    assert !InHands(s.store.heap, s.tasks[t], id);
    assert !InHands(s'.store.heap, s'.tasks[t], id);
    hide Matures;
    StaysStranded(c, s, s', t, id);
  }

  lemma EnvironmentStep(c: Config, s: State, step: Step, id: Id)
    requires Stranded(s, id) && Enabled(c, s, step) && (step.Tick? || step.LoseActive? || step.LoseArchived?)
    ensures Stranded(Next(c, s, step), id)
  {
    var s' := Next(c, s, step);
    assert s'.tasks == s.tasks && s'.store.heap == s.store.heap && s'.store.index == s.store.index;
    hide InHands;
  }

  lemma StepStrands(c: Config, s: State, step: Step, id: Id)
    requires Inv(c, s) && Stranded(s, id) && Enabled(c, s, step)
    ensures Stranded(Next(c, s, step), id)
  {
    hide Inv, Stranded, Next, Enabled;
    if step.Tick? || step.LoseActive? || step.LoseArchived? {
      EnvironmentStep(c, s, step, id);
    } else if LeavesStore(step) {
      QuietStep(c, s, step, id);
    } else {
      match step
      case BeginSubmit(_, _, _) => MakingStep(c, s, step, id);
      case Propose(_, _) => MakingStep(c, s, step, id);
      case Save(t) => SaveStep(c, s, t, id);
      case Fetch(t) => FetchStranded(c, s, t, id);
      case Judge(t) => JudgeStranded(c, s, t, id);
      case Scan(t) => ScanStranded(c, s, t, id);
      case Expire(t) => ExpireStranded(c, s, t, id);
      case File(t) => FileStranded(c, s, t, id);
    }
  }

  /** Stranded room is never given back, whatever runs: no sweep, decision, submission, crash or loss helps. */
  lemma {:induction false} StrandedForever(c: Config, s: State, steps: seq<Step>, id: Id)
    requires Inv(c, s) && Feasible(c, s, steps) && Stranded(s, id)
    ensures Stranded(Run(c, s, steps), id) && id in Run(c, s, steps).store.index
    decreases |steps|
  {
    hide Inv, Next, Enabled, InHands;
    if steps != [] {
      StepKeeps(c, s, steps[0]);
      StepStrands(c, s, steps[0], id);
      StrandedForever(c, Next(c, s, steps[0]), steps[1..], id);
    }
  }
}
