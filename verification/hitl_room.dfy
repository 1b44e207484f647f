/** When the room a request takes up is given back. */
module HitlRoom {
  import opened Maybe
  import opened HitlProtocol
  import opened HitlInvariant
  import opened HitlRuns
  import opened HitlProgress
  import opened HitlCapacity
  import opened HitlAccount
  import opened HitlGauge
  import HitlPace
  import HitlWitness

  /** Some further run takes the request out of the pending set. */
  ghost predicate CanLeave(c: Config, s: State, id: Id) {
    exists steps :: Feasible(c, s, steps) && id !in Run(c, s, steps).store.index
  }

  lemma HasLeft(c: Config, s: State, id: Id)
    requires id !in s.store.index
    ensures CanLeave(c, s, id)
  {
    assert Feasible(c, s, []) && Run(c, s, []) == s;
  }

  lemma LeavesAfter(c: Config, s: State, step: Step, id: Id)
    requires Enabled(c, s, step) && CanLeave(c, Next(c, s, step), id)
    ensures CanLeave(c, s, id)
  {
    hide Enabled, Next;
    var steps :| Feasible(c, Next(c, s, step), steps) && id !in Run(c, Next(c, s, step), steps).store.index;
    assert ([step] + steps)[1..] == steps;
    assert Feasible(c, s, [step] + steps) && Run(c, s, [step] + steps) == Run(c, Next(c, s, step), steps);
  }

  // ----- a call that has the request in hand files it -----

  function DecideRank(at: DecidePoint): nat {
    match at
    case Judging => 4
    case Persisted => 3
    case AwaitFiling => 2
    case Filing => 1
    case _ => 0
  }

  function SweepRank(at: SweepPoint): nat {
    match at
    case Shelved => 5
    case Expiring => 4
    case Auditing => 3
    case Publishing => 2
    case AwaitShelf => 1
    case Shelving => 0
  }

  /** How much the call still has to list, and how many objects it still has to file. */
  function Work(task: Task): nat {
    match task
    case Scanning(_, ids, _) => |ids|
    case Sweeping(at, _, found, done) => if ToFile(at, done) <= |found| then |found| - ToFile(at, done) else 0
    case _ => 0
  }

  function Rank(task: Task): nat {
    match task
    case Deciding(at, _, _, _, _) => DecideRank(at)
    case Sweeping(at, _, _, _) => SweepRank(at)
    case _ => 0
  }

  /** The call is closer to filing the request: it has gone over from listing to filing, or has less to do. */
  predicate Closer(task: Task, task': Task) {
    || (task.Scanning? && task'.Sweeping?)
    || ((task.Scanning? <==> task'.Scanning?)
        && (Work(task') < Work(task) || (Work(task') == Work(task) && Rank(task') < Rank(task))))
  }

  /** The step the call takes next. */
  function Onward(t: TaskId, task: Task): Step
    requires task.Deciding? || task.Scanning? || task.Sweeping?
  {
    if Waiting(task) then Acquire(t) else OwnStep(t, task)
  }

  lemma JudgeGoesOn(c: Config, s: State, t: TaskId, id: Id)
    requires t in s.tasks && s.tasks[t].Deciding? && s.tasks[t].decideAt == Judging
    requires InHands(s.store.heap, s.tasks[t], id)
    ensures Onward(t, s.tasks[t]) == Judge(t) && Enabled(c, s, Judge(t))
    ensures var s' := Next(c, s, Judge(t));
      t in s'.tasks && InHands(s'.store.heap, s'.tasks[t], id) && Closer(s.tasks[t], s'.tasks[t])
  {
  }

  lemma DecidingGoesOn(c: Config, s: State, t: TaskId, id: Id)
    requires t in s.tasks && s.tasks[t].Deciding? && InHands(s.store.heap, s.tasks[t], id)
    requires s.tasks[t].ref in s.store.heap && (Waiting(s.tasks[t]) ==> s.lock == None)
    ensures var step := Onward(t, s.tasks[t]);
      && Enabled(c, s, step)
      && var s' := Next(c, s, step);
         id !in s'.store.index
         || (t in s'.tasks && InHands(s'.store.heap, s'.tasks[t], id) && Closer(s.tasks[t], s'.tasks[t]))
  {
    if s.tasks[t].decideAt == Judging {
      JudgeGoesOn(c, s, t, id);
    }
  }

  /** Objects stay, with their ids. */
  ghost predicate SameObjectIds(s: State, s': State) {
    forall r :: r in s.store.heap ==> r in s'.store.heap && s'.store.heap[r].id == s.store.heap[r].id
  }

  lemma ScanMoves(c: Config, s: State, t: TaskId)
    requires t in s.tasks && s.tasks[t].Scanning? && s.store.next !in s.store.heap
    requires forall other :: other in s.store.active ==> Readable(s, s.store.active[other])
    ensures var task, step := s.tasks[t], Onward(t, s.tasks[t]);
      && Enabled(c, s, step)
      && var s' := Next(c, s, step);
         && SameObjectIds(s, s') && t in s'.tasks
         && (task.ids == [] ==> s'.tasks[t] == Sweeping(Expiring, task.now, task.found, 0))
         && (task.ids != [] ==> s'.tasks[t].Scanning? && s'.tasks[t].ids == task.ids[1..] && task.found <= s'.tasks[t].found)
  {
    var task := s.tasks[t];
    if task.ids != [] {
      assert task.ids[0] in s.store.active ==> Readable(s, s.store.active[task.ids[0]]);
    }
  }

  lemma ScanGoesOn(c: Config, s: State, t: TaskId, id: Id)
    requires t in s.tasks && s.tasks[t].Scanning? && InHands(s.store.heap, s.tasks[t], id)
    requires s.store.next !in s.store.heap
    requires forall other :: other in s.store.active ==> Readable(s, s.store.active[other])
    ensures var step := Onward(t, s.tasks[t]);
      && Enabled(c, s, step)
      && var s' := Next(c, s, step);
         t in s'.tasks && InHands(s'.store.heap, s'.tasks[t], id) && Closer(s.tasks[t], s'.tasks[t])
  {
    ScanMoves(c, s, t);
    var task, s' := s.tasks[t], Next(c, s, Onward(t, s.tasks[t]));
    hide Enabled, Next, Onward;
    var i :| 0 <= i < |task.found| && task.found[i] in s.store.heap && s.store.heap[task.found[i]].id == id;
    assert s'.tasks[t].found[i] == task.found[i];
  }

  /** Where a sweep that has something to file stands after its next step. */
  function SweptOn(task: Task): Task
    requires task.Sweeping?
  {
    var Sweeping(at, now, found, done) := task;
    match at
    case Expiring => Sweeping(Auditing, now, found, done)
    case Auditing => Sweeping(Publishing, now, found, done)
    case Publishing => Sweeping(AwaitShelf, now, found, done)
    case AwaitShelf => Sweeping(Shelving, now, found, done)
    case Shelving => Sweeping(Shelved, now, found, done)
    case Shelved => Sweeping(Expiring, now, found, done + 1)
  }

  lemma SweepFiles(c: Config, s: State, t: TaskId)
    requires t in s.tasks && s.tasks[t].Sweeping? && s.tasks[t].sweepAt == Shelving && s.tasks[t].done < |s.tasks[t].found|
    requires s.tasks[t].found[s.tasks[t].done] in s.store.heap
    ensures Onward(t, s.tasks[t]) == File(t) && Enabled(c, s, File(t))
    ensures var task, s' := s.tasks[t], Next(c, s, File(t));
      && SameObjectIds(s, s') && t in s'.tasks && s'.tasks[t] == SweptOn(task)
      && s.store.heap[task.found[task.done]].id !in s'.store.index
  {
  }

  lemma SweepMoves(c: Config, s: State, t: TaskId)
    requires t in s.tasks && s.tasks[t].Sweeping? && s.tasks[t].done < |s.tasks[t].found|
    requires s.tasks[t].found[s.tasks[t].done] in s.store.heap
    requires Waiting(s.tasks[t]) ==> s.lock == None
    ensures var task, step := s.tasks[t], Onward(t, s.tasks[t]);
      && Enabled(c, s, step)
      && var s' := Next(c, s, step);
         && SameObjectIds(s, s') && t in s'.tasks && s'.tasks[t] == SweptOn(task)
         && (task.sweepAt == Shelving ==> s.store.heap[task.found[task.done]].id !in s'.store.index)
  {
    if s.tasks[t].sweepAt == Shelving {
      hide *;
      SweepFiles(c, s, t);
    }
  }

  lemma SweptCloser(heap: map<Ref, Request>, heap': map<Ref, Request>, task: Task, id: Id)
    requires task.Sweeping? && InHands(heap, task, id)
    requires forall r :: r in heap ==> r in heap' && heap'[r].id == heap[r].id
    requires task.sweepAt == Shelving && task.done < |task.found| && task.found[task.done] in heap ==>
      heap[task.found[task.done]].id != id
    ensures InHands(heap', SweptOn(task), id) && Closer(task, SweptOn(task))
  {
    var i :| ToFile(task.sweepAt, task.done) <= i < |task.found| && task.found[i] in heap && heap[task.found[i]].id == id;
    assert task.found[i] in heap' && heap'[task.found[i]].id == id;
    assert ToFile(SweptOn(task).sweepAt, SweptOn(task).done) <= i;
  }

  lemma SweepGoesOn(c: Config, s: State, t: TaskId, id: Id)
    requires t in s.tasks && s.tasks[t].Sweeping? && InHands(s.store.heap, s.tasks[t], id)
    requires forall i :: 0 <= i < |s.tasks[t].found| ==> s.tasks[t].found[i] in s.store.heap
    requires Waiting(s.tasks[t]) ==> s.lock == None
    ensures var step := Onward(t, s.tasks[t]);
      && Enabled(c, s, step)
      && var s' := Next(c, s, step);
         id !in s'.store.index
         || (t in s'.tasks && InHands(s'.store.heap, s'.tasks[t], id) && Closer(s.tasks[t], s'.tasks[t]))
  {
    hide Enabled, Next, Onward, InHands, Closer, SweptOn;
    StillToFile(s.store.heap, s.tasks[t], id);
    SweepMoves(c, s, t);
    if id in Next(c, s, Onward(t, s.tasks[t])).store.index {
      SweptCloser(s.store.heap, Next(c, s, Onward(t, s.tasks[t])).store.heap, s.tasks[t], id);
    }
  }

  lemma StillToFile(heap: map<Ref, Request>, task: Task, id: Id)
    requires task.Sweeping? && InHands(heap, task, id)
    ensures task.done < |task.found|
  {
  }

  lemma CallGoesOn(c: Config, s: State, t: TaskId, id: Id)
    requires Inv(c, s) && t in s.tasks && InHands(s.store.heap, s.tasks[t], id)
    requires Waiting(s.tasks[t]) ==> s.lock == None
    ensures s.tasks[t].Deciding? || s.tasks[t].Scanning? || s.tasks[t].Sweeping?
    ensures var step := Onward(t, s.tasks[t]);
      && Enabled(c, s, step)
      && var s' := Next(c, s, step);
         id !in s'.store.index
         || (t in s'.tasks && InHands(s'.store.heap, s'.tasks[t], id) && Closer(s.tasks[t], s'.tasks[t]))
  {
    hide Inv, Next, Enabled, Closer;
    if s.tasks[t].Deciding? {
      ObjectFetched(c, s, t);
      DecidingGoesOn(c, s, t, id);
    } else if s.tasks[t].Scanning? {
      NextUnused(c, s);
      forall other | other in s.store.active ensures Readable(s, s.store.active[other]) {
        EntryOf(c, s, other);
      }
      ScanGoesOn(c, s, t, id);
    } else {
      ObjectsFound(c, s, t);
      SweepGoesOn(c, s, t, id);
    }
  }

  // ----- so whatever has the request in hand, or is still to come -----

  lemma AbortFrees(c: Config, s: State, t: TaskId)
    requires t in s.tasks && !s.tasks[t].Finished? && s.lock == Some(t)
    ensures Enabled(c, s, Abort(t))
    ensures var s' := Next(c, s, Abort(t)); s' == s.(tasks := s.tasks[t := Finished(Raised)], lock := None)
  {
  }

  /** A call that has the request in hand can file it, once whoever holds the lock is out of its way. */
  lemma {:induction false} CallLeaves(c: Config, s: State, t: TaskId, id: Id)
    requires Inv(c, s) && t in s.tasks && InHands(s.store.heap, s.tasks[t], id)
    ensures CanLeave(c, s, id)
    decreases s.tasks[t].Scanning?, Work(s.tasks[t]), Rank(s.tasks[t]), Waiting(s.tasks[t]) && s.lock.Some?
  {
    hide Inv, Next, Enabled, CanLeave, InHands, Onward, Work, Rank;
    if id !in s.store.index {
      HasLeft(c, s, id);
    } else if Waiting(s.tasks[t]) && s.lock.Some? {
      HolderHolds(c, s);
      AbortFrees(c, s, s.lock.value);
      StepKeeps(c, s, Abort(s.lock.value));
      CallLeaves(c, Next(c, s, Abort(s.lock.value)), t, id);
      LeavesAfter(c, s, Abort(s.lock.value), id);
    } else {
      CallGoesOn(c, s, t, id);
      var step := Onward(t, s.tasks[t]);
      StepKeeps(c, s, step);
      if id !in Next(c, s, step).store.index {
        HasLeft(c, Next(c, s, step), id);
      } else {
        CallLeaves(c, Next(c, s, step), t, id);
      }
      LeavesAfter(c, s, step, id);
    }
  }

  lemma HolderHolds(c: Config, s: State)
    requires Inv(c, s) && s.lock.Some?
    ensures s.lock.value in s.tasks && Holding(s.tasks[s.lock.value])
  {
    hide HeapInv, ActiveInv, ArchivedInv, IndexInv, LogInv, AuditInv, TaskOk;
  }

  lemma FreshTask(used: set<TaskId>) returns (t: TaskId)
    ensures forall u :: u in used ==> u.number < t.number
  {
    if used == {} {
      t := TaskId(0);
    } else {
      var u :| u in used;
      var rest := FreshTask(used - {u});
      t := if u.number < rest.number then rest else TaskId(u.number + 1);
      forall v | v in used ensures v.number < t.number {
        if v != u { assert v in used - {u}; }
      }
    }
  }

  lemma FetchTakes(c: Config, s: State, t: TaskId, id: Id)
    requires t in s.tasks && s.tasks[t] == Fetching(true, id, REJECTED)
    requires id in s.store.active && Readable(s, s.store.active[id]) && Read(s, s.store.active[id]).status == PENDING
    ensures Enabled(c, s, Fetch(t))
    ensures var s' := Next(c, s, Fetch(t)); t in s'.tasks && InHands(s'.store.heap, s'.tasks[t], id)
  {
  }

  lemma FetchingLeaves(c: Config, s: State, t: TaskId, id: Id)
    requires Inv(c, s) && s.lock == None && t in s.tasks && s.tasks[t] == Fetching(false, id, REJECTED)
    requires id in s.store.active && Readable(s, s.store.active[id]) && Read(s, s.store.active[id]).status == PENDING
    ensures CanLeave(c, s, id)
  {
    hide Inv, CanLeave, InHands;
    var s1 := Next(c, s, Acquire(t));
    assert s1.tasks[t] == Fetching(true, id, REJECTED) && s1.store == s.store;
    StepKeeps(c, s, Acquire(t));
    FetchTakes(c, s1, t, id);
    StepKeeps(c, s1, Fetch(t));
    hide Next, Enabled;
    CallLeaves(c, Next(c, s1, Fetch(t)), t, id);
    LeavesAfter(c, s1, Fetch(t), id);
    LeavesAfter(c, s, Acquire(t), id);
  }

  /** A request that waits for a decision can be rejected, by a call of its own. */
  lemma PendingLeaves(c: Config, s: State, id: Id)
    requires Inv(c, s) && s.lock == None
    requires id in s.store.active && Readable(s, s.store.active[id]) && Read(s, s.store.active[id]).status == PENDING
    ensures CanLeave(c, s, id)
  {
    var t := FreshTask(s.tasks.Keys);
    hide Inv, CanLeave;
    var s1 := Next(c, s, BeginDecide(t, id, REJECTED));
    StepKeeps(c, s, BeginDecide(t, id, REJECTED));
    FetchingLeaves(c, s1, t, id);
    LeavesAfter(c, s, BeginDecide(t, id, REJECTED), id);
  }

  lemma NeverLeaves(c: Config, s: State, id: Id)
    requires Inv(c, s) && Stranded(s, id)
    ensures !CanLeave(c, s, id)
  {
    hide Inv, Stranded;
    forall steps | Feasible(c, s, steps) ensures id in Run(c, s, steps).store.index {
      StrandedForever(c, s, steps, id);
    }
  }

  lemma OpenOrInHands(c: Config, s: State, id: Id)
    requires Inv(c, s) && id in s.store.index && !Stranded(s, id)
    requires forall t :: t in s.tasks ==> !InHands(s.store.heap, s.tasks[t], id)
    ensures id in s.store.active && Readable(s, s.store.active[id]) && Read(s, s.store.active[id]).status == PENDING
  {
    hide Inv, InHands;
    if id in s.store.active { EntryOf(c, s, id); }
  }

  /**
   Exactly when the room a request takes up can come back, in every state and for both stores: the request
   is waiting for a decision, or some call has it in hand.
   */
  lemma RoomComesBackExactly(c: Config, s: State, id: Id)
    requires Inv(c, s) && id in s.store.index
    ensures CanLeave(c, s, id) <==> !Stranded(s, id)
  {
    hide Inv, CanLeave, InHands;
    if Stranded(s, id) {
      NeverLeaves(c, s, id);
    } else if t :| t in s.tasks && InHands(s.store.heap, s.tasks[t], id) {
      CallLeaves(c, s, t, id);
    } else {
      OpenOrInHands(c, s, id);
      hide Stranded;
      if s.lock.Some? {
        var t := s.lock.value;
        HolderHolds(c, s);
        AbortFrees(c, s, t);
        StepKeeps(c, s, Abort(t));
        PendingLeaves(c, Next(c, s, Abort(t)), id);
        LeavesAfter(c, s, Abort(t), id);
      } else {
        PendingLeaves(c, s, id);
      }
    }
  }

  // ----- at rest -----

  /** The store shows the request as waiting for a decision. */
  predicate Open(s: State, id: Id) {
    id in s.store.active && Readable(s, s.store.active[id]) && Read(s, s.store.active[id]).status == PENDING
  }

  /** With no call under way, room can come back exactly for the requests that wait for a decision. */
  lemma RoomAtRest(c: Config, s: State, id: Id)
    requires Inv(c, s) && AtRest(s) && id in s.store.index
    ensures CanLeave(c, s, id) <==> Open(s, id)
  {
    RoomComesBackExactly(c, s, id);
    if id in s.store.active { EntryOf(c, s, id); }
    hide Inv, CanLeave;
  }

  /** If no call was cut short and no key lost, that is every indexed request: no room is ever lost. */
  lemma UndisturbedLosesNoRoom(c: Config, steps: seq<Step>, id: Id)
    requires Feasible(c, Start, steps) && AllUndisturbed(steps) && AtRest(Run(c, Start, steps))
    requires id in Run(c, Start, steps).store.index
    ensures Open(Run(c, Start, steps), id) && CanLeave(c, Run(c, Start, steps), id)
  {
    var s, a := Run(c, Start, steps), Closing(c, Start, Opening, steps);
    StartAccounted(c);
    RunAccounts(c, Start, Opening, steps);
    OpenAtRest(c, s, a, id);
    hide *;
    RoomAtRest(c, s, id);
  }

  lemma OpenAtRest(c: Config, s: State, a: Account, id: Id)
    requires Accounted(c, s, a) && AtRest(s) && id in s.store.index
    ensures Inv(c, s) && Open(s, id)
  {
    PendingIsOpen(c, s, a, a.agents[id]);
  }

  /**
   It can be lost, as the event loop runs: over Redis by a decision cancelled before its archiving, in memory
   by a sweep cancelled while it writes its audit record.
   */
  lemma RoomCanBeLost(c: Config, agent: Name) returns (s: State, id: Id)
    requires c.capacity > 0 && c.timeout > 0
    ensures HitlPace.Reachable(c, s) && id in s.store.index && !CanLeave(c, s, id)
  {
    id := HitlWitness.R0;
    if c.backend == Redis {
      s := HitlWitness.CutBeforeFiling(c, agent);
    } else {
      s := HitlWitness.CutAtAudit(c, agent);
    }
    assert forall t :: t in s.tasks ==> s.tasks[t].Submitting? || s.tasks[t].Finished?;
    assert Stranded(s, id);
    ReachableInvariant(c, s);
    hide *;
    NeverLeaves(c, s, id);
  }

  lemma ReachableInvariant(c: Config, s: State)
    requires HitlPace.Reachable(c, s)
    ensures Inv(c, s)
  {
    hide Inv;
    var steps :| Feasible(c, Start, steps) && HitlPace.Paced(c, Start, steps) && Run(c, Start, steps) == s;
    ReachableInv(c, steps);
  }
}
