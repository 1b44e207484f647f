/** No call goes on for ever: how many steps of its own a call can take, whatever the others do. */
module HitlBounded {
  import opened FiniteSets
  import opened Maybe
  import opened HitlProtocol
  import opened HitlInvariant
  import opened HitlRuns
  import opened HitlProgress
  import opened HitlChanges
  import opened HitlShown

  function LeftOfSubmission(at: SubmitPoint): nat {
    match at
    case AwaitSlot => 8
    case Counting => 7
    case Saving => 6
    case Saved => 5
    case Notifying => 4
    case Proposed => 3
  }

  function LeftOfDecision(at: DecidePoint): nat {
    match at
    case Judging => 7
    case Persisted => 6
    case AwaitFiling => 5
    case Filing => 4
    case Filed => 3
    case Reporting => 2
    case Announcing => 1
  }

  function PlaceOfSweep(at: SweepPoint): nat {
    match at
    case Expiring => 6
    case Auditing => 5
    case Publishing => 4
    case AwaitShelf => 3
    case Shelving => 2
    case Shelved => 1
  }

  /** How many steps a task has left at most; a sweep lists no more requests than there is room for. */
  function StepsLeft(c: Config, task: Task): int {
    match task
    case Proposing(_) => 9
    case Submitting(at, _, _) => LeftOfSubmission(at)
    case Executing(_, _) => 1
    case Fetching(holding, _, _) => if holding then 8 else 9
    case Deciding(at, _, _, _, _) => LeftOfDecision(at)
    case Snapshotting(holding, _) => 7 * c.capacity + if holding then 3 else 4
    case Scanning(_, ids, found) => 7 * |ids| + 6 * |found| + 2
    case Sweeping(at, _, found, done) => 6 * (|found| - done) - 5 + PlaceOfSweep(at)
    case Finished(_) => 0
  }

  lemma ListIsBounded(c: Config, s: State, t: TaskId, ids: seq<Id>)
    requires Inv(c, s) && Enabled(c, s, List(t, ids))
    ensures |ids| <= c.capacity
  {
    hide HeapInv, ActiveInv, ArchivedInv, LogInv, AuditInv, TasksInv;
    var listed := set id | id in ids;
    DistinctSize(ids);
    SubsetSize(listed, s.store.index.Keys);
    assert |s.store.index| == |s.store.index.Keys|;
  }

  lemma {:induction false} DistinctSize(ids: seq<Id>)
    requires forall i, j :: 0 <= i < j < |ids| ==> ids[i] != ids[j]
    ensures |set id | id in ids| == |ids|
  {
    if ids != [] {
      DistinctSize(ids[1..]);
      assert ids[0] !in ids[1..];
      assert (set id | id in ids) == {ids[0]} + (set id | id in ids[1..]);
    }
  }

  /** A sweep has done no more than it found. */
  predicate Counts(task: Task) {
    task.Sweeping? ==> task.done <= |task.found| && (task.sweepAt != Expiring ==> task.done < |task.found|)
  }

  lemma TaskCounts(c: Config, s: State, t: TaskId)
    requires Inv(c, s) && t in s.tasks
    ensures Counts(s.tasks[t]) && StepsLeft(c, s.tasks[t]) >= 0
  {
    hide HeapInv, ActiveInv, ArchivedInv, IndexInv, LogInv, AuditInv;
    assert TaskOk(c, s, t, s.tasks[t]);
    hide TasksInv;
  }

  lemma LeavingAdvances(c: Config, s: State, step: Step, t: TaskId)
    requires Enabled(c, s, step) && MovesTask(step, t) && LeavesStore(step) && t in s.tasks && Counts(s.tasks[t])
    requires step.List? ==> |step.ids| <= c.capacity
    ensures t in Next(c, s, step).tasks && StepsLeft(c, Next(c, s, step).tasks[t]) < StepsLeft(c, s.tasks[t])
  {
  }

  lemma UsingAdvances(c: Config, s: State, step: Step, t: TaskId)
    requires Enabled(c, s, step) && MovesTask(step, t) && !LeavesStore(step) && t in s.tasks && Counts(s.tasks[t])
    ensures t in Next(c, s, step).tasks && StepsLeft(c, Next(c, s, step).tasks[t]) < StepsLeft(c, s.tasks[t])
  {
  }

  /** Every step of a call brings it nearer to its end. */
  lemma EveryStepAdvances(c: Config, s: State, step: Step, t: TaskId)
    requires Inv(c, s) && Enabled(c, s, step) && MovesTask(step, t) && t in s.tasks
    ensures t in Next(c, s, step).tasks && StepsLeft(c, Next(c, s, step).tasks[t]) < StepsLeft(c, s.tasks[t])
  {
    TaskCounts(c, s, t);
    if step.List? { ListIsBounded(c, s, t, step.ids); }
    hide Inv, Next, Enabled, StepsLeft, Counts;
    if LeavesStore(step) { LeavingAdvances(c, s, step, t); } else { UsingAdvances(c, s, step, t); }
  }

  lemma BeginsBounded(c: Config, s: State, step: Step, t: TaskId)
    requires Enabled(c, s, step) && MovesTask(step, t) && t !in s.tasks
    ensures t in Next(c, s, step).tasks && StepsLeft(c, Next(c, s, step).tasks[t]) <= 7 * c.capacity + 9
  {
  }

  /** How many steps of the task's own a run has. */
  function Turns(steps: seq<Step>, t: TaskId): nat {
    if steps == [] then 0 else (if MovesTask(steps[0], t) then 1 else 0) + Turns(steps[1..], t)
  }

  function Budget(c: Config, s: State, t: TaskId): int {
    if t in s.tasks then StepsLeft(c, s.tasks[t]) else 7 * c.capacity + 10
  }

  lemma {:induction false} RunIsBounded(c: Config, s: State, steps: seq<Step>, t: TaskId)
    requires Inv(c, s) && Feasible(c, s, steps)
    ensures Turns(steps, t) <= Budget(c, s, t)
    decreases |steps|
  {
    if steps == [] {
      if t in s.tasks { TaskCounts(c, s, t); }
    } else {
      var step, s' := steps[0], Next(c, s, steps[0]);
      StepKeeps(c, s, step);
      if MovesTask(step, t) {
        if t in s.tasks { EveryStepAdvances(c, s, step, t); } else { BeginsBounded(c, s, step, t); }
      } else if t in s.tasks && Mover(step) == Some(t) {
        CutLeavesNothing(c, s, step, t);
      } else {
        StaysUnmoved(c, s, step, t);
      }
      hide Inv, Next, Enabled, StepsLeft, MovesTask;
      RunIsBounded(c, s', steps[1..], t);
    }
  }

  lemma CutLeavesNothing(c: Config, s: State, step: Step, t: TaskId)
    requires Inv(c, s) && Enabled(c, s, step) && t in s.tasks && Mover(step) == Some(t) && !MovesTask(step, t)
    ensures t in Next(c, s, step).tasks && StepsLeft(c, Next(c, s, step).tasks[t]) <= StepsLeft(c, s.tasks[t])
  {
    TaskCounts(c, s, t);
    hide Inv;
  }

  lemma StaysUnmoved(c: Config, s: State, step: Step, t: TaskId)
    requires Enabled(c, s, step) && Mover(step) != Some(t)
    ensures Budget(c, Next(c, s, step), t) == Budget(c, s, t)
  {
    OnlyMoverMoves(c, s, step, t);
    hide Next, Enabled, StepsLeft;
  }

  /**
   In every interleaving and over both stores a call takes at most ten steps of its own and seven more for each
   request that there is room for: none goes on for ever, whatever the others do.
   */
  lemma CallsAreBounded(c: Config, steps: seq<Step>, t: TaskId)
    requires Feasible(c, Start, steps)
    ensures Turns(steps, t) <= 7 * c.capacity + 10
  {
    StartInv(c);
    hide Inv;
    RunIsBounded(c, Start, steps, t);
  }
}
