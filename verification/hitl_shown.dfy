/**
 What `get_request` shows when no key is lost: every saved request, for ever, and a request that a call has
 filed with the status that call gave it. Calls may be cut short anywhere.
 */
module HitlShown {
  import opened Maybe
  import opened HitlProtocol
  import opened HitlInvariant
  import opened HitlRuns
  import opened HitlChanges
  import opened HitlSafety

  /** Redis drops no key. */
  predicate Lossless(step: Step) {
    !step.LoseActive? && !step.LoseArchived?
  }

  predicate AllLossless(steps: seq<Step>) {
    forall step :: step in steps ==> Lossless(step)
  }

  /** What was saved is still in the store, among the archived ones if it was archived. */
  predicate NothingLost(s: State) {
    && s.past.retired <= s.store.archived.Keys
    && s.past.saved - s.past.retired <= s.store.active.Keys
  }

  /** The requests that the task is past filing. */
  predicate PastFiling(heap: map<Ref, Request>, task: Task, id: Id) {
    match task
    case Deciding(at, own, _, _, _) => own == id && (at == Filed || at == Reporting || at == Announcing)
    case Sweeping(at, _, found, done) =>
      exists i :: 0 <= i < ToFile(at, done) && i < |found| && found[i] in heap && heap[found[i]].id == id
    case Finished(outcome) => outcome.Decided? && outcome.id == id
    case _ => false
  }

  ghost predicate FiledIsRetired(s: State) {
    forall t, id :: t in s.tasks && PastFiling(s.store.heap, s.tasks[t], id) ==> id in s.past.retired
  }

  // ----- nothing is lost -----

  lemma QuietLosesNothing(c: Config, s: State, step: Step)
    requires NothingLost(s) && Enabled(c, s, step) && LeavesStore(step)
    ensures NothingLost(Next(c, s, step))
  {
    var s' := Next(c, s, step);
    assert s'.store == s.store && s'.past == s.past;
    hide Next, Enabled;
  }

  lemma StepLosesNothing(c: Config, s: State, step: Step)
    requires NothingLost(s) && Enabled(c, s, step) && Lossless(step)
    ensures NothingLost(Next(c, s, step))
  {
    if LeavesStore(step) {
      QuietLosesNothing(c, s, step);
    }
  }

  // ----- what a call has filed is archived -----

  /** The objects that the task names are there. */
  predicate Refers(heap: map<Ref, Request>, task: Task) {
    task.Sweeping? ==> forall i :: 0 <= i < |task.found| ==> task.found[i] in heap
  }

  lemma TaskRefers(c: Config, s: State, t: TaskId)
    requires Inv(c, s) && t in s.tasks
    ensures Refers(s.store.heap, s.tasks[t])
  {
    hide HeapInv, ActiveInv, ArchivedInv, IndexInv, LogInv, AuditInv;
    assert TaskOk(c, s, t, s.tasks[t]);
    if s.tasks[t].Sweeping? {
      forall i | 0 <= i < |s.tasks[t].found| ensures s.tasks[t].found[i] in s.store.heap {
        assert StaleOk(c, s, s.tasks[t].found[i]);
      }
    }
  }

  lemma SameIdsFiling(c: Config, s: State, s': State, mover: Option<TaskId>, task: Task, id: Id)
    requires Evolves(c, s, s', mover) && Refers(s.store.heap, task) && PastFiling(s'.store.heap, task, id)
    ensures PastFiling(s.store.heap, task, id)
  {
    if task.Sweeping? {
      var i :| 0 <= i < ToFile(task.sweepAt, task.done) && i < |task.found| && task.found[i] in s'.store.heap
        && s'.store.heap[task.found[i]].id == id;
      assert SameRequest(c, s, s.store.heap[task.found[i]], s'.store.heap[task.found[i]], task.found[i]);
    }
  }

  /** A task gets past filing a request only by filing it. */
  predicate MovesPast(s: State, s': State, t: TaskId, id: Id) {
    t in s'.tasks && (PastFiling(s.store.heap, s'.tasks[t], id) ==>
      id in s'.past.retired || (t in s.tasks && PastFiling(s.store.heap, s.tasks[t], id)))
  }

  lemma FileMovesPast(c: Config, s: State, t: TaskId, id: Id)
    requires Enabled(c, s, File(t))
    ensures MovesPast(s, Next(c, s, File(t)), t, id)
  {
  }

  lemma ReleaseMovesPast(c: Config, s: State, t: TaskId, id: Id)
    requires Enabled(c, s, Release(t)) && (s.tasks[t].Deciding? && s.tasks[t].late ==> s.tasks[t].decideAt != Persisted)
    ensures MovesPast(s, Next(c, s, Release(t)), t, id)
  {
  }

  lemma OtherMovesPast(c: Config, s: State, step: Step, id: Id)
    requires Enabled(c, s, step) && Mover(step).Some? && !step.File? && !step.Release?
    ensures MovesPast(s, Next(c, s, step), step.t, id)
  {
  }

  lemma PersistedInTime(c: Config, s: State, t: TaskId)
    requires Inv(c, s) && t in s.tasks && s.tasks[t].Deciding? && s.tasks[t].late
    ensures s.tasks[t].decideAt != Persisted
  {
    hide HeapInv, ActiveInv, ArchivedInv, IndexInv, LogInv, AuditInv;
    assert TaskOk(c, s, t, s.tasks[t]);
  }

  lemma StepMovesPast(c: Config, s: State, step: Step, id: Id)
    requires Inv(c, s) && Enabled(c, s, step) && Mover(step).Some?
    ensures MovesPast(s, Next(c, s, step), step.t, id)
  {
    if step.Release? && s.tasks[step.t].Deciding? && s.tasks[step.t].late { PersistedInTime(c, s, step.t); }
    hide Inv, MovesPast, Next, Enabled;
    if step.File? {
      FileMovesPast(c, s, step.t, id);
    } else if step.Release? {
      ReleaseMovesPast(c, s, step.t, id);
    } else {
      OtherMovesPast(c, s, step, id);
    }
  }

  ghost predicate OnlyMoves(s: State, s': State, mover: Option<TaskId>) {
    forall u :: mover != Some(u) ==> (u in s'.tasks <==> u in s.tasks) && (u in s.tasks ==> s'.tasks[u] == s.tasks[u])
  }

  lemma LeavingMovesOne(c: Config, s: State, step: Step)
    requires Enabled(c, s, step) && LeavesStore(step)
    ensures OnlyMoves(s, Next(c, s, step), Mover(step))
  {
  }

  lemma UsingMovesOne(c: Config, s: State, step: Step)
    requires Enabled(c, s, step) && !LeavesStore(step)
    ensures OnlyMoves(s, Next(c, s, step), Mover(step))
  {
  }

  lemma OnlyMoverMoves(c: Config, s: State, step: Step, u: TaskId)
    requires Enabled(c, s, step) && Mover(step) != Some(u)
    ensures u in Next(c, s, step).tasks <==> u in s.tasks
    ensures u in s.tasks ==> Next(c, s, step).tasks[u] == s.tasks[u]
  {
    hide Next, Enabled;
    if LeavesStore(step) { LeavingMovesOne(c, s, step); } else { UsingMovesOne(c, s, step); }
  }

  lemma StepFiles(c: Config, s: State, step: Step)
    requires Inv(c, s) && FiledIsRetired(s) && Enabled(c, s, step)
    ensures FiledIsRetired(Next(c, s, step))
  {
    var s' := Next(c, s, step);
    StepChanges(c, s, step);
    StepKeeps(c, s, step);
    hide Inv, Next, Enabled, PastFiling, Refers;
    assert Evolves(c, s, s', Mover(step));
    forall u, id | u in s'.tasks && PastFiling(s'.store.heap, s'.tasks[u], id) ensures id in s'.past.retired {
      if Mover(step) == Some(u) {
        NewTaskRefers(c, s, step);
        SameIdsFiling(c, s, s', Mover(step), s'.tasks[u], id);
        StepMovesPast(c, s, step, id);
      } else {
        OnlyMoverMoves(c, s, step, u);
        TaskRefers(c, s, u);
        SameIdsFiling(c, s, s', Mover(step), s.tasks[u], id);
      }
    }
  }

  /** A step names no object in a sweep that was not there before. */
  lemma NewTaskRefers(c: Config, s: State, step: Step)
    requires Inv(c, s) && Enabled(c, s, step) && Mover(step).Some?
    ensures step.t in Next(c, s, step).tasks && Refers(s.store.heap, Next(c, s, step).tasks[step.t])
  {
    if step.t in s.tasks {
      TaskRefers(c, s, step.t);
      if s.tasks[step.t].Scanning? { ScannedRefers(c, s, step.t); }
    }
    hide Inv;
    SweepTasks(c, s, step);
  }

  lemma ScannedRefers(c: Config, s: State, t: TaskId)
    requires Inv(c, s) && t in s.tasks && s.tasks[t].Scanning?
    ensures forall i :: 0 <= i < |s.tasks[t].found| ==> s.tasks[t].found[i] in s.store.heap
  {
    hide HeapInv, ActiveInv, ArchivedInv, IndexInv, LogInv, AuditInv;
    assert TaskOk(c, s, t, s.tasks[t]);
    forall i | 0 <= i < |s.tasks[t].found| ensures s.tasks[t].found[i] in s.store.heap {
      assert StaleOk(c, s, s.tasks[t].found[i]);
    }
  }

  lemma SweepTasks(c: Config, s: State, step: Step)
    requires Enabled(c, s, step) && Mover(step).Some?
    requires step.t in s.tasks ==> Refers(s.store.heap, s.tasks[step.t])
    requires step.t in s.tasks && s.tasks[step.t].Scanning? ==>
      forall i :: 0 <= i < |s.tasks[step.t].found| ==> s.tasks[step.t].found[i] in s.store.heap
    ensures step.t in Next(c, s, step).tasks && Refers(s.store.heap, Next(c, s, step).tasks[step.t])
  {
  }

  // ----- runs -----

  ghost predicate Accounts(c: Config, s: State) {
    Inv(c, s) && NothingLost(s) && FiledIsRetired(s)
  }

  lemma {:induction false} RunAccounts(c: Config, s: State, steps: seq<Step>)
    requires Accounts(c, s) && Feasible(c, s, steps) && AllLossless(steps)
    ensures Accounts(c, Run(c, s, steps))
    decreases |steps|
  {
    hide Inv, NothingLost, FiledIsRetired, Next, Enabled, Lossless;
    if steps != [] {
      assert steps[0] in steps;
      assert forall step :: step in steps[1..] ==> step in steps;
      StepKeeps(c, s, steps[0]);
      StepLosesNothing(c, s, steps[0]);
      StepFiles(c, s, steps[0]);
      RunAccounts(c, Next(c, s, steps[0]), steps[1..]);
    }
  }

  lemma Started(c: Config, steps: seq<Step>)
    requires Feasible(c, Start, steps) && AllLossless(steps)
    ensures Accounts(c, Run(c, Start, steps))
  {
    StartInv(c);
    hide Inv;
    RunAccounts(c, Start, steps);
  }

  // ----- what is shown -----

  /** An archived request shows its decision, or EXPIRED if there was none. */
  lemma RetiredShows(c: Config, s: State, id: Id)
    requires Inv(c, s) && NothingLost(s) && id in s.past.retired
    ensures View(s, id) == Some(if id in s.past.verdict then s.past.verdict[id] else EXPIRED)
  {
    hide HeapInv, LogInv, AuditInv, TasksInv;
    assert id !in s.store.index.Keys && id !in s.store.active;
    assert ArchivedOk(c, s, id, s.store.archived[id]);
    hide ActiveInv, IndexInv, ArchivedInv;
  }

  lemma SavedShows(c: Config, s: State, id: Id)
    requires Inv(c, s) && NothingLost(s) && id in s.past.saved && id !in s.past.retired
    ensures View(s, id).Some?
  {
    hide HeapInv, ArchivedInv, IndexInv, LogInv, AuditInv, TasksInv;
    assert EntryOk(c, s, id, s.store.active[id]);
  }

  lemma EverySavedShows(c: Config, s: State, id: Id)
    requires Accounts(c, s) && id in s.past.saved
    ensures View(s, id).Some?
  {
    hide Inv, NothingLost, FiledIsRetired;
    if id in s.past.retired { RetiredShows(c, s, id); } else { SavedShows(c, s, id); }
  }

  lemma {:induction false} SavedStays(c: Config, s: State, steps: seq<Step>, id: Id)
    requires Inv(c, s) && Feasible(c, s, steps) && id in s.past.saved
    ensures id in Run(c, s, steps).past.saved
    decreases |steps|
  {
    if steps != [] {
      StepKeeps(c, s, steps[0]);
      StepChanges(c, s, steps[0]);
      hide Inv, Next, Enabled;
      SavedStays(c, Next(c, s, steps[0]), steps[1..], id);
    }
  }

  /** Every request ever saved is shown from then on, whatever is cut short: `get_request` never loses one. */
  lemma SavedIsShown(c: Config, steps: seq<Step>, more: seq<Step>, id: Id)
    requires Feasible(c, Start, steps) && AllLossless(steps) && id in Run(c, Start, steps).past.saved
    requires Feasible(c, Run(c, Start, steps), more) && AllLossless(more)
    ensures View(Run(c, Run(c, Start, steps), more), id).Some?
  {
    var s := Run(c, Start, steps);
    Started(c, steps);
    RunAccounts(c, s, more);
    hide NothingLost, FiledIsRetired;
    SavedStays(c, s, more, id);
    hide Inv;
    EverySavedShows(c, Run(c, s, more), id);
  }

  /** The submission is past its save. */
  predicate PastSaving(task: Task) {
    task.Submitting? && task.submitAt in {Saved, Notifying, Proposed}
  }

  ghost predicate SubmittersSaved(s: State) {
    forall t :: t in s.tasks && PastSaving(s.tasks[t]) ==>
      s.tasks[t].ref in s.store.heap && s.store.heap[s.tasks[t].ref].id in s.past.saved
  }

  lemma MoverSaves(c: Config, s: State, step: Step)
    requires Enabled(c, s, step) && Mover(step).Some? && step.t in Next(c, s, step).tasks
    ensures var s' := Next(c, s, step); var task := s'.tasks[step.t]; PastSaving(task) ==>
      || (step.t in s.tasks && PastSaving(s.tasks[step.t]) && s.tasks[step.t].ref == task.ref)
      || (task.ref in s.store.heap && s.store.heap[task.ref].id in s'.past.saved)
  {
  }

  lemma StepSaves(c: Config, s: State, step: Step)
    requires Inv(c, s) && SubmittersSaved(s) && Enabled(c, s, step)
    ensures SubmittersSaved(Next(c, s, step))
  {
    var s' := Next(c, s, step);
    StepChanges(c, s, step);
    hide Inv, Next, Enabled, PastSaving;
    assert Evolves(c, s, s', Mover(step));
    forall u | u in s'.tasks && PastSaving(s'.tasks[u])
      ensures s'.tasks[u].ref in s'.store.heap && s'.store.heap[s'.tasks[u].ref].id in s'.past.saved
    {
      if Mover(step) == Some(u) { MoverSaves(c, s, step); } else { OnlyMoverMoves(c, s, step, u); }
      var ref := s'.tasks[u].ref;
      assert SameRequest(c, s, s.store.heap[ref], s'.store.heap[ref], ref);
    }
  }

  lemma {:induction false} RunSaves(c: Config, s: State, steps: seq<Step>)
    requires Inv(c, s) && SubmittersSaved(s) && Feasible(c, s, steps)
    ensures SubmittersSaved(Run(c, s, steps))
    decreases |steps|
  {
    hide Inv, SubmittersSaved, Next, Enabled;
    if steps != [] {
      StepKeeps(c, s, steps[0]);
      StepSaves(c, s, steps[0]);
      RunSaves(c, Next(c, s, steps[0]), steps[1..]);
    }
  }

  /** So from the moment its submission has saved it, a request is shown, then and for ever. */
  lemma SubmittedIsShown(c: Config, steps: seq<Step>, more: seq<Step>, t: TaskId)
    requires Feasible(c, Start, steps) && AllLossless(steps)
    requires Feasible(c, Run(c, Start, steps), more) && AllLossless(more)
    requires t in Run(c, Start, steps).tasks && Run(c, Start, steps).tasks[t].Submitting?
    requires Run(c, Start, steps).tasks[t].submitAt in {Saved, Notifying, Proposed}
    ensures var s, ref := Run(c, Start, steps), Run(c, Start, steps).tasks[t].ref;
      && ref in s.store.heap
      && View(s, s.store.heap[ref].id).Some? && View(Run(c, s, more), s.store.heap[ref].id).Some?
  {
    var s := Run(c, Start, steps);
    StartInv(c);
    RunSaves(c, Start, steps);
    assert PastSaving(s.tasks[t]);
    Started(c, steps);
    hide Inv, NothingLost, FiledIsRetired;
    EverySavedShows(c, s, s.store.heap[s.tasks[t].ref].id);
    SavedIsShown(c, steps, more, s.store.heap[s.tasks[t].ref].id);
  }

  /** A terminal status that is shown is shown for ever. */
  lemma StaysShown(c: Config, steps: seq<Step>, more: seq<Step>, id: Id)
    requires Feasible(c, Start, steps) && AllLossless(steps)
    requires Feasible(c, Run(c, Start, steps), more) && AllLossless(more)
    requires View(Run(c, Start, steps), id).Some? && View(Run(c, Start, steps), id).value != PENDING
    ensures View(Run(c, Run(c, Start, steps), more), id) == View(Run(c, Start, steps), id)
  {
    TerminalStatusIsFinal(c, steps, more, id);
    Started(c, steps);
    TerminalWasSaved(c, Run(c, Start, steps), id);
    hide *;
    SavedIsShown(c, steps, more, id);
  }

  lemma TerminalWasSaved(c: Config, s: State, id: Id)
    requires Accounts(c, s) && View(s, id).Some? && View(s, id).value != PENDING
    ensures id in s.past.saved
  {
    hide HeapInv, LogInv, AuditInv, TasksInv, NothingLost, FiledIsRetired;
    ViewSettles(c, s, id);
  }

  /**
   A decision that returned success is what `get_request` shows, then and for ever: the request was
   archived with that decision before the call returned.
   */
  lemma DecidedIsShown(c: Config, steps: seq<Step>, more: seq<Step>, t: TaskId, id: Id, d: Status)
    requires Feasible(c, Start, steps) && AllLossless(steps)
    requires Feasible(c, Run(c, Start, steps), more) && AllLossless(more)
    requires t in Run(c, Start, steps).tasks && Run(c, Start, steps).tasks[t] == Finished(Decided(id, d))
    ensures View(Run(c, Start, steps), id) == Some(d)
    ensures View(Run(c, Run(c, Start, steps), more), id) == Some(d)
  {
    var s := Run(c, Start, steps);
    Started(c, steps);
    assert PastFiling(s.store.heap, s.tasks[t], id) && FiledIsRetired(s);
    hide NothingLost;
    RetiredShows(c, s, id);
    SuccessIsUnique(c, steps, t, t, id, d, d);
    hide *;
    StaysShown(c, steps, more, id);
  }

  /** Once a sweep has filed a request it found, `get_request` shows EXPIRED, then and for ever. */
  lemma SweptIsShown(c: Config, steps: seq<Step>, more: seq<Step>, t: TaskId, now: int, found: seq<Ref>, done: nat, at: SweepPoint, i: nat)
    requires Feasible(c, Start, steps) && AllLossless(steps)
    requires Feasible(c, Run(c, Start, steps), more) && AllLossless(more)
    requires t in Run(c, Start, steps).tasks && Run(c, Start, steps).tasks[t] == Sweeping(at, now, found, done)
    requires i < |found| && (i < done || (i == done && at == Shelved))
    ensures found[i] in Run(c, Start, steps).store.heap
    ensures View(Run(c, Start, steps), Run(c, Start, steps).store.heap[found[i]].id) == Some(EXPIRED)
    ensures View(Run(c, Run(c, Start, steps), more), Run(c, Start, steps).store.heap[found[i]].id) == Some(EXPIRED)
  {
    var s := Run(c, Start, steps);
    Started(c, steps);
    FoundUndecided(c, s, t, i);
    var id := s.store.heap[found[i]].id;
    assert PastFiling(s.store.heap, s.tasks[t], id) && FiledIsRetired(s);
    hide NothingLost;
    RetiredShows(c, s, id);
    hide *;
    StaysShown(c, steps, more, id);
  }

  lemma FoundUndecided(c: Config, s: State, t: TaskId, i: nat)
    requires Inv(c, s) && t in s.tasks && s.tasks[t].Sweeping? && i < |s.tasks[t].found|
    ensures s.tasks[t].found[i] in s.store.heap && s.store.heap[s.tasks[t].found[i]].id !in s.past.verdict
  {
    hide HeapInv, ActiveInv, ArchivedInv, IndexInv, LogInv, AuditInv;
    assert TaskOk(c, s, t, s.tasks[t]);
    assert StaleOk(c, s, s.tasks[t].found[i]);
  }

  /** A decision that came late has filed its request as EXPIRED before it raises. */
  lemma LateIsShown(c: Config, steps: seq<Step>, more: seq<Step>, t: TaskId, at: DecidePoint, id: Id, d: Status, ref: Ref)
    requires Feasible(c, Start, steps) && AllLossless(steps)
    requires Feasible(c, Run(c, Start, steps), more) && AllLossless(more)
    requires t in Run(c, Start, steps).tasks && Run(c, Start, steps).tasks[t] == Deciding(at, id, d, ref, true)
    requires at in {Filed, Reporting, Announcing}
    ensures View(Run(c, Start, steps), id) == Some(EXPIRED)
    ensures View(Run(c, Run(c, Start, steps), more), id) == Some(EXPIRED)
  {
    var s := Run(c, Start, steps);
    Started(c, steps);
    LateUndecided(c, s, t, at, id, d, ref);
    assert PastFiling(s.store.heap, s.tasks[t], id) && FiledIsRetired(s);
    hide NothingLost;
    RetiredShows(c, s, id);
    hide *;
    StaysShown(c, steps, more, id);
  }

  lemma LateUndecided(c: Config, s: State, t: TaskId, at: DecidePoint, id: Id, d: Status, ref: Ref)
    requires Inv(c, s) && t in s.tasks && s.tasks[t] == Deciding(at, id, d, ref, true) && at != Judging
    ensures id !in s.past.verdict
  {
    hide ActiveInv, ArchivedInv, IndexInv, LogInv, AuditInv;
    assert TaskOk(c, s, t, s.tasks[t]);
    assert RequestOk(s, s.store.heap[ref]);
  }
}
