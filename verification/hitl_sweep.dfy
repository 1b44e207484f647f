/**
 What a sweep achieves among other calls, over either store: a request that is due when the sweep begins is
 no longer shown as PENDING when it is done.
 */
module HitlSweep {
  import opened Maybe
  import opened HitlProtocol
  import opened HitlInvariant
  import opened HitlRuns
  import opened HitlChanges
  import opened HitlSafety
  import opened HitlShown

  /** From index `k` on, the sweep has found the request. */
  predicate HasFound(heap: map<Ref, Request>, found: seq<Ref>, k: nat, id: Id) {
    exists i :: k <= i < |found| && found[i] in heap && heap[found[i]].id == id
  }

  /** The sweep still has the request before it. */
  predicate Ahead(s: State, task: Task, id: Id) {
    match task
    case Snapshotting(_, now) => id in s.past.expiry && s.past.expiry[id] <= now
    case Scanning(_, ids, found) => id in ids || HasFound(s.store.heap, found, 0, id)
    case Sweeping(at, _, found, done) => HasFound(s.store.heap, found, ToFile(at, done), id)
    case _ => false
  }

  predicate Terminal(s: State, id: Id) {
    View(s, id).Some? && View(s, id).value != PENDING
  }

  /** The request is closed, or this sweep will close it. */
  predicate AheadOrClosed(s: State, t: TaskId, id: Id) {
    id in s.past.retired || Terminal(s, id) || (t in s.tasks && Ahead(s, s.tasks[t], id))
  }

  lemma FoundStays(c: Config, s: State, s': State, mover: Option<TaskId>, found: seq<Ref>, k: nat, id: Id)
    requires Evolves(c, s, s', mover) && HasFound(s.store.heap, found, k, id)
    ensures HasFound(s'.store.heap, found, k, id)
  {
    var i :| k <= i < |found| && found[i] in s.store.heap && s.store.heap[found[i]].id == id;
    assert SameRequest(c, s, s.store.heap[found[i]], s'.store.heap[found[i]], found[i]);
  }

  /** While others move, what is ahead of the sweep stays so. */
  lemma OthersLeaveAhead(c: Config, s: State, s': State, mover: Option<TaskId>, task: Task, id: Id)
    requires Evolves(c, s, s', mover) && Ahead(s, task, id)
    ensures Ahead(s', task, id)
  {
    hide HasFound;
    match task
    case Snapshotting(_, _) =>
    case Scanning(_, ids, found) => if id !in ids { FoundStays(c, s, s', mover, found, 0, id); }
    case Sweeping(at, _, found, done) => FoundStays(c, s, s', mover, found, ToFile(at, done), id);
  }

  // ----- the sweep's own steps -----

  lemma ListTakes(c: Config, s: State, t: TaskId, ids: seq<Id>, id: Id)
    requires Inv(c, s) && Enabled(c, s, List(t, ids)) && Ahead(s, s.tasks[t], id) && id in s.past.saved
    ensures var s' := Next(c, s, List(t, ids)); id in s'.past.retired || (t in s'.tasks && Ahead(s', s'.tasks[t], id))
  {
    hide HeapInv, ActiveInv, ArchivedInv, LogInv, AuditInv, TasksInv;
    assert id in s.past.retired || id in s.store.index.Keys;
  }

  /** The entry that a scan reads for its next id. */
  lemma ScanReads(c: Config, s: State, id: Id)
    requires Inv(c, s) && NothingLost(s) && id in s.past.saved && id !in s.past.retired
    ensures id in s.store.active && Readable(s, s.store.active[id]) && Read(s, s.store.active[id]).id == id
  {
    hide HeapInv, ArchivedInv, IndexInv, LogInv, AuditInv, TasksInv;
    assert EntryOk(c, s, id, s.store.active[id]);
  }

  lemma ScanFindsNext(c: Config, s: State, t: TaskId, id: Id)
    requires Enabled(c, s, Scan(t)) && s.tasks[t].ids[0] == id
    requires id in s.store.active && Readable(s, s.store.active[id]) && Read(s, s.store.active[id]).id == id
    requires Read(s, s.store.active[id]).status == PENDING
    ensures var s' := Next(c, s, Scan(t)); t in s'.tasks && Ahead(s', s'.tasks[t], id)
  {
    var s' := Next(c, s, Scan(t));
    var ref := Handed(s, s.store.active[id]).0;
    assert s'.tasks[t].found[|s.tasks[t].found|] == ref && s'.store.heap[ref].id == id;
  }

  lemma ScanKeepsFound(c: Config, s: State, t: TaskId, id: Id)
    requires Enabled(c, s, Scan(t)) && s.store.next !in s.store.heap
    requires (s.tasks[t].ids[0] != id && Ahead(s, s.tasks[t], id)) || HasFound(s.store.heap, s.tasks[t].found, 0, id)
    ensures var s' := Next(c, s, Scan(t)); t in s'.tasks && Ahead(s', s'.tasks[t], id)
  {
    var s', task := Next(c, s, Scan(t)), s.tasks[t];
    if HasFound(s.store.heap, task.found, 0, id) {
      var i :| 0 <= i < |task.found| && task.found[i] in s.store.heap && s.store.heap[task.found[i]].id == id;
      assert s'.tasks[t].found[i] == task.found[i];
    } else {
      var j :| 0 <= j < |task.ids| && task.ids[j] == id;
      assert task.ids[1..][j - 1] == id;
    }
  }

  /** Reading does not change what the store shows. */
  lemma ScanShowsSame(c: Config, s: State, t: TaskId, id: Id)
    requires Enabled(c, s, Scan(t)) && s.store.next !in s.store.heap
    requires id in s.store.active && Readable(s, s.store.active[id]) && Read(s, s.store.active[id]).status != PENDING
    ensures Terminal(Next(c, s, Scan(t)), id)
  {
  }

  lemma ScanCloses(c: Config, s: State, t: TaskId, id: Id)
    requires Inv(c, s) && NothingLost(s) && Enabled(c, s, Scan(t)) && Ahead(s, s.tasks[t], id) && id in s.past.saved
    requires id !in s.past.retired
    ensures AheadOrClosed(Next(c, s, Scan(t)), t, id)
  {
    NextUnused(c, s);
    ScanReads(c, s, id);
    assert s.tasks[t].Scanning? && s.tasks[t].ids != [];
    hide Inv, NothingLost, Next, Enabled, Terminal, Ahead, HasFound;
    if s.tasks[t].ids[0] != id || HasFound(s.store.heap, s.tasks[t].found, 0, id) {
      ScanKeepsFound(c, s, t, id);
    } else if Read(s, s.store.active[id]).status == PENDING {
      ScanFindsNext(c, s, t, id);
    } else {
      ScanShowsSame(c, s, t, id);
    }
  }

  lemma SweepStep(c: Config, s: State, step: Step, id: Id)
    requires Enabled(c, s, step) && Mover(step).Some? && !step.Abort? && step.t in s.tasks && s.tasks[step.t].Sweeping?
    requires forall i :: 0 <= i < |s.tasks[step.t].found| ==> s.tasks[step.t].found[i] in s.store.heap
    requires Ahead(s, s.tasks[step.t], id)
    ensures var s' := Next(c, s, step);
      id in s'.past.retired || (step.t in s'.tasks && s'.tasks[step.t].Sweeping? &&
        HasFound(s.store.heap, s'.tasks[step.t].found, ToFile(s'.tasks[step.t].sweepAt, s'.tasks[step.t].done), id))
  {
  }

  lemma ScanEnds(c: Config, s: State, t: TaskId, id: Id)
    requires Enabled(c, s, Release(t)) && s.tasks[t].Scanning? && Ahead(s, s.tasks[t], id)
    ensures var s' := Next(c, s, Release(t)); t in s'.tasks && Ahead(s', s'.tasks[t], id)
  {
  }

  lemma ScanningStep(c: Config, s: State, step: Step, t: TaskId, id: Id)
    requires Inv(c, s) && NothingLost(s) && Enabled(c, s, step) && Mover(step) == Some(t) && !step.Abort?
    requires t in s.tasks && s.tasks[t].Scanning? && Ahead(s, s.tasks[t], id) && id in s.past.saved && id !in s.past.retired
    ensures AheadOrClosed(Next(c, s, step), t, id)
  {
    assert step == Scan(t) || step == Release(t);
    hide Inv, NothingLost, Next, Enabled, Terminal, Ahead;
    if step.Scan? { ScanCloses(c, s, t, id); } else { ScanEnds(c, s, t, id); }
  }

  lemma SnapshotStep(c: Config, s: State, step: Step, t: TaskId, id: Id)
    requires Inv(c, s) && Enabled(c, s, step) && Mover(step) == Some(t) && !step.Abort?
    requires t in s.tasks && s.tasks[t].Snapshotting? && Ahead(s, s.tasks[t], id) && id in s.past.saved
    ensures AheadOrClosed(Next(c, s, step), t, id)
  {
    assert step == Acquire(t) || (step.List? && step == List(t, step.ids));
    hide Inv;
    if step.List? { ListTakes(c, s, t, step.ids, id); }
    hide Terminal;
  }

  lemma SweepingStep(c: Config, s: State, step: Step, t: TaskId, id: Id)
    requires Inv(c, s) && Enabled(c, s, step) && Mover(step) == Some(t) && !step.Abort?
    requires t in s.tasks && s.tasks[t].Sweeping? && Ahead(s, s.tasks[t], id)
    ensures AheadOrClosed(Next(c, s, step), t, id)
  {
    TaskRefers(c, s, t);
    StepChanges(c, s, step);
    var s' := Next(c, s, step);
    assert Evolves(c, s, s', Some(t));
    hide Inv, Changes, Evolves, HasFound, Terminal, Next, Enabled, Ahead, ToFile;
    SweepStep(c, s, step, id);
    if id !in s'.past.retired {
      FoundStays(c, s, s', Mover(step), s'.tasks[t].found, ToFile(s'.tasks[t].sweepAt, s'.tasks[t].done), id);
      StillAhead(s', s'.tasks[t], id);
    }
  }

  lemma StillAhead(s: State, task: Task, id: Id)
    requires task.Sweeping? && HasFound(s.store.heap, task.found, ToFile(task.sweepAt, task.done), id)
    ensures Ahead(s, task, id)
  {
    hide HasFound, ToFile;
  }

  lemma TerminalStep(c: Config, s: State, step: Step, id: Id)
    requires Accounts(c, s) && Terminal(s, id) && Enabled(c, s, step) && Lossless(step)
    ensures Terminal(Next(c, s, step), id)
  {
    var s' := Next(c, s, step);
    StepKeeps(c, s, step);
    StepLosesNothing(c, s, step);
    StepFiles(c, s, step);
    StepChanges(c, s, step);
    TerminalWasSaved(c, s, id);
    hide NothingLost, FiledIsRetired, Next, Enabled, View, HeapInv, ArchivedInv, IndexInv, LogInv, AuditInv, TasksInv, ActiveInv, Settled;
    EverySavedShows(c, s', id);
    ViewSettles(c, s, id);
    SettledStays(c, s, s', Mover(step), id, View(s, id).value);
    SettledShows(c, s', id, View(s, id).value);
  }

  lemma AnyStep(c: Config, s: State, step: Step, t: TaskId, id: Id)
    requires Accounts(c, s) && id in s.past.saved && AheadOrClosed(s, t, id)
    requires Enabled(c, s, step) && Lossless(step) && step != Abort(t)
    ensures AheadOrClosed(Next(c, s, step), t, id)
  {
    StepChanges(c, s, step);
    var s' := Next(c, s, step);
    hide Inv, NothingLost, FiledIsRetired, Next, Enabled, Terminal, Ahead;
    assert Evolves(c, s, s', Mover(step));
    if id in s.past.retired {
    } else if Terminal(s, id) {
      TerminalStep(c, s, step, id);
    } else if Mover(step) == Some(t) {
      OwnStepCloses(c, s, step, t, id);
    } else {
      OnlyMoverMoves(c, s, step, t);
      OthersLeaveAhead(c, s, s', Mover(step), s.tasks[t], id);
    }
  }

  lemma OwnStepCloses(c: Config, s: State, step: Step, t: TaskId, id: Id)
    requires Accounts(c, s) && id in s.past.saved && id !in s.past.retired && t in s.tasks && Ahead(s, s.tasks[t], id)
    requires Enabled(c, s, step) && Mover(step) == Some(t) && !step.Abort?
    ensures AheadOrClosed(Next(c, s, step), t, id)
  {
    assert s.tasks[t].Snapshotting? || s.tasks[t].Scanning? || s.tasks[t].Sweeping?;
    hide Inv, NothingLost, FiledIsRetired, Next, Enabled, Ahead, AheadOrClosed;
    if s.tasks[t].Snapshotting? {
      SnapshotStep(c, s, step, t, id);
    } else if s.tasks[t].Scanning? {
      ScanningStep(c, s, step, t, id);
    } else {
      SweepingStep(c, s, step, t, id);
    }
  }

  lemma {:induction false} RunCloses(c: Config, s: State, steps: seq<Step>, t: TaskId, id: Id)
    requires Accounts(c, s) && id in s.past.saved && AheadOrClosed(s, t, id)
    requires Feasible(c, s, steps) && AllLossless(steps) && Abort(t) !in steps
    ensures Accounts(c, Run(c, s, steps)) && AheadOrClosed(Run(c, s, steps), t, id)
    decreases |steps|
  {
    hide Inv, NothingLost, FiledIsRetired, Next, Enabled, Lossless, AheadOrClosed;
    if steps != [] {
      assert steps[0] in steps;
      assert forall step :: step in steps[1..] ==> step in steps;
      AnyStep(c, s, steps[0], t, id);
      StepKeeps(c, s, steps[0]);
      StepLosesNothing(c, s, steps[0]);
      StepFiles(c, s, steps[0]);
      SavedStays(c, s, [steps[0]], id);
      assert Run(c, s, [steps[0]]) == Next(c, s, steps[0]);
      RunCloses(c, Next(c, s, steps[0]), steps[1..], t, id);
    }
  }

  lemma ActiveKnown(c: Config, s: State, id: Id)
    requires Inv(c, s) && id in s.store.active
    ensures Readable(s, s.store.active[id]) && id in s.past.saved && id in s.past.expiry
    ensures Read(s, s.store.active[id]).expiresAt == s.past.expiry[id]
  {
    hide HeapInv, ArchivedInv, LogInv, AuditInv, TasksInv;
    assert EntryOk(c, s, id, s.store.active[id]) && id in s.store.index.Keys;
  }

  lemma ClosesFromHere(c: Config, s: State, more: seq<Step>, t: TaskId, id: Id)
    requires Accounts(c, s) && id in s.past.saved && Feasible(c, s, more) && AllLossless(more) && Abort(t) !in more
    requires AheadOrClosed(s, t, id)
    requires t in Run(c, s, more).tasks && Run(c, s, more).tasks[t].Finished?
    ensures Terminal(Run(c, s, more), id)
  {
    hide Inv, NothingLost, FiledIsRetired, AllLossless, Ahead, AheadOrClosed, Feasible, Run;
    RunCloses(c, s, more, t, id);
    ClosedWhenDone(c, Run(c, s, more), t, id);
  }

  lemma SweepBegins(c: Config, s: State, t: TaskId, id: Id)
    requires Accounts(c, s) && Enabled(c, s, BeginSweep(t))
    requires id in s.store.active && Readable(s, s.store.active[id]) && Read(s, s.store.active[id]).expiresAt <= s.clock
    ensures var s' := Next(c, s, BeginSweep(t)); Accounts(c, s') && id in s'.past.saved && AheadOrClosed(s', t, id)
  {
    ActiveKnown(c, s, id);
    hide Inv, NothingLost, FiledIsRetired;
    var s' := Next(c, s, BeginSweep(t));
    assert s'.tasks[t] == Snapshotting(false, s.clock) && s'.past == s.past;
    assert [BeginSweep(t)][1..] == [];
    assert Feasible(c, s', []) && Feasible(c, s, [BeginSweep(t)]);
    RunAccounts(c, s, [BeginSweep(t)]);
  }

  /**
   A request in the store whose deadline has passed when a sweep begins shows a terminal status when that
   sweep is done, whatever other calls do in between and wherever they are cut short.
   */
  lemma SweepClosesDue(c: Config, steps: seq<Step>, more: seq<Step>, t: TaskId, id: Id)
    requires Feasible(c, Start, steps) && AllLossless(steps)
    requires var s := Run(c, Start, steps);
      id in s.store.active && Readable(s, s.store.active[id]) && Read(s, s.store.active[id]).expiresAt <= s.clock
    requires Feasible(c, Run(c, Start, steps), more) && AllLossless(more) && Abort(t) !in more
    requires more != [] && more[0] == BeginSweep(t)
    requires var s' := Run(c, Run(c, Start, steps), more); t in s'.tasks && s'.tasks[t].Finished?
    ensures var shown := View(Run(c, Run(c, Start, steps), more), id); shown.Some? && shown.value != PENDING
  {
    var s := Run(c, Start, steps);
    Started(c, steps);
    hide Inv, NothingLost, FiledIsRetired, Terminal, View, Next, Ahead, AheadOrClosed, Readable, Read;
    SweepBegins(c, s, t, id);
    assert AllLossless(more[1..]);
    hide AllLossless;
    ClosesFromHere(c, Next(c, s, more[0]), more[1..], t, id);
    TerminalShows(Run(c, s, more), id);
  }

  lemma TerminalShows(s: State, id: Id)
    requires Terminal(s, id)
    ensures View(s, id).Some? && View(s, id).value != PENDING
  {
  }

  lemma ClosedWhenDone(c: Config, s: State, t: TaskId, id: Id)
    requires Accounts(c, s) && AheadOrClosed(s, t, id) && t in s.tasks && s.tasks[t].Finished?
    ensures View(s, id).Some? && View(s, id).value != PENDING
  {
    hide Inv, NothingLost, FiledIsRetired;
    if id in s.past.retired {
      RetiredIsTerminal(c, s, id);
    }
  }

  lemma RetiredIsTerminal(c: Config, s: State, id: Id)
    requires Accounts(c, s) && id in s.past.retired
    ensures Terminal(s, id)
  {
    RetiredShows(c, s, id);
    hide HeapInv, ActiveInv, ArchivedInv, IndexInv, AuditInv, TasksInv, NothingLost, FiledIsRetired;
    assert LogInv(s);
  }
}
