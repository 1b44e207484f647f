/**
 How calls are answered, in every interleaving and over both stores: what a decision, a submission and a
 lookup do is fixed by what `get_request` shows at that moment, as long as Redis drops no key.
 */
module HitlOutcomes {
  import opened Maybe
  import opened HitlProtocol
  import opened HitlInvariant
  import opened HitlRuns
  import opened HitlTrace
  import opened HitlChanges
  import opened HitlShown
  import opened HitlGate

  // ----- over Redis, a decision judges a copy of what is stored -----

  predicate Judges(task: Task) {
    task.Deciding? && task.decideAt == Judging
  }

  predicate HasFound(task: Task, ref: Ref) {
    (task.Scanning? || task.Sweeping?) && ref in task.found
  }

  /** The copy that a decision judges is the stored one, and no sweep has it in hand. */
  ghost predicate JudgesStored(s: State) {
    forall t :: t in s.tasks && Judges(s.tasks[t]) ==> OwnCopy(s, s.tasks[t].id, s.tasks[t].ref)
  }

  ghost predicate OwnCopy(s: State, id: Id, ref: Ref) {
    && ref in s.store.heap && id in s.store.active && s.store.active[id] == Copy(s.store.heap[ref])
    && forall u :: u in s.tasks ==> !HasFound(s.tasks[u], ref)
  }

  /** While a decision holds the lock, others create objects, move on outside the lock, or mark what they found. */
  predicate OutsideLock(step: Step) {
    || step.BeginAct? || step.Propose? || step.BeginSubmit? || step.BeginDecide? || step.BeginSweep?
    || step.Audit? || step.Publish? || step.Expire? || step.Abort?
  }

  lemma OthersOutside(c: Config, s: State, step: Step, t: TaskId)
    requires Inv(c, s) && Enabled(c, s, step) && t in s.tasks && Judges(s.tasks[t])
    requires Mover(step).Some? && step.t != t
    ensures OutsideLock(step)
  {
    hide HeapInv, ActiveInv, ArchivedInv, IndexInv, LogInv, AuditInv, TaskOk;
    assert s.lock == Some(t);
    assert step.t in s.tasks ==> !Holding(s.tasks[step.t]);
    hide TasksInv;
  }

  lemma QuietLeaves(c: Config, s: State, step: Step, ref: Ref)
    requires Enabled(c, s, step) && OutsideLock(step) && LeavesStore(step)
    requires step.t in s.tasks ==> !HasFound(s.tasks[step.t], ref)
    ensures Next(c, s, step).store == s.store
    ensures step.t in Next(c, s, step).tasks && !HasFound(Next(c, s, step).tasks[step.t], ref)
  {
  }

  lemma MarkLeaves(c: Config, s: State, step: Step, ref: Ref)
    requires Enabled(c, s, step) && OutsideLock(step) && !LeavesStore(step) && ref in s.store.heap && ref < s.store.next
    requires step.t in s.tasks ==> !HasFound(s.tasks[step.t], ref)
    ensures Next(c, s, step).store.active == s.store.active
    ensures ref in Next(c, s, step).store.heap && Next(c, s, step).store.heap[ref] == s.store.heap[ref]
    ensures step.t in Next(c, s, step).tasks && !HasFound(Next(c, s, step).tasks[step.t], ref)
  {
  }

  lemma OutsideLeaves(c: Config, s: State, step: Step, ref: Ref)
    requires Enabled(c, s, step) && OutsideLock(step) && ref in s.store.heap && ref < s.store.next
    requires step.t in s.tasks ==> !HasFound(s.tasks[step.t], ref)
    ensures Next(c, s, step).store.active == s.store.active
    ensures ref in Next(c, s, step).store.heap && Next(c, s, step).store.heap[ref] == s.store.heap[ref]
    ensures step.t in Next(c, s, step).tasks && !HasFound(Next(c, s, step).tasks[step.t], ref)
  {
    hide Next, Enabled, HasFound;
    if LeavesStore(step) { QuietLeaves(c, s, step, ref); } else { MarkLeaves(c, s, step, ref); }
  }

  lemma OwnCopyStays(c: Config, s: State, step: Step, t: TaskId)
    requires Inv(c, s) && Enabled(c, s, step) && t in s.tasks && Judges(s.tasks[t])
    requires OwnCopy(s, s.tasks[t].id, s.tasks[t].ref)
    requires Mover(step).Some? && step.t != t
    ensures OwnCopy(Next(c, s, step), s.tasks[t].id, s.tasks[t].ref)
  {
    var ref := s.tasks[t].ref;
    OthersOutside(c, s, step, t);
    RefBelow(c, s, ref);
    OutsideLeaves(c, s, step, ref);
    hide Inv, OutsideLock, HasFound;
    var s' := Next(c, s, step);
    forall u | u in s'.tasks ensures !HasFound(s'.tasks[u], ref) {
      if u != step.t { OnlyMoverMoves(c, s, step, u); }
    }
  }

  lemma RefBelow(c: Config, s: State, ref: Ref)
    requires Inv(c, s) && ref in s.store.heap
    ensures ref < s.store.next
  {
    hide ActiveInv, ArchivedInv, IndexInv, LogInv, AuditInv, TasksInv;
  }

  /** What sweeps have found is there. */
  lemma FoundIsThere(c: Config, s: State, u: TaskId, ref: Ref)
    requires Inv(c, s) && u in s.tasks && HasFound(s.tasks[u], ref)
    ensures ref in s.store.heap
  {
    hide HeapInv, ActiveInv, ArchivedInv, IndexInv, LogInv, AuditInv;
    assert TaskOk(c, s, u, s.tasks[u]);
    var i :| 0 <= i < |s.tasks[u].found| && s.tasks[u].found[i] == ref;
    assert StaleOk(c, s, s.tasks[u].found[i]);
  }

  lemma FetchOwns(c: Config, s: State, t: TaskId)
    requires c.backend == Redis && Inv(c, s) && Enabled(c, s, Fetch(t)) && s.tasks[t].id in s.store.active
    ensures var s' := Next(c, s, Fetch(t)); Judges(s'.tasks[t]) && OwnCopy(s', s'.tasks[t].id, s'.tasks[t].ref)
  {
    var s' := Next(c, s, Fetch(t));
    CopyStored(c, s, s.tasks[t].id);
    NextUnused(c, s);
    forall u | u in s'.tasks ensures !HasFound(s'.tasks[u], s.store.next) {
      if u != t && HasFound(s.tasks[u], s.store.next) {
        FoundIsThere(c, s, u, s.store.next);
      }
    }
    hide Inv, HasFound;
  }

  lemma CopyStored(c: Config, s: State, id: Id)
    requires c.backend == Redis && Inv(c, s) && id in s.store.active
    ensures s.store.active[id].Copy?
  {
    hide HeapInv, ArchivedInv, IndexInv, LogInv, AuditInv, TasksInv;
    assert EntryOk(c, s, id, s.store.active[id]);
  }

  /** A task gets to judge only by fetching. */
  lemma OnlyFetchJudges(c: Config, s: State, step: Step)
    requires Enabled(c, s, step) && Mover(step).Some? && !step.Fetch?
    ensures step.t in Next(c, s, step).tasks && !Judges(Next(c, s, step).tasks[step.t])
  {
  }

  lemma FetchFinds(c: Config, s: State, t: TaskId)
    requires Enabled(c, s, Fetch(t)) && t in Next(c, s, Fetch(t)).tasks && Judges(Next(c, s, Fetch(t)).tasks[t])
    ensures s.tasks[t].id in s.store.active
  {
  }

  lemma EnvironmentKeepsCopies(c: Config, s: State, step: Step)
    requires JudgesStored(s) && Enabled(c, s, step) && Mover(step).None? && Lossless(step)
    ensures JudgesStored(Next(c, s, step))
  {
    var s' := Next(c, s, step);
    forall t | t in s'.tasks && Judges(s'.tasks[t]) ensures OwnCopy(s', s'.tasks[t].id, s'.tasks[t].ref) {
      assert OwnCopy(s, s.tasks[t].id, s.tasks[t].ref);
    }
  }

  lemma StepJudgesStored(c: Config, s: State, step: Step)
    requires c.backend == Redis && Inv(c, s) && JudgesStored(s) && Enabled(c, s, step) && Lossless(step)
    ensures JudgesStored(Next(c, s, step))
  {
    if Mover(step).None? {
      EnvironmentKeepsCopies(c, s, step);
    } else {
      var s' := Next(c, s, step);
      hide Inv, Next, Enabled, Judges, OwnCopy;
      forall t | t in s'.tasks && Judges(s'.tasks[t]) ensures OwnCopy(s', s'.tasks[t].id, s'.tasks[t].ref) {
        if t != step.t {
          OnlyMoverMoves(c, s, step, t);
          OwnCopyStays(c, s, step, t);
        } else if step.Fetch? {
          FetchFinds(c, s, t);
          FetchOwns(c, s, t);
        } else {
          OnlyFetchJudges(c, s, step);
          assert false;
        }
      }
    }
  }

  lemma {:induction false} RunJudgesStored(c: Config, steps: seq<Step>, k: nat)
    requires c.backend == Redis && Feasible(c, Start, steps) && AllLossless(steps) && k <= |steps|
    ensures JudgesStored(At(c, steps, k))
  {
    hide Inv, Next, Enabled, Lossless;
    if k == 0 {
      AtEnds(c, steps);
    } else {
      hide JudgesStored;
      RunJudgesStored(c, steps, k - 1);
      AtNext(c, steps, k - 1);
      AtInv(c, steps, k - 1);
      assert steps[k - 1] in steps;
      StepJudgesStored(c, At(c, steps, k - 1), steps[k - 1]);
    }
  }

  // ----- decisions -----

  /** What a decision judges is what `get_request` shows at that moment. */
  lemma JudgeSees(c: Config, s: State, t: TaskId, id: Id, d: Status, ref: Ref, late: bool)
    requires Inv(c, s) && (c.backend == Redis ==> JudgesStored(s))
    requires t in s.tasks && s.tasks[t] == Deciding(Judging, id, d, ref, late)
    ensures !late && ref in s.store.heap && View(s, id) == Some(s.store.heap[ref].status)
    ensures id in s.past.expiry && s.store.heap[ref].expiresAt == s.past.expiry[id] && s.store.heap[ref].id == id
  {
    hide ArchivedInv, IndexInv, LogInv, AuditInv;
    assert TaskOk(c, s, t, s.tasks[t]);
    assert RequestOk(s, s.store.heap[ref]);
    if c.backend == Redis { assert OwnCopy(s, s.tasks[t].id, s.tasks[t].ref); }
    hide HeapInv, ActiveInv, TasksInv, JudgesStored;
  }

  lemma JudgeAnswers(c: Config, s: State, t: TaskId, id: Id, d: Status, ref: Ref)
    requires Enabled(c, s, Judge(t)) && s.tasks[t] == Deciding(Judging, id, d, ref, false)
    requires id in s.past.expiry && s.store.heap[ref].expiresAt == s.past.expiry[id] && s.store.heap[ref].id == id
    requires View(s, id) == Some(s.store.heap[ref].status)
    ensures
      var s', fit := Next(c, s, Judge(t)), View(s, id) == Some(PENDING) && (d == APPROVED || d == REJECTED);
      && t in s'.tasks
      && s'.tasks[t] == (if !fit then Finished(Raised)
                         else if s.clock < s.past.expiry[id] then Deciding(Persisted, id, d, ref, false)
                         else Deciding(AwaitFiling, id, d, ref, true))
      && (fit && s.clock < s.past.expiry[id] ==> View(s', id) == Some(d))
  {
  }

  /**
   A decision takes effect exactly if the request is shown as PENDING, the decision is to approve or to
   reject, and the deadline has not come; the request then shows it. A fit decision at the deadline or
   after it turns to expiring the request, and every other raises and changes nothing.
   */
  lemma DecisionExactly(c: Config, steps: seq<Step>, p: nat, t: TaskId, id: Id, d: Status, ref: Ref, late: bool)
    requires Feasible(c, Start, steps) && AllLossless(steps) && p < |steps| && steps[p] == Judge(t)
    requires t in At(c, steps, p).tasks && At(c, steps, p).tasks[t] == Deciding(Judging, id, d, ref, late)
    ensures id in At(c, steps, p).past.expiry && t in At(c, steps, p + 1).tasks
    ensures
      var s, s' := At(c, steps, p), At(c, steps, p + 1);
      var fit, intime := View(s, id) == Some(PENDING) && (d == APPROVED || d == REJECTED), s.clock < s.past.expiry[id];
      && s'.tasks[t] == (if !fit then Finished(Raised)
                         else if intime then Deciding(Persisted, id, d, ref, false)
                         else Deciding(AwaitFiling, id, d, ref, true))
      && (fit && intime ==> View(s', id) == Some(d))
      && (!fit ==> s'.store == s.store)
  {
    AtNext(c, steps, p);
    AtInv(c, steps, p);
    if c.backend == Redis { RunJudgesStored(c, steps, p); }
    var s := At(c, steps, p);
    JudgeSees(c, s, t, id, d, ref, late);
    hide Inv, JudgesStored, At, AllLossless;
    JudgeAnswers(c, s, t, id, d, ref);
    if s.store.heap[ref].status != PENDING || (d != APPROVED && d != REJECTED) { JudgeRefuses(c, s, t); }
    hide View, Next, Enabled;
  }

  lemma JudgeRefuses(c: Config, s: State, t: TaskId)
    requires Enabled(c, s, Judge(t))
    requires s.store.heap[s.tasks[t].ref].status != PENDING || s.tasks[t].decision !in {APPROVED, REJECTED}
    ensures Next(c, s, Judge(t)).store == s.store
  {
  }

  /** The lookup of a decision fails exactly if the request was never saved or is archived. */
  lemma LookupExactly(c: Config, steps: seq<Step>, p: nat, t: TaskId, id: Id, d: Status)
    requires Feasible(c, Start, steps) && AllLossless(steps) && p < |steps| && steps[p] == Fetch(t)
    requires t in At(c, steps, p).tasks && At(c, steps, p).tasks[t] == Fetching(true, id, d)
    ensures t in At(c, steps, p + 1).tasks
    ensures
      var s, task := At(c, steps, p), At(c, steps, p + 1).tasks[t];
      && (task == Finished(Raised) <==> id !in s.past.saved || id in s.past.retired)
      && (task != Finished(Raised) ==> task.Deciding? && task == Deciding(Judging, id, d, task.ref, false))
  {
    AtNext(c, steps, p);
    AtInv(c, steps, p);
    PrefixAccounts(c, steps, p);
    var s := At(c, steps, p);
    ActiveIsKnown(c, s, id);
    hide Inv, At, AllLossless, NothingLost;
  }

  lemma PrefixAccounts(c: Config, steps: seq<Step>, k: nat)
    requires Feasible(c, Start, steps) && AllLossless(steps) && k <= |steps|
    ensures Accounts(c, At(c, steps, k))
  {
    PrefixFeasible(c, Start, steps, k);
    assert forall step :: step in steps[..k] ==> step in steps;
    Started(c, steps[..k]);
  }

  /** With nothing lost, the live requests are the saved ones that are not archived. */
  lemma ActiveIsKnown(c: Config, s: State, id: Id)
    requires Inv(c, s) && NothingLost(s)
    ensures id in s.store.active <==> id in s.past.saved && id !in s.past.retired
  {
    hide HeapInv, ArchivedInv, LogInv, AuditInv, TasksInv;
    assert id in s.store.active ==> id in s.store.index.Keys;
  }

  // ----- submissions -----

  /** A submission is turned away exactly if as many requests as the cap were saved and not yet archived. */
  lemma RoomExactly(c: Config, steps: seq<Step>, p: nat, t: TaskId)
    requires Feasible(c, Start, steps) && p < |steps| && steps[p] == Count(t)
    requires t in At(c, steps, p).tasks && At(c, steps, p).tasks[t].Submitting?
    ensures t in At(c, steps, p + 1).tasks
    ensures
      var s, task := At(c, steps, p), At(c, steps, p + 1).tasks[t];
      && (task == Finished(Raised) <==> |s.past.saved - s.past.retired| >= c.capacity)
      && (task != Finished(Raised) ==> task == s.tasks[t].(submitAt := Saving))
  {
    AtNext(c, steps, p);
    AtInv(c, steps, p);
    IndexSize(c, At(c, steps, p));
    hide Inv, At;
  }

  lemma IndexSize(c: Config, s: State)
    requires Inv(c, s)
    ensures |s.store.index| == |s.past.saved - s.past.retired|
  {
    hide HeapInv, ActiveInv, ArchivedInv, LogInv, AuditInv, TasksInv;
    assert |s.store.index| == |s.store.index.Keys|;
  }

  /** Saving is what makes a request appear: nothing is shown for its id before, and PENDING right after. */
  lemma SavedIsPending(c: Config, steps: seq<Step>, p: nat, t: TaskId, ref: Ref, act: Option<Action>)
    requires Feasible(c, Start, steps) && p < |steps| && steps[p] == Save(t)
    requires t in At(c, steps, p).tasks && At(c, steps, p).tasks[t] == Submitting(Saving, ref, act)
    ensures ref in At(c, steps, p).store.heap
    ensures
      var s, s' := At(c, steps, p), At(c, steps, p + 1);
      var id := s.store.heap[ref].id;
      && View(s, id) == None && View(s', id) == Some(PENDING) && id in s'.store.index
      && forall other :: other != id ==> View(s', other) == View(s, other)
  {
    AtNext(c, steps, p);
    AtInv(c, steps, p);
    var s := At(c, steps, p);
    UnsavedUnseen(c, s, t, ref, act);
    hide Inv, At;
    SaveShows(c, s, t, ref, act);
    hide View, Next, Enabled;
  }

  lemma UnsavedUnseen(c: Config, s: State, t: TaskId, ref: Ref, act: Option<Action>)
    requires Inv(c, s) && t in s.tasks && s.tasks[t] == Submitting(Saving, ref, act)
    ensures ref in s.store.heap && s.store.heap[ref].status == PENDING && View(s, s.store.heap[ref].id) == None
  {
    hide HeapInv, LogInv, AuditInv;
    assert TaskOk(c, s, t, s.tasks[t]);
    var id := s.store.heap[ref].id;
    assert id !in s.store.index.Keys && id !in s.past.retired;
    hide TasksInv;
  }

  lemma SaveShows(c: Config, s: State, t: TaskId, ref: Ref, act: Option<Action>)
    requires Enabled(c, s, Save(t)) && s.tasks[t] == Submitting(Saving, ref, act) && s.store.heap[ref].status == PENDING
    ensures
      var s', id := Next(c, s, Save(t)), s.store.heap[ref].id;
      && View(s', id) == Some(PENDING) && id in s'.store.index
      && forall other :: other != id ==> View(s', other) == View(s, other)
  {
  }
}
