/** The orchestrator's act phase over every run of the approval protocol. */
module HitlGate {
  import opened Maybe
  import opened HitlProtocol
  import opened HitlInvariant
  import opened HitlRuns
  import opened HitlTrace
  import opened HitlMemory
  import opened HitlChanges
  import opened HitlShown

  // ----- the orchestrator's gate -----

  /**
   With autonomous mode off, an executed action at or above the threshold had its own request approved by
   a decision that took effect in time; and every executed record follows a proposed one of the same task
   with the same action and score.
   */
  lemma ExecutionWasApproved(c: Config, steps: seq<Step>, j: nat)
    requires Feasible(c, Start, steps) && !c.autonomous
    requires j < |Run(c, Start, steps).audit| && Run(c, Start, steps).audit[j].ActionExecuted?
    ensures var s := Run(c, Start, steps); var r := s.audit[j];
            && (exists i :: 0 <= i < j && s.audit[i] == ActionProposed(r.task, r.action))
            && (r.action.score >= c.threshold ==>
                  exists k :: 0 <= k < |s.past.accepted| && s.past.accepted[k].decision == APPROVED
                    && s.past.accepted[k].id in s.past.author && s.past.author[s.past.accepted[k].id] == r.task
                    && s.past.accepted[k].id in s.past.expiry && s.past.accepted[k].at < s.past.expiry[s.past.accepted[k].id])
  {
    ReachableInv(c, steps);
    var s := Run(c, Start, steps);
    var r := s.audit[j];
    assert ProposedBefore(s.audit, j, r.task, r.action) && Cleared(c, s, r.task, r.action, r.gate);
    if r.action.score >= c.threshold {
      assert LogInv(s);
      var k :| 0 <= k < |s.past.accepted| && s.past.accepted[k].id == r.gate.value;
      assert s.past.verdict[s.past.accepted[k].id] == s.past.accepted[k].decision;
    }
  }

  /**
   Behind the Redis store the gate never opens: a decision updates a copy of the request, and
   `submit_for_approval` returns the object it was given, which stays PENDING.
   */
  lemma RedisGateStaysShut(c: Config, steps: seq<Step>, j: nat)
    requires Feasible(c, Start, steps) && !c.autonomous && c.backend == Redis
    requires j < |Run(c, Start, steps).audit| && Run(c, Start, steps).audit[j].ActionExecuted?
    ensures Run(c, Start, steps).audit[j].action.score < c.threshold
  {
    ReachableInv(c, steps);
    var s := Run(c, Start, steps);
    var r := s.audit[j];
    assert Cleared(c, s, r.task, r.action, r.gate);
  }

  // ----- which actions are asked about -----

  /** A task asks for approval, or executes with one, exactly for an action that needs it. */
  predicate TaskAsks(c: Config, task: Task) {
    match task
    case Executing(action, gate) => gate.None? <==> action.score < c.threshold || c.autonomous
    case Submitting(_, _, Some(action)) => action.score >= c.threshold && !c.autonomous
    case _ => true
  }

  predicate RecordAsks(c: Config, r: Record) {
    r.ActionExecuted? ==> (r.gate.None? <==> r.action.score < c.threshold || c.autonomous)
  }

  ghost predicate Asks(c: Config, s: State) {
    && (forall t :: t in s.tasks ==> TaskAsks(c, s.tasks[t]))
    && (forall j :: 0 <= j < |s.audit| ==> RecordAsks(c, s.audit[j]))
  }

  /** The log gains at most one record, and that one asks. */
  predicate LogAsks(c: Config, s: State, s': State) {
    s'.audit == s.audit || (s'.audit != [] && s'.audit == s.audit + [s'.audit[|s'.audit| - 1]] && RecordAsks(c, s'.audit[|s'.audit| - 1]))
  }

  lemma LeavingAsks(c: Config, s: State, step: Step)
    requires Enabled(c, s, step) && LeavesStore(step)
    requires Mover(step).Some? && step.t in s.tasks ==> TaskAsks(c, s.tasks[step.t])
    ensures LogAsks(c, s, Next(c, s, step))
    ensures Mover(step).Some? ==> step.t in Next(c, s, step).tasks && TaskAsks(c, Next(c, s, step).tasks[step.t])
  {
  }

  lemma UsingAsks(c: Config, s: State, step: Step)
    requires Enabled(c, s, step) && !LeavesStore(step)
    requires Mover(step).Some? && step.t in s.tasks ==> TaskAsks(c, s.tasks[step.t])
    ensures LogAsks(c, s, Next(c, s, step))
    ensures Mover(step).Some? ==> step.t in Next(c, s, step).tasks && TaskAsks(c, Next(c, s, step).tasks[step.t])
  {
  }

  lemma AsksStep(c: Config, s: State, step: Step)
    requires Asks(c, s) && Enabled(c, s, step)
    ensures Asks(c, Next(c, s, step))
  {
    var s' := Next(c, s, step);
    if LeavesStore(step) { LeavingAsks(c, s, step); } else { UsingAsks(c, s, step); }
    hide Next, Enabled, TaskAsks, RecordAsks;
    forall t | t in s'.tasks ensures TaskAsks(c, s'.tasks[t]) {
      if Mover(step) != Some(t) { OnlyMoverMoves(c, s, step, t); }
    }
  }

  lemma {:induction false} AsksRun(c: Config, s: State, steps: seq<Step>)
    requires Asks(c, s) && Feasible(c, s, steps)
    ensures Asks(c, Run(c, s, steps))
    decreases |steps|
  {
    hide Asks, Next, Enabled;
    if steps != [] {
      AsksStep(c, s, steps[0]);
      AsksRun(c, Next(c, s, steps[0]), steps[1..]);
    }
  }

  /**
   In every run an action went ahead without a request exactly if its score was below the threshold or
   autonomous mode was on; and only the other actions wait for one.
   */
  lemma AskedExactly(c: Config, steps: seq<Step>)
    requires Feasible(c, Start, steps)
    ensures
      forall r :: r in Run(c, Start, steps).audit && r.ActionExecuted? ==>
        (r.gate.None? <==> r.action.score < c.threshold || c.autonomous)
    ensures
      forall t :: t in Run(c, Start, steps).tasks ==>
        var task := Run(c, Start, steps).tasks[t];
        && (task.Submitting? && task.act.Some? ==> task.act.value.score >= c.threshold && !c.autonomous)
        && (task.Executing? ==> (task.gate.None? <==> task.action.score < c.threshold || c.autonomous))
  {
    AsksRun(c, Start, steps);
    var s := Run(c, Start, steps);
    forall r | r in s.audit && r.ActionExecuted?
      ensures r.gate.None? <==> r.action.score < c.threshold || c.autonomous
    {
      assert RecordAsks(c, r);
    }
    forall t | t in s.tasks
      ensures
        var task := s.tasks[t];
        && (task.Submitting? && task.act.Some? ==> task.act.value.score >= c.threshold && !c.autonomous)
        && (task.Executing? ==> (task.gate.None? <==> task.action.score < c.threshold || c.autonomous))
    {
      assert TaskAsks(c, s.tasks[t]);
    }
  }

  /**
   An action below the threshold, or one in autonomous mode, is recorded as proposed and can at once be
   recorded as executed, by a task that needs nobody else: no request is made and the store stays as it was.
   */
  lemma UngatedGoesAhead(c: Config, s: State, t: TaskId, id: Id, action: Action)
    requires Enabled(c, s, Propose(t, id)) && s.tasks[t] == Proposing(action)
    requires action.score < c.threshold || c.autonomous
    ensures Feasible(c, s, [Propose(t, id), Audit(t)])
    ensures
      Run(c, s, [Propose(t, id), Audit(t)]) ==
      s.(tasks := s.tasks[t := Finished(Returned)],
         audit := s.audit + [ActionProposed(t, action), ActionExecuted(t, action, None)])
  {
    var s1 := Next(c, s, Propose(t, id));
    assert [Propose(t, id), Audit(t)][1..] == [Audit(t)];
    assert Enabled(c, s1, Audit(t));
    var s2 := Next(c, s1, Audit(t));
    assert Feasible(c, s2, []);
    assert Feasible(c, s1, [Audit(t)]) && Run(c, s1, [Audit(t)]) == s2;
    assert s2.tasks == s.tasks[t := Finished(Returned)];
    assert s2.audit == s.audit + [ActionProposed(t, action), ActionExecuted(t, action, None)];
  }

  // ----- when the gate opens -----

  /** Before position `i` request `id` was not saved; the step there is its own submission saving it. */
  predicate SavedAt(c: Config, steps: seq<Step>, i: nat, id: Id, t: TaskId)
    requires i < |steps| && Feasible(c, Start, steps)
  {
    steps[i] == Save(t) && id !in At(c, steps, i).past.saved && id in At(c, steps, i + 1).past.saved
  }

  /** The step at position `j` is a decision on `id` that takes effect, strictly before its deadline. */
  predicate DecidedAt(c: Config, steps: seq<Step>, j: nat, id: Id, decision: Status)
    requires j < |steps| && Feasible(c, Start, steps)
  {
    var s, s' := At(c, steps, j), At(c, steps, j + 1);
    && steps[j].Judge? && id !in s.past.verdict && id in s'.past.verdict && s'.past.verdict[id] == decision
    && id in s.past.saved && id in s.past.expiry && s.clock < s.past.expiry[id]
  }

  lemma OnlySaveOrJudge(c: Config, s: State, step: Step)
    requires Enabled(c, s, step)
    ensures Next(c, s, step).past.saved != s.past.saved ==> step.Save? || step.Judge?
    ensures Next(c, s, step).past.verdict != s.past.verdict ==> step.Judge?
  {
    if LeavesStore(step) {
      QuietPast(c, s, step);
    }
  }

  lemma QuietPast(c: Config, s: State, step: Step)
    requires Enabled(c, s, step) && LeavesStore(step)
    ensures Next(c, s, step).past == s.past
  {
  }

  lemma JudgeSavesNoMore(c: Config, s: State, t: TaskId)
    requires Inv(c, s) && Enabled(c, s, Judge(t))
    ensures Next(c, s, Judge(t)).past.saved == s.past.saved
  {
    hide HeapInv, ActiveInv, ArchivedInv, IndexInv, LogInv, AuditInv;
    assert TaskOk(c, s, t, s.tasks[t]);
    hide TasksInv;
  }

  lemma SaveIsByAuthor(c: Config, s: State, t: TaskId, id: Id)
    requires Inv(c, s) && Enabled(c, s, Save(t)) && id !in s.past.saved && id in Next(c, s, Save(t)).past.saved
    ensures id in s.past.author && s.past.author[id] == t
  {
    hide HeapInv, ActiveInv, ArchivedInv, IndexInv, LogInv, AuditInv;
    assert TaskOk(c, s, t, s.tasks[t]);
    hide TasksInv;
  }

  lemma OnlySaveSaves(c: Config, s: State, step: Step, id: Id)
    requires Inv(c, s) && Enabled(c, s, step) && id !in s.past.saved && id in Next(c, s, step).past.saved
    ensures step.Save? && id in s.past.author && step == Save(s.past.author[id])
  {
    hide Inv, Next, Enabled;
    OnlySaveOrJudge(c, s, step);
    if step.Judge? {
      JudgeSavesNoMore(c, s, step.t);
    } else {
      SaveIsByAuthor(c, s, step.t, id);
    }
  }

  lemma OnlyJudgeDecides(c: Config, s: State, step: Step, id: Id)
    requires Inv(c, s) && Enabled(c, s, step) && id !in s.past.verdict && id in Next(c, s, step).past.verdict
    ensures step.Judge? && id in s.past.saved && id in s.past.expiry && s.clock < s.past.expiry[id]
  {
    OnlySaveOrJudge(c, s, step);
    hide Inv, Next, Enabled;
    JudgeDecides(c, s, step.t, id);
  }

  lemma JudgeDecides(c: Config, s: State, t: TaskId, id: Id)
    requires Inv(c, s) && Enabled(c, s, Judge(t)) && id !in s.past.verdict && id in Next(c, s, Judge(t)).past.verdict
    ensures id in s.past.saved && id in s.past.expiry && s.clock < s.past.expiry[id]
  {
    hide ActiveInv, ArchivedInv, IndexInv, LogInv, AuditInv;
    assert TaskOk(c, s, t, s.tasks[t]);
    assert RequestOk(s, s.store.heap[s.tasks[t].ref]);
    hide TasksInv, HeapInv;
  }

  lemma AuthorKept(c: Config, s: State, step: Step, id: Id)
    requires Enabled(c, s, step) && id in s.past.author && (step.BeginSubmit? || step.Propose? ==> id != AnyId(step))
    ensures id in Next(c, s, step).past.author && Next(c, s, step).past.author[id] == s.past.author[id]
  {
    if LeavesStore(step) {
      QuietPast(c, s, step);
      hide Next, Enabled;
    } else if !step.BeginSubmit? && !step.Propose? {
      SameAuthors(c, s, step);
      hide Next, Enabled;
    }
  }

  lemma SameAuthors(c: Config, s: State, step: Step)
    requires Enabled(c, s, step) && !LeavesStore(step) && !step.BeginSubmit? && !step.Propose?
    ensures Next(c, s, step).past.author == s.past.author
  {
  }

  function AnyId(step: Step): Id
    requires step.BeginSubmit? || step.Propose?
  {
    match step
    case BeginSubmit(_, id, _) => id
    case Propose(_, id) => id
  }

  lemma StepKeepsAuthor(c: Config, s: State, step: Step, id: Id)
    requires Inv(c, s) && Enabled(c, s, step) && id in s.past.author
    ensures id in Next(c, s, step).past.author && Next(c, s, step).past.author[id] == s.past.author[id]
  {
    hide HeapInv, ActiveInv, ArchivedInv, LogInv, AuditInv, TasksInv;
    assert s.past.author.Keys == s.past.expiry.Keys;
    hide IndexInv;
    AuthorKept(c, s, step, id);
  }

  lemma VerdictKept(c: Config, s: State, step: Step, id: Id)
    requires Inv(c, s) && Enabled(c, s, step) && id in s.past.verdict
    ensures id in Next(c, s, step).past.verdict && Next(c, s, step).past.verdict[id] == s.past.verdict[id]
  {
    OnlySaveOrJudge(c, s, step);
    if step.Judge? {
      JudgeKeepsVerdict(c, s, step.t, id);
    }
    hide Inv, Next, Enabled;
  }

  lemma JudgeKeepsVerdict(c: Config, s: State, t: TaskId, id: Id)
    requires Inv(c, s) && Enabled(c, s, Judge(t)) && id in s.past.verdict
    ensures id in Next(c, s, Judge(t)).past.verdict && Next(c, s, Judge(t)).past.verdict[id] == s.past.verdict[id]
  {
    hide HeapInv, ActiveInv, ArchivedInv, IndexInv, LogInv, AuditInv;
    assert TaskOk(c, s, t, s.tasks[t]);
  }

  /** A saved request was saved at some position, by the task that made it. */
  lemma {:induction false} WhenSaved(c: Config, steps: seq<Step>, p: nat, id: Id) returns (i: nat)
    requires Feasible(c, Start, steps) && p <= |steps| && id in At(c, steps, p).past.saved
    ensures i < p && id in At(c, steps, p).past.author && SavedAt(c, steps, i, id, At(c, steps, p).past.author[id])
  {
    hide Inv, Next, Enabled;
    if p == 0 {
      AtEnds(c, steps);
    } else {
      var s := At(c, steps, p - 1);
      AtNext(c, steps, p - 1);
      AtInv(c, steps, p - 1);
      if id in s.past.saved {
        i := WhenSaved(c, steps, p - 1, id);
        StepKeepsAuthor(c, s, steps[p - 1], id);
      } else {
        OnlySaveSaves(c, s, steps[p - 1], id);
        StepKeepsAuthor(c, s, steps[p - 1], id);
        i := p - 1;
      }
    }
  }

  lemma {:induction false} WhenDecided(c: Config, steps: seq<Step>, p: nat, id: Id) returns (j: nat)
    requires Feasible(c, Start, steps) && p <= |steps| && id in At(c, steps, p).past.verdict
    ensures j < p && DecidedAt(c, steps, j, id, At(c, steps, p).past.verdict[id])
  {
    hide Inv, Next, Enabled;
    if p == 0 {
      AtEnds(c, steps);
    } else {
      var s := At(c, steps, p - 1);
      AtNext(c, steps, p - 1);
      AtInv(c, steps, p - 1);
      if id in s.past.verdict {
        j := WhenDecided(c, steps, p - 1, id);
        VerdictKept(c, s, steps[p - 1], id);
      } else {
        OnlyJudgeDecides(c, s, steps[p - 1], id);
        j := p - 1;
      }
    }
  }

  lemma {:induction false} DecidedStays(c: Config, steps: seq<Step>, j: nat, p: nat, id: Id, decision: Status)
    requires Feasible(c, Start, steps) && j < p <= |steps| && DecidedAt(c, steps, j, id, decision)
    ensures id in At(c, steps, p).past.verdict && At(c, steps, p).past.verdict[id] == decision
  {
    hide Inv, Next, Enabled;
    if p > j + 1 {
      DecidedStays(c, steps, j, p - 1, id, decision);
      AtNext(c, steps, p - 1);
      AtInv(c, steps, p - 1);
      VerdictKept(c, At(c, steps, p - 1), steps[p - 1], id);
    }
  }

  lemma AtInv(c: Config, steps: seq<Step>, k: nat)
    requires Feasible(c, Start, steps) && k <= |steps|
    ensures Inv(c, At(c, steps, k))
  {
    PrefixFeasible(c, Start, steps, k);
    ReachableInv(c, steps[..k]);
  }

  lemma PublishMoves(c: Config, s: State, t: TaskId)
    requires Enabled(c, s, Publish(t))
    ensures t in Next(c, s, Publish(t)).tasks && Next(c, s, Publish(t)).tasks[t] == Published(s, s.tasks[t])
  {
  }

  /** What `_act` does when `submit_for_approval` hands its request back: it depends on the verdict of that moment. */
  lemma GateDecides(c: Config, s: State, ref: Ref, action: Action)
    requires ref in s.store.heap && c.backend == InMemory && Inv(c, s) && InPlace(s)
    ensures var id := s.store.heap[ref].id;
      Published(s, Submitting(Proposed, ref, Some(action))) ==
        if id in s.past.verdict && s.past.verdict[id] == APPROVED then Executing(action, Some(id)) else Finished(Raised)
  {
    ObjectShowsVerdict(c, s, ref);
    hide Inv, InPlace;
  }

  lemma SubmitterIsAuthor(c: Config, s: State, t: TaskId, ref: Ref, act: Option<Action>)
    requires Inv(c, s) && t in s.tasks && s.tasks[t] == Submitting(Proposed, ref, act)
    ensures ref in s.store.heap && s.store.heap[ref].id in s.past.author && s.past.author[s.store.heap[ref].id] == t
  {
    hide HeapInv, ActiveInv, ArchivedInv, IndexInv, LogInv, AuditInv;
    assert TaskOk(c, s, t, s.tasks[t]);
  }

  /**
   Over the in-memory store, exactly when a gated action goes on to be executed: a decision to approve the
   request that this very task submitted took effect after the task saved it and before it returned.
   Otherwise the act phase raises.
   */
  lemma GateOpensExactly(c: Config, steps: seq<Step>, p: nat, t: TaskId, ref: Ref, action: Action)
    requires c.backend == InMemory && Feasible(c, Start, steps) && p < |steps| && steps[p] == Publish(t)
    requires t in At(c, steps, p).tasks && At(c, steps, p).tasks[t] == Submitting(Proposed, ref, Some(action))
    ensures ref in At(c, steps, p).store.heap && t in At(c, steps, p + 1).tasks
    ensures var id, task := At(c, steps, p).store.heap[ref].id, At(c, steps, p + 1).tasks[t];
      && (task == Executing(action, Some(id)) <==>
            exists i, j :: 0 <= i < j < p && SavedAt(c, steps, i, id, t) && DecidedAt(c, steps, j, id, APPROVED))
      && (task == Executing(action, Some(id)) || task == Finished(Raised))
  {
    var s := At(c, steps, p);
    AtNext(c, steps, p);
    RunInPlace(c, steps, p);
    SubmitterIsAuthor(c, s, t, ref, Some(action));
    PublishMoves(c, s, t);
    GateDecides(c, s, ref, action);
    hide Inv, InPlace, Next, Enabled, DecidedAt, SavedAt;
    var id := s.store.heap[ref].id;
    if id in s.past.verdict && s.past.verdict[id] == APPROVED {
      var j := WhenDecided(c, steps, p, id);
      DecidedWasSaved(c, steps, j, id, APPROVED);
      var i := WhenSaved(c, steps, j, id);
      AuthorStays(c, steps, j, p, id);
      assert SavedAt(c, steps, i, id, t);
    } else {
      forall i: nat, j: nat | i < j < p && SavedAt(c, steps, i, id, t)
        ensures !DecidedAt(c, steps, j, id, APPROVED)
      {
        if DecidedAt(c, steps, j, id, APPROVED) {
          DecidedStays(c, steps, j, p, id, APPROVED);
        }
      }
    }
  }

  lemma DecidedWasSaved(c: Config, steps: seq<Step>, j: nat, id: Id, decision: Status)
    requires Feasible(c, Start, steps) && j < |steps| && DecidedAt(c, steps, j, id, decision)
    ensures id in At(c, steps, j).past.saved
  {
  }

  lemma {:induction false} AuthorStays(c: Config, steps: seq<Step>, j: nat, p: nat, id: Id)
    requires Feasible(c, Start, steps) && j <= p <= |steps| && id in At(c, steps, j).past.author
    ensures id in At(c, steps, p).past.author && At(c, steps, p).past.author[id] == At(c, steps, j).past.author[id]
  {
    hide Inv, Next, Enabled;
    if j < p {
      AuthorStays(c, steps, j, p - 1, id);
      AtNext(c, steps, p - 1);
      AtInv(c, steps, p - 1);
      StepKeepsAuthor(c, At(c, steps, p - 1), steps[p - 1], id);
    }
  }
}
