/** Every call stays its own, over every run and both stores: what it was asked is what it does, answers and records. */
module HitlCalls {
  import opened Maybe
  import opened HitlProtocol
  import opened HitlInvariant
  import opened HitlRuns
  import opened HitlTrace
  import opened HitlChanges
  import opened HitlShown
  import opened HitlAudited
  import opened HitlGate

  predicate OfDecision(task: Task, id: Id, d: Status) {
    match task
    case Fetching(_, own, e) => own == id && e == d
    case Deciding(_, own, e, _, _) => own == id && e == d
    case Finished(outcome) => outcome == Raised || outcome == Decided(id, d)
    case _ => false
  }

  predicate OfSubmission(s: State, task: Task, id: Id, agent: Name) {
    match task
    case Submitting(_, ref, act) =>
      act.None? && ref in s.store.heap && s.store.heap[ref].id == id && s.store.heap[ref].agent == agent
    case Finished(outcome) => outcome == Raised || (outcome == Returned && RequestSubmitted(id) in s.audit)
    case _ => false
  }

  ghost predicate OfAct(s: State, t: TaskId, task: Task, action: Action) {
    match task
    case Proposing(own) => own == action
    case Submitting(_, _, act) => act == Some(action)
    case Executing(own, _) => own == action
    case Finished(outcome) =>
      outcome == Raised || (outcome == Returned && exists gate :: ActionExecuted(t, action, gate) in s.audit)
    case _ => false
  }

  predicate OfSweep(task: Task) {
    match task
    case Snapshotting(_, _) => true
    case Scanning(_, _, _) => true
    case Sweeping(_, _, _, _) => true
    case Finished(outcome) => !outcome.Decided?
    case _ => false
  }

  /** The task is some place along the call that began with this step. */
  ghost predicate Belongs(s: State, call: Step, task: Task) {
    match call
    case BeginDecide(_, id, d) => OfDecision(task, id, d)
    case BeginSubmit(_, id, agent) => OfSubmission(s, task, id, agent)
    case BeginAct(t, action) => OfAct(s, t, task, action)
    case BeginSweep(_) => OfSweep(task)
    case _ => false
  }

  lemma DecisionGoesOn(c: Config, s: State, step: Step, id: Id, d: Status)
    requires Enabled(c, s, step) && Mover(step).Some? && step.t in s.tasks && OfDecision(s.tasks[step.t], id, d)
    ensures step.t in Next(c, s, step).tasks && OfDecision(Next(c, s, step).tasks[step.t], id, d)
  {
  }

  lemma SweepGoesOn(c: Config, s: State, step: Step)
    requires Enabled(c, s, step) && Mover(step).Some? && step.t in s.tasks && OfSweep(s.tasks[step.t])
    ensures step.t in Next(c, s, step).tasks && OfSweep(Next(c, s, step).tasks[step.t])
  {
  }

  lemma SubmissionGoesOn(c: Config, s: State, step: Step, id: Id, agent: Name)
    requires Enabled(c, s, step) && Mover(step).Some? && step.t in s.tasks && OfSubmission(s, s.tasks[step.t], id, agent)
    requires Booked(s, s.tasks[step.t])
    ensures step.t in Next(c, s, step).tasks && OfSubmission(s, Next(c, s, step).tasks[step.t], id, agent)
  {
  }

  lemma ActGoesOn(c: Config, s: State, step: Step, action: Action)
    requires Enabled(c, s, step) && Mover(step).Some? && step.t in s.tasks && OfAct(s, step.t, s.tasks[step.t], action)
    ensures step.t in Next(c, s, step).tasks && OfAct(Next(c, s, step), step.t, Next(c, s, step).tasks[step.t], action)
  {
    var s' := Next(c, s, step);
    if s.tasks[step.t].Executing? && step.Audit? {
      assert s'.audit[|s.audit|] == ActionExecuted(step.t, action, s.tasks[step.t].gate);
    }
  }

  /** Others change nothing that a call relies on. */
  lemma BelongsStill(c: Config, s: State, s': State, mover: Option<TaskId>, call: Step, task: Task)
    requires Evolves(c, s, s', mover) && Belongs(s, call, task)
    ensures Belongs(s', call, task)
  {
    if call.BeginSubmit? && task.Submitting? {
      assert SameRequest(c, s, s.store.heap[task.ref], s'.store.heap[task.ref], task.ref);
    }
    if call.BeginAct? && task == Finished(Returned) {
      var gate :| ActionExecuted(call.t, call.action, gate) in s.audit;
      assert ActionExecuted(call.t, call.action, gate) in s'.audit;
    }
  }

  predicate IsCall(step: Step) {
    step.BeginDecide? || step.BeginSubmit? || step.BeginAct? || step.BeginSweep?
  }

  lemma OwnStepBelongs(c: Config, s: State, step: Step, call: Step)
    requires Enabled(c, s, step) && IsCall(call) && Mover(step) == Some(call.t) && Evolves(c, s, Next(c, s, step), Mover(step))
    requires call.t in s.tasks && Belongs(s, call, s.tasks[call.t]) && Booked(s, s.tasks[call.t])
    ensures call.t in Next(c, s, step).tasks && Belongs(Next(c, s, step), call, Next(c, s, step).tasks[call.t])
  {
    hide Next, Enabled, Booked, OfDecision, OfSubmission, OfAct, OfSweep, Evolves;
    match call
    case BeginDecide(_, id, d) => DecisionGoesOn(c, s, step, id, d);
    case BeginSweep(_) => SweepGoesOn(c, s, step);
    case BeginAct(_, action) => ActGoesOn(c, s, step, action);
    case BeginSubmit(_, id, agent) =>
      SubmissionGoesOn(c, s, step, id, agent);
      BelongsStill(c, s, Next(c, s, step), Mover(step), call, Next(c, s, step).tasks[call.t]);
  }

  lemma StepBelongs(c: Config, s: State, step: Step, call: Step)
    requires Inv(c, s) && Books(s) && Enabled(c, s, step) && IsCall(call)
    requires call.t in s.tasks && Belongs(s, call, s.tasks[call.t])
    ensures call.t in Next(c, s, step).tasks && Belongs(Next(c, s, step), call, Next(c, s, step).tasks[call.t])
  {
    StepChanges(c, s, step);
    assert Booked(s, s.tasks[call.t]);
    hide Inv, Books, Next, Enabled, Booked, Belongs;
    if Mover(step) == Some(call.t) {
      OwnStepBelongs(c, s, step, call);
    } else {
      OnlyMoverMoves(c, s, step, call.t);
      BelongsStill(c, s, Next(c, s, step), Mover(step), call, s.tasks[call.t]);
    }
  }

  lemma CallBegins(c: Config, s: State, call: Step)
    requires Enabled(c, s, call) && IsCall(call)
    ensures call.t in Next(c, s, call).tasks && Belongs(Next(c, s, call), call, Next(c, s, call).tasks[call.t])
  {
  }

  lemma AtBooks(c: Config, steps: seq<Step>, k: nat)
    requires Feasible(c, Start, steps) && k <= |steps|
    ensures Books(At(c, steps, k))
  {
    PrefixFeasible(c, Start, steps, k);
    ReachableBooks(c, steps[..k]);
  }

  lemma {:induction false} BelongsOn(c: Config, steps: seq<Step>, p: nat, k: nat)
    requires Feasible(c, Start, steps) && p < k <= |steps| && IsCall(steps[p])
    ensures steps[p].t in At(c, steps, k).tasks && Belongs(At(c, steps, k), steps[p], At(c, steps, k).tasks[steps[p].t])
  {
    hide Inv, Books, Next, Enabled, Belongs;
    AtNext(c, steps, k - 1);
    if p == k - 1 {
      CallBegins(c, At(c, steps, p), steps[p]);
    } else {
      BelongsOn(c, steps, p, k - 1);
      AtInv(c, steps, k - 1);
      AtBooks(c, steps, k - 1);
      StepBelongs(c, At(c, steps, k - 1), steps[k - 1], steps[p]);
    }
  }

  /**
   How calls end: a decision raises or answers its own id and status; a submission raises, or returns with
   the submission of its own id in the log; an act phase raises, or returns with the execution of its own
   action in the log.
   */
  lemma CallsAnswerTheirOwn(c: Config, steps: seq<Step>, p: nat, outcome: Outcome)
    requires Feasible(c, Start, steps) && p < |steps| && IsCall(steps[p])
    requires steps[p].t in Run(c, Start, steps).tasks && Run(c, Start, steps).tasks[steps[p].t] == Finished(outcome)
    ensures
      var audit := Run(c, Start, steps).audit;
      outcome == Raised ||
      match steps[p]
      case BeginDecide(_, id, d) => outcome == Decided(id, d)
      case BeginSubmit(_, id, _) => outcome == Returned && RequestSubmitted(id) in audit
      case BeginAct(t, action) => outcome == Returned && exists gate :: ActionExecuted(t, action, gate) in audit
      case BeginSweep(_) => outcome == Returned
  {
    BelongsOn(c, steps, p, |steps|);
    AtEnds(c, steps);
    hide At, Run, Feasible;
  }

  /** The task's call ends in an error with this publication: a late decision, or an act phase without approval. */
  predicate EndsRaised(s: State, task: Task) {
    match task
    case Deciding(_, _, _, _, late) => late
    case Submitting(_, ref, act) => act.Some? && ref in s.store.heap && s.store.heap[ref].status != APPROVED
    case _ => false
  }

  lemma LeavingRaises(c: Config, s: State, step: Step)
    requires Enabled(c, s, step) && Mover(step).Some? && LeavesStore(step) && !step.Abort? && !step.Count?
    ensures step.t in Next(c, s, step).tasks
    ensures Next(c, s, step).tasks[step.t] == Finished(Raised) <==> step.Publish? && EndsRaised(s, s.tasks[step.t])
  {
  }

  lemma UsingRaisesNot(c: Config, s: State, step: Step)
    requires Enabled(c, s, step) && Mover(step).Some? && !LeavesStore(step) && !step.Fetch? && !step.Judge?
    ensures step.t in Next(c, s, step).tasks && Next(c, s, step).tasks[step.t] != Finished(Raised)
  {
  }

  /**
   A call that is not cut short fails in five places only: when there is no room, when the request is not
   found, when the decision is not fit, and, at the end, if it came late or the action was not approved.
   */
  lemma FailsOnlyThere(c: Config, s: State, step: Step)
    requires Enabled(c, s, step) && Mover(step).Some? && !step.Abort?
    ensures step.t in Next(c, s, step).tasks
    ensures Next(c, s, step).tasks[step.t] == Finished(Raised) ==>
      step.Count? || step.Fetch? || step.Judge? || (step.Publish? && EndsRaised(s, s.tasks[step.t]))
    ensures step.Publish? && EndsRaised(s, s.tasks[step.t]) ==> Next(c, s, step).tasks[step.t] == Finished(Raised)
  {
    MoverStays(c, s, step);
    hide Next, Enabled, EndsRaised;
    if LeavesStore(step) {
      if !step.Count? { LeavingRaises(c, s, step); }
    } else if !step.Fetch? && !step.Judge? {
      UsingRaisesNot(c, s, step);
    }
  }

  lemma MoverStays(c: Config, s: State, step: Step)
    requires Enabled(c, s, step) && Mover(step).Some?
    ensures step.t in Next(c, s, step).tasks
    ensures step.Publish? ==> step.t in s.tasks
  {
  }
}
