/** The invariant holds in every reachable state of the approval protocol. */
module HitlRuns {
  import opened Maybe
  import opened HitlProtocol
  import opened HitlInvariant
  import opened HitlFrames
  import opened HitlMoves
  import opened HitlEnvironment
  import opened HitlCreating
  import opened HitlSaving
  import opened HitlReading
  import opened HitlExpiring
  import opened HitlDeciding
  import opened HitlArchiving

  // ----- the invariant holds in every reachable state -----

  lemma QuietStepKeeps(c: Config, s: State, step: Step)
    requires Inv(c, s) && Enabled(c, s, step) && LeavesStore(step)
    ensures Inv(c, Next(c, s, step))
  {
    hide Inv;
    match step
    case Tick(seconds) => TickKeeps(c, s, seconds);
    case BeginAct(t, action) => BeginKeeps(c, s, t, Proposing(action));
    case BeginDecide(t, id, decision) => BeginKeeps(c, s, t, Fetching(false, id, decision));
    case BeginSweep(t) => BeginKeeps(c, s, t, Snapshotting(false, s.clock));
    case Acquire(t) => AcquireKeeps(c, s, t);
    case Release(t) => ReleaseKeeps(c, s, t);
    case Count(t) => CountKeeps(c, s, t);
    case List(t, ids) => ListKeeps(c, s, t, ids);
    case Audit(t) => AuditKeeps(c, s, t);
    case Publish(t) => PublishKeeps(c, s, t);
    case Abort(t) => AbortKeeps(c, s, t);
  }

  lemma StoreStepKeeps(c: Config, s: State, step: Step)
    requires Inv(c, s) && Enabled(c, s, step) && !LeavesStore(step)
    ensures Inv(c, Next(c, s, step))
  {
    hide Inv;
    match step
    case Propose(t, id) => ProposeKeeps(c, s, t, id);
    case BeginSubmit(t, id, agent) => SubmitsKeeps(c, s, t, id, agent, None);
    case Save(t) => SaveKeeps(c, s, t, Next(c, s, step), s.tasks[t].ref, s.tasks[t].act);
    case Fetch(t) => FetchKeeps(c, s, t);
    case Judge(t) => JudgeKeeps(c, s, t, s.tasks[t].id, s.tasks[t].decision, s.tasks[t].ref, s.tasks[t].late);
    case Scan(t) => ScanKeeps(c, s, t);
    case Expire(t) => ExpireKeeps(c, s, t, s.tasks[t].now, s.tasks[t].found, s.tasks[t].done);
    case File(t) => FileKeeps(c, s, t);
    case LoseActive(lost) => LossKeeps(c, s, Next(c, s, step));
    case LoseArchived(lost) => LossKeeps(c, s, Next(c, s, step));
  }

  lemma StepKeeps(c: Config, s: State, step: Step)
    requires Inv(c, s) && Enabled(c, s, step)
    ensures Inv(c, Next(c, s, step))
  {
    hide Inv, Next, Enabled;
    if LeavesStore(step) { QuietStepKeeps(c, s, step); } else { StoreStepKeeps(c, s, step); }
  }

  lemma {:induction false} RunKeeps(c: Config, s: State, steps: seq<Step>)
    requires Inv(c, s) && Feasible(c, s, steps)
    ensures Inv(c, Run(c, s, steps))
    decreases |steps|
  {
    hide Inv;
    if steps != [] {
      StepKeeps(c, s, steps[0]);
      RunKeeps(c, Next(c, s, steps[0]), steps[1..]);
    }
  }

  lemma StartInv(c: Config)
    ensures Inv(c, Start)
  {
  }

  lemma ReachableInv(c: Config, steps: seq<Step>)
    requires Feasible(c, Start, steps)
    ensures Inv(c, Run(c, Start, steps))
  {
    hide Inv;
    StartInv(c);
    RunKeeps(c, Start, steps);
  }
}
