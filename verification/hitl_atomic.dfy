/** What the pace of the event loop means for the lock over the in-memory store: nobody ever waits for it. */
module HitlAtomic {
  import opened Maybe
  import opened HitlProtocol
  import opened HitlInvariant
  import opened HitlRuns
  import opened HitlPace
  import opened HitlChanges
  import opened HitlShown

  /** While a task holds the lock, every other one is parked. */
  ghost predicate HolderAlone(s: State) {
    s.lock.Some? ==> forall u :: u in s.tasks && Some(u) != s.lock ==> Parked(s.tasks[u])
  }

  /** In memory a task inside its critical section is not left: the step is its own, or that of the clock. */
  lemma SectionIsAtomic(c: Config, s: State, step: Step, u: TaskId)
    requires c.backend == InMemory && u in s.tasks && Holding(s.tasks[u])
    requires Enabled(c, s, step) && InTurn(c, s, step)
    ensures step.Tick? || step.t == u
  {
  }

  lemma OthersParkedAtAcquire(c: Config, s: State, step: Step)
    requires c.backend == InMemory && s.lock.None? && Mover(step).Some? && InTurn(c, s, step)
    ensures forall u :: u in s.tasks && u != step.t ==> Parked(s.tasks[u])
  {
    forall u | u in s.tasks && u != step.t ensures Parked(s.tasks[u]) {
      assert Suspended(c, s, s.tasks[u]);
    }
  }

  lemma LockChanges(c: Config, s: State, step: Step)
    requires Enabled(c, s, step) && Mover(step).Some?
    ensures Next(c, s, step).lock in {None, s.lock, Some(step.t)}
  {
  }

  lemma TickKeepsAlone(c: Config, s: State, seconds: nat)
    requires HolderAlone(s)
    ensures HolderAlone(Next(c, s, Tick(seconds)))
  {
  }

  lemma StepKeepsAlone(c: Config, s: State, step: Step)
    requires c.backend == InMemory && TasksInv(c, s) && HolderAlone(s) && Enabled(c, s, step) && InTurn(c, s, step)
    ensures HolderAlone(Next(c, s, step))
  {
    if step.Tick? {
      TickKeepsAlone(c, s, step.seconds);
    } else if step.LoseActive? || step.LoseArchived? {
      assert false;
    } else {
      var s' := Next(c, s, step);
      LockChanges(c, s, step);
      if s.lock.Some? {
        SectionIsAtomic(c, s, step, s.lock.value);
      } else {
        OthersParkedAtAcquire(c, s, step);
      }
      hide Next, Enabled, TasksInv, InTurn, Parked;
      forall u | u in s'.tasks && s'.lock.Some? && Some(u) != s'.lock ensures Parked(s'.tasks[u]) {
        assert u != step.t;
        OnlyMoverMoves(c, s, step, u);
      }
    }
  }

  lemma {:induction false} RunKeepsAlone(c: Config, s: State, steps: seq<Step>)
    requires c.backend == InMemory && Inv(c, s) && HolderAlone(s) && Feasible(c, s, steps) && Paced(c, s, steps)
    ensures HolderAlone(Run(c, s, steps))
    decreases |steps|
  {
    if steps != [] {
      StepKeeps(c, s, steps[0]);
      StepKeepsAlone(c, s, steps[0]);
      hide Inv, HolderAlone, Next, Enabled, InTurn;
      RunKeepsAlone(c, Next(c, s, steps[0]), steps[1..]);
    }
  }

  lemma WaitsNeitherParkedNorHolding(task: Task)
    requires Waiting(task)
    ensures !Parked(task) && !Holding(task)
  {
  }

  /**
   In memory, as the event loop runs it, no call ever waits for the lock while another holds it: between two
   steps either the lock is free, or everybody but its holder is where the loop may leave a task.
   */
  lemma NoContention(c: Config, steps: seq<Step>, t: TaskId)
    requires c.backend == InMemory && Feasible(c, Start, steps) && Paced(c, Start, steps)
    requires t in Run(c, Start, steps).tasks && Waiting(Run(c, Start, steps).tasks[t])
    ensures Run(c, Start, steps).lock == None
  {
    StartInv(c);
    RunKeepsAlone(c, Start, steps);
    ReachableInv(c, steps);
    var s := Run(c, Start, steps);
    hide HeapInv, ActiveInv, ArchivedInv, IndexInv, LogInv, AuditInv, TaskOk;
    WaitsNeitherParkedNorHolding(s.tasks[t]);
    hide Parked, Holding, Waiting;
  }
}
