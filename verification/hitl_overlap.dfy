/**
 What makes a surplus over the in-memory store: an expiry that meets an object that is no longer PENDING.
 It is the check that the code leaves out.
 */
module HitlOverlap {
  import opened Maybe
  import opened HitlProtocol
  import opened HitlInvariant
  import opened HitlRuns
  import opened HitlMemory
  import opened HitlAccount
  import opened HitlBalance
  import opened HitlGauge

  /** The step expires an object of this agent's that is not PENDING any more. */
  predicate MeetsClosed(c: Config, s: State, step: Step, agent: Name)
    requires Enabled(c, s, step)
  {
    step.Expire? &&
    (var task := s.tasks[step.t];
     task.done < |task.found| &&
     s.store.heap[task.found[task.done]].status != PENDING && s.store.heap[task.found[task.done]].agent == agent)
  }

  /** How often a run does so. */
  function Meetings(c: Config, s: State, steps: seq<Step>, agent: Name): nat
    requires Feasible(c, s, steps)
    decreases |steps|
  {
    if steps == [] then 0
    else (if MeetsClosed(c, s, steps[0], agent) then 1 else 0) + Meetings(c, Next(c, s, steps[0]), steps[1..], agent)
  }

  // ----- open and closed objects -----

  lemma RetiredIsClosed(c: Config, s: State, r: Ref)
    requires c.backend == InMemory && Inv(c, s) && InPlace(s) && r in s.store.heap && s.store.heap[r].id in s.past.retired
    ensures s.store.heap[r].status != PENDING
  {
    var id := s.store.heap[r].id;
    hide LogInv, AuditInv, TasksInv, HeapInv;
    assert id !in s.store.index.Keys && id !in s.store.active && Kept(s, id);
    assert ArchivedOk(c, s, id, s.store.archived[id]);
    assert s.store.archived[id].ref == r;
  }

  /** A call that is about to count a request out, or to file it, has closed its object. */
  lemma HandledIsClosed(c: Config, s: State, r: Ref, t: TaskId)
    requires Inv(c, s) && OneObject(s) && r in s.store.heap && t in s.tasks
    requires CountsOut(s.tasks[t], s.store.heap[r].id) || Files(s.store.heap, s.tasks[t], s.store.heap[r].id)
    ensures s.store.heap[r].status != PENDING
  {
    hide HeapInv, ActiveInv, ArchivedInv, IndexInv, LogInv, AuditInv;
    assert TaskOk(c, s, t, s.tasks[t]);
    hide TasksInv;
  }

  /** In memory, an object is PENDING exactly until its request is counted out or a call is about to do so. */
  lemma OpenIsNotOut(c: Config, s: State, a: Account, r: Ref)
    requires c.backend == InMemory && Accounted(c, s, a) && InPlace(s) && r in s.store.heap
    requires s.store.heap[r].status == PENDING
    ensures s.store.heap[r].id !in a.out && !OwedOut(s, s.store.heap[r].id)
  {
    var id := s.store.heap[r].id;
    hide HeapInv, ActiveInv, ArchivedInv, IndexInv, LogInv, AuditInv, TasksInv, Files, CountsOut;
    assert Balanced(s, a);
    if id in s.past.retired {
      RetiredIsClosed(c, s, r);
    }
    forall t | t in s.tasks ensures !CountsOut(s.tasks[t], id) && !Files(s.store.heap, s.tasks[t], id) {
      if CountsOut(s.tasks[t], id) || Files(s.store.heap, s.tasks[t], id) {
        HandledIsClosed(c, s, r, t);
      }
    }
  }

  lemma ClosedIsOut(c: Config, s: State, a: Account, r: Ref)
    requires c.backend == InMemory && Accounted(c, s, a) && InPlace(s) && r in s.store.heap
    requires s.store.heap[r].status != PENDING && s.store.heap[r].id in s.past.saved
    ensures s.store.heap[r].id in a.out || OwedOut(s, s.store.heap[r].id)
  {
    var id := s.store.heap[r].id;
    hide HeapInv, ArchivedInv, LogInv, AuditInv, TasksInv, OwedIn, OwedOut, OwedFiling;
    assert Balanced(s, a);
    if id !in s.past.retired {
      assert id in s.store.index.Keys && id in s.store.active;
      assert EntryOk(c, s, id, s.store.active[id]);
      assert s.store.active[id].ref == r;
    }
    assert Closed(s, id);
  }

  // ----- what is owed twice -----

  /** The task is about to count its request out. */
  predicate Owes(task: Task) {
    task.Deciding? && CountsOut(task, task.id)
  }

  /** The calls that are about to count out a request of this agent's that was counted out already. */
  function Twice(tasks: map<TaskId, Task>, out: set<Id>, agents: map<Id, Name>, agent: Name): set<TaskId> {
    set t | t in tasks && Owes(tasks[t]) && tasks[t].id in out && tasks[t].id in agents && agents[tasks[t].id] == agent
  }

  ghost predicate OweOnce(tasks: map<TaskId, Task>) {
    forall t, u :: t in tasks && u in tasks && Owes(tasks[t]) && Owes(tasks[u]) && tasks[t].id == tasks[u].id ==> t == u
  }

  /** The surplus so far, and the surplus that is sure to come. */
  function Tally(s: State, a: Account, agent: Name): nat {
    SurplusOf(a, agent) + |Twice(s.tasks, a.out, a.agents, agent)|
  }

  lemma OweOnceKeeps(tasks: map<TaskId, Task>, tasks': map<TaskId, Task>, t: TaskId)
    requires t in tasks' && tasks' == tasks[t := tasks'[t]] && OweOnce(tasks)
    requires Owes(tasks'[t]) ==> t in tasks && Owes(tasks[t]) && tasks'[t].id == tasks[t].id
    ensures OweOnce(tasks')
  {
    hide Owes;
  }

  /** A move that leaves what the task owes, and nothing is counted out. */
  lemma SameTally(s: State, s': State, a: Account, a': Account, t: TaskId, agent: Name)
    requires t in s'.tasks && s'.tasks == s.tasks[t := s'.tasks[t]] && OweOnce(s.tasks)
    requires Owes(s'.tasks[t]) <==> t in s.tasks && Owes(s.tasks[t])
    requires Owes(s'.tasks[t]) ==> s'.tasks[t].id == s.tasks[t].id
    requires a'.out == a.out && a'.surplus == a.surplus
    requires forall id :: id in a.out ==> (id in a'.agents <==> id in a.agents)
    requires forall id :: id in a.out && id in a.agents ==> a'.agents[id] == a.agents[id]
    ensures OweOnce(s'.tasks) && Tally(s', a', agent) == Tally(s, a, agent)
  {
    OweOnceKeeps(s.tasks, s'.tasks, t);
    hide CountsOut, OweOnce;
    assert Twice(s'.tasks, a'.out, a'.agents, agent) == Twice(s.tasks, a.out, a.agents, agent);
  }

  /** A decision closes a request that nobody was about to count out. */
  lemma NewOwer(s: State, s': State, a: Account, t: TaskId, agent: Name)
    requires t in s.tasks && t in s'.tasks && s'.tasks == s.tasks[t := s'.tasks[t]] && OweOnce(s.tasks)
    requires !Owes(s.tasks[t]) && Owes(s'.tasks[t]) && s'.tasks[t].id !in a.out && !OwedOut(s, s'.tasks[t].id)
    ensures OweOnce(s'.tasks) && Tally(s', a, agent) == Tally(s, a, agent)
  {
    assert forall u :: u in s.tasks && Owes(s.tasks[u]) ==> CountsOut(s.tasks[u], s.tasks[u].id);
    hide CountsOut;
    assert Twice(s'.tasks, a.out, a.agents, agent) == Twice(s.tasks, a.out, a.agents, agent);
  }

  lemma TwiceLoses(tasks: map<TaskId, Task>, tasks': map<TaskId, Task>, out: set<Id>, agents: map<Id, Name>, t: TaskId, agent: Name)
    requires t in tasks && t in tasks' && tasks' == tasks[t := tasks'[t]] && Owes(tasks[t]) && !Owes(tasks'[t])
    requires tasks[t].id in out && tasks[t].id in agents
    ensures |Twice(tasks', out, agents, agent)| + (if agents[tasks[t].id] == agent then 1 else 0) == |Twice(tasks, out, agents, agent)|
  {
    assert Twice(tasks', out, agents, agent) == Twice(tasks, out, agents, agent) - {t};
    assert t in Twice(tasks, out, agents, agent) <==> agents[tasks[t].id] == agent;
  }

  lemma TwiceIgnores(tasks: map<TaskId, Task>, tasks': map<TaskId, Task>, out: set<Id>, agents: map<Id, Name>, t: TaskId, id: Id, agent: Name)
    requires t in tasks && t in tasks' && tasks' == tasks[t := tasks'[t]] && !Owes(tasks'[t]) && id !in out
    requires forall u :: u in tasks && Owes(tasks[u]) && tasks[u].id == id ==> u == t
    requires Owes(tasks[t]) ==> tasks[t].id == id
    ensures Twice(tasks', out + {id}, agents, agent) == Twice(tasks, out, agents, agent)
  {
    hide Owes;
  }

  lemma TwiceGains(tasks: map<TaskId, Task>, tasks': map<TaskId, Task>, out: set<Id>, agents: map<Id, Name>, t: TaskId, u: TaskId, agent: Name)
    requires t in tasks && t in tasks' && tasks' == tasks[t := tasks'[t]] && !Owes(tasks'[t]) && !Owes(tasks[t])
    requires u in tasks && Owes(tasks[u]) && tasks[u].id !in out && OweOnce(tasks) && tasks[u].id in agents
    ensures |Twice(tasks', out + {tasks[u].id}, agents, agent)|
         == |Twice(tasks, out, agents, agent)| + if agents[tasks[u].id] == agent then 1 else 0
  {
    hide CountsOut;
    assert Twice(tasks', out + {tasks[u].id}, agents, agent)
        == Twice(tasks, out, agents, agent) + if agents[tasks[u].id] == agent then {u} else {};
  }

  /** The call that owes it counts its request out. */
  lemma OwerPays(s: State, s': State, a: Account, t: TaskId, own: Name, agent: Name)
    requires t in s.tasks && t in s'.tasks && s'.tasks == s.tasks[t := s'.tasks[t]] && OweOnce(s.tasks)
    requires Owes(s.tasks[t]) && !Owes(s'.tasks[t]) && s.tasks[t].id in a.agents && a.agents[s.tasks[t].id] == own
    ensures OweOnce(s'.tasks) && Tally(s', CountedOut(a, s.tasks[t].id, own), agent) == Tally(s, a, agent)
  {
    OweOnceKeeps(s.tasks, s'.tasks, t);
    hide Twice, CountsOut;
    if s.tasks[t].id in a.out {
      TwiceLoses(s.tasks, s'.tasks, a.out, a.agents, t, agent);
    } else {
      TwiceIgnores(s.tasks, s'.tasks, a.out, a.agents, t, s.tasks[t].id, agent);
    }
  }

  /** A sweep counts out a request that is open, so that nobody owes it and it was not counted out. */
  lemma OpenExpires(s: State, s': State, a: Account, t: TaskId, id: Id, own: Name, agent: Name)
    requires t in s.tasks && t in s'.tasks && s'.tasks == s.tasks[t := s'.tasks[t]] && OweOnce(s.tasks)
    requires !Owes(s.tasks[t]) && !Owes(s'.tasks[t]) && id !in a.out && !OwedOut(s, id)
    ensures OweOnce(s'.tasks) && Tally(s', CountedOut(a, id, own), agent) == Tally(s, a, agent)
  {
    OweOnceKeeps(s.tasks, s'.tasks, t);
    assert forall u :: u in s.tasks && Owes(s.tasks[u]) ==> CountsOut(s.tasks[u], s.tasks[u].id);
    hide Twice, CountsOut;
    TwiceIgnores(s.tasks, s'.tasks, a.out, a.agents, t, id, agent);
  }

  /** A sweep counts out a request that is closed: it was counted out before, or one call still will. */
  lemma ClosedExpires(s: State, s': State, a: Account, t: TaskId, id: Id, own: Name, agent: Name)
    requires t in s.tasks && t in s'.tasks && s'.tasks == s.tasks[t := s'.tasks[t]] && OweOnce(s.tasks)
    requires !Owes(s.tasks[t]) && !Owes(s'.tasks[t]) && (id in a.out || OwedOut(s, id))
    requires id in a.agents && a.agents[id] == own
    ensures OweOnce(s'.tasks)
    ensures Tally(s', CountedOut(a, id, own), agent) == Tally(s, a, agent) + if own == agent then 1 else 0
  {
    OweOnceKeeps(s.tasks, s'.tasks, t);
    if id in a.out {
      hide CountsOut, OweOnce;
      assert Twice(s'.tasks, a.out, a.agents, agent) == Twice(s.tasks, a.out, a.agents, agent);
    } else {
      var u :| u in s.tasks && CountsOut(s.tasks[u], id);
      assert Owes(s.tasks[u]) && s.tasks[u].id == id;
      hide CountsOut, Twice, OweOnce;
      TwiceGains(s.tasks, s'.tasks, a.out, a.agents, t, u, agent);
    }
  }

  // ----- steps -----

  /** Steps that close no request. */
  predicate ClosesNothing(s: State, step: Step) {
    && !step.Tick? && !step.Expire? && !step.Judge?
    && (step.Release? ==> step.t in s.tasks && !Owes(s.tasks[step.t]))
  }

  lemma ClosingNothing(c: Config, s: State, a: Account, step: Step)
    requires Enabled(c, s, step) && Undisturbed(step) && ClosesNothing(s, step)
    requires step.t in s.tasks && s.tasks[step.t].Deciding? && s.tasks[step.t].late ==> s.tasks[step.t].decideAt != Persisted
    ensures var s' := Next(c, s, step);
      && step.t in s'.tasks && s'.tasks == s.tasks[step.t := s'.tasks[step.t]]
      && (Owes(s'.tasks[step.t]) <==> step.t in s.tasks && Owes(s.tasks[step.t]))
      && (Owes(s'.tasks[step.t]) ==> s'.tasks[step.t].id == s.tasks[step.t].id)
  {
  }

  lemma QuietTally(c: Config, s: State, a: Account, step: Step, agent: Name)
    requires Accounted(c, s, a) && OweOnce(s.tasks) && Enabled(c, s, step) && Undisturbed(step) && ClosesNothing(s, step)
    ensures OweOnce(Next(c, s, step).tasks)
    ensures Tally(Next(c, s, step), Posted(c, s, a, step), agent) == Tally(s, a, agent)
  {
    DecidersKnown(c, s, a, step.t);
    ClosingNothing(c, s, a, step);
    PostingNothing(c, s, a, step);
    hide Accounted, Next, Enabled, Posted, Owes, Tally, OweOnce;
    SameTally(s, Next(c, s, step), a, Posted(c, s, a, step), step.t, agent);
  }

  lemma DecidersKnown(c: Config, s: State, a: Account, t: TaskId)
    requires Accounted(c, s, a)
    ensures t in s.tasks && s.tasks[t].Deciding? && s.tasks[t].late ==> s.tasks[t].decideAt != Persisted
    ensures forall id :: id in a.out ==> id in s.past.expiry
  {
    hide HeapInv, ActiveInv, ArchivedInv, LogInv, AuditInv, AgentsOk, Listed, GaugeOk, TasksOwe;
    if t in s.tasks { assert TaskOk(c, s, t, s.tasks[t]); }
    assert Balanced(s, a);
  }

  lemma PostingNothing(c: Config, s: State, a: Account, step: Step)
    requires Enabled(c, s, step) && Undisturbed(step) && ClosesNothing(s, step)
    requires step.t in s.tasks && s.tasks[step.t].Deciding? && s.tasks[step.t].late ==> s.tasks[step.t].decideAt != Persisted
    requires forall id :: id in a.out ==> id in s.past.expiry
    ensures var a' := Posted(c, s, a, step);
      && a'.out == a.out && a'.surplus == a.surplus
      && (forall id :: id in a.out ==> (id in a'.agents <==> id in a.agents))
      && (forall id :: id in a.out && id in a.agents ==> a'.agents[id] == a.agents[id])
  {
  }

  lemma TickTally(c: Config, s: State, a: Account, seconds: nat, agent: Name)
    requires OweOnce(s.tasks)
    ensures OweOnce(Next(c, s, Tick(seconds)).tasks)
    ensures Tally(Next(c, s, Tick(seconds)), Posted(c, s, a, Tick(seconds)), agent) == Tally(s, a, agent)
  {
  }

  lemma JudgeMoves(c: Config, s: State, t: TaskId)
    requires Enabled(c, s, Judge(t))
    ensures var s' := JudgeStep(c, s, t);
      && t in s'.tasks && s'.tasks == s.tasks[t := s'.tasks[t]] && !Owes(s.tasks[t])
      && (Owes(s'.tasks[t]) ==> s'.tasks[t].id == s.tasks[t].id && s.store.heap[s.tasks[t].ref].status == PENDING)
  {
  }

  lemma JudgeTally(c: Config, s: State, a: Account, t: TaskId, agent: Name)
    requires c.backend == InMemory && Accounted(c, s, a) && InPlace(s) && OweOnce(s.tasks) && Enabled(c, s, Judge(t))
    ensures OweOnce(Next(c, s, Judge(t)).tasks) && Tally(Next(c, s, Judge(t)), a, agent) == Tally(s, a, agent)
  {
    var ref, s' := s.tasks[t].ref, JudgeStep(c, s, t);
    JudgeMoves(c, s, t);
    JudgedId(c, s, a, t);
    hide InPlace, Accounted, JudgeStep, Owes, Tally, OweOnce, OwedOut;
    if s.store.heap[ref].status == PENDING {
      OpenIsNotOut(c, s, a, ref);
    }
    if Owes(s'.tasks[t]) {
      NewOwer(s, s', a, t, agent);
    } else {
      SameTally(s, s', a, a, t, agent);
    }
  }

  lemma JudgedId(c: Config, s: State, a: Account, t: TaskId)
    requires Accounted(c, s, a) && Enabled(c, s, Judge(t))
    ensures s.store.heap[s.tasks[t].ref].id == s.tasks[t].id
  {
    hide HeapInv, ActiveInv, ArchivedInv, IndexInv, LogInv, AuditInv, Sound, AgentsOk, Listed, GaugeOk;
    assert TaskOk(c, s, t, s.tasks[t]);
  }

  lemma ReleaseMoves(c: Config, s: State, a: Account, t: TaskId)
    requires Enabled(c, s, Release(t)) && Owes(s.tasks[t])
    requires s.tasks[t].late ==> s.tasks[t].decideAt != Persisted
    ensures var s' := Leave(s, t);
      && t in s'.tasks && s'.tasks == s.tasks[t := s'.tasks[t]] && !Owes(s'.tasks[t])
      && AtRelease(s, a, s.tasks[t]) == CountedOut(a, s.tasks[t].id, s.store.heap[s.tasks[t].ref].agent)
  {
  }

  lemma ReleaseTally(c: Config, s: State, a: Account, t: TaskId, agent: Name)
    requires Accounted(c, s, a) && OweOnce(s.tasks) && Enabled(c, s, Release(t)) && Owes(s.tasks[t])
    ensures OweOnce(Next(c, s, Release(t)).tasks)
    ensures Tally(Next(c, s, Release(t)), Posted(c, s, a, Release(t)), agent) == Tally(s, a, agent)
  {
    var Deciding(at, id, decision, ref, late) := s.tasks[t];
    DecidersKnown(c, s, a, t);
    assert Inv(c, s) && AgentsOk(s, a);
    DecisionKnown(c, s, a, t, at, id, decision, ref, late);
    ReleaseMoves(c, s, a, t);
    hide Accounted, Inv, AgentsOk, Leave, AtRelease, Owes, Tally, OweOnce, CountedOut;
    OwerPays(s, Leave(s, t), a, t, s.store.heap[ref].agent, agent);
  }

  lemma ExpireMoves(c: Config, s: State, t: TaskId)
    requires Enabled(c, s, Expire(t))
    ensures var s' := ExpireStep(s, t);
      t in s'.tasks && s'.tasks == s.tasks[t := s'.tasks[t]] && !Owes(s.tasks[t]) && !Owes(s'.tasks[t])
  {
  }

  lemma ExpireFinds(c: Config, s: State, a: Account, t: TaskId)
    requires Accounted(c, s, a) && Enabled(c, s, Expire(t)) && s.tasks[t].done < |s.tasks[t].found|
    ensures var q := s.store.heap[s.tasks[t].found[s.tasks[t].done]];
      q.id in s.past.saved && q.id in a.agents && a.agents[q.id] == q.agent
  {
    hide HeapInv, ActiveInv, ArchivedInv, IndexInv, LogInv, AuditInv, Sound, GaugeOk;
    assert TaskOk(c, s, t, s.tasks[t]) && StaleOk(c, s, s.tasks[t].found[s.tasks[t].done]);
    assert AgentOk(a, s.store.heap[s.tasks[t].found[s.tasks[t].done]]);
  }

  lemma OneExpires(c: Config, s: State, s': State, a: Account, t: TaskId, ref: Ref, agent: Name)
    requires c.backend == InMemory && Accounted(c, s, a) && InPlace(s) && OweOnce(s.tasks) && ref in s.store.heap
    requires t in s.tasks && t in s'.tasks && s'.tasks == s.tasks[t := s'.tasks[t]] && !Owes(s.tasks[t]) && !Owes(s'.tasks[t])
    requires var q := s.store.heap[ref]; q.id in s.past.saved && q.id in a.agents && a.agents[q.id] == q.agent
    ensures OweOnce(s'.tasks)
    ensures var q := s.store.heap[ref];
      Tally(s', CountedOut(a, q.id, q.agent), agent)
        == Tally(s, a, agent) + if q.status != PENDING && q.agent == agent then 1 else 0
  {
    hide InPlace, Accounted, Owes, Tally, OweOnce, OwedOut, CountedOut;
    var q := s.store.heap[ref];
    if q.status == PENDING {
      OpenIsNotOut(c, s, a, ref);
      OpenExpires(s, s', a, t, q.id, q.agent, agent);
    } else {
      ClosedIsOut(c, s, a, ref);
      ClosedExpires(s, s', a, t, q.id, q.agent, agent);
    }
  }

  lemma ExpireTally(c: Config, s: State, a: Account, t: TaskId, agent: Name)
    requires c.backend == InMemory && Accounted(c, s, a) && InPlace(s) && OweOnce(s.tasks) && Enabled(c, s, Expire(t))
    ensures OweOnce(Next(c, s, Expire(t)).tasks)
    ensures Tally(Next(c, s, Expire(t)), Posted(c, s, a, Expire(t)), agent)
         == Tally(s, a, agent) + if MeetsClosed(c, s, Expire(t), agent) then 1 else 0
  {
    var task, s' := s.tasks[t], ExpireStep(s, t);
    ExpireMoves(c, s, t);
    hide InPlace, Accounted, ExpireStep, Owes, Tally, OweOnce, OwedOut, CountedOut;
    if task.done < |task.found| {
      ExpireFinds(c, s, a, t);
      OneExpires(c, s, s', a, t, task.found[task.done], agent);
    } else {
      SameTally(s, s', a, a, t, agent);
    }
  }

  lemma StepTally(c: Config, s: State, a: Account, step: Step, agent: Name)
    requires c.backend == InMemory && Accounted(c, s, a) && InPlace(s) && OweOnce(s.tasks)
    requires Enabled(c, s, step) && Undisturbed(step)
    ensures OweOnce(Next(c, s, step).tasks)
    ensures Tally(Next(c, s, step), Posted(c, s, a, step), agent)
         == Tally(s, a, agent) + if MeetsClosed(c, s, step, agent) then 1 else 0
  {
    assert !step.Expire? ==> !MeetsClosed(c, s, step, agent);
    assert Posted(c, s, a, step) == a || !step.Judge?;
    hide InPlace, Accounted, Next, Enabled, Posted, Tally, OweOnce, MeetsClosed, Owes;
    if step.Tick? {
      TickTally(c, s, a, step.seconds, agent);
    } else if step.Judge? {
      JudgeTally(c, s, a, step.t, agent);
    } else if step.Expire? {
      ExpireTally(c, s, a, step.t, agent);
    } else if ClosesNothing(s, step) {
      QuietTally(c, s, a, step, agent);
    } else {
      ReleasesKnown(c, s, step);
      ReleaseTally(c, s, a, step.t, agent);
    }
  }

  lemma ReleasesKnown(c: Config, s: State, step: Step)
    requires Enabled(c, s, step) && !ClosesNothing(s, step) && !step.Tick? && !step.Judge? && !step.Expire? && Undisturbed(step)
    ensures step.Release? && step == Release(step.t) && step.t in s.tasks && Owes(s.tasks[step.t])
  {
  }

  // ----- runs -----

  lemma {:induction false} RunTally(c: Config, s: State, a: Account, steps: seq<Step>, agent: Name)
    requires c.backend == InMemory && Accounted(c, s, a) && InPlace(s) && OweOnce(s.tasks)
    requires Feasible(c, s, steps) && AllUndisturbed(steps)
    ensures Tally(Run(c, s, steps), Closing(c, s, a, steps), agent) == Tally(s, a, agent) + Meetings(c, s, steps, agent)
    decreases |steps|
  {
    hide Tally, OweOnce, InPlace, Enabled, Next, Posted, Undisturbed, MeetsClosed, Inv, Sound, AgentsOk, Listed, GaugeOk;
    if steps != [] {
      assert steps[0] in steps;
      assert forall step :: step in steps[1..] ==> step in steps;
      StepTally(c, s, a, steps[0], agent);
      StepAccounts(c, s, a, steps[0]);
      InPlaceKeeps(c, s, steps[0]);
      RunTally(c, Next(c, s, steps[0]), Posted(c, s, a, steps[0]), steps[1..], agent);
    }
  }

  /**
   Over the in-memory store, with no call cut short: once no call is under way, the surplus is the number of
   times that an expiry met an object that was not PENDING any more. So the gauge is exact if and only if
   that never happened, which a look at the status in `_expire_single` would ensure.
   */
  lemma SurplusIsMeetings(c: Config, steps: seq<Step>, agent: Name)
    requires c.backend == InMemory && Feasible(c, Start, steps) && AllUndisturbed(steps) && AtRest(Run(c, Start, steps))
    ensures SurplusIn(c, steps, agent) == Meetings(c, Start, steps, agent)
    ensures var s := Run(c, Start, steps); GaugeAt(s, agent) == |PendingAt(s, agent)| - Meetings(c, Start, steps, agent)
  {
    var s, a := Run(c, Start, steps), Closing(c, Start, Opening, steps);
    StartAccounted(c);
    assert InPlace(Start) && OweOnce(Start.tasks);
    assert Twice(Start.tasks, {}, map[], agent) == {};
    RunTally(c, Start, Opening, steps, agent);
    assert Twice(s.tasks, a.out, a.agents, agent) == {};
    GaugeIsPendingLessSurplus(c, steps, agent);
  }
}
