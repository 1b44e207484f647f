/** What the account says of the gauge: it is the number of pending requests less the surplus. */
module HitlGauge {
  import opened Maybe
  import opened HitlProtocol
  import opened HitlInvariant
  import opened HitlRuns
  import opened HitlAccount
  import opened HitlAccounting
  import opened HitlBalance

  // ----- agents -----

  lemma NewRequestAgents(s: State, s': State, a: Account, q: Request)
    requires AgentsOk(s, a) && q.id !in a.agents
    requires s'.store.heap == s.store.heap[s.store.next := q] && s'.store.active == s.store.active
    ensures AgentsOk(s', a.(agents := a.agents[q.id := q.agent]))
  {
  }

  lemma SameStoreAgents(s: State, s': State, a: Account)
    requires AgentsOk(s, a) && s'.store == s.store
    ensures AgentsOk(s', a)
  {
  }

  lemma HandedAgents(s: State, s': State, a: Account, id: Id)
    requires AgentsOk(s, a) && id in s.store.active && Readable(s, s.store.active[id])
    requires s'.store == Handed(s, s.store.active[id]).1
    ensures AgentsOk(s', a)
  {
  }

  lemma MarkedAgents(s: State, s': State, a: Account, ref: Ref, status: Status)
    requires AgentsOk(s, a) && ref in s.store.heap && s'.store == Marked(s, ref, status).store
    ensures AgentsOk(s', a)
  {
  }

  lemma SavedAgents(c: Config, s: State, s': State, a: Account, ref: Ref)
    requires AgentsOk(s, a) && ref in s.store.heap && s'.store == Saves(c, s, ref).store
    ensures AgentsOk(s', a)
  {
  }

  lemma FiledAgents(c: Config, s: State, s': State, a: Account, id: Id, ref: Ref)
    requires AgentsOk(s, a) && ref in s.store.heap && s'.store == Archives(c, s, id, ref).store
    ensures AgentsOk(s', a)
  {
  }

  lemma JudgeAgents(c: Config, s: State, a: Account, t: TaskId)
    requires AgentsOk(s, a) && Enabled(c, s, Judge(t))
    ensures AgentsOk(JudgeStep(c, s, t), a)
  {
    hide AgentsOk;
    var s' := JudgeStep(c, s, t);
    var Deciding(_, id, decision, ref, _) := s.tasks[t];
    if s.store.heap[ref].status != PENDING || decision !in {APPROVED, REJECTED} {
      SameStoreAgents(s, s', a);
    } else if s.clock >= s.store.heap[ref].expiresAt {
      MarkedAgents(s, s', a, ref, EXPIRED);
    } else {
      MarkedAgents(s, Marked(s, ref, decision), a, ref, decision);
      SavedAgents(c, Marked(s, ref, decision), s', a, ref);
    }
  }

  /** Every id ever made is in the account's list of agents, and no other. */
  predicate Listed(s: State, a: Account) {
    a.agents.Keys == s.past.expiry.Keys
  }

  lemma SameAgents(s: State, a: Account, a': Account)
    requires AgentsOk(s, a) && a'.agents == a.agents
    ensures AgentsOk(s, a')
  {
  }

  lemma StepLists(c: Config, s: State, a: Account, step: Step)
    requires Listed(s, a) && Enabled(c, s, step)
    ensures Listed(Next(c, s, step), Posted(c, s, a, step))
  {
  }

  /** Steps that change no object's request. */
  lemma QuietAgents(c: Config, s: State, a: Account, step: Step)
    requires AgentsOk(s, a) && Enabled(c, s, step) && LeavesStore(step)
    ensures AgentsOk(Next(c, s, step), Posted(c, s, a, step))
  {
    hide AgentsOk;
    SameStoreAgents(s, Next(c, s, step), a);
    SameAgents(Next(c, s, step), a, Posted(c, s, a, step));
  }

  lemma MakingAgents(c: Config, s: State, a: Account, step: Step)
    requires AgentsOk(s, a) && Listed(s, a) && Enabled(c, s, step) && (step.BeginSubmit? || step.Propose?)
    ensures AgentsOk(Next(c, s, step), Posted(c, s, a, step))
  {
    hide AgentsOk;
    var s' := Next(c, s, step);
    match step
    case BeginSubmit(t, id, agent) => NewRequestAgents(s, s', a, Request(id, agent, s.clock + c.timeout, PENDING));
    case Propose(t, id) =>
      var action := s.tasks[t].action;
      if Gated(c, action) {
        NewRequestAgents(s, s', a, Request(id, action.agent, s.clock + c.timeout, PENDING));
      } else {
        SameStoreAgents(s, s', a);
      }
  }

  lemma ReadingAgents(c: Config, s: State, a: Account, step: Step)
    requires AgentsOk(s, a) && Enabled(c, s, step) && (step.Fetch? || step.Scan?)
    ensures AgentsOk(Next(c, s, step), a)
  {
    hide AgentsOk;
    var s' := Next(c, s, step);
    var id := if step.Fetch? then s.tasks[step.t].id else s.tasks[step.t].ids[0];
    if s'.store == s.store {
      SameStoreAgents(s, s', a);
    } else {
      HandedAgents(s, s', a, id);
    }
  }

  lemma WritingAgents(c: Config, s: State, a: Account, step: Step)
    requires AgentsOk(s, a) && Enabled(c, s, step) && (step.Save? || step.Judge? || step.Expire? || step.File?)
    ensures AgentsOk(Next(c, s, step), Posted(c, s, a, step))
  {
    hide AgentsOk;
    match step
    case Save(t) => SavedAgents(c, s, Next(c, s, step), a, s.tasks[t].ref);
    case Judge(t) => JudgeAgents(c, s, a, t);
    case Expire(t) =>
      var task, s' := s.tasks[t], ExpireStep(s, t);
      if task.done < |task.found| {
        MarkedAgents(s, s', a, task.found[task.done], EXPIRED);
        SameAgents(s', a, Posted(c, s, a, step));
      } else {
        SameStoreAgents(s, s', a);
      }
    case File(t) =>
      match s.tasks[t] {
        case Deciding(_, id, _, ref, _) => FiledAgents(c, s, FileStep(c, s, t), a, id, ref);
        case Sweeping(_, _, found, done) => FiledAgents(c, s, FileStep(c, s, t), a, s.store.heap[found[done]].id, found[done]);
      }
  }

  lemma StepAgents(c: Config, s: State, a: Account, step: Step)
    requires AgentsOk(s, a) && Listed(s, a) && Enabled(c, s, step) && Undisturbed(step)
    ensures AgentsOk(Next(c, s, step), Posted(c, s, a, step)) && Listed(Next(c, s, step), Posted(c, s, a, step))
  {
    StepLists(c, s, a, step);
    hide AgentsOk, Next, Enabled, Listed;
    if LeavesStore(step) {
      QuietAgents(c, s, a, step);
    } else if step.BeginSubmit? || step.Propose? {
      MakingAgents(c, s, a, step);
    } else if step.Fetch? || step.Scan? {
      ReadingAgents(c, s, a, step);
    } else {
      WritingAgents(c, s, a, step);
    }
  }

  // ----- the gauge -----

  lemma OfGrows(ids: set<Id>, agents: map<Id, Name>, id: Id, agent: Name)
    requires id !in ids && id in agents
    ensures |Of(ids + {id}, agents, agent)| == |Of(ids, agents, agent)| + if agents[id] == agent then 1 else 0
  {
    assert Of(ids + {id}, agents, agent) == Of(ids, agents, agent) + if agents[id] == agent then {id} else {};
  }

  lemma OfIgnoresOthers(ids: set<Id>, agents: map<Id, Name>, id: Id, own: Name, agent: Name)
    requires id !in ids
    ensures Of(ids, agents[id := own], agent) == Of(ids, agents, agent)
  {
  }

  lemma CountedInGauge(s: State, s': State, a: Account, q: Request)
    requires GaugeOk(s, a) && AgentOk(a, q) && q.id !in a.inn && s'.gauge == Bumped(s, q.agent, 1).gauge
    ensures GaugeOk(s', CountedIn(a, q.id))
  {
    hide Of;
    var a' := CountedIn(a, q.id);
    forall agent ensures GaugeAt(s', agent)
      == |Of(a'.inn, a'.agents, agent)| - |Of(a'.out, a'.agents, agent)| - SurplusOf(a', agent)
    {
      assert GaugeAt(s, agent) == |Of(a.inn, a.agents, agent)| - |Of(a.out, a.agents, agent)| - SurplusOf(a, agent);
      OfGrows(a.inn, a.agents, q.id, agent);
    }
  }

  lemma CountedOutGauge(s: State, s': State, a: Account, q: Request)
    requires GaugeOk(s, a) && AgentOk(a, q) && s'.gauge == Bumped(s, q.agent, -1).gauge
    ensures GaugeOk(s', CountedOut(a, q.id, q.agent))
  {
    hide Of;
    var a' := CountedOut(a, q.id, q.agent);
    forall agent ensures GaugeAt(s', agent)
      == |Of(a'.inn, a'.agents, agent)| - |Of(a'.out, a'.agents, agent)| - SurplusOf(a', agent)
    {
      assert GaugeAt(s, agent) == |Of(a.inn, a.agents, agent)| - |Of(a.out, a.agents, agent)| - SurplusOf(a, agent);
      if q.id !in a.out {
        OfGrows(a.out, a.agents, q.id, agent);
      }
    }
  }

  lemma SameGauge(s: State, s': State, a: Account)
    requires GaugeOk(s, a) && s'.gauge == s.gauge
    ensures GaugeOk(s', a)
  {
    forall agent ensures GaugeAt(s', agent) == |Of(a.inn, a.agents, agent)| - |Of(a.out, a.agents, agent)| - SurplusOf(a, agent) {
      assert GaugeAt(s, agent) == |Of(a.inn, a.agents, agent)| - |Of(a.out, a.agents, agent)| - SurplusOf(a, agent);
    }
  }

  lemma NewAgentGauge(s: State, s': State, a: Account, id: Id, own: Name)
    requires GaugeOk(s, a) && s'.gauge == s.gauge && id !in a.inn && id !in a.out
    ensures GaugeOk(s', a.(agents := a.agents[id := own]))
  {
    var a' := a.(agents := a.agents[id := own]);
    forall agent ensures GaugeAt(s', agent)
      == |Of(a'.inn, a'.agents, agent)| - |Of(a'.out, a'.agents, agent)| - SurplusOf(a', agent)
    {
      assert GaugeAt(s, agent) == |Of(a.inn, a.agents, agent)| - |Of(a.out, a.agents, agent)| - SurplusOf(a, agent);
      OfIgnoresOthers(a.inn, a.agents, id, own, agent);
      OfIgnoresOthers(a.out, a.agents, id, own, agent);
    }
  }

  lemma SubmissionKnown(c: Config, s: State, a: Account, t: TaskId, ref: Ref, act: Option<Action>)
    requires Inv(c, s) && Sound(s, a) && AgentsOk(s, a) && t in s.tasks && s.tasks[t] == Submitting(Saved, ref, act)
    requires ref in s.store.heap
    ensures AgentOk(a, s.store.heap[ref]) && s.store.heap[ref].id !in a.inn
  {
    hide Inv;
    assert TaskOwes(s, a, s.tasks[t]);
  }

  lemma DecisionKnown(c: Config, s: State, a: Account, t: TaskId, at: DecidePoint, id: Id, decision: Status, ref: Ref, late: bool)
    requires Inv(c, s) && AgentsOk(s, a) && t in s.tasks && s.tasks[t] == Deciding(at, id, decision, ref, late)
    ensures ref in s.store.heap && AgentOk(a, s.store.heap[ref]) && s.store.heap[ref].id == id
  {
    hide HeapInv, ActiveInv, ArchivedInv, IndexInv, LogInv, AuditInv;
    assert TaskOk(c, s, t, s.tasks[t]);
  }

  lemma ReleaseGauge(c: Config, s: State, a: Account, t: TaskId)
    requires Inv(c, s) && Sound(s, a) && AgentsOk(s, a) && GaugeOk(s, a) && Enabled(c, s, Release(t))
    ensures GaugeOk(Next(c, s, Release(t)), AtRelease(s, a, s.tasks[t]))
  {
    hide Inv, Sound, GaugeOk, AgentsOk, CountedIn, CountedOut, AgentOk;
    var s' := Leave(s, t);
    match s.tasks[t]
    case Submitting(_, ref, act) =>
      SubmissionKnown(c, s, a, t, ref, act);
      CountedInGauge(s, s', a, s.store.heap[ref]);
    case Deciding(at, id, decision, ref, late) =>
      DecisionKnown(c, s, a, t, at, id, decision, ref, late);
      if at == Persisted || late { CountedOutGauge(s, s', a, s.store.heap[ref]); } else { SameGauge(s, s', a); }
    case Scanning(_, _, _) => SameGauge(s, s', a);
    case Sweeping(_, _, _, _) => SameGauge(s, s', a);
  }

  lemma ExpireGauge(c: Config, s: State, a: Account, t: TaskId)
    requires AgentsOk(s, a) && GaugeOk(s, a) && Enabled(c, s, Expire(t))
    ensures GaugeOk(Next(c, s, Expire(t)), Posted(c, s, a, Expire(t)))
  {
    hide GaugeOk;
    var s', task := ExpireStep(s, t), s.tasks[t];
    if task.done < |task.found| {
      CountedOutGauge(s, s', a, s.store.heap[task.found[task.done]]);
    } else {
      SameGauge(s, s', a);
    }
  }

  lemma NotYetCounted(c: Config, s: State, a: Account, id: Id)
    requires Inv(c, s) && Sound(s, a) && id !in s.past.expiry
    ensures id !in a.inn && id !in a.out
  {
    hide HeapInv, ActiveInv, ArchivedInv, LogInv, AuditInv, TasksInv, TasksOwe;
  }

  lemma MakingGauge(c: Config, s: State, a: Account, step: Step)
    requires Inv(c, s) && Sound(s, a) && GaugeOk(s, a) && Enabled(c, s, step) && (step.BeginSubmit? || step.Propose?)
    ensures GaugeOk(Next(c, s, step), Posted(c, s, a, step))
  {
    hide Inv, Sound, GaugeOk;
    match step
    case BeginSubmit(t, id, agent) =>
      NotYetCounted(c, s, a, id);
      NewAgentGauge(s, Next(c, s, step), a, id, agent);
    case Propose(t, id) =>
      NotYetCounted(c, s, a, id);
      if Gated(c, s.tasks[t].action) {
        NewAgentGauge(s, ProposeStep(c, s, t, id), a, id, s.tasks[t].action.agent);
      } else {
        SameGauge(s, ProposeStep(c, s, t, id), a);
      }
  }

  lemma StepGauge(c: Config, s: State, a: Account, step: Step)
    requires Inv(c, s) && Sound(s, a) && AgentsOk(s, a) && GaugeOk(s, a) && Enabled(c, s, step) && Undisturbed(step)
    ensures GaugeOk(Next(c, s, step), Posted(c, s, a, step))
  {
    hide Inv, Sound, AgentsOk, GaugeOk;
    if step.Release? {
      ReleaseGauge(c, s, a, step.t);
    } else if step.Expire? {
      ExpireGauge(c, s, a, step.t);
    } else if step.BeginSubmit? || step.Propose? {
      MakingGauge(c, s, a, step);
    } else {
      OtherGauge(c, s, step);
      SameGauge(s, Next(c, s, step), a);
    }
  }

  lemma OtherGauge(c: Config, s: State, step: Step)
    requires Enabled(c, s, step) && !step.Release? && !step.Expire? && !step.BeginSubmit? && !step.Propose?
    ensures Next(c, s, step).gauge == s.gauge
  {
  }

  // ----- runs -----

  /** All that the account says of a state. */
  ghost predicate Accounted(c: Config, s: State, a: Account) {
    Inv(c, s) && Sound(s, a) && AgentsOk(s, a) && Listed(s, a) && GaugeOk(s, a)
  }

  lemma StepBalances(c: Config, s: State, a: Account, step: Step)
    requires Inv(c, s) && Sound(s, a) && Enabled(c, s, step) && Undisturbed(step)
    ensures Sound(Next(c, s, step), Posted(c, s, a, step))
  {
    hide Inv, Sound, Enabled, Next;
    match step
    case Tick(seconds) => TickBalances(c, s, a, seconds);
    case BeginAct(t, action) => BegunBalances(c, s, a, step);
    case BeginDecide(t, id, decision) => BegunBalances(c, s, a, step);
    case BeginSweep(t) => BegunBalances(c, s, a, step);
    case Propose(t, id) => ProposeBalances(c, s, a, t, id);
    case BeginSubmit(t, id, agent) => SubmitBalances(c, s, a, t, id, agent);
    case Acquire(t) => AcquireBalances(c, s, a, t);
    case Release(t) => ReleaseBalances(c, s, a, t);
    case Count(t) => CountBalances(c, s, a, t);
    case Save(t) => SaveBalances(c, s, a, t);
    case Fetch(t) => FetchBalances(c, s, a, t);
    case Judge(t) => JudgeBalances(c, s, a, t);
    case List(t, ids) => ListBalances(c, s, a, t, ids);
    case Scan(t) => ScanBalances(c, s, a, t);
    case Expire(t) => ExpireBalances(c, s, a, t);
    case File(t) => FileBalances(c, s, a, t);
    case Audit(t) => AuditBalances(c, s, a, t);
    case Publish(t) => PublishBalances(c, s, a, t);
  }

  lemma BegunBalances(c: Config, s: State, a: Account, step: Step)
    requires Inv(c, s) && Sound(s, a) && Enabled(c, s, step) && (step.BeginAct? || step.BeginDecide? || step.BeginSweep?)
    ensures Sound(Next(c, s, step), a)
  {
    hide Inv, Sound;
    match step
    case BeginAct(t, action) => BeginBalances(c, s, a, t, Proposing(action));
    case BeginDecide(t, id, decision) => BeginBalances(c, s, a, t, Task.Fetching(false, id, decision));
    case BeginSweep(t) => BeginBalances(c, s, a, t, Snapshotting(false, s.clock));
  }

  lemma StepAccounts(c: Config, s: State, a: Account, step: Step)
    requires Accounted(c, s, a) && Enabled(c, s, step) && Undisturbed(step)
    ensures Accounted(c, Next(c, s, step), Posted(c, s, a, step))
  {
    hide Inv, Sound, AgentsOk, Listed, GaugeOk, Enabled, Next, Posted;
    StepKeeps(c, s, step);
    StepBalances(c, s, a, step);
    StepAgents(c, s, a, step);
    StepGauge(c, s, a, step);
  }

  predicate AllUndisturbed(steps: seq<Step>) {
    forall step :: step in steps ==> Undisturbed(step)
  }

  lemma {:induction false} RunAccounts(c: Config, s: State, a: Account, steps: seq<Step>)
    requires Accounted(c, s, a) && Feasible(c, s, steps) && AllUndisturbed(steps)
    ensures Accounted(c, Run(c, s, steps), Closing(c, s, a, steps))
    decreases |steps|
  {
    hide Accounted, Enabled, Next, Posted, Undisturbed;
    if steps != [] {
      assert steps[0] in steps;
      assert forall step :: step in steps[1..] ==> step in steps;
      StepAccounts(c, s, a, steps[0]);
      RunAccounts(c, Next(c, s, steps[0]), Posted(c, s, a, steps[0]), steps[1..]);
    }
  }

  lemma StartAccounted(c: Config)
    ensures Accounted(c, Start, Opening)
  {
    StartInv(c);
    hide Inv;
    assert forall agent :: Of({}, Opening.agents, agent) == {};
  }

  // ----- at rest -----

  /** No call is under way. */
  predicate AtRest(s: State) {
    forall t :: t in s.tasks ==> s.tasks[t].Finished?
  }

  /** The active requests of one agent that wait for a decision, as the store holds them. */
  function PendingAt(s: State, agent: Name): set<Id> {
    set id | id in s.store.active && Readable(s, s.store.active[id])
             && Read(s, s.store.active[id]).agent == agent && Read(s, s.store.active[id]).status == PENDING
  }

  lemma NothingOwed(s: State, a: Account)
    requires Balanced(s, a) && AtRest(s) && s.past.retired <= s.past.saved
    ensures a.inn == s.past.saved && a.out == s.past.retired
    ensures forall id :: id in s.past.saved && Closed(s, id) ==> id in a.out
  {
    forall id ensures !OwedIn(s, id) && !OwedOut(s, id) && !OwedFiling(s, id) {}
    hide OwedIn, OwedOut, OwedFiling;
    forall id | id in s.past.retired ensures id in a.out {
      assert Closed(s, id);
    }
  }

  lemma PendingIsOpen(c: Config, s: State, a: Account, agent: Name)
    requires Accounted(c, s, a) && AtRest(s)
    ensures PendingAt(s, agent) == Of(s.past.saved - s.past.retired, a.agents, agent)
    ensures a.inn == s.past.saved && a.out == s.past.retired && s.past.retired <= s.past.saved
  {
    hide HeapInv, ArchivedInv, LogInv, AuditInv, TasksInv, GaugeOk, TasksOwe;
    NothingOwed(s, a);
    forall id ensures id in PendingAt(s, agent) <==> id in Of(s.past.saved - s.past.retired, a.agents, agent) {
      if id in s.store.active {
        assert EntryOk(c, s, id, s.store.active[id]) && id in s.store.index;
        assert AgentOk(a, Read(s, s.store.active[id]));
      } else {
        assert id !in s.store.index.Keys;
      }
    }
  }

  lemma OfDifference(more: set<Id>, fewer: set<Id>, agents: map<Id, Name>, agent: Name)
    requires fewer <= more
    ensures |Of(more - fewer, agents, agent)| == |Of(more, agents, agent)| - |Of(fewer, agents, agent)|
  {
    assert Of(more, agents, agent) == Of(more - fewer, agents, agent) + Of(fewer, agents, agent);
    assert Of(more - fewer, agents, agent) !! Of(fewer, agents, agent);
  }

  /** How often the run counted out a request of this agent that had been counted out before. */
  function SurplusIn(c: Config, steps: seq<Step>, agent: Name): nat
    requires Feasible(c, Start, steps)
  {
    SurplusOf(Closing(c, Start, Opening, steps), agent)
  }

  /**
   In every interleaving, over either store, in which no call is cut short and no key is lost: once no call
   is under way, an agent's gauge is the number of its pending active requests less the surplus. So it is
   exact if and only if nothing of that agent's was counted out twice, and never too high.
   */
  lemma GaugeIsPendingLessSurplus(c: Config, steps: seq<Step>, agent: Name)
    requires Feasible(c, Start, steps) && AllUndisturbed(steps) && AtRest(Run(c, Start, steps))
    ensures var s := Run(c, Start, steps);
      && GaugeAt(s, agent) == |PendingAt(s, agent)| - SurplusIn(c, steps, agent)
      && (GaugeAt(s, agent) == |PendingAt(s, agent)| <==> SurplusIn(c, steps, agent) == 0)
  {
    var s, a := Run(c, Start, steps), Closing(c, Start, Opening, steps);
    StartAccounted(c);
    RunAccounts(c, Start, Opening, steps);
    PendingIsOpen(c, s, a, agent);
    OfDifference(s.past.saved, s.past.retired, a.agents, agent);
    assert GaugeOk(s, a);
    hide Accounted, AtRest, Of, PendingAt;
  }
}
