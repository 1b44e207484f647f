/**
 The gauge's account over every interleaving and both stores, as long as no call is cut short and no key is
 lost. An id is counted in when its submission leaves the lock, and counted out by a decision or an expiry;
 counting out an id that was counted out before is a surplus.
 */
module HitlAccount {
  import opened Maybe
  import opened HitlProtocol

  datatype Account = Account(agents: map<Id, Name>, inn: set<Id>, out: set<Id>, surplus: map<Name, nat>)

  const Opening := Account(map[], {}, {}, map[])

  /** No call is cut short and Redis drops nothing. */
  predicate Undisturbed(step: Step) {
    !step.Abort? && !step.LoseActive? && !step.LoseArchived?
  }

  function SurplusOf(a: Account, agent: Name): nat {
    if agent in a.surplus then a.surplus[agent] else 0
  }

  function CountedIn(a: Account, id: Id): Account {
    a.(inn := a.inn + {id})
  }

  function CountedOut(a: Account, id: Id, agent: Name): Account {
    if id in a.out then a.(surplus := a.surplus[agent := SurplusOf(a, agent) + 1])
    else a.(out := a.out + {id})
  }

  function AtRelease(s: State, a: Account, task: Task): Account
    requires CanRelease(s, task)
  {
    match task
    case Submitting(_, ref, _) => CountedIn(a, s.store.heap[ref].id)
    case Deciding(at, id, _, ref, late) =>
      if at == Persisted || late then CountedOut(a, id, s.store.heap[ref].agent) else a
    case _ => a
  }

  /** The account after a step. */
  function Posted(c: Config, s: State, a: Account, step: Step): Account
    requires Enabled(c, s, step)
  {
    match step
    case BeginSubmit(_, id, agent) => a.(agents := a.agents[id := agent])
    case Propose(t, id) =>
      if Gated(c, s.tasks[t].action) then a.(agents := a.agents[id := s.tasks[t].action.agent]) else a
    case Release(t) => AtRelease(s, a, s.tasks[t])
    case Expire(t) =>
      var task := s.tasks[t];
      if task.done < |task.found| then
        CountedOut(a, s.store.heap[task.found[task.done]].id, s.store.heap[task.found[task.done]].agent)
      else a
    case _ => a
  }

  /** The account after a run. */
  function Closing(c: Config, s: State, a: Account, steps: seq<Step>): Account
    requires Feasible(c, s, steps)
    decreases |steps|
  {
    if steps == [] then a else Closing(c, Next(c, s, steps[0]), Posted(c, s, a, steps[0]), steps[1..])
  }

  // ----- what tasks still owe -----

  /** The task is about to count `id` in. */
  predicate CountsIn(heap: map<Ref, Request>, task: Task, id: Id) {
    task.Submitting? && task.submitAt == Saved && task.ref in heap && heap[task.ref].id == id
  }

  /** The task is about to count `id` out. */
  predicate CountsOut(task: Task, id: Id) {
    task.Deciding? && task.id == id
    && (task.decideAt == Persisted
        || (task.late && (task.decideAt == AwaitFiling || task.decideAt == Filing || task.decideAt == Filed)))
  }

  /** The task counted `id` out and is about to file it. */
  predicate Files(heap: map<Ref, Request>, task: Task, id: Id) {
    match task
    case Deciding(at, own, _, _, late) => own == id && !late && (at == AwaitFiling || at == Filing)
    case Sweeping(at, _, found, done) =>
      at != Expiring && at != Shelved && done < |found| && found[done] in heap && heap[found[done]].id == id
    case _ => false
  }

  /** The store no longer shows the request as waiting for a decision. */
  predicate Closed(s: State, id: Id) {
    || id in s.past.retired
    || (id in s.store.active && Readable(s, s.store.active[id]) && Read(s, s.store.active[id]).status != PENDING)
  }

  ghost predicate OwedIn(s: State, id: Id) {
    exists t :: t in s.tasks && CountsIn(s.store.heap, s.tasks[t], id)
  }

  ghost predicate OwedOut(s: State, id: Id) {
    exists t :: t in s.tasks && CountsOut(s.tasks[t], id)
  }

  ghost predicate OwedFiling(s: State, id: Id) {
    exists t :: t in s.tasks && Files(s.store.heap, s.tasks[t], id)
  }

  /** Everything saved is counted in, everything closed is counted out, or a task is about to do so. */
  ghost predicate Balanced(s: State, a: Account) {
    && a.inn <= s.past.saved && a.out <= s.past.saved
    && (forall id :: id in s.past.saved ==> id in a.inn || OwedIn(s, id))
    && (forall id :: id in s.past.saved && Closed(s, id) ==> id in a.out || OwedOut(s, id))
    && (forall id :: id in a.out ==> id in s.past.retired || OwedFiling(s, id))
    && s.store.active.Keys == s.store.index.Keys
  }

  /** What a task's place says about the account. */
  predicate TaskOwes(s: State, a: Account, task: Task) {
    match task
    case Submitting(at, ref, _) =>
      at == Saved && ref in s.store.heap ==> s.store.heap[ref].id in s.past.saved && s.store.heap[ref].id !in a.inn
    case Deciding(at, id, _, _, late) =>
      && (!late && (at == AwaitFiling || at == Filing) ==> id in a.out)
      && (at == Filed ==> id in s.past.retired)
    case Sweeping(at, _, found, done) =>
      (at != Expiring && at != Shelved && done < |found| && found[done] in s.store.heap)
        ==> s.store.heap[found[done]].id in a.out
    case _ => true
  }

  ghost predicate TasksOwe(s: State, a: Account) {
    forall t :: t in s.tasks ==> TaskOwes(s, a, s.tasks[t])
  }

  /** Every object and every stored copy carries the agent its request was made for. */
  ghost predicate AgentsOk(s: State, a: Account) {
    && (forall r :: r in s.store.heap ==> AgentOk(a, s.store.heap[r]))
    && (forall id :: id in s.store.active && s.store.active[id].Copy? ==> AgentOk(a, s.store.active[id].request))
  }

  predicate AgentOk(a: Account, q: Request) {
    q.id in a.agents && a.agents[q.id] == q.agent
  }

  function Of(ids: set<Id>, agents: map<Id, Name>, agent: Name): set<Id> {
    set id | id in ids && id in agents && agents[id] == agent
  }

  function GaugeAt(s: State, agent: Name): int {
    if agent in s.gauge then s.gauge[agent] else 0
  }

  ghost predicate GaugeOk(s: State, a: Account) {
    forall agent ::
      GaugeAt(s, agent) == |Of(a.inn, a.agents, agent)| - |Of(a.out, a.agents, agent)| - SurplusOf(a, agent)
  }
}
