/** What every step of the approval protocol keeps. */
module HitlInvariant {
  import opened Maybe
  import opened HitlProtocol

  // ----- requests -----

  /** A non-PENDING status is always backed: a decision by the verdict, EXPIRED by the clock and the lack of one. */
  predicate StatusOk(s: State, id: Id, status: Status) {
    match status
    case PENDING => true
    case EXPIRED => id in s.past.expiry && s.past.expiry[id] <= s.clock && id !in s.past.verdict
    case _ => id in s.past.verdict && s.past.verdict[id] == status
  }

  predicate RequestOk(s: State, q: Request) {
    q.id in s.past.expiry && q.expiresAt == s.past.expiry[q.id] && StatusOk(s, q.id, q.status)
  }

  ghost predicate HeapInv(c: Config, s: State) {
    && (forall r :: r in s.store.heap ==> r < s.store.next && RequestOk(s, s.store.heap[r]))
    && (forall r :: r in s.past.originals ==> r in s.store.heap)
    && (c.backend == Redis ==> forall r :: r in s.past.originals && r in s.store.heap ==> s.store.heap[r].status == PENDING)
  }

  // ----- store -----

  predicate EntryOk(c: Config, s: State, id: Id, e: Entry) {
    && (e.Alias? <==> c.backend == InMemory)
    && Readable(s, e)
    && Read(s, e).id == id
    && RequestOk(s, Read(s, e))
    && (id in s.past.verdict ==> Read(s, e).status == s.past.verdict[id])
  }

  ghost predicate ActiveInv(c: Config, s: State) {
    forall id :: id in s.store.active ==> EntryOk(c, s, id, s.store.active[id]) && id in s.store.index
  }

  predicate ArchivedOk(c: Config, s: State, id: Id, e: Entry) {
    EntryOk(c, s, id, e) && Read(s, e).status != PENDING && id in s.past.retired
  }

  ghost predicate ArchivedInv(c: Config, s: State) {
    forall id :: id in s.store.archived ==> ArchivedOk(c, s, id, s.store.archived[id])
  }

  /** The pending set holds exactly the ids that were saved and not yet archived, each under its deadline. */
  ghost predicate IndexInv(c: Config, s: State) {
    && s.store.index.Keys == s.past.saved - s.past.retired
    && (forall id :: id in s.store.index ==> id in s.past.expiry && s.store.index[id] == s.past.expiry[id])
    && |s.store.index| <= c.capacity
    && (c.backend == InMemory ==> s.store.active.Keys == s.store.index.Keys)
    && s.past.retired <= s.past.saved <= s.past.expiry.Keys
    && s.past.verdict.Keys <= s.past.saved
    && s.past.author.Keys == s.past.expiry.Keys
  }

  // ----- decisions -----

  /** The log of decisions that took effect: one per request, each in time, and the verdicts are what it says. */
  ghost predicate LogOk(log: seq<Acceptance>, verdict: map<Id, Status>, expiry: map<Id, int>) {
    && (forall i :: 0 <= i < |log| ==> BackedBy(log[i], verdict, expiry))
    && (forall i, j :: 0 <= i < j < |log| ==> log[i].id != log[j].id)
    && (forall id :: id in verdict ==> verdict[id] in {APPROVED, REJECTED})
    && (forall id :: id in verdict ==> exists i :: 0 <= i < |log| && log[i].id == id)
  }

  predicate BackedBy(a: Acceptance, verdict: map<Id, Status>, expiry: map<Id, int>) {
    && a.id in verdict && verdict[a.id] == a.decision && a.decision in {APPROVED, REJECTED}
    && a.id in expiry && a.at < expiry[a.id]
  }

  ghost predicate LogInv(s: State) {
    LogOk(s.past.accepted, s.past.verdict, s.past.expiry)
  }

  /** Call `t` made the decision on `id` that took effect. */
  ghost predicate AcceptedBy(s: State, t: TaskId, id: Id, decision: Status) {
    exists i :: 0 <= i < |s.past.accepted| && s.past.accepted[i].task == t && s.past.accepted[i].id == id
             && s.past.accepted[i].decision == decision
  }

  // ----- audit -----

  ghost predicate ProposedBefore(audit: seq<Record>, j: int, t: TaskId, action: Action) {
    exists i :: 0 <= i < j && i < |audit| && audit[i] == ActionProposed(t, action)
  }

  /** An action may be executed: it needed no approval, or the request its own task submitted was approved. */
  predicate Cleared(c: Config, s: State, t: TaskId, action: Action, gate: Option<Id>) {
    Gated(c, action) ==>
      && c.backend == InMemory
      && gate.Some? && gate.value in s.past.author && s.past.author[gate.value] == t
      && gate.value in s.past.verdict && s.past.verdict[gate.value] == APPROVED
  }

  ghost predicate AuditInv(c: Config, s: State) {
    forall j :: 0 <= j < |s.audit| && s.audit[j].ActionExecuted? ==>
      && ProposedBefore(s.audit, j, s.audit[j].task, s.audit[j].action)
      && Cleared(c, s, s.audit[j].task, s.audit[j].action, s.audit[j].gate)
  }

  // ----- tasks -----

  /** The first of the objects found that a sweep has not filed yet. */
  function ToFile(at: SweepPoint, done: nat): nat {
    if at == Shelved then done + 1 else done
  }

  /** An object some task obtained from the store. */
  predicate FetchedOk(c: Config, s: State, ref: Ref) {
    && ref in s.store.heap
    && s.store.heap[ref].id in s.past.saved
    && (c.backend == Redis ==> ref !in s.past.originals)
  }

  /** An object an expiry sweep may overwrite: its deadline has passed and no decision on it took effect. */
  predicate StaleOk(c: Config, s: State, ref: Ref) {
    && FetchedOk(c, s, ref)
    && s.store.heap[ref].id !in s.past.verdict
    && s.store.heap[ref].expiresAt <= s.clock
  }

  predicate SubmittingOk(c: Config, s: State, t: TaskId, at: SubmitPoint, ref: Ref) {
    && ref in s.store.heap
    && ref in s.past.originals
    && s.store.heap[ref].id in s.past.author
    && s.past.author[s.store.heap[ref].id] == t
    && (at == AwaitSlot || at == Counting || at == Saving ==>
         s.store.heap[ref].id !in s.past.saved && s.store.heap[ref].status == PENDING)
    && (at == Saving ==> |s.store.index| < c.capacity)
  }

  ghost predicate DecidingOk(c: Config, s: State, t: TaskId, at: DecidePoint, id: Id, decision: Status, ref: Ref, late: bool) {
    && FetchedOk(c, s, ref)
    && s.store.heap[ref].id == id
    && (at == Judging ==>
         && !late && id !in s.past.retired
         && (c.backend == InMemory ==> id in s.store.active && s.store.active[id] == Alias(ref))
         && (s.store.heap[ref].status == PENDING ==> id !in s.past.verdict))
    && (at != Judging && !late ==> s.store.heap[ref].status == decision && AcceptedBy(s, t, id, decision))
    && (at != Judging && late ==> s.store.heap[ref].status == EXPIRED && at != Persisted)
    && (at != Judging ==> decision in {APPROVED, REJECTED})
  }

  predicate SweepingOk(c: Config, s: State, at: SweepPoint, now: int, found: seq<Ref>, done: nat) {
    && now <= s.clock
    && (forall i :: 0 <= i < |found| ==> StaleOk(c, s, found[i]))
    && done <= |found|
    && (at != Expiring ==> done < |found| && s.store.heap[found[done]].status == EXPIRED)
  }

  ghost predicate TaskOk(c: Config, s: State, t: TaskId, task: Task) {
    match task
    case Proposing(action) => true
    case Executing(action, gate) =>
      ProposedBefore(s.audit, |s.audit|, t, action) && Cleared(c, s, t, action, gate)
    case Submitting(at, ref, act) =>
      && SubmittingOk(c, s, t, at, ref)
      && (act.Some? ==> ProposedBefore(s.audit, |s.audit|, t, act.value))
    case Fetching(_, id, decision) => true
    case Deciding(at, id, decision, ref, late) => DecidingOk(c, s, t, at, id, decision, ref, late)
    case Snapshotting(_, now) => now <= s.clock
    case Scanning(now, ids, found) =>
      && now <= s.clock
      && (forall id :: id in ids ==> id in s.past.expiry && s.past.expiry[id] <= now)
      && (forall i :: 0 <= i < |found| ==> StaleOk(c, s, found[i]))
    case Sweeping(at, now, found, done) => SweepingOk(c, s, at, now, found, done)
    case Finished(outcome) => outcome.Decided? ==> AcceptedBy(s, t, outcome.id, outcome.decision)
  }

  ghost predicate TasksInv(c: Config, s: State) {
    && (forall t :: t in s.tasks ==> TaskOk(c, s, t, s.tasks[t]))
    && (forall t :: t in s.tasks ==> (Holding(s.tasks[t]) <==> s.lock == Some(t)))
    && (s.lock.Some? ==> s.lock.value in s.tasks)
  }

  ghost predicate Inv(c: Config, s: State) {
    && HeapInv(c, s)
    && ActiveInv(c, s)
    && ArchivedInv(c, s)
    && IndexInv(c, s)
    && LogInv(s)
    && AuditInv(c, s)
    && TasksInv(c, s)
  }

  lemma NextUnused(c: Config, s: State)
    requires Inv(c, s)
    ensures s.store.next !in s.store.heap
  {
    hide ActiveInv, ArchivedInv, IndexInv, LogInv, AuditInv, TasksInv;
  }

  // ----- how one step changes what the others rely on -----

  /**
   Everything a task at an await may rely on while others run. `mover` is the task whose step it is; a
   step of the environment has no mover.
   */
  ghost predicate Evolves(c: Config, s: State, s': State, mover: Option<TaskId>) {
    && s.clock <= s'.clock
    && (forall id :: id in s.past.expiry ==> id in s'.past.expiry && s'.past.expiry[id] == s.past.expiry[id])
    && (forall id :: id in s.past.author ==> id in s'.past.author && s'.past.author[id] == s.past.author[id])
    && s.past.saved <= s'.past.saved && s.past.retired <= s'.past.retired && s.past.originals <= s'.past.originals
    && (forall r :: r in s'.past.originals && r !in s.past.originals ==> r !in s.store.heap)
    && (forall id :: id in s'.past.saved && id !in s.past.saved ==>
         id in s.past.author && mover == Some(s.past.author[id]))
    && (forall id :: id in s.past.verdict ==> id in s'.past.verdict && s'.past.verdict[id] == s.past.verdict[id])
    && (forall id :: id in s'.past.verdict && id !in s.past.verdict ==> id in s.past.expiry && s.clock < s.past.expiry[id])
    && (forall r :: r in s.store.heap ==> r in s'.store.heap && SameRequest(c, s, s.store.heap[r], s'.store.heap[r], r))
    && s.audit <= s'.audit
    && s.past.accepted <= s'.past.accepted
  }

  /** An object keeps its identity and its deadline, and leaves PENDING at most once, after it was saved. */
  predicate SameRequest(c: Config, s: State, q: Request, q': Request, r: Ref) {
    && q'.id == q.id && q'.expiresAt == q.expiresAt && q'.agent == q.agent
    && (q'.status != q.status ==>
         q.status == PENDING && q.id in s.past.saved && (c.backend == Redis ==> r !in s.past.originals))
  }

  /** What only a holder of the lock changes. */
  predicate Excluded(c: Config, s: State, s': State) {
    && s'.past.verdict == s.past.verdict
    && s'.past.retired == s.past.retired
    && s'.store.index == s.store.index
    && (c.backend == InMemory ==> s'.store.active == s.store.active)
  }

  lemma AcceptedStays(s: State, s': State, t: TaskId, id: Id, decision: Status)
    requires AcceptedBy(s, t, id, decision) && s.past.accepted <= s'.past.accepted
    ensures AcceptedBy(s', t, id, decision)
  {
    var i :| 0 <= i < |s.past.accepted| && s.past.accepted[i].task == t && s.past.accepted[i].id == id
             && s.past.accepted[i].decision == decision;
    assert s'.past.accepted[i] == s.past.accepted[i];
  }

  lemma ProposedStays(s: State, s': State, t: TaskId, action: Action)
    requires ProposedBefore(s.audit, |s.audit|, t, action) && s.audit <= s'.audit
    ensures ProposedBefore(s'.audit, |s'.audit|, t, action)
  {
    var i :| 0 <= i < |s.audit| && s.audit[i] == ActionProposed(t, action);
    assert s'.audit[i] == s.audit[i];
  }

  lemma StaleStays(c: Config, s: State, s': State, mover: Option<TaskId>, ref: Ref)
    requires Evolves(c, s, s', mover) && StaleOk(c, s, ref) && HeapInv(c, s)
    ensures StaleOk(c, s', ref)
  {
  }

  /** A task that does not move stays in order, whatever another task or the environment does. */
  lemma TaskStays(c: Config, s: State, s': State, mover: Option<TaskId>, t: TaskId, task: Task)
    requires HeapInv(c, s) && LogInv(s) && TaskOk(c, s, t, task)
    requires Evolves(c, s, s', mover) && mover != Some(t)
    requires Holding(task) ==> Excluded(c, s, s')
    ensures TaskOk(c, s', t, task)
  {
    match task
    case Proposing(_) =>
    case Executing(action, gate) => ProposedStays(s, s', t, action);
    case Submitting(at, ref, act) =>
      assert SameRequest(c, s, s.store.heap[ref], s'.store.heap[ref], ref);
      if act.Some? { ProposedStays(s, s', t, act.value); }
    case Fetching(_, _, _) =>
    case Deciding(at, id, decision, ref, late) =>
      assert SameRequest(c, s, s.store.heap[ref], s'.store.heap[ref], ref);
      if at != Judging && !late { AcceptedStays(s, s', t, id, decision); }
    case Snapshotting(_, _) =>
    case Scanning(now, ids, found) =>
      forall i | 0 <= i < |found| ensures StaleOk(c, s', found[i]) { StaleStays(c, s, s', mover, found[i]); }
    case Sweeping(at, now, found, done) =>
      forall i | 0 <= i < |found| ensures StaleOk(c, s', found[i]) { StaleStays(c, s, s', mover, found[i]); }
      if at != Expiring { assert SameRequest(c, s, s.store.heap[found[done]], s'.store.heap[found[done]], found[done]); }
    case Finished(outcome) =>
      if outcome.Decided? { AcceptedStays(s, s', t, outcome.id, outcome.decision); }
  }
}
