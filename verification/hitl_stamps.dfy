/** What a request is stamped with stays on it: every reader of an id sees its agent and its deadline. */
module HitlStamps {
  import opened Maybe
  import opened HitlProtocol
  import opened HitlInvariant
  import opened HitlRuns
  import opened HitlTrace
  import opened HitlGate

  predicate Stamped(q: Request, id: Id, agent: Name, deadline: int) {
    q.id == id ==> q.agent == agent && q.expiresAt == deadline
  }

  predicate EntryStamped(e: Entry, id: Id, agent: Name, deadline: int) {
    e.Copy? ==> Stamped(e.request, id, agent, deadline)
  }

  /** Every object and every stored copy of the request carries this agent and this deadline. */
  ghost predicate Carries(s: State, id: Id, agent: Name, deadline: int) {
    && (forall r :: r in s.store.heap ==> Stamped(s.store.heap[r], id, agent, deadline))
    && (forall i :: i in s.store.active ==> EntryStamped(s.store.active[i], id, agent, deadline))
    && (forall i :: i in s.store.archived ==> EntryStamped(s.store.archived[i], id, agent, deadline))
    && id in s.past.expiry && s.past.expiry[id] == deadline
  }

  lemma QuietStore(c: Config, s: State, step: Step)
    requires Enabled(c, s, step) && LeavesStore(step)
    ensures Next(c, s, step).store == s.store
  {
  }

  lemma SameCarries(s: State, s': State, id: Id, agent: Name, deadline: int)
    requires Carries(s, id, agent, deadline) && s'.store == s.store && s'.past == s.past
    ensures Carries(s', id, agent, deadline)
  {
  }

  lemma ReadingCarries(c: Config, s: State, step: Step, id: Id, agent: Name, deadline: int)
    requires Carries(s, id, agent, deadline) && Enabled(c, s, step)
    requires step.Fetch? || step.Scan? || step.Expire? || step.LoseActive? || step.LoseArchived?
    ensures Carries(Next(c, s, step), id, agent, deadline)
  {
  }

  lemma MarkedCarries(s: State, ref: Ref, status: Status, id: Id, agent: Name, deadline: int)
    requires Carries(s, id, agent, deadline) && ref in s.store.heap
    ensures Carries(Marked(s, ref, status), id, agent, deadline)
  {
  }

  lemma StoredCarries(c: Config, s: State, i: Id, ref: Ref, id: Id, agent: Name, deadline: int)
    requires Carries(s, id, agent, deadline) && ref in s.store.heap
    ensures Carries(Saves(c, s, ref), id, agent, deadline) && Carries(Archives(c, s, i, ref), id, agent, deadline)
  {
    assert EntryStamped(Stored(c, ref, s.store.heap[ref]), id, agent, deadline);
  }

  lemma AcceptedCarries(s: State, a: Acceptance, id: Id, agent: Name, deadline: int)
    requires Carries(s, id, agent, deadline)
    ensures Carries(Accepted(s, a), id, agent, deadline)
  {
  }

  lemma JudgeCarries(c: Config, s: State, t: TaskId, id: Id, agent: Name, deadline: int)
    requires Carries(s, id, agent, deadline) && Enabled(c, s, Judge(t))
    ensures Carries(Next(c, s, Judge(t)), id, agent, deadline)
  {
    var Deciding(_, i, d, ref, _) := s.tasks[t];
    MarkedCarries(s, ref, EXPIRED, id, agent, deadline);
    MarkedCarries(s, ref, d, id, agent, deadline);
    StoredCarries(c, Marked(s, ref, d), i, ref, id, agent, deadline);
    AcceptedCarries(Saves(c, Marked(s, ref, d), ref), Acceptance(t, i, d, s.clock), id, agent, deadline);
    hide Carries;
    var s' := Next(c, s, Judge(t));
    if s'.past == s.past && s'.store == s.store {
      SameCarries(s, s', id, agent, deadline);
    } else if s'.past == s.past {
      SameCarries(Marked(s, ref, EXPIRED), s', id, agent, deadline);
    } else {
      SameCarries(Accepted(Saves(c, Marked(s, ref, d), ref), Acceptance(t, i, d, s.clock)), s', id, agent, deadline);
    }
  }

  lemma WritingCarries(c: Config, s: State, step: Step, id: Id, agent: Name, deadline: int)
    requires Carries(s, id, agent, deadline) && Enabled(c, s, step)
    requires step.Save? || step.File?
    ensures Carries(Next(c, s, step), id, agent, deadline)
  {
    hide Carries;
    match s.tasks[step.t]
    case Submitting(_, ref, _) =>
      StoredCarries(c, s, id, ref, id, agent, deadline);
      SameCarries(Saves(c, s, ref), Next(c, s, step), id, agent, deadline);
    case Deciding(_, i, _, ref, _) =>
      StoredCarries(c, s, i, ref, id, agent, deadline);
      SameCarries(Archives(c, s, i, ref), Next(c, s, step), id, agent, deadline);
    case Sweeping(_, _, found, done) =>
      StoredCarries(c, s, s.store.heap[found[done]].id, found[done], id, agent, deadline);
      SameCarries(Archives(c, s, s.store.heap[found[done]].id, found[done]), Next(c, s, step), id, agent, deadline);
  }

  lemma CreatingCarries(c: Config, s: State, step: Step, id: Id, agent: Name, deadline: int)
    requires Carries(s, id, agent, deadline) && Enabled(c, s, step)
    requires step.BeginSubmit? || step.Propose?
    ensures Carries(Next(c, s, step), id, agent, deadline)
  {
  }

  lemma StepCarries(c: Config, s: State, step: Step, id: Id, agent: Name, deadline: int)
    requires Carries(s, id, agent, deadline) && Enabled(c, s, step)
    ensures Carries(Next(c, s, step), id, agent, deadline)
  {
    hide Carries, Next, Enabled;
    if LeavesStore(step) {
      QuietPast(c, s, step);
      QuietStore(c, s, step);
      SameCarries(s, Next(c, s, step), id, agent, deadline);
    } else if step.BeginSubmit? || step.Propose? {
      CreatingCarries(c, s, step, id, agent, deadline);
    } else if step.Judge? {
      JudgeCarries(c, s, step.t, id, agent, deadline);
    } else if step.Save? || step.File? {
      WritingCarries(c, s, step, id, agent, deadline);
    } else {
      ReadingCarries(c, s, step, id, agent, deadline);
    }
  }

  lemma {:induction false} CarriesOn(c: Config, steps: seq<Step>, p: nat, k: nat, id: Id, agent: Name, deadline: int)
    requires Feasible(c, Start, steps) && p <= k <= |steps| && Carries(At(c, steps, p), id, agent, deadline)
    ensures Carries(At(c, steps, k), id, agent, deadline)
  {
    hide Carries, Next, Enabled;
    if p < k {
      CarriesOn(c, steps, p, k - 1, id, agent, deadline);
      AtNext(c, steps, k - 1);
      StepCarries(c, At(c, steps, k - 1), steps[k - 1], id, agent, deadline);
    }
  }

  /** The step makes a request: a plain submission, or that of an action which needs approval. */
  predicate Makes(c: Config, s: State, step: Step, id: Id, agent: Name) {
    match step
    case BeginSubmit(_, own, asker) => own == id && asker == agent
    case Propose(t, own) =>
      && own == id && t in s.tasks && s.tasks[t].Proposing? && s.tasks[t].action.agent == agent
      && s.tasks[t].action.score >= c.threshold && !c.autonomous
    case _ => false
  }

  /** No object and no entry is about an id that was never used. */
  lemma UnusedUnknown(c: Config, s: State, id: Id)
    requires Inv(c, s) && id !in s.past.expiry
    ensures forall r :: r in s.store.heap ==> s.store.heap[r].id != id
    ensures forall i :: i in s.store.active && s.store.active[i].Copy? ==> s.store.active[i].request.id != id
    ensures forall i :: i in s.store.archived && s.store.archived[i].Copy? ==> s.store.archived[i].request.id != id
  {
    hide IndexInv, LogInv, AuditInv, TasksInv;
    forall i | i in s.store.active && s.store.active[i].Copy? ensures s.store.active[i].request.id != id {
      assert EntryOk(c, s, i, s.store.active[i]);
    }
    forall i | i in s.store.archived && s.store.archived[i].Copy? ensures s.store.archived[i].request.id != id {
      assert ArchivedOk(c, s, i, s.store.archived[i]);
    }
  }

  lemma SubmitsCarries(c: Config, s: State, t: TaskId, id: Id, agent: Name, act: Option<Action>)
    requires Inv(c, s) && id !in s.past.expiry
    ensures Carries(Submits(c, s, t, id, agent, act), id, agent, s.clock + c.timeout)
  {
    UnusedUnknown(c, s, id);
    hide Inv;
  }

  lemma MadeCarries(c: Config, s: State, step: Step, id: Id, agent: Name)
    requires Inv(c, s) && Enabled(c, s, step) && Makes(c, s, step, id, agent)
    ensures Carries(Next(c, s, step), id, agent, s.clock + c.timeout)
  {
    hide Inv, Carries;
    if step.BeginSubmit? {
      SubmitsCarries(c, s, step.t, id, agent, None);
    } else {
      var act := Some(s.tasks[step.t].action);
      SubmitsCarries(c, s, step.t, id, agent, act);
      SameCarries(Submits(c, s, step.t, id, agent, act), Next(c, s, step), id, agent, s.clock + c.timeout);
    }
  }

  /** What `get_request` returns: the live request, else the archived one. */
  function Shown(s: State, id: Id): Option<Request> {
    if id in s.store.active && Readable(s, s.store.active[id]) then Some(Read(s, s.store.active[id]))
    else if id in s.store.archived && Readable(s, s.store.archived[id]) then Some(Read(s, s.store.archived[id]))
    else None
  }

  lemma ShownIsStamped(c: Config, s: State, id: Id, agent: Name, deadline: int)
    requires Inv(c, s) && Carries(s, id, agent, deadline) && Shown(s, id).Some?
    ensures var q := Shown(s, id).value; q.id == id && q.agent == agent && q.expiresAt == deadline
  {
    hide HeapInv, IndexInv, LogInv, AuditInv, TasksInv;
    if id in s.store.active {
      assert EntryOk(c, s, id, s.store.active[id]) && EntryStamped(s.store.active[id], id, agent, deadline);
    } else {
      assert ArchivedOk(c, s, id, s.store.archived[id]) && EntryStamped(s.store.archived[id], id, agent, deadline);
    }
  }

  /**
   In every run and over both stores, whatever `get_request` returns for an id names the agent that asked
   and expires exactly `timeout` after the clock of its submission; and that is the deadline every decision
   and every sweep goes by.
   */
  lemma StampIsKept(c: Config, steps: seq<Step>, p: nat, id: Id, agent: Name)
    requires Feasible(c, Start, steps) && p < |steps| && Makes(c, At(c, steps, p), steps[p], id, agent)
    ensures
      var s, made := Run(c, Start, steps), At(c, steps, p).clock;
      && id in s.past.expiry && s.past.expiry[id] == made + c.timeout
      && (Shown(s, id).Some? ==>
            Shown(s, id).value == Request(id, agent, made + c.timeout, Shown(s, id).value.status)
            && View(s, id) == Some(Shown(s, id).value.status))
  {
    var made := At(c, steps, p).clock;
    AtInv(c, steps, p);
    AtNext(c, steps, p);
    MadeCarries(c, At(c, steps, p), steps[p], id, agent);
    hide Inv, Carries, Next, Enabled, Makes;
    CarriesOn(c, steps, p + 1, |steps|, id, agent, made + c.timeout);
    AtEnds(c, steps);
    ReachableInv(c, steps);
    hide At, Run, Feasible;
    StampedRun(c, Run(c, Start, steps), id, agent, made + c.timeout);
    hide Shown, View;
  }

  lemma StampedRun(c: Config, s: State, id: Id, agent: Name, deadline: int)
    requires Inv(c, s) && Carries(s, id, agent, deadline)
    ensures id in s.past.expiry && s.past.expiry[id] == deadline
    ensures Shown(s, id).Some? ==>
      Shown(s, id).value == Request(id, agent, deadline, Shown(s, id).value.status)
      && View(s, id) == Some(Shown(s, id).value.status)
  {
    if Shown(s, id).Some? { ShownIsStamped(c, s, id, agent, deadline); }
  }
}
