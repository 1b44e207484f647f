/** Creating a request, on its own or inside the act phase, keeps the invariant. */
module HitlCreating {
  import opened Maybe
  import opened HitlProtocol
  import opened HitlInvariant
  import opened HitlFrames
  import opened HitlOneEntry
  import opened HitlMoves
  import opened HitlEnvironment

  // ----- creating a request -----

  lemma ProposedKeeps(c: Config, s: State, t: TaskId, action: Action)
    requires Inv(c, s)
    ensures Inv(c, Logged(s, ActionProposed(t, action)))
  {
    var s' := Logged(s, ActionProposed(t, action));
    StoreStays(c, s, s', None);
    AuditStays(c, s, s', None);
    AllStay(c, s, s');
  }

  lemma SubmitsEvolves(c: Config, s: State, t: TaskId, id: Id, agent: Name, act: Option<Action>)
    requires s.store.next !in s.store.heap && id !in s.past.expiry && id !in s.past.author
    ensures var s' := Submits(c, s, t, id, agent, act);
            Evolves(c, s, s', Some(t)) && Excluded(c, s, s')
  {
    var s' := Submits(c, s, t, id, agent, act);
    forall r | r in s.store.heap ensures r in s'.store.heap && SameRequest(c, s, s.store.heap[r], s'.store.heap[r], r) {}
  }

  lemma SubmitsHeap(c: Config, s: State, t: TaskId, id: Id, agent: Name, act: Option<Action>)
    requires HeapInv(c, s) && IndexInv(c, s) && id !in s.past.expiry
    ensures HeapInv(c, Submits(c, s, t, id, agent, act)) && IndexInv(c, Submits(c, s, t, id, agent, act))
  {
    SubmitsEvolves(c, s, t, id, agent, act);
    HeapGrows(c, s, Submits(c, s, t, id, agent, act), Some(t));
  }

  lemma SubmitsEntries(c: Config, s: State, t: TaskId, id: Id, agent: Name, act: Option<Action>)
    requires HeapInv(c, s) && IndexInv(c, s) && ActiveInv(c, s) && ArchivedInv(c, s) && id !in s.past.expiry
    ensures ActiveInv(c, Submits(c, s, t, id, agent, act)) && ArchivedInv(c, Submits(c, s, t, id, agent, act))
  {
    var s' := Submits(c, s, t, id, agent, act);
    SubmitsEvolves(c, s, t, id, agent, act);
    assert id !in s.store.active && id !in s.store.archived;
    ActiveStays(c, s, s', Some(t), id);
    ArchivedStays(c, s, s', Some(t), id);
  }

  lemma SubmitsKeeps(c: Config, s: State, t: TaskId, id: Id, agent: Name, act: Option<Action>)
    requires Inv(c, s) && id !in s.past.expiry
    requires t in s.tasks ==> !Holding(s.tasks[t])
    requires act.Some? ==> ProposedBefore(s.audit, |s.audit|, t, act.value)
    ensures Inv(c, Submits(c, s, t, id, agent, act))
  {
    hide AuditInv, ActiveInv, ArchivedInv, LogInv, Evolves;
    var s' := Submits(c, s, t, id, agent, act);
    SubmitsEvolves(c, s, t, id, agent, act);
    SubmitsHeap(c, s, t, id, agent, act);
    SubmitsEntries(c, s, t, id, agent, act);
    LogStays(c, s, s', Some(t));
    AuditStays(c, s, s', Some(t));
    TasksStay(c, s, s', t);
  }

  lemma ProposeKeeps(c: Config, s: State, t: TaskId, id: Id)
    requires Inv(c, s) && t in s.tasks && s.tasks[t].Proposing? && id !in s.past.expiry
    ensures Inv(c, ProposeStep(c, s, t, id))
  {
    var action := s.tasks[t].action;
    var s1 := Logged(s, ActionProposed(t, action));
    ProposedKeeps(c, s, t, action);
    assert s1.audit[|s.audit|] == ActionProposed(t, action);
    assert ProposedBefore(s1.audit, |s1.audit|, t, action);
    if Gated(c, action) {
      SubmitsKeeps(c, s1, t, id, action.agent, Some(action));
    } else {
      var s2 := Moved(s1, t, Executing(action, None));
      assert TaskOk(c, s2, t, Executing(action, None));
      MoveKeeps(c, s1, s2, t, Executing(action, None));
    }
  }
}
