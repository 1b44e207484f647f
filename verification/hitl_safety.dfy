/**
 What holds in every interleaving of submissions, decisions and sweeps, for both stores, with any task
 ended at any await and (for Redis) any key lost at any time.
 */
module HitlSafety {
  import opened FiniteSets
  import opened Maybe
  import opened HitlProtocol
  import opened HitlInvariant
  import opened HitlRuns
  import opened HitlChanges
  import opened HitlMemory

  /** Request `id` has reached `status` and nothing can show another status any more. */
  predicate Settled(s: State, id: Id, status: Status) {
    if status == EXPIRED then
      && id in s.past.saved && id in s.past.expiry && s.past.expiry[id] <= s.clock && id !in s.past.verdict
      && (id in s.store.active ==> Readable(s, s.store.active[id]) && Read(s, s.store.active[id]).status == EXPIRED)
    else id in s.past.verdict && s.past.verdict[id] == status
  }

  lemma ViewSettles(c: Config, s: State, id: Id)
    requires Inv(c, s) && View(s, id).Some? && View(s, id).value != PENDING
    ensures Settled(s, id, View(s, id).value)
  {
    if id in s.store.active {
      assert EntryOk(c, s, id, s.store.active[id]);
    } else {
      assert ArchivedOk(c, s, id, s.store.archived[id]);
    }
  }

  lemma SettledShows(c: Config, s: State, id: Id, status: Status)
    requires Inv(c, s) && Settled(s, id, status) && status != PENDING && View(s, id).Some?
    ensures View(s, id).value == status
  {
    if id in s.store.active {
      assert EntryOk(c, s, id, s.store.active[id]);
    } else {
      assert ArchivedOk(c, s, id, s.store.archived[id]);
    }
  }

  lemma SettledStays(c: Config, s: State, s': State, mover: Option<TaskId>, id: Id, status: Status)
    requires ActiveInv(c, s) && Settled(s, id, status)
    requires Evolves(c, s, s', mover) && EntryMoves(s, s')
    ensures Settled(s', id, status)
  {
    if status == EXPIRED && id in s'.store.active {
      assert s'.store.active[id] == s.store.active[id];
      if s.store.active[id].Alias? {
        var r := s.store.active[id].ref;
        assert SameRequest(c, s, s.store.heap[r], s'.store.heap[r], r);
      }
    }
  }

  lemma {:induction false} SettledForever(c: Config, s: State, steps: seq<Step>, id: Id, status: Status)
    requires Inv(c, s) && Feasible(c, s, steps) && Settled(s, id, status)
    ensures Settled(Run(c, s, steps), id, status)
    decreases |steps|
  {
    if steps != [] {
      var s' := Next(c, s, steps[0]);
      StepKeeps(c, s, steps[0]);
      StepChanges(c, s, steps[0]);
      SettledStays(c, s, s', Mover(steps[0]), id, status);
      SettledForever(c, s', steps[1..], id, status);
    }
  }

  /**
   Once `get_request` has shown a terminal status for a request, it never shows any other: not PENDING
   again and not a second terminal one, whatever ran before and whatever runs after. Over the in-memory
   store it goes on showing it for ever; Redis may drop it.
   */
  lemma TerminalStatusIsFinal(c: Config, before: seq<Step>, after: seq<Step>, id: Id)
    requires Feasible(c, Start, before)
    requires Feasible(c, Run(c, Start, before), after)
    requires View(Run(c, Start, before), id).Some? && View(Run(c, Start, before), id).value != PENDING
    ensures var later := View(Run(c, Run(c, Start, before), after), id);
            && (later == None || later == View(Run(c, Start, before), id))
            && (c.backend == InMemory ==> later == View(Run(c, Start, before), id))
  {
    var s := Run(c, Start, before);
    var status := View(s, id).value;
    ReachableInv(c, before);
    ViewSettles(c, s, id);
    SettledForever(c, s, after, id, status);
    RunKeeps(c, s, after);
    if View(Run(c, s, after), id).Some? { SettledShows(c, Run(c, s, after), id, status); }
    if c.backend == InMemory {
      KeptIsShown(c, s, id);
      KeptForever(c, s, after, id);
      KeptIsShown(c, Run(c, s, after), id);
    }
  }

  // ----- decisions -----

  /** At most one decision call per request ever takes effect, and it did so strictly before the deadline. */
  lemma OneDecisionInTime(c: Config, steps: seq<Step>, i: nat, j: nat)
    requires Feasible(c, Start, steps)
    requires i < |Run(c, Start, steps).past.accepted| && j < |Run(c, Start, steps).past.accepted|
    ensures var p := Run(c, Start, steps).past;
            && (p.accepted[i].id == p.accepted[j].id ==> i == j)
            && p.accepted[i].id in p.expiry && p.accepted[i].at < p.expiry[p.accepted[i].id]
            && p.accepted[i].decision in {APPROVED, REJECTED}
  {
    hide HeapInv, ActiveInv, ArchivedInv, IndexInv, AuditInv, TasksInv;
    ReachableInv(c, steps);
    var log := Run(c, Start, steps).past.accepted;
    if i < j { assert log[i].id != log[j].id; }
    if j < i { assert log[j].id != log[i].id; }
  }

  /** A call that returned success is in the log of decisions that took effect. */
  lemma SuccessIsLogged(c: Config, s: State, t: TaskId, id: Id, d: Status) returns (i: nat)
    requires TasksInv(c, s) && t in s.tasks && s.tasks[t] == Finished(Decided(id, d))
    ensures i < |s.past.accepted| && s.past.accepted[i].task == t
    ensures s.past.accepted[i].id == id && s.past.accepted[i].decision == d
  {
    assert TaskOk(c, s, t, s.tasks[t]);
    i :| 0 <= i < |s.past.accepted| && s.past.accepted[i].task == t && s.past.accepted[i].id == id
         && s.past.accepted[i].decision == d;
  }

  /** Two calls that both returned success for the same request are one call, and the request shows its decision. */
  lemma SuccessIsUnique(c: Config, steps: seq<Step>, t: TaskId, u: TaskId, id: Id, d: Status, e: Status)
    requires Feasible(c, Start, steps)
    requires var tasks := Run(c, Start, steps).tasks;
             t in tasks && tasks[t] == Finished(Decided(id, d)) && u in tasks && tasks[u] == Finished(Decided(id, e))
    ensures t == u && d == e && d in {APPROVED, REJECTED}
    ensures View(Run(c, Start, steps), id) in {None, Some(d)}
  {
    hide HeapInv, ActiveInv, ArchivedInv, IndexInv, AuditInv, TasksInv;
    ReachableInv(c, steps);
    var s := Run(c, Start, steps);
    var i := SuccessIsLogged(c, s, t, id, d);
    var j := SuccessIsLogged(c, s, u, id, e);
    OneDecisionInTime(c, steps, i, j);
    assert BackedBy(s.past.accepted[i], s.past.verdict, s.past.expiry);
    if View(s, id).Some? { SettledShows(c, s, id, d); }
  }

  /** APPROVED is never shown unless a decision to approve took effect before the deadline: no timeout approves. */
  lemma ApprovalNeedsDecision(c: Config, steps: seq<Step>, id: Id)
    requires Feasible(c, Start, steps)
    requires View(Run(c, Start, steps), id) == Some(APPROVED)
    ensures var s := Run(c, Start, steps);
            exists i :: 0 <= i < |s.past.accepted| && s.past.accepted[i].id == id && s.past.accepted[i].decision == APPROVED
                     && id in s.past.expiry && s.past.accepted[i].at < s.past.expiry[id]
  {
    ReachableInv(c, steps);
    var s := Run(c, Start, steps);
    ViewSettles(c, s, id);
    assert LogInv(s) && id in s.past.verdict;
    var i :| 0 <= i < |s.past.accepted| && s.past.accepted[i].id == id;
    assert s.past.verdict[s.past.accepted[i].id] == s.past.accepted[i].decision;
  }

  // ----- capacity -----

  /** Active requests never exceed the cap, and every live request key is a member of the pending set. */
  lemma CapacityHolds(c: Config, steps: seq<Step>)
    requires Feasible(c, Start, steps)
    ensures var s := Run(c, Start, steps);
            |s.store.active| <= |s.store.index| <= c.capacity && s.store.active.Keys <= s.store.index.Keys
  {
    ReachableInv(c, steps);
    var s := Run(c, Start, steps);
    forall id | id in s.store.active ensures id in s.store.index { assert EntryOk(c, s, id, s.store.active[id]); }
    SubsetSize(s.store.active.Keys, s.store.index.Keys);
    assert |s.store.active| == |s.store.active.Keys| && |s.store.index| == |s.store.index.Keys|;
  }
}
