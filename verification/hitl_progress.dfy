/** No reachable state of the approval protocol is stuck. */
module HitlProgress {
  import opened Maybe
  import opened HitlProtocol
  import opened HitlInvariant
  import opened HitlRuns

  /** Task `t` has a step of its own, other than being cut short. */
  ghost predicate CanMove(c: Config, s: State, t: TaskId) {
    exists step: Step :: Enabled(c, s, step) && MovesTask(step, t)
  }

  predicate MovesTask(step: Step, t: TaskId) {
    !step.Tick? && !step.LoseActive? && !step.LoseArchived? && !step.Abort? && step.t == t
  }

  lemma FreshId(used: set<Id>) returns (id: Id)
    ensures forall u :: u in used ==> |u.text| < |id.text|
  {
    if used == {} {
      id := Id("");
    } else {
      var u :| u in used;
      var rest := FreshId(used - {u});
      id := if |u.text| < |rest.text| then rest else Id(u.text + "-");
      forall v | v in used ensures |v.text| < |id.text| {
        if v != u { assert v in used - {u}; }
      }
    }
  }

  lemma Enumeration(ids: set<Id>) returns (list: seq<Id>)
    ensures forall i, j :: 0 <= i < j < |list| ==> list[i] != list[j]
    ensures forall id :: id in list <==> id in ids
  {
    if ids == {} {
      list := [];
    } else {
      var id :| id in ids;
      var rest := Enumeration(ids - {id});
      list := [id] + rest;
    }
  }

  lemma ListCanMove(c: Config, s: State, t: TaskId)
    requires t in s.tasks && s.tasks[t].Snapshotting? && s.tasks[t].holding
    ensures CanMove(c, s, t)
  {
    var due := set id | id in s.store.index && s.store.index[id] <= s.tasks[t].now;
    var ids := Enumeration(due);
    assert Enabled(c, s, List(t, ids)) && MovesTask(List(t, ids), t);
  }

  lemma ProposeCanMove(c: Config, s: State, t: TaskId)
    requires t in s.tasks && s.tasks[t].Proposing?
    ensures CanMove(c, s, t)
  {
    var id := FreshId(s.past.expiry.Keys);
    assert Enabled(c, s, Propose(t, id)) && MovesTask(Propose(t, id), t);
  }

  /** The step of every other kind of task that is not waiting for the lock. */
  function OwnStep(t: TaskId, task: Task): Step
    requires !task.Finished? && !Waiting(task) && !task.Proposing? && !task.Snapshotting?
  {
    match task
    case Executing(_, _) => Audit(t)
    case Submitting(Counting, _, _) => Count(t)
    case Submitting(Saving, _, _) => Save(t)
    case Submitting(Saved, _, _) => Release(t)
    case Submitting(Notifying, _, _) => Audit(t)
    case Submitting(_, _, _) => Publish(t)
    case Fetching(_, _, _) => Fetch(t)
    case Deciding(Judging, _, _, _, _) => Judge(t)
    case Deciding(Filing, _, _, _, _) => File(t)
    case Deciding(Reporting, _, _, _, _) => Audit(t)
    case Deciding(Announcing, _, _, _, _) => Publish(t)
    case Deciding(_, _, _, _, _) => Release(t)
    case Scanning(_, ids, _) => if ids == [] then Release(t) else Scan(t)
    case Sweeping(Expiring, _, _, _) => Expire(t)
    case Sweeping(Auditing, _, _, _) => Audit(t)
    case Sweeping(Publishing, _, _, _) => Publish(t)
    case Sweeping(Shelving, _, _, _) => File(t)
    case Sweeping(_, _, _, _) => Release(t)
  }

  lemma OwnStepEnabled(c: Config, s: State, t: TaskId)
    requires t in s.tasks && TaskOk(c, s, t, s.tasks[t])
    requires forall id :: id in s.store.active ==> Readable(s, s.store.active[id])
    requires !s.tasks[t].Finished? && !Waiting(s.tasks[t]) && !s.tasks[t].Proposing? && !s.tasks[t].Snapshotting?
    ensures Enabled(c, s, OwnStep(t, s.tasks[t])) && MovesTask(OwnStep(t, s.tasks[t]), t)
  {
    match s.tasks[t]
    case Sweeping(_, _, found, done) => if done < |found| { assert StaleOk(c, s, found[done]); }
    case _ =>
  }

  /** An unfinished task can always go on, unless it waits for a lock that another task holds. */
  lemma TaskCanMove(c: Config, s: State, t: TaskId)
    requires Inv(c, s) && t in s.tasks && !s.tasks[t].Finished?
    requires Waiting(s.tasks[t]) ==> s.lock == None
    ensures CanMove(c, s, t)
  {
    var task := s.tasks[t];
    if Waiting(task) {
      assert Enabled(c, s, Acquire(t)) && MovesTask(Acquire(t), t);
    } else if task.Proposing? {
      ProposeCanMove(c, s, t);
    } else if task.Snapshotting? {
      ListCanMove(c, s, t);
    } else {
      forall id | id in s.store.active ensures Readable(s, s.store.active[id]) {
        assert EntryOk(c, s, id, s.store.active[id]);
      }
      OwnStepEnabled(c, s, t);
    }
  }

  lemma HolderCanMove(c: Config, s: State)
    requires Inv(c, s) && s.lock.Some?
    ensures s.lock.value in s.tasks && CanMove(c, s, s.lock.value)
  {
    assert Holding(s.tasks[s.lock.value]);
    hide Inv, CanMove;
    TaskCanMove(c, s, s.lock.value);
  }

  /** No deadlock: while some task is unfinished, some task can take a step of its own. */
  lemma NeverStuck(c: Config, steps: seq<Step>, t: TaskId)
    requires Feasible(c, Start, steps)
    requires t in Run(c, Start, steps).tasks && !Run(c, Start, steps).tasks[t].Finished?
    ensures exists u :: u in Run(c, Start, steps).tasks && CanMove(c, Run(c, Start, steps), u)
  {
    ReachableInv(c, steps);
    var s := Run(c, Start, steps);
    hide Inv, CanMove;
    if s.lock.Some? {
      HolderCanMove(c, s);
    } else {
      TaskCanMove(c, s, t);
    }
  }

  /**
   The protocol takes nothing for granted: any call may come at any time, any unfinished one may be cut short,
   time passes as it likes, and Redis may lose any key.
   */
  lemma EnvironmentIsFree(c: Config, s: State, t: TaskId, id: Id, agent: Name, action: Action, decision: Status, seconds: nat)
    ensures Enabled(c, s, Tick(seconds))
    ensures t !in s.tasks ==>
      && Enabled(c, s, BeginDecide(t, id, decision)) && Enabled(c, s, BeginSweep(t)) && Enabled(c, s, BeginAct(t, action))
      && (id !in s.past.expiry ==> Enabled(c, s, BeginSubmit(t, id, agent)))
    ensures t in s.tasks && !s.tasks[t].Finished? ==> Enabled(c, s, Abort(t))
    ensures c.backend == Redis ==> Enabled(c, s, LoseActive(id)) && Enabled(c, s, LoseArchived(id))
  {
  }
}
