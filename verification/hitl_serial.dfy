/** Runs in which one call follows another: nothing is counted out twice, and the gauge is exact. */
module HitlSerial {
  import opened Maybe
  import opened HitlProtocol
  import opened HitlInvariant
  import opened HitlRuns
  import opened HitlAccount
  import opened HitlBalance
  import opened HitlGauge

  predicate Begins(step: Step) {
    step.BeginAct? || step.BeginSubmit? || step.BeginDecide? || step.BeginSweep?
  }

  /** A call begins only when every other is finished. */
  predicate OneAtATime(c: Config, s: State, steps: seq<Step>)
    requires Feasible(c, s, steps)
    decreases |steps|
  {
    steps == [] ||
    ((Begins(steps[0]) ==> AtRest(s)) && OneAtATime(c, Next(c, s, steps[0]), steps[1..]))
  }

  // ----- what holds in such a run -----

  /** No two of these objects are the same request, and none from index `k` on was counted out. */
  ghost predicate NotYetOut(heap: map<Ref, Request>, a: Account, found: seq<Ref>, k: nat) {
    && (forall i :: 0 <= i < |found| ==> found[i] in heap)
    && (forall i, j :: 0 <= i < j < |found| ==> heap[found[i]].id != heap[found[j]].id)
    && (forall i :: k <= i < |found| ==> heap[found[i]].id !in a.out)
  }

  /** Whatever the call is about to count out was not counted out before. */
  ghost predicate Clean(heap: map<Ref, Request>, a: Account, task: Task) {
    match task
    case Deciding(at, id, _, _, late) =>
      at == Judging || at == Persisted || (late && (at == AwaitFiling || at == Filing || at == Filed)) ==> id !in a.out
    case Scanning(_, ids, found) =>
      && NotYetOut(heap, a, found, 0)
      && (forall i, j :: 0 <= i < j < |ids| ==> ids[i] != ids[j])
      && (forall i, j :: 0 <= i < |found| && 0 <= j < |ids| ==> heap[found[i]].id != ids[j])
    case Sweeping(at, _, found, done) =>
      NotYetOut(heap, a, found, if at == Expiring then done else done + 1)
    case _ => true
  }

  /** Only this task may be unfinished. */
  ghost predicate Alone(s: State, t: TaskId) {
    forall u :: u in s.tasks && u != t ==> s.tasks[u].Finished?
  }

  ghost predicate Tidy(s: State, a: Account) {
    && a.surplus == map[]
    && (forall t :: t in s.tasks ==> Clean(s.store.heap, a, s.tasks[t]))
    && (forall t :: t in s.tasks && !s.tasks[t].Finished? ==> Alone(s, t))
  }

  /** While one call is under way, what was counted out was archived, or is in that call's hands. */
  lemma OutIsRetired(c: Config, s: State, a: Account, t: TaskId, id: Id)
    requires Accounted(c, s, a) && t in s.tasks && Alone(s, t) && (s.tasks[t].Fetching? || s.tasks[t].Scanning?)
    requires id in s.store.active
    ensures id !in a.out
  {
    hide HeapInv, ArchivedInv, LogInv, AuditInv, TasksInv, AgentsOk, Listed, GaugeOk, TasksOwe;
    assert Balanced(s, a);
    assert id in s.store.index && id !in s.past.retired;
    assert !OwedFiling(s, id);
  }

  lemma TidyMove(s: State, s': State, a: Account, a': Account, t: TaskId)
    requires Tidy(s, a) && Alone(s, t) && t in s'.tasks && s'.tasks == s.tasks[t := s'.tasks[t]]
    requires a'.surplus == map[] && Clean(s'.store.heap, a', s'.tasks[t])
    ensures Tidy(s', a')
  {
    forall u | u in s'.tasks && u != t ensures Clean(s'.store.heap, a', s'.tasks[u]) {
      assert s'.tasks[u].Finished?;
    }
    hide Clean;
  }

  lemma TidySame(s: State, s': State, a: Account)
    requires Tidy(s, a) && s'.tasks == s.tasks && s'.store == s.store
    ensures Tidy(s', a)
  {
  }

  // ----- steps -----

  /** Steps that count nothing out and take nothing up. */
  predicate Passes(step: Step) {
    step.BeginAct? || step.BeginDecide? || step.BeginSweep? || step.Acquire? || step.Count? || step.List? || step.Audit?
    || step.Publish? || step.File? || step.BeginSubmit? || step.Propose? || step.Save?
  }

  lemma PassingMoves(c: Config, s: State, a: Account, step: Step)
    requires Enabled(c, s, step) && Passes(step)
    requires step.t in s.tasks ==> Clean(s.store.heap, a, s.tasks[step.t])
    ensures var s' := Next(c, s, step);
      step.t in s'.tasks && s'.tasks == s.tasks[step.t := s'.tasks[step.t]] && Clean(s'.store.heap, a, s'.tasks[step.t])
  {
    if step.Publish? || step.Audit? || step.File? || step.Acquire? {
      GoingOn(c, s, a, step);
    }
  }

  lemma GoingOn(c: Config, s: State, a: Account, step: Step)
    requires Enabled(c, s, step) && (step.Publish? || step.Audit? || step.File? || step.Acquire?)
    requires Clean(s.store.heap, a, s.tasks[step.t])
    ensures var s' := Next(c, s, step);
      step.t in s'.tasks && s'.tasks == s.tasks[step.t := s'.tasks[step.t]] && Clean(s'.store.heap, a, s'.tasks[step.t])
  {
    hide NotYetOut;
  }

  lemma PassingPosts(c: Config, s: State, a: Account, step: Step)
    requires Enabled(c, s, step) && (Passes(step) || step.Fetch? || step.Judge? || step.Scan?)
    ensures Posted(c, s, a, step).out == a.out && Posted(c, s, a, step).surplus == a.surplus
  {
  }

  lemma SameOutClean(heap: map<Ref, Request>, a: Account, a': Account, task: Task)
    requires Clean(heap, a, task) && a'.out == a.out
    ensures Clean(heap, a', task)
  {
  }

  lemma PassingTidy(c: Config, s: State, a: Account, step: Step)
    requires Tidy(s, a) && Enabled(c, s, step) && Passes(step) && Alone(s, step.t)
    ensures Tidy(Next(c, s, step), Posted(c, s, a, step))
  {
    hide Clean, Enabled, Next, Posted;
    var s' := Next(c, s, step);
    PassingMoves(c, s, a, step);
    PassingPosts(c, s, a, step);
    SameOutClean(s'.store.heap, a, Posted(c, s, a, step), s'.tasks[step.t]);
    TidyMove(s, s', a, Posted(c, s, a, step), step.t);
  }

  lemma FetchTidy(c: Config, s: State, a: Account, t: TaskId)
    requires Accounted(c, s, a) && Tidy(s, a) && Enabled(c, s, Fetch(t)) && Alone(s, t)
    ensures Tidy(Next(c, s, Fetch(t)), a)
  {
    var id := s.tasks[t].id;
    if id in s.store.active {
      OutIsRetired(c, s, a, t, id);
    }
    hide Accounted;
    TidyMove(s, FetchStep(s, t), a, a, t);
  }

  lemma JudgeTidy(c: Config, s: State, a: Account, t: TaskId)
    requires Tidy(s, a) && Enabled(c, s, Judge(t)) && Alone(s, t)
    ensures Tidy(Next(c, s, Judge(t)), a)
  {
    assert Clean(s.store.heap, a, s.tasks[t]);
    TidyMove(s, JudgeStep(c, s, t), a, a, t);
  }

  lemma ReleaseClean(s: State, a: Account, t: TaskId)
    requires t in s.tasks && CanRelease(s, s.tasks[t]) && Clean(s.store.heap, a, s.tasks[t]) && a.surplus == map[]
    requires s.tasks[t].Deciding? && s.tasks[t].late ==> s.tasks[t].decideAt != Persisted
    ensures var s' := Leave(s, t);
      t in s'.tasks && s'.tasks == s.tasks[t := s'.tasks[t]] && Clean(s'.store.heap, AtRelease(s, a, s.tasks[t]), s'.tasks[t])
    ensures AtRelease(s, a, s.tasks[t]).surplus == map[]
  {
  }

  lemma NotPersistedLate(c: Config, s: State, a: Account, t: TaskId)
    requires Accounted(c, s, a) && t in s.tasks && s.tasks[t].Deciding? && s.tasks[t].late
    ensures s.tasks[t].decideAt != Persisted
  {
    hide HeapInv, ActiveInv, ArchivedInv, IndexInv, LogInv, AuditInv, Sound, AgentsOk, Listed, GaugeOk;
    assert TaskOk(c, s, t, s.tasks[t]);
  }

  lemma ReleaseTidy(c: Config, s: State, a: Account, t: TaskId)
    requires Accounted(c, s, a) && Tidy(s, a) && Enabled(c, s, Release(t)) && Alone(s, t)
    ensures Tidy(Next(c, s, Release(t)), Posted(c, s, a, Release(t)))
  {
    if s.tasks[t].Deciding? && s.tasks[t].late {
      NotPersistedLate(c, s, a, t);
    }
    ReleaseClean(s, a, t);
    hide Clean, Leave, AtRelease, Accounted;
    TidyMove(s, Leave(s, t), a, AtRelease(s, a, s.tasks[t]), t);
  }

  /** One more object in a sweep's list: of a request that is none of the others, and not counted out. */
  lemma FoundOneMore(heap: map<Ref, Request>, heap': map<Ref, Request>, a: Account, now: int, ids: seq<Id>, found: seq<Ref>, ref: Ref)
    requires ids != [] && Clean(heap, a, Scanning(now, ids, found)) && ids[0] !in a.out
    requires forall r :: r in heap ==> r in heap' && heap'[r] == heap[r]
    requires ref in heap' && heap'[ref].id == ids[0]
    ensures Clean(heap', a, Scanning(now, ids[1..], found + [ref]))
  {
  }

  lemma FoundNoMore(heap: map<Ref, Request>, a: Account, now: int, ids: seq<Id>, found: seq<Ref>)
    requires ids != [] && Clean(heap, a, Scanning(now, ids, found))
    ensures Clean(heap, a, Scanning(now, ids[1..], found))
  {
  }

  /** A scan leaves the objects, and puts at most one more into the list. */
  lemma ScanTakes(s: State, t: TaskId)
    requires t in s.tasks && s.tasks[t].Scanning? && s.tasks[t].ids != [] && s.store.next !in s.store.heap
    requires var id := s.tasks[t].ids[0]; id in s.store.active ==>
      Readable(s, s.store.active[id]) && Read(s, s.store.active[id]).id == id
    ensures var s' := ScanStep(s, t); var Scanning(now, ids, found) := s.tasks[t];
      && t in s'.tasks && s'.tasks == s.tasks[t := s'.tasks[t]]
      && (forall r :: r in s.store.heap ==> r in s'.store.heap && s'.store.heap[r] == s.store.heap[r])
      && ((s'.store == s.store && s'.tasks[t] == Scanning(now, ids[1..], found))
          || (ids[0] in s.store.active
              && exists ref :: ref in s'.store.heap && s'.store.heap[ref].id == ids[0]
                            && s'.tasks[t] == Scanning(now, ids[1..], found + [ref])))
  {
    var id := s.tasks[t].ids[0];
    if id in s.store.active && Read(s, s.store.active[id]).status == PENDING {
      var ref := Handed(s, s.store.active[id]).0;
      assert ScanStep(s, t).store.heap[ref].id == id;
    }
  }

  lemma ScanClean(c: Config, s: State, a: Account, t: TaskId)
    requires Accounted(c, s, a) && Enabled(c, s, Scan(t)) && Alone(s, t) && Clean(s.store.heap, a, s.tasks[t])
    ensures var s' := ScanStep(s, t);
      t in s'.tasks && s'.tasks == s.tasks[t := s'.tasks[t]] && Clean(s'.store.heap, a, s'.tasks[t])
  {
    var Scanning(now, ids, found) := s.tasks[t];
    hide Accounted, Clean, Alone, ScanStep;
    NextUnusedIn(c, s, a);
    if ids[0] in s.store.active {
      OutIsRetired(c, s, a, t, ids[0]);
      ActiveEntry(c, s, a, ids[0]);
    }
    ScanTakes(s, t);
    var s' := ScanStep(s, t);
    if s'.store == s.store && s'.tasks[t] == Scanning(now, ids[1..], found) {
      FoundNoMore(s.store.heap, a, now, ids, found);
    } else {
      var ref :| ref in s'.store.heap && s'.store.heap[ref].id == ids[0] && s'.tasks[t] == Scanning(now, ids[1..], found + [ref]);
      FoundOneMore(s.store.heap, s'.store.heap, a, now, ids, found, ref);
    }
  }

  lemma ScanTidy(c: Config, s: State, a: Account, t: TaskId)
    requires Accounted(c, s, a) && Tidy(s, a) && Enabled(c, s, Scan(t)) && Alone(s, t)
    ensures Tidy(Next(c, s, Scan(t)), a)
  {
    hide Accounted, Clean, ScanStep;
    ScanClean(c, s, a, t);
    TidyMove(s, ScanStep(s, t), a, a, t);
  }

  lemma ActiveEntry(c: Config, s: State, a: Account, id: Id)
    requires Accounted(c, s, a) && id in s.store.active
    ensures Readable(s, s.store.active[id]) && Read(s, s.store.active[id]).id == id
  {
    hide HeapInv, ArchivedInv, IndexInv, LogInv, AuditInv, TasksInv, Sound, AgentsOk, GaugeOk;
    assert EntryOk(c, s, id, s.store.active[id]);
  }

  lemma NextUnusedIn(c: Config, s: State, a: Account)
    requires Accounted(c, s, a)
    ensures s.store.next !in s.store.heap
  {
    hide Inv;
    NextUnused(c, s);
  }

  lemma ExpireClean(s: State, a: Account, t: TaskId)
    requires t in s.tasks && s.tasks[t].Sweeping? && s.tasks[t].sweepAt == Expiring && s.tasks[t].done < |s.tasks[t].found|
    requires s.tasks[t].found[s.tasks[t].done] in s.store.heap && Clean(s.store.heap, a, s.tasks[t]) && a.surplus == map[]
    ensures var s', q := ExpireStep(s, t), s.store.heap[s.tasks[t].found[s.tasks[t].done]];
      && t in s'.tasks && s'.tasks == s.tasks[t := s'.tasks[t]]
      && CountedOut(a, q.id, q.agent).surplus == map[] && Clean(s'.store.heap, CountedOut(a, q.id, q.agent), s'.tasks[t])
  {
  }

  lemma ExpireTidy(c: Config, s: State, a: Account, t: TaskId)
    requires Tidy(s, a) && Enabled(c, s, Expire(t)) && Alone(s, t)
    ensures Tidy(Next(c, s, Expire(t)), Posted(c, s, a, Expire(t)))
  {
    var task, s' := s.tasks[t], ExpireStep(s, t);
    assert Clean(s.store.heap, a, task);
    if task.done < |task.found| {
      ExpireClean(s, a, t);
    }
    hide Clean, ExpireStep;
    TidyMove(s, s', a, Posted(c, s, a, Expire(t)), t);
  }

  lemma MoverAlone(c: Config, s: State, a: Account, step: Step)
    requires Tidy(s, a) && Enabled(c, s, step) && Undisturbed(step) && !step.Tick? && (Begins(step) ==> AtRest(s))
    ensures Alone(s, step.t)
  {
  }

  lemma TickTidy(c: Config, s: State, a: Account, seconds: nat)
    requires Tidy(s, a)
    ensures Tidy(Next(c, s, Tick(seconds)), Posted(c, s, a, Tick(seconds)))
  {
    TidySame(s, Next(c, s, Tick(seconds)), a);
  }

  lemma StepTidy(c: Config, s: State, a: Account, step: Step)
    requires Accounted(c, s, a) && Tidy(s, a) && Enabled(c, s, step) && Undisturbed(step)
    requires Begins(step) ==> AtRest(s)
    ensures Tidy(Next(c, s, step), Posted(c, s, a, step))
  {
    hide Accounted, Tidy, Next, Enabled, AtRest, Alone, Posted;
    if step.Tick? {
      TickTidy(c, s, a, step.seconds);
    } else {
      MoverAlone(c, s, a, step);
      if Passes(step) {
        PassingTidy(c, s, a, step);
      } else {
        TakingTidy(c, s, a, step);
      }
    }
  }

  lemma TakingTidy(c: Config, s: State, a: Account, step: Step)
    requires Accounted(c, s, a) && Tidy(s, a) && Enabled(c, s, step) && Undisturbed(step)
    requires !step.Tick? && !Passes(step) && Alone(s, step.t)
    ensures Tidy(Next(c, s, step), Posted(c, s, a, step))
  {
    hide Accounted, Tidy, Next, Enabled, Alone;
    match step
    case Fetch(t) => FetchTidy(c, s, a, t);
    case Judge(t) => JudgeTidy(c, s, a, t);
    case Release(t) => ReleaseTidy(c, s, a, t);
    case Scan(t) => ScanTidy(c, s, a, t);
    case Expire(t) => ExpireTidy(c, s, a, t);
  }

  // ----- runs -----

  lemma {:induction false} RunTidy(c: Config, s: State, a: Account, steps: seq<Step>)
    requires Accounted(c, s, a) && Tidy(s, a) && Feasible(c, s, steps) && AllUndisturbed(steps) && OneAtATime(c, s, steps)
    ensures Tidy(Run(c, s, steps), Closing(c, s, a, steps))
    decreases |steps|
  {
    hide Accounted, Tidy, Enabled, Next, Posted, Undisturbed, AtRest;
    if steps != [] {
      assert steps[0] in steps;
      assert forall step :: step in steps[1..] ==> step in steps;
      StepTidy(c, s, a, steps[0]);
      StepAccounts(c, s, a, steps[0]);
      RunTidy(c, Next(c, s, steps[0]), Posted(c, s, a, steps[0]), steps[1..]);
    }
  }

  /**
   Over either store: if a call begins only when every other is finished, none is cut short and no key is
   lost, then nothing is counted out twice, and once no call is under way each agent's gauge is the number
   of its pending active requests.
   */
  lemma GaugeIsExactOneAtATime(c: Config, steps: seq<Step>, agent: Name)
    requires Feasible(c, Start, steps) && AllUndisturbed(steps) && OneAtATime(c, Start, steps)
    ensures SurplusIn(c, steps, agent) == 0
    ensures AtRest(Run(c, Start, steps)) ==>
      GaugeAt(Run(c, Start, steps), agent) == |PendingAt(Run(c, Start, steps), agent)|
  {
    StartAccounted(c);
    assert Tidy(Start, Opening);
    RunTidy(c, Start, Opening, steps);
    assert Closing(c, Start, Opening, steps).surplus == map[];
    if AtRest(Run(c, Start, steps)) {
      GaugeIsPendingLessSurplus(c, steps, agent);
    }
  }
}
