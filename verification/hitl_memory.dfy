/** What the in-memory store adds: one object for each request, which never leaves the store's two dictionaries. */
module HitlMemory {
  import opened Maybe
  import opened HitlProtocol
  import opened HitlInvariant
  import opened HitlRuns
  import opened HitlTrace

  /** A request is held by the store. */
  predicate Kept(s: State, id: Id) {
    id in s.store.active || id in s.store.archived
  }

  ghost predicate OneObject(s: State) {
    forall r, q :: r in s.store.heap && q in s.store.heap && s.store.heap[r].id == s.store.heap[q].id ==> r == q
  }

  /** In memory, no two objects are the same request, and what was saved is kept. */
  ghost predicate InPlace(s: State) {
    OneObject(s) && forall id :: id in s.past.saved ==> Kept(s, id)
  }

  /** The only steps that make an object: those that submit a request. */
  predicate Makes(c: Config, s: State, step: Step)
    requires Enabled(c, s, step)
  {
    step.BeginSubmit? || (step.Propose? && Gated(c, s.tasks[step.t].action))
  }

  /** Everywhere else the objects stay the same ones, each with its id. */
  ghost predicate SameIds(s: State, s': State) {
    s'.store.heap.Keys == s.store.heap.Keys && forall r :: r in s.store.heap ==> s'.store.heap[r].id == s.store.heap[r].id
  }

  lemma QuietMakesNothing(c: Config, s: State, step: Step)
    requires Enabled(c, s, step) && LeavesStore(step)
    ensures SameIds(s, Next(c, s, step))
  {
  }

  lemma HandedMakesNothing(c: Config, s: State, e: Entry, id: Id)
    requires c.backend == InMemory && EntryOk(c, s, id, e)
    ensures Handed(s, e).1 == s.store
  {
  }

  lemma NothingMade(c: Config, s: State, step: Step)
    requires c.backend == InMemory && ActiveInv(c, s) && Enabled(c, s, step) && !Makes(c, s, step)
    ensures SameIds(s, Next(c, s, step))
  {
    if LeavesStore(step) {
      QuietMakesNothing(c, s, step);
    } else if step.Fetch? || step.Scan? {
      ReadingMakesNothing(c, s, step);
    } else {
      WritingMakesNothing(c, s, step);
    }
  }

  lemma ReadingMakesNothing(c: Config, s: State, step: Step)
    requires c.backend == InMemory && ActiveInv(c, s) && Enabled(c, s, step) && (step.Fetch? || step.Scan?)
    ensures SameIds(s, Next(c, s, step))
  {
    var id := if step.Fetch? then s.tasks[step.t].id else s.tasks[step.t].ids[0];
    if id in s.store.active {
      HandedMakesNothing(c, s, s.store.active[id], id);
    }
    hide ActiveInv, EntryOk, Handed;
  }

  lemma WritingMakesNothing(c: Config, s: State, step: Step)
    requires c.backend == InMemory && Enabled(c, s, step) && !Makes(c, s, step)
    requires !LeavesStore(step) && !step.Fetch? && !step.Scan?
    ensures SameIds(s, Next(c, s, step))
  {
  }

  lemma MadeIsNew(c: Config, s: State, step: Step)
    requires HeapInv(c, s) && Enabled(c, s, step) && Makes(c, s, step)
    ensures exists q: Request :: q.id !in s.past.expiry && Next(c, s, step).store.heap == s.store.heap[s.store.next := q]
  {
    match step
    case BeginSubmit(t, id, agent) =>
      assert Next(c, s, step).store.heap == s.store.heap[s.store.next := Request(id, agent, s.clock + c.timeout, PENDING)];
    case Propose(t, id) =>
      var agent := s.tasks[t].action.agent;
      assert Next(c, s, step).store.heap == s.store.heap[s.store.next := Request(id, agent, s.clock + c.timeout, PENDING)];
  }

  lemma OneObjectKeeps(c: Config, s: State, step: Step)
    requires c.backend == InMemory && HeapInv(c, s) && ActiveInv(c, s) && OneObject(s) && Enabled(c, s, step)
    ensures OneObject(Next(c, s, step))
  {
    hide Next, Enabled, Makes, ActiveInv;
    if Makes(c, s, step) {
      MadeIsNew(c, s, step);
    } else {
      NothingMade(c, s, step);
    }
  }

  /** In memory nothing ever leaves the store: a request moves from the active to the archived ones. */
  lemma KeptStays(c: Config, s: State, step: Step, id: Id)
    requires c.backend == InMemory && Enabled(c, s, step)
    requires Kept(s, id) || (id in Next(c, s, step).past.saved && id !in s.past.saved)
    ensures Kept(Next(c, s, step), id)
  {
  }

  lemma InPlaceKeeps(c: Config, s: State, step: Step)
    requires c.backend == InMemory && Inv(c, s) && InPlace(s) && Enabled(c, s, step)
    ensures InPlace(Next(c, s, step))
  {
    hide Next, Enabled, HeapInv, ActiveInv, ArchivedInv, IndexInv, LogInv, AuditInv, TasksInv, OneObject, Kept;
    OneObjectKeeps(c, s, step);
    forall id | id in Next(c, s, step).past.saved ensures Kept(Next(c, s, step), id) {
      KeptStays(c, s, step, id);
    }
  }

  lemma {:induction false} RunInPlace(c: Config, steps: seq<Step>, k: nat)
    requires c.backend == InMemory && Feasible(c, Start, steps) && k <= |steps|
    ensures Inv(c, At(c, steps, k)) && InPlace(At(c, steps, k))
  {
    hide Inv, Next, Enabled;
    if k == 0 {
      StartInv(c);
      AtEnds(c, steps);
    } else {
      RunInPlace(c, steps, k - 1);
      AtNext(c, steps, k - 1);
      StepKeeps(c, At(c, steps, k - 1), steps[k - 1]);
      InPlaceKeeps(c, At(c, steps, k - 1), steps[k - 1]);
    }
  }

  /** In memory a decision is seen by everyone who holds the request: every object shows its verdict. */
  lemma ObjectShowsVerdict(c: Config, s: State, ref: Ref)
    requires c.backend == InMemory && Inv(c, s) && InPlace(s) && ref in s.store.heap
    ensures var q := s.store.heap[ref];
      && (q.id in s.past.verdict ==> q.status == s.past.verdict[q.id])
      && (q.status in {APPROVED, REJECTED} ==> q.id in s.past.verdict && s.past.verdict[q.id] == q.status)
  {
    hide LogInv, AuditInv, TasksInv;
    var q := s.store.heap[ref];
    assert RequestOk(s, q);
    if q.id in s.past.verdict {
      assert q.id in s.past.saved && Kept(s, q.id);
      var e := if q.id in s.store.active then s.store.active[q.id] else s.store.archived[q.id];
      assert EntryOk(c, s, q.id, e);
      assert s.store.heap[e.ref].id == q.id;
    }
  }

  lemma {:induction false} KeptForever(c: Config, s: State, steps: seq<Step>, id: Id)
    requires c.backend == InMemory && Feasible(c, s, steps) && Kept(s, id)
    ensures Kept(Run(c, s, steps), id)
    decreases |steps|
  {
    hide Next, Enabled, Kept;
    if steps != [] {
      KeptStays(c, s, steps[0], id);
      KeptForever(c, Next(c, s, steps[0]), steps[1..], id);
    }
  }

  lemma KeptIsShown(c: Config, s: State, id: Id)
    requires Inv(c, s)
    ensures View(s, id).Some? <==> Kept(s, id)
  {
    if id in s.store.active {
      assert EntryOk(c, s, id, s.store.active[id]);
    } else if id in s.store.archived {
      assert ArchivedOk(c, s, id, s.store.archived[id]);
    }
  }
}
