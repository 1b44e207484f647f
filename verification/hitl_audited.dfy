/**
 The audit log over every run and both stores, with calls cut short anywhere and keys lost at any time: no
 call gets past its audit write without the record, and no record says what did not happen.
 */
module HitlAudited {
  import opened Maybe
  import opened HitlProtocol
  import opened HitlInvariant
  import opened HitlRuns
  import opened HitlChanges
  import opened HitlShown

  /** How often a record is in the log. */
  function Times(s: State, r: Record): nat {
    multiset(s.audit)[r]
  }

  /** What a record says has happened. */
  predicate Backed(s: State, r: Record) {
    match r
    case RequestSubmitted(id) => id in s.past.saved
    case DecisionRecorded(id, d) => id in s.past.verdict && s.past.verdict[id] == d
    case RequestExpired(id) =>
      id in s.past.saved && id in s.past.expiry && s.past.expiry[id] <= s.clock && id !in s.past.verdict
    case _ => true
  }

  /** How many of the objects found have their expiry in the log. */
  function Noted(at: SweepPoint, done: nat): nat {
    if at == Expiring || at == Auditing then done else done + 1
  }

  predicate ExpiryWritten(s: State, found: seq<Ref>, i: nat) {
    i < |found| ==> found[i] in s.store.heap && RequestExpired(s.store.heap[found[i]].id) in s.audit
  }

  /** What a task's place says about the log. */
  predicate Booked(s: State, task: Task) {
    match task
    case Submitting(at, ref, _) =>
      ref in s.store.heap && Times(s, RequestSubmitted(s.store.heap[ref].id)) == if at == Proposed then 1 else 0
    case Deciding(at, id, d, _, late) =>
      at != Judging ==>
        if late then at == Announcing ==> RequestExpired(id) in s.audit
        else Times(s, DecisionRecorded(id, d)) == if at == Announcing then 1 else 0
    case Sweeping(at, _, found, done) => forall i: nat :: i < Noted(at, done) ==> ExpiryWritten(s, found, i)
    case Executing(_, gate) => gate.Some? ==> Times(s, RequestSubmitted(gate.value)) == 1
    case Finished(outcome) => outcome.Decided? ==> Times(s, DecisionRecorded(outcome.id, outcome.decision)) == 1
    case _ => true
  }

  ghost predicate AllBacked(s: State) {
    forall r :: r in s.audit ==> Backed(s, r)
  }

  predicate WrittenOnce(r: Record) {
    r.RequestSubmitted? || r.DecisionRecorded?
  }

  ghost predicate OnceOnly(s: State) {
    forall r :: WrittenOnce(r) ==> Times(s, r) <= 1
  }

  ghost predicate AllBooked(s: State) {
    forall t :: t in s.tasks ==> Booked(s, s.tasks[t])
  }

  ghost predicate Books(s: State) {
    AllBacked(s) && OnceOnly(s) && AllBooked(s)
  }

  // ----- steps that write nothing of the kind -----

  predicate OfAction(r: Record) {
    r.ActionProposed? || r.ActionExecuted?
  }

  /** The log gains at most the record of an action. */
  predicate SameBooks(s: State, s': State) {
    s'.audit == s.audit || (s'.audit != [] && s'.audit == s.audit + [s'.audit[|s'.audit| - 1]] && OfAction(s'.audit[|s'.audit| - 1]))
  }

  lemma SameTimes(s: State, s': State, r: Record)
    requires SameBooks(s, s') && !OfAction(r)
    ensures Times(s', r) == Times(s, r) && (r in s'.audit <==> r in s.audit)
  {
  }

  lemma BackedStays(c: Config, s: State, s': State, mover: Option<TaskId>, r: Record)
    requires Evolves(c, s, s', mover) && Backed(s, r)
    ensures Backed(s', r)
  {
  }

  lemma SameBooksBacked(c: Config, s: State, s': State, mover: Option<TaskId>)
    requires Evolves(c, s, s', mover) && SameBooks(s, s') && AllBacked(s) && OnceOnly(s)
    ensures AllBacked(s') && OnceOnly(s')
  {
    forall r | r in s'.audit ensures Backed(s', r) {
      if !OfAction(r) {
        SameTimes(s, s', r);
        hide SameBooks;
        BackedStays(c, s, s', mover, r);
      }
    }
    forall r | WrittenOnce(r) ensures Times(s', r) <= 1 {
      SameTimes(s, s', r);
    }
  }

  lemma ExpiryStays(c: Config, s: State, s': State, mover: Option<TaskId>, found: seq<Ref>, i: nat)
    requires Evolves(c, s, s', mover) && ExpiryWritten(s, found, i)
    ensures ExpiryWritten(s', found, i)
  {
    if i < |found| {
      assert SameRequest(c, s, s.store.heap[found[i]], s'.store.heap[found[i]], found[i]);
      assert RequestExpired(s.store.heap[found[i]].id) in s'.audit;
    }
  }

  /** The record that a task's place counts. */
  function Own(s: State, task: Task): Option<Record> {
    match task
    case Submitting(_, ref, _) => if ref in s.store.heap then Some(RequestSubmitted(s.store.heap[ref].id)) else None
    case Deciding(at, id, d, _, late) => if at != Judging && !late then Some(DecisionRecorded(id, d)) else None
    case Executing(_, gate) => if gate.Some? then Some(RequestSubmitted(gate.value)) else None
    case Finished(outcome) => if outcome.Decided? then Some(DecisionRecorded(outcome.id, outcome.decision)) else None
    case _ => None
  }

  lemma BookedStays(c: Config, s: State, s': State, mover: Option<TaskId>, task: Task)
    requires Evolves(c, s, s', mover) && Booked(s, task)
    requires Own(s, task).Some? ==> Times(s', Own(s, task).value) == Times(s, Own(s, task).value)
    ensures Booked(s', task)
  {
    match task
    case Submitting(_, ref, _) =>
      assert SameRequest(c, s, s.store.heap[ref], s'.store.heap[ref], ref);
      hide Times;
    case Sweeping(at, _, found, done) =>
      forall i: nat | i < Noted(at, done) ensures ExpiryWritten(s', found, i) { ExpiryStays(c, s, s', mover, found, i); }
    case Deciding(_, _, _, _, _) => hide Times;
    case Executing(_, _) => hide Times;
    case Finished(_) => hide Times;
    case _ =>
  }

  // ----- the task that moves -----

  lemma LeavingBooked(c: Config, s: State, step: Step)
    requires Enabled(c, s, step) && Mover(step).Some? && step.t in s.tasks && Booked(s, s.tasks[step.t])
    requires LeavesStore(step) && !step.Audit? && !step.Release?
    ensures step.t in Next(c, s, step).tasks
    ensures Booked(s, Next(c, s, step).tasks[step.t])
  {
    hide Times;
  }

  lemma UsingBooked(c: Config, s: State, step: Step)
    requires Enabled(c, s, step) && Mover(step).Some? && step.t in s.tasks && Booked(s, s.tasks[step.t])
    requires !LeavesStore(step) && !step.Judge? && !step.Propose?
    ensures step.t in Next(c, s, step).tasks
    ensures Booked(s, Next(c, s, step).tasks[step.t])
  {
    hide Times;
  }

  lemma MovesBooked(c: Config, s: State, step: Step)
    requires Enabled(c, s, step) && Mover(step).Some? && step.t in s.tasks && Booked(s, s.tasks[step.t])
    requires !step.Audit? && !step.Judge? && !step.Propose? && !step.Release?
    ensures step.t in Next(c, s, step).tasks
    ensures Booked(s, Next(c, s, step).tasks[step.t])
  {
    hide Booked, Next, Enabled;
    if LeavesStore(step) { LeavingBooked(c, s, step); } else { UsingBooked(c, s, step); }
  }

  lemma ReleaseBooked(c: Config, s: State, t: TaskId)
    requires Enabled(c, s, Release(t)) && Booked(s, s.tasks[t]) && (s.tasks[t].Deciding? && s.tasks[t].late ==> s.tasks[t].decideAt != Persisted)
    ensures t in Next(c, s, Release(t)).tasks && Booked(s, Next(c, s, Release(t)).tasks[t])
  {
    hide Times;
  }

  lemma UnwrittenTimes(s: State, r: Record)
    requires AllBacked(s) && !Backed(s, r)
    ensures Times(s, r) == 0
  {
    assert r !in s.audit;
  }

  lemma SameObjectTimes(c: Config, s: State, s': State, mover: Option<TaskId>, task: Task)
    requires Evolves(c, s, s', mover) && Booked(s, task) && SameBooks(s, s')
    ensures Booked(s', task)
  {
    var own := Own(s, task);
    if own.Some? { SameTimes(s, s', own.value); }
    hide SameBooks;
    BookedStays(c, s, s', mover, task);
  }

  lemma JudgeBooked(c: Config, s: State, t: TaskId)
    requires Inv(c, s) && AllBacked(s) && Enabled(c, s, Judge(t))
    ensures t in Next(c, s, Judge(t)).tasks && Booked(s, Next(c, s, Judge(t)).tasks[t])
  {
    hide HeapInv, ActiveInv, ArchivedInv, IndexInv, LogInv, AuditInv, AllBacked;
    assert TaskOk(c, s, t, s.tasks[t]);
    var Deciding(_, id, d, ref, _) := s.tasks[t];
    if s.store.heap[ref].status == PENDING { UnwrittenTimes(s, DecisionRecorded(id, d)); }
    hide TasksInv, TaskOk, Times;
  }

  /** An id that was never used is in no record. */
  lemma FreshUnwritten(c: Config, s: State, id: Id)
    requires Inv(c, s) && AllBacked(s) && id !in s.past.expiry
    ensures Times(s, RequestSubmitted(id)) == 0
  {
    hide HeapInv, ActiveInv, ArchivedInv, LogInv, AuditInv, TasksInv;
    UnwrittenTimes(s, RequestSubmitted(id));
  }

  lemma BeginBooked(c: Config, s: State, step: Step)
    requires Inv(c, s) && AllBacked(s) && Enabled(c, s, step) && Mover(step).Some? && step.t !in s.tasks
    ensures step.t in Next(c, s, step).tasks && Booked(Next(c, s, step), Next(c, s, step).tasks[step.t])
    ensures SameBooks(s, Next(c, s, step))
  {
    if step.BeginSubmit? { FreshUnwritten(c, s, step.id); }
    hide Inv, AllBacked;
  }

  lemma ProposeBooked(c: Config, s: State, t: TaskId, id: Id)
    requires Inv(c, s) && AllBacked(s) && Enabled(c, s, Propose(t, id))
    ensures var s' := Next(c, s, Propose(t, id)); t in s'.tasks && Booked(s', s'.tasks[t]) && SameBooks(s, s')
  {
    FreshUnwritten(c, s, id);
    hide Inv, AllBacked;
    var s' := Next(c, s, Propose(t, id));
    SameTimes(s, s', RequestSubmitted(id));
    hide Times;
  }

  /** Steps that write none of these records. */
  lemma QuietBooks(c: Config, s: State, step: Step)
    requires Enabled(c, s, step) && !step.Audit?
    ensures SameBooks(s, Next(c, s, step))
  {
  }

  lemma MoverBooked(c: Config, s: State, step: Step)
    requires Inv(c, s) && Books(s) && Enabled(c, s, step) && Mover(step).Some? && !step.Audit?
    ensures step.t in Next(c, s, step).tasks && Booked(Next(c, s, step), Next(c, s, step).tasks[step.t])
  {
    var s' := Next(c, s, step);
    if step.t !in s.tasks {
      BeginBooked(c, s, step);
    } else if step.Propose? {
      ProposeBooked(c, s, step.t, step.uuid);
    } else {
      if step.Judge? {
        JudgeBooked(c, s, step.t);
      } else if step.Release? {
        if s.tasks[step.t].Deciding? && s.tasks[step.t].late { PersistedInTime(c, s, step.t); }
        ReleaseBooked(c, s, step.t);
      } else {
        MovesBooked(c, s, step);
      }
      hide Next, Enabled, Booked, AllBacked, OnceOnly;
      StepChanges(c, s, step);
      QuietBooks(c, s, step);
      SameObjectTimes(c, s, s', Mover(step), s'.tasks[step.t]);
    }
  }

  lemma QuietStepBooks(c: Config, s: State, step: Step)
    requires Inv(c, s) && Books(s) && Enabled(c, s, step) && !step.Audit?
    ensures Books(Next(c, s, step))
  {
    var s' := Next(c, s, step);
    StepChanges(c, s, step);
    QuietBooks(c, s, step);
    if Mover(step).Some? { MoverBooked(c, s, step); }
    hide Inv, Next, Enabled, Booked;
    SameBooksBacked(c, s, s', Mover(step));
    hide AllBacked, OnceOnly;
    forall u | u in s'.tasks ensures Booked(s', s'.tasks[u]) {
      if Mover(step) != Some(u) {
        OnlyMoverMoves(c, s, step, u);
        SameObjectTimes(c, s, s', Mover(step), s.tasks[u]);
      }
    }
  }

  // ----- audit writes -----

  lemma OneRecordMore(s: State, s': State, r: Record, q: Record)
    requires s'.audit == s.audit + [r]
    ensures Times(s', q) == Times(s, q) + if q == r then 1 else 0
  {
  }

  lemma SweepRecordBacked(c: Config, s: State, found: seq<Ref>, done: nat)
    requires HeapInv(c, s) && done < |found| && StaleOk(c, s, found[done]) && found[done] in s.store.heap
    ensures Backed(s, RequestExpired(s.store.heap[found[done]].id))
  {
    assert RequestOk(s, s.store.heap[found[done]]);
  }

  lemma DecisionRecordBacked(c: Config, s: State, t: TaskId, id: Id, d: Status, ref: Ref, late: bool)
    requires HeapInv(c, s) && LogInv(s) && DecidingOk(c, s, t, Reporting, id, d, ref, late)
    ensures Backed(s, if late then RequestExpired(id) else DecisionRecorded(id, d))
  {
    assert RequestOk(s, s.store.heap[ref]);
    if !late { AcceptedBacked(c, s, t, id, d); }
  }

  /** What the next record of a task says is true, and is not yet in the log if it is written only once. */
  lemma NextRecordBacked(c: Config, s: State, t: TaskId)
    requires Inv(c, s) && SubmittersSaved(s) && AllBooked(s) && Enabled(c, s, Audit(t))
    ensures var r := Written(s, t, s.tasks[t]).0;
      Backed(s, r) && (WrittenOnce(r) ==> Own(s, s.tasks[t]) == Some(r) && Times(s, r) == 0)
  {
    assert Booked(s, s.tasks[t]);
    assert TaskOk(c, s, t, s.tasks[t]) && HeapInv(c, s) && LogInv(s);
    hide HeapInv, ActiveInv, ArchivedInv, IndexInv, LogInv, AuditInv, TasksInv, AllBooked, Times;
    match s.tasks[t]
    case Deciding(_, id, d, ref, late) => DecisionRecordBacked(c, s, t, id, d, ref, late);
    case Sweeping(_, _, found, done) => SweepRecordBacked(c, s, found, done);
    case Submitting(at, ref, _) => assert PastSaving(s.tasks[t]);
    case Executing(_, _) =>
  }

  lemma AcceptedBacked(c: Config, s: State, t: TaskId, id: Id, d: Status)
    requires LogInv(s) && AcceptedBy(s, t, id, d)
    ensures id in s.past.verdict && s.past.verdict[id] == d
  {
    var i :| 0 <= i < |s.past.accepted| && s.past.accepted[i].task == t && s.past.accepted[i].id == id
             && s.past.accepted[i].decision == d;
    assert BackedBy(s.past.accepted[i], s.past.verdict, s.past.expiry);
  }

  /** No other task counts the same record. */
  lemma OwnRecordsDiffer(c: Config, s: State, t: TaskId, u: TaskId, r: Record)
    requires Inv(c, s) && AllBooked(s) && t in s.tasks && u in s.tasks && WrittenOnce(r)
    requires Own(s, s.tasks[t]) == Some(r) && Own(s, s.tasks[u]) == Some(r) && Times(s, r) == 0
    ensures t == u
  {
    assert Booked(s, s.tasks[t]) && Booked(s, s.tasks[u]);
    assert TaskOk(c, s, t, s.tasks[t]) && TaskOk(c, s, u, s.tasks[u]);
    hide HeapInv, ActiveInv, ArchivedInv, IndexInv, AuditInv, TasksInv, AllBooked, Times;
    if r.DecisionRecorded? {
      OneAcceptor(s, t, u, r.id, r.decision);
    }
  }

  lemma OneAcceptor(s: State, t: TaskId, u: TaskId, id: Id, d: Status)
    requires LogInv(s) && AcceptedBy(s, t, id, d) && AcceptedBy(s, u, id, d)
    ensures t == u
  {
    var i :| 0 <= i < |s.past.accepted| && s.past.accepted[i].task == t && s.past.accepted[i].id == id;
    var j :| 0 <= j < |s.past.accepted| && s.past.accepted[j].task == u && s.past.accepted[j].id == id;
    assert s.past.accepted[i].id == s.past.accepted[j].id;
  }

  lemma WriterBooked(c: Config, s: State, t: TaskId)
    requires Enabled(c, s, Audit(t)) && Booked(s, s.tasks[t])
    requires var r := Written(s, t, s.tasks[t]).0; WrittenOnce(r) ==> Own(s, s.tasks[t]) == Some(r) && Times(s, r) == 0
    ensures var s' := Next(c, s, Audit(t)); t in s'.tasks && Booked(s', s'.tasks[t])
  {
    var s' := Next(c, s, Audit(t));
    var r := Written(s, t, s.tasks[t]).0;
    OneRecordMore(s, s', r, r);
    assert r in s'.audit;
    hide Times;
    if s.tasks[t].Sweeping? {
      var Sweeping(at, _, found, done) := s.tasks[t];
      forall i: nat | i < done + 1 ensures ExpiryWritten(s', found, i) {
        if i < done { assert i < Noted(at, done) && ExpiryWritten(s, found, i); }
      }
    }
  }

  lemma MoreBacked(c: Config, s: State, s': State, mover: Option<TaskId>, r: Record)
    requires Evolves(c, s, s', mover) && s'.audit == s.audit + [r] && AllBacked(s) && OnceOnly(s)
    requires Backed(s, r) && (WrittenOnce(r) ==> Times(s, r) == 0)
    ensures AllBacked(s') && OnceOnly(s')
  {
    hide Backed, Times, Evolves;
    forall q | q in s'.audit ensures Backed(s', q) {
      BackedStays(c, s, s', mover, q);
    }
    forall q | WrittenOnce(q) ensures Times(s', q) <= 1 {
      OneRecordMore(s, s', r, q);
    }
  }

  lemma OtherBooked(c: Config, s: State, s': State, t: TaskId, u: TaskId, r: Record)
    requires Inv(c, s) && AllBooked(s) && t in s.tasks && u in s.tasks && t != u && s'.audit == s.audit + [r]
    requires WrittenOnce(r) ==> Own(s, s.tasks[t]) == Some(r) && Times(s, r) == 0
    requires Evolves(c, s, s', Some(t))
    ensures Booked(s', s.tasks[u])
  {
    hide Inv, Times, Evolves;
    assert Booked(s, s.tasks[u]);
    hide Booked;
    var own := Own(s, s.tasks[u]);
    if own.Some? {
      assert WrittenOnce(own.value);
      OneRecordMore(s, s', r, own.value);
      if own.value == r { OwnRecordsDiffer(c, s, t, u, r); }
    }
    BookedStays(c, s, s', Some(t), s.tasks[u]);
  }

  lemma AuditBooks(c: Config, s: State, t: TaskId)
    requires Inv(c, s) && SubmittersSaved(s) && Books(s) && Enabled(c, s, Audit(t))
    ensures Books(Next(c, s, Audit(t)))
  {
    var s' := Next(c, s, Audit(t));
    var r := Written(s, t, s.tasks[t]).0;
    assert s'.audit == s.audit + [r];
    NextRecordBacked(c, s, t);
    assert Booked(s, s.tasks[t]);
    WriterBooked(c, s, t);
    StepChanges(c, s, Audit(t));
    hide Inv, Next, Enabled, Booked, Times, Backed, Own, Evolves, SubmittersSaved, Written;
    MoreBacked(c, s, s', Some(t), r);
    hide AllBacked, OnceOnly;
    forall u | u in s'.tasks ensures Booked(s', s'.tasks[u]) {
      if u != t {
        OnlyMoverMoves(c, s, Audit(t), u);
        OtherBooked(c, s, s', t, u, r);
      }
    }
  }

  lemma {:induction false} RunBooks(c: Config, s: State, steps: seq<Step>)
    requires Inv(c, s) && SubmittersSaved(s) && Books(s) && Feasible(c, s, steps)
    ensures Books(Run(c, s, steps))
    decreases |steps|
  {
    hide Inv, SubmittersSaved, Books, Next, Enabled;
    if steps != [] {
      StepKeeps(c, s, steps[0]);
      StepSaves(c, s, steps[0]);
      if steps[0].Audit? { AuditBooks(c, s, steps[0].t); } else { QuietStepBooks(c, s, steps[0]); }
      RunBooks(c, Next(c, s, steps[0]), steps[1..]);
    }
  }

  lemma ReachableBooks(c: Config, steps: seq<Step>)
    requires Feasible(c, Start, steps)
    ensures Books(Run(c, Start, steps))
  {
    StartInv(c);
    hide Inv;
    RunBooks(c, Start, steps);
  }

  // ----- what the log is good for -----

  /** Every record is true: of a request that was saved, a decision that took effect, a deadline that passed undecided. */
  lemma RecordsAreTrue(c: Config, steps: seq<Step>, r: Record)
    requires Feasible(c, Start, steps) && r in Run(c, Start, steps).audit
    ensures
      var past := Run(c, Start, steps).past;
      match r
      case RequestSubmitted(id) => id in past.saved
      case DecisionRecorded(id, d) =>
        exists i :: 0 <= i < |past.accepted| && past.accepted[i].id == id && past.accepted[i].decision == d
      case RequestExpired(id) =>
        && id in past.saved && id in past.expiry && past.expiry[id] <= Run(c, Start, steps).clock
        && forall i :: 0 <= i < |past.accepted| ==> past.accepted[i].id != id
      case _ => true
  {
    ReachableBooks(c, steps);
    ReachableInv(c, steps);
    var s := Run(c, Start, steps);
    assert Backed(s, r);
    hide HeapInv, ActiveInv, ArchivedInv, IndexInv, AuditInv, TasksInv, Books;
    match r
    case DecisionRecorded(id, d) =>
      var i :| 0 <= i < |s.past.accepted| && s.past.accepted[i].id == id;
      assert BackedBy(s.past.accepted[i], s.past.verdict, s.past.expiry);
    case RequestExpired(id) =>
      forall i | 0 <= i < |s.past.accepted| ensures s.past.accepted[i].id != id {
        assert BackedBy(s.past.accepted[i], s.past.verdict, s.past.expiry);
      }
    case _ =>
  }

  /**
   A decision that returned success is in the log exactly once; a request whose submission went on to its
   broker call is in it exactly once; and a sweep has logged the expiry of everything that it is done with.
   */
  lemma AnswersAreLogged(c: Config, steps: seq<Step>, t: TaskId)
    requires Feasible(c, Start, steps) && t in Run(c, Start, steps).tasks
    ensures
      var s := Run(c, Start, steps);
      match s.tasks[t]
      case Finished(Decided(id, d)) => multiset(s.audit)[DecisionRecorded(id, d)] == 1
      case Submitting(Proposed, ref, _) =>
        ref in s.store.heap && multiset(s.audit)[RequestSubmitted(s.store.heap[ref].id)] == 1
      case Executing(_, Some(id)) => multiset(s.audit)[RequestSubmitted(id)] == 1
      case Sweeping(_, _, found, done) =>
        forall i :: 0 <= i < done && i < |found| ==>
          found[i] in s.store.heap && RequestExpired(s.store.heap[found[i]].id) in s.audit
      case _ => true
  {
    ReachableBooks(c, steps);
    var s := Run(c, Start, steps);
    assert Booked(s, s.tasks[t]);
    if s.tasks[t].Sweeping? {
      var Sweeping(at, _, found, done) := s.tasks[t];
      forall i | 0 <= i < done && i < |found|
        ensures found[i] in s.store.heap && RequestExpired(s.store.heap[found[i]].id) in s.audit
      {
        assert i < Noted(at, done) && ExpiryWritten(s, found, i);
      }
    }
    hide Books;
  }

  /** No decision and no submission is ever logged twice. */
  lemma LoggedOnce(c: Config, steps: seq<Step>, r: Record)
    requires Feasible(c, Start, steps) && (r.DecisionRecorded? || r.RequestSubmitted?)
    ensures multiset(Run(c, Start, steps).audit)[r] <= 1
  {
    ReachableBooks(c, steps);
    assert WrittenOnce(r) && Times(Run(c, Start, steps), r) <= 1;
  }
}
