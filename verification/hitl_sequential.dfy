/**
 Runs of the approval protocol in which one call follows another, each to its end: what the ledger says of
 single calls holds of them.
 */
module HitlSequential {
  import opened Maybe
  import opened HitlProtocol
  import opened HitlLedger
  import opened HitlProgress
  import opened HitlSolo

  predicate Begins(step: Step, t: TaskId) {
    (step.BeginSubmit? || step.BeginDecide? || step.BeginSweep?) && step.t == t
  }

  /** A call from its first step to its last, with nothing in between and never cut short. */
  predicate WholeCall(c: Config, s: State, first: Step, rest: seq<Step>, t: TaskId) {
    && Begins(first, t) && Enabled(c, s, first) && AllOngoing(rest, t)
    && Feasible(c, Next(c, s, first), rest) && Done(Run(c, Next(c, s, first), rest), t)
  }

  /** What a call that begins with `first` does to the ledger. */
  ghost predicate Does(c: Config, s: State, first: Step, l: Ledger, l': Ledger)
    requires first.BeginSubmit? || first.BeginDecide? || first.BeginSweep?
  {
    match first
    case BeginSubmit(_, id, agent) =>
      l' == if |l.active| < c.capacity then Admit(l, Created(c, s, id, agent)) else l
    case BeginDecide(_, id, decision) =>
      l' == (if id !in l.active || decision !in {APPROVED, REJECTED} then l
             else if s.clock >= l.active[id].expiresAt then Lapse(l, id)
             else Close(l, id, decision, DecisionRecorded(id, decision)))
    case BeginSweep(_) =>
      exists ids :: Due(l, s.clock, ids) && l' == LapseAll(l, ids)
  }

  /** The ledger's requests are among those ever made. */
  ghost predicate Known(s: State, l: Ledger) {
    forall id :: id in l.active || id in l.archived ==> id in s.past.expiry
  }

  ghost predicate Books(s: State, l: Ledger) {
    Shows(s, l) && Sound(l) && Known(s, l)
  }

  /** Sound, and only of requests once made, is all the ledger needs to stay so. */
  lemma SubmitDoes(c: Config, s: State, l: Ledger, id: Id, agent: Name, s': State) returns (l': Ledger)
    requires Sound(l) && Known(s, l) && id !in s.past.expiry && id in s'.past.expiry
    requires forall i :: i in s.past.expiry ==> i in s'.past.expiry
    ensures l' == if |l.active| < c.capacity then Admit(l, Created(c, s, id, agent)) else l
    ensures Sound(l') && Known(s', l')
  {
    l' := if |l.active| < c.capacity then Admit(l, Created(c, s, id, agent)) else l;
    AdmitKeeps(l, Created(c, s, id, agent));
    hide Sound;
  }

  lemma DecideDoes(s: State, l: Ledger, id: Id, decision: Status, s': State) returns (l': Ledger)
    requires Sound(l) && Known(s, l) && s'.past.expiry.Keys == s.past.expiry.Keys
    ensures l' == (if id !in l.active || decision !in {APPROVED, REJECTED} then l
                   else if s.clock >= l.active[id].expiresAt then Lapse(l, id)
                   else Close(l, id, decision, DecisionRecorded(id, decision)))
    ensures Sound(l') && Known(s', l')
  {
    if id !in l.active || decision !in {APPROVED, REJECTED} {
      l' := l;
    } else if s.clock >= l.active[id].expiresAt {
      LapseKeeps(l, id);
      l' := Lapse(l, id);
    } else {
      DecideKeeps(l, id, decision);
      l' := Close(l, id, decision, DecisionRecorded(id, decision));
    }
    hide Sound;
  }

  lemma SweepDoes(s: State, l: Ledger, ids: seq<Id>, s': State) returns (l': Ledger)
    requires Sound(l) && Known(s, l) && Due(l, s.clock, ids) && s'.past.expiry.Keys == s.past.expiry.Keys
    ensures l' == LapseAll(l, ids) && Sound(l') && Known(s', l')
  {
    l' := LapseAll(l, ids);
    LapseAllKeeps(l, ids);
    LapseAllResult(l, ids);
    hide Sound;
  }

  lemma SubmitBooks(c: Config, s: State, l: Ledger, t: TaskId, id: Id, agent: Name, rest: seq<Step>) returns (l': Ledger)
    requires c.backend == InMemory && Books(s, l)
    requires Enabled(c, s, BeginSubmit(t, id, agent)) && AllOngoing(rest, t)
    requires Feasible(c, Next(c, s, BeginSubmit(t, id, agent)), rest)
    requires Done(Run(c, Next(c, s, BeginSubmit(t, id, agent)), rest), t)
    ensures Does(c, s, BeginSubmit(t, id, agent), l, l')
    ensures Books(Run(c, Next(c, s, BeginSubmit(t, id, agent)), rest), l')
  {
    var s1, s' := SubmitAlone(c, s, l, t, id, agent);
    hide Shows, Sound, Solo, AllOngoing, Next, Known;
    OnlyEnd(c, s1, t, s', rest);
    l' := SubmitDoes(c, s, l, id, agent, s');
  }

  lemma DecideBooks(c: Config, s: State, l: Ledger, t: TaskId, id: Id, decision: Status, rest: seq<Step>) returns (l': Ledger)
    requires c.backend == InMemory && Books(s, l)
    requires Enabled(c, s, BeginDecide(t, id, decision)) && AllOngoing(rest, t)
    requires Feasible(c, Next(c, s, BeginDecide(t, id, decision)), rest)
    requires Done(Run(c, Next(c, s, BeginDecide(t, id, decision)), rest), t)
    ensures Does(c, s, BeginDecide(t, id, decision), l, l')
    ensures Books(Run(c, Next(c, s, BeginDecide(t, id, decision)), rest), l')
  {
    var s1, s' := DecideAlone(c, s, l, t, id, decision);
    hide Shows, Sound, Solo, AllOngoing, Next, Known;
    OnlyEnd(c, s1, t, s', rest);
    l' := DecideDoes(s, l, id, decision, s');
  }

  /** The second step of a sweep is to enter the lock, the third to list what is due, in some order. */
  lemma SweepOpens(c: Config, s: State, t: TaskId, rest: seq<Step>)
    requires t in s.tasks && s.lock == None && s.tasks[t].Snapshotting? && !s.tasks[t].holding
    requires AllOngoing(rest, t) && Feasible(c, s, rest) && Done(Run(c, s, rest), t)
    ensures rest != [] && rest[0] == Acquire(t)
  {
    if rest != [] {
      assert rest[0] in rest;
      OneWay(c, s, t, Acquire(t), rest[0]);
    }
  }

  lemma SweepLists(c: Config, s: State, t: TaskId, l: Ledger, now: int, rest: seq<Step>)
    requires t in s.tasks && s.tasks[t] == Snapshotting(true, now) && Indexed(s.store.index, l.active)
    requires AllOngoing(rest, t) && Feasible(c, s, rest) && Done(Run(c, s, rest), t)
    ensures rest != [] && rest[0].List? && rest[0].t == t && Due(l, now, rest[0].ids)
  {
    if rest != [] {
      assert rest[0] in rest && Ongoing(rest[0], t);
      assert rest[0].List?;
      forall id ensures id in rest[0].ids <==> id in l.active && l.active[id].expiresAt <= now {
        assert id in s.store.index <==> id in l.active;
      }
    }
  }

  lemma OngoingRest(rest: seq<Step>, t: TaskId)
    requires AllOngoing(rest, t) && rest != []
    ensures AllOngoing(rest[1..], t)
  {
  }

  lemma SweepStarts(c: Config, s: State, t: TaskId)
    requires Enabled(c, s, BeginSweep(t))
    ensures var s1 := Next(c, s, BeginSweep(t));
      t in s1.tasks && s1.tasks[t] == Snapshotting(false, s.clock) && s1.lock == s.lock
  {
  }

  lemma SweepBooks(c: Config, s: State, l: Ledger, t: TaskId, rest: seq<Step>) returns (l': Ledger)
    requires c.backend == InMemory && Books(s, l)
    requires Enabled(c, s, BeginSweep(t)) && AllOngoing(rest, t)
    requires Feasible(c, Next(c, s, BeginSweep(t)), rest)
    requires Done(Run(c, Next(c, s, BeginSweep(t)), rest), t)
    ensures Does(c, s, BeginSweep(t), l, l')
    ensures Books(Run(c, Next(c, s, BeginSweep(t)), rest), l')
  {
    var s1, s2 := SweepLooks(c, s, l, t);
    SweepStarts(c, s, t);
    assert Indexed(s.store.index, l.active) && s.lock == None;
    hide Shows, Sound, Solo, AllOngoing, Next, Enabled, Known, Due, Indexed;
    SweepOpens(c, s1, t, rest);
    OngoingRest(rest, t);
    SweepLists(c, s2, t, l, s.clock, rest[1..]);
    OngoingRest(rest[1..], t);
    var ids := rest[1].ids;
    var s3, s' := SweepAlone(c, s, l, t, s2, ids);
    assert rest[1..][0] == rest[1] && rest[1..][1..] == rest[2..];
    OnlyEnd(c, s3, t, s', rest[2..]);
    l' := SweepDoes(s, l, ids, s');
  }

  /** One whole call takes a state that shows a sound ledger to one that shows what the call makes of it. */
  lemma CallBooks(c: Config, s: State, l: Ledger, first: Step, rest: seq<Step>, t: TaskId) returns (l': Ledger)
    requires c.backend == InMemory && Books(s, l) && WholeCall(c, s, first, rest, t)
    ensures Does(c, s, first, l, l') && Books(Run(c, Next(c, s, first), rest), l')
  {
    hide Books, Next, Enabled, Done, AllOngoing, Does;
    match first
    case BeginSubmit(_, id, agent) => l' := SubmitBooks(c, s, l, t, id, agent, rest);
    case BeginDecide(_, id, decision) => l' := DecideBooks(c, s, l, t, id, decision, rest);
    case BeginSweep(_) => l' := SweepBooks(c, s, l, t, rest);
  }

  /** A history of calls that do not overlap, and of waiting in between. */
  datatype Event = Wait(seconds: nat) | Call(t: TaskId, first: Step, rest: seq<Step>)

  predicate Happens(c: Config, s: State, e: Event) {
    e.Call? ==> WholeCall(c, s, e.first, e.rest, e.t)
  }

  function After(c: Config, s: State, e: Event): State
    requires Happens(c, s, e)
  {
    match e
    case Wait(seconds) => Next(c, s, Tick(seconds))
    case Call(_, first, rest) => Run(c, Next(c, s, first), rest)
  }

  predicate Sequential(c: Config, s: State, events: seq<Event>)
    decreases |events|
  {
    events == [] || (Happens(c, s, events[0]) && Sequential(c, After(c, s, events[0]), events[1..]))
  }

  function Final(c: Config, s: State, events: seq<Event>): State
    requires Sequential(c, s, events)
    decreases |events|
  {
    if events == [] then s else Final(c, After(c, s, events[0]), events[1..])
  }

  lemma WaitBooks(c: Config, s: State, l: Ledger, seconds: nat)
    requires Books(s, l)
    ensures Books(Next(c, s, Tick(seconds)), l)
  {
    hide Holds, Indexed, Below, Sound;
  }

  lemma {:induction false} SequentialBooks(c: Config, s: State, l: Ledger, events: seq<Event>) returns (l': Ledger)
    requires c.backend == InMemory && Books(s, l) && Sequential(c, s, events)
    ensures Books(Final(c, s, events), l')
    decreases |events|
  {
    hide Books, Next, WholeCall;
    if events == [] {
      l' := l;
    } else {
      var l1 := l;
      match events[0] {
        case Wait(seconds) => WaitBooks(c, s, l, seconds);
        case Call(t, first, rest) => l1 := CallBooks(c, s, l, first, rest, t);
      }
      l' := SequentialBooks(c, After(c, s, events[0]), l1, events[1..]);
    }
  }

  /** So after any calls that follow one another the state is the books of a ledger. */
  lemma HistoryIsLedger(c: Config, events: seq<Event>) returns (l: Ledger)
    requires c.backend == InMemory && Sequential(c, Start, events)
    ensures Books(Final(c, Start, events), l)
  {
    l := Ledger(map[], map[], map[], []);
    assert forall a :: PendingOf(l, a) == {};
    l := SequentialBooks(c, Start, l, events);
  }
}
