/** What a gateway over the in-memory store holds, as a value, and what its calls do to it one at a time. */
module HitlLedger {
  import opened Maybe
  import opened HitlProtocol

  datatype Ledger = Ledger(
    active: map<Id, Request>, archived: map<Id, Request>, gauge: map<Name, int>, audit: seq<Record>)

  function Gauge(l: Ledger, agent: Name): int {
    if agent in l.gauge then l.gauge[agent] else 0
  }

  function Bump(l: Ledger, agent: Name, delta: int): map<Name, int> {
    l.gauge[agent := Gauge(l, agent) + delta]
  }

  function Admit(l: Ledger, q: Request): Ledger {
    l.(active := l.active[q.id := q], gauge := Bump(l, q.agent, 1), audit := l.audit + [RequestSubmitted(q.id)])
  }

  /** A request leaves the active ones with a terminal status; `r` is the record that says why. */
  function Close(l: Ledger, id: Id, status: Status, r: Record): Ledger
    requires id in l.active
  {
    Ledger(l.active - {id}, l.archived[id := l.active[id].(status := status)],
           Bump(l, l.active[id].agent, -1), l.audit + [r])
  }

  function Lapse(l: Ledger, id: Id): Ledger
    requires id in l.active
  {
    Close(l, id, EXPIRED, RequestExpired(id))
  }

  predicate Distinct(ids: seq<Id>) {
    forall i, j :: 0 <= i < j < |ids| ==> ids[i] != ids[j]
  }

  function LapseAll(l: Ledger, ids: seq<Id>): Ledger
    requires forall id :: id in ids ==> id in l.active
    requires Distinct(ids)
    ensures LapseAll(l, ids).active.Keys == l.active.Keys - (set id | id in ids)
    decreases |ids|
  {
    if ids == [] then l
    else
      var last := ids[|ids| - 1];
      var before := ids[..|ids| - 1];
      Lapse(LapseAll(l, before), last)
  }

  /** The requests of one agent that wait for a decision. */
  function PendingOf(l: Ledger, agent: Name): set<Id> {
    PendingIn(l.active, agent)
  }

  function PendingIn(active: map<Id, Request>, agent: Name): set<Id> {
    set id | id in active && active[id].agent == agent && active[id].status == PENDING
  }

  /** How often an id's expiry was audited. */
  function Expiries(l: Ledger, id: Id): nat {
    multiset(l.audit)[RequestExpired(id)]
  }

  /** Each agent's gauge is the number of its pending requests. */
  ghost predicate GaugeExact(l: Ledger) {
    forall agent :: Gauge(l, agent) == |PendingOf(l, agent)|
  }

  /** A request's expiry is audited once if it expired, and never otherwise. */
  ghost predicate ExpiryAuditExact(l: Ledger) {
    forall id :: Expiries(l, id) == if id in l.archived && l.archived[id].status == EXPIRED then 1 else 0
  }

  ghost predicate Ordered(l: Ledger) {
    && (forall id :: id in l.active ==> l.active[id].id == id && l.active[id].status == PENDING && id !in l.archived)
    && (forall id :: id in l.archived ==> l.archived[id].id == id && l.archived[id].status != PENDING)
  }

  /** What holds between calls. */
  ghost predicate Sound(l: Ledger) {
    Ordered(l) && GaugeExact(l) && ExpiryAuditExact(l)
  }

  lemma PendingGrows(active: map<Id, Request>, q: Request, agent: Name)
    requires q.id !in active && q.status == PENDING
    ensures |PendingIn(active[q.id := q], agent)| == |PendingIn(active, agent)| + if agent == q.agent then 1 else 0
  {
    var more := active[q.id := q];
    assert PendingIn(more, agent) == PendingIn(active, agent) + if agent == q.agent then {q.id} else {};
  }

  lemma PendingShrinks(active: map<Id, Request>, id: Id, agent: Name)
    requires id in active && active[id].status == PENDING
    ensures |PendingIn(active - {id}, agent)| == |PendingIn(active, agent)| - if agent == active[id].agent then 1 else 0
  {
    var fewer := active - {id};
    assert PendingIn(active, agent) == PendingIn(fewer, agent) + if agent == active[id].agent then {id} else {};
  }

  lemma AdmitKeepsGauge(l: Ledger, q: Request)
    requires GaugeExact(l) && q.id !in l.active && q.status == PENDING
    ensures GaugeExact(Admit(l, q))
  {
    hide PendingIn;
    forall agent ensures Gauge(Admit(l, q), agent) == |PendingOf(Admit(l, q), agent)| {
      assert Gauge(l, agent) == |PendingOf(l, agent)|;
      PendingGrows(l.active, q, agent);
    }
  }

  lemma AdmitKeeps(l: Ledger, q: Request)
    requires Sound(l) && q.id !in l.active && q.id !in l.archived && q.status == PENDING
    ensures Sound(Admit(l, q))
  {
    AdmitKeepsGauge(l, q);
    hide GaugeExact;
    var l' := Admit(l, q);
    forall id ensures Expiries(l', id) == Expiries(l, id) {
    }
  }

  lemma CloseKeepsGauge(l: Ledger, id: Id, status: Status, r: Record)
    requires Ordered(l) && GaugeExact(l) && id in l.active && status != PENDING
    ensures Ordered(Close(l, id, status, r)) && GaugeExact(Close(l, id, status, r))
  {
    hide PendingIn;
    forall agent ensures Gauge(Close(l, id, status, r), agent) == |PendingOf(Close(l, id, status, r), agent)| {
      assert Gauge(l, agent) == |PendingOf(l, agent)|;
      PendingShrinks(l.active, id, agent);
    }
  }

  lemma DecideKeeps(l: Ledger, id: Id, decision: Status)
    requires Sound(l) && id in l.active && decision in {APPROVED, REJECTED}
    ensures Sound(Close(l, id, decision, DecisionRecorded(id, decision)))
  {
    var l' := Close(l, id, decision, DecisionRecorded(id, decision));
    CloseKeepsGauge(l, id, decision, DecisionRecorded(id, decision));
    forall i ensures Expiries(l', i) == if i in l'.archived && l'.archived[i].status == EXPIRED then 1 else 0 {
      assert Expiries(l', i) == Expiries(l, i);
    }
  }

  lemma LapseKeeps(l: Ledger, id: Id)
    requires Sound(l) && id in l.active
    ensures Sound(Lapse(l, id))
  {
    var l' := Lapse(l, id);
    CloseKeepsGauge(l, id, EXPIRED, RequestExpired(id));
    forall i ensures Expiries(l', i) == if i in l'.archived && l'.archived[i].status == EXPIRED then 1 else 0 {
      assert Expiries(l', i) == Expiries(l, i) + if i == id then 1 else 0;
    }
  }

  lemma LapseOneMore(l: Ledger, ids: seq<Id>, id: Id)
    requires Distinct(ids) && (forall i :: i in ids ==> i in l.active) && id in l.active && id !in ids
    ensures Distinct(ids + [id]) && id in LapseAll(l, ids).active
    ensures LapseAll(l, ids + [id]) == Lapse(LapseAll(l, ids), id)
  {
    assert (ids + [id])[..|ids|] == ids;
  }

  lemma {:induction false} LapseAllKeeps(l: Ledger, ids: seq<Id>)
    requires Sound(l)
    requires forall id :: id in ids ==> id in l.active
    requires Distinct(ids)
    ensures Sound(LapseAll(l, ids))
    decreases |ids|
  {
    if ids != [] {
      var before := ids[..|ids| - 1];
      LapseAllKeeps(l, before);
      assert ids[|ids| - 1] !in before;
      LapseKeeps(LapseAll(l, before), ids[|ids| - 1]);
    }
  }

  /** The order in which a sweep meets the stale requests does not matter to what becomes of them. */
  lemma {:induction false} LapseAllResult(l: Ledger, ids: seq<Id>)
    requires forall id :: id in ids ==> id in l.active
    requires Distinct(ids)
    ensures forall id :: id in LapseAll(l, ids).active ==> id !in ids && LapseAll(l, ids).active[id] == l.active[id]
    ensures forall id :: id in l.active && id !in ids ==> id in LapseAll(l, ids).active
    ensures forall id :: id in ids ==>
              id in LapseAll(l, ids).archived && LapseAll(l, ids).archived[id] == l.active[id].(status := EXPIRED)
    ensures forall id :: id !in ids && id in l.archived ==>
              id in LapseAll(l, ids).archived && LapseAll(l, ids).archived[id] == l.archived[id]
    ensures forall id :: id !in ids && id in LapseAll(l, ids).archived ==> id in l.archived
    decreases |ids|
  {
    if ids != [] {
      var last := ids[|ids| - 1];
      var before := ids[..|ids| - 1];
      LapseAllResult(l, before);
      assert ids == before + [last] && last !in before;
    }
  }
}
