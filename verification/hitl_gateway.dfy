/**
 The gateway over the in-memory store, one call at a time: the dictionaries, the gauge and the audit log
 change in place. Audit and broker calls succeed here; what happens when calls overlap or fail, and when
 callers share the stored objects, is the subject of the protocol.
 */
module HitlGateway {
  import opened Maybe
  import opened HitlProtocol
  import opened HitlLedger

  datatype DecisionResult = Recorded | NotFound | NotPending | BadDecision | TooLate

  class HITLGateway {
    const timeout: int
    const capacity: nat
    var active: map<Id, Request>
    var archived: map<Id, Request>
    var gauge: map<Name, int>
    var audit: seq<Record>

    function Book(): Ledger
      reads this
    {
      Ledger(active, archived, gauge, audit)
    }

    /** Between calls the book is sound, and no more than `capacity` requests are active. */
    ghost predicate Valid()
      reads this
    {
      Sound(Book()) && |active| <= capacity
    }

    constructor (timeout: int, capacity: nat)
      ensures this.timeout == timeout && this.capacity == capacity
      ensures Valid() && Book() == Ledger(map[], map[], map[], [])
    {
      this.timeout, this.capacity := timeout, capacity;
      active, archived, gauge, audit := map[], map[], map[], [];
      new;
      assert forall agent :: PendingOf(Book(), agent) == {};
    }

    /** Stamps a fresh request and admits it if there is room. */
    method SubmitForApproval(id: Id, agent: Name, now: int) returns (admitted: bool)
      requires Valid() && id !in active && id !in archived
      modifies this
      ensures Valid() && admitted == (|old(active)| < capacity)
      ensures Book() == if admitted then Admit(old(Book()), Request(id, agent, now + timeout, PENDING)) else old(Book())
    {
      if |active| >= capacity { return false; }
      var request := Request(id, agent, now + timeout, PENDING);
      AdmitKeeps(Book(), request);
      OneMore(active, id, request);
      active := active[id := request];
      gauge := gauge[agent := (if agent in gauge then gauge[agent] else 0) + 1];
      audit := audit + [RequestSubmitted(id)];
      return true;
    }

    /** An active request takes a terminal status, leaves the gauge, is audited and archived. */
    method Settle(id: Id, status: Status, r: Record)
      requires id in active
      modifies this
      ensures Book() == Close(old(Book()), id, status, r) && |active| <= |old(active)|
    {
      var request := active[id].(status := status);
      OneLess(active, id);
      gauge := gauge[request.agent := (if request.agent in gauge then gauge[request.agent] else 0) - 1];
      audit := audit + [r];
      active := active - {id};
      archived := archived[id := request];
    }

    /** A decision on a pending request, unless there is none, it is no decision, or it comes too late. */
    method RecordDecision(id: Id, decision: Status, now: int) returns (result: DecisionResult)
      requires Valid()
      modifies this
      ensures Valid()
      ensures result == (if id !in old(active) then NotFound
                         else if decision !in {APPROVED, REJECTED} then BadDecision
                         else if now >= old(active)[id].expiresAt then TooLate
                         else Recorded)
      ensures Book() == match result
                        case Recorded => Close(old(Book()), id, decision, DecisionRecorded(id, decision))
                        case TooLate => Lapse(old(Book()), id)
                        case _ => old(Book())
    {
      if id !in active { return NotFound; }
      if active[id].status != PENDING { return NotPending; }
      if decision !in {APPROVED, REJECTED} { return BadDecision; }
      if now >= active[id].expiresAt {
        LapseKeeps(Book(), id);
        Settle(id, EXPIRED, RequestExpired(id));
        return TooLate;
      }
      DecideKeeps(Book(), id, decision);
      Settle(id, decision, DecisionRecorded(id, decision));
      return Recorded;
    }

    /** The sweep: a snapshot of the stale requests, then one after another is expired, audited and archived. */
    method ExpireStaleRequests(now: int) returns (expiredIds: seq<Id>)
      requires Valid()
      modifies this
      ensures Valid()
      ensures Distinct(expiredIds)
      ensures forall id :: id in expiredIds <==> id in old(active) && now >= old(active)[id].expiresAt
      ensures Book() == LapseAll(old(Book()), expiredIds)
    {
      var candidates := set id | id in active && active[id].status == PENDING && now >= active[id].expiresAt;
      ghost var start := Book();
      expiredIds := [];
      var todo := candidates;
      while todo != {}
        invariant todo <= candidates && (forall id :: id in expiredIds <==> id in candidates && id !in todo)
        invariant Distinct(expiredIds)
        invariant |active| <= capacity && Book() == LapseAll(start, expiredIds)
      {
        var id :| id in todo;
        LapseOneMore(start, expiredIds, id);
        Settle(id, EXPIRED, RequestExpired(id));
        expiredIds := expiredIds + [id];
        todo := todo - {id};
      }
      LapseAllKeeps(start, expiredIds);
    }
  }

  lemma OneMore(m: map<Id, Request>, id: Id, q: Request)
    requires id !in m
    ensures |m[id := q]| == |m| + 1
  {
    assert m[id := q].Keys == m.Keys + {id};
    assert |m[id := q].Keys| == |m.Keys| + 1;
  }

  lemma OneLess(m: map<Id, Request>, id: Id)
    requires id in m
    ensures |m - {id}| == |m| - 1
  {
    assert (m - {id}).Keys == m.Keys - {id};
    assert |(m - {id}).Keys| == |m.Keys| - 1;
  }
}
