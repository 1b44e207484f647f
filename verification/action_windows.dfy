/** Which intervals of time the limits bound: aligned ones, and only those. */
module ActionWindows {
  import opened ActionLimits
  import opened ActionRuns

  /** Actions of this agent allowed from time `from` until just before time `to`. */
  function AllowedDuring(limits: Limits, calls: seq<Call>, agent: string, from: nat, to: nat): nat {
    if calls == [] then 0
    else
      var last := calls[|calls| - 1];
      AllowedDuring(limits, calls[..|calls| - 1], agent, from, to)
        + (if last.agent == agent && from <= last.now < to && Allowed(limits, calls) then 1 else 0)
  }

  /** What a limit lets through: a negative one stops everything, as zero does. */
  function Room(limits: Limits, w: Window): nat {
    if Limit(limits, w) > 0 then Limit(limits, w) else 0
  }

  /** The first boundary between buckets of this window after `from`. */
  function Boundary(w: Window, from: nat): nat {
    (from / Size(w) + 1) * Size(w)
  }

  // ----- bounds -----

  lemma {:induction false} InOneBucket(limits: Limits, calls: seq<Call>, agent: string, w: Window, from: nat, to: nat)
    requires forall t: nat :: from <= t < to ==> t / Size(w) == from / Size(w)
    ensures AllowedDuring(limits, calls, agent, from, to) <= AllowedIn(limits, calls, KeyAt(agent, w, from))
  {
    hide Allowed;
    if calls != [] {
      InOneBucket(limits, calls[..|calls| - 1], agent, w, from, to);
    }
  }

  /** Whatever lies within one bucket of a window is bounded by its limit. */
  lemma BucketsBound(limits: Limits, calls: seq<Call>, agent: string, w: Window, from: nat, to: nat)
    requires WellTimed(calls)
    requires forall t: nat :: from <= t < to ==> t / Size(w) == from / Size(w)
    ensures AllowedDuring(limits, calls, agent, from, to) <= Room(limits, w)
  {
    InOneBucket(limits, calls, agent, w, from, to);
    BucketBound(limits, calls, KeyAt(agent, w, from));
  }

  lemma {:induction false} DuringAddsUp(limits: Limits, calls: seq<Call>, agent: string, from: nat, mid: nat, to: nat)
    requires from <= mid <= to
    ensures AllowedDuring(limits, calls, agent, from, to)
         == AllowedDuring(limits, calls, agent, from, mid) + AllowedDuring(limits, calls, agent, mid, to)
  {
    hide Allowed;
    if calls != [] {
      DuringAddsUp(limits, calls[..|calls| - 1], agent, from, mid, to);
    }
  }

  lemma QuotientAt(t: nat, q: nat, w: Window)
    requires q * Size(w) <= t < (q + 1) * Size(w)
    ensures t / Size(w) == q
  {
    match w
    case Minute =>
    case Hour =>
    case Day =>
  }

  lemma AroundBoundary(w: Window, from: nat)
    ensures from < Boundary(w, from) <= from + Size(w)
    ensures Boundary(w, from) == from + Size(w) <==> from % Size(w) == 0
    ensures forall t: nat :: from <= t < Boundary(w, from) ==> t / Size(w) == from / Size(w)
    ensures forall t: nat :: Boundary(w, from) <= t < from + Size(w) ==> t / Size(w) == Boundary(w, from) / Size(w)
  {
    var q, size := from / Size(w), Size(w);
    assert from == q * size + from % size;
    assert (q + 1) * size == q * size + size && (q + 2) * size == q * size + 2 * size;
    forall t: nat | from <= t < Boundary(w, from) ensures t / size == q {
      QuotientAt(t, q, w);
    }
    forall t: nat | Boundary(w, from) <= t < from + size ensures t / size == Boundary(w, from) / size {
      QuotientAt(t, q + 1, w);
      QuotientAt(Boundary(w, from), q + 1, w);
    }
  }

  lemma BoundaryOfShorter(w: Window, from: nat, v: Window)
    requires Size(v) <= Size(w)
    ensures Boundary(w, from) % Size(v) == 0
  {
    var q, times := from / Size(w) + 1, Size(w) / Size(v);
    assert Size(w) == times * Size(v);
    QuotientAt(q * Size(w), q * times, v);
  }

  /** Over an interval that starts with a bucket, the limit holds. */
  lemma AlignedBound(limits: Limits, calls: seq<Call>, agent: string, w: Window, from: nat)
    requires WellTimed(calls)
    requires from % Size(w) == 0
    ensures AllowedDuring(limits, calls, agent, from, from + Size(w)) <= Room(limits, w)
  {
    AroundBoundary(w, from);
    BucketsBound(limits, calls, agent, w, from, from + Size(w));
  }

  /** Over an interval that starts anywhere, twice the limit does. */
  lemma SlidingBound(limits: Limits, calls: seq<Call>, agent: string, w: Window, from: nat)
    requires WellTimed(calls)
    ensures AllowedDuring(limits, calls, agent, from, from + Size(w)) <= 2 * Room(limits, w)
  {
    var boundary := Boundary(w, from);
    AroundBoundary(w, from);
    DuringAddsUp(limits, calls, agent, from, boundary, from + Size(w));
    BucketsBound(limits, calls, agent, w, from, boundary);
    BucketsBound(limits, calls, agent, w, boundary, from + Size(w));
  }

  // ----- exactly the aligned intervals -----

  function CheckAt(agent: string, now: nat): Call {
    Call(true, agent, now, now, Answered)
  }

  lemma IncrementsOneMore(calls: seq<Call>, last: Call, key: Key)
    ensures Increments([], key) == 0
    ensures Increments(calls + [last], key)
         == Increments(calls, key) + (if Touches(last, key) && !last.delivery.Lost? then 1 else 0)
  {
    assert (calls + [last])[..|calls|] == calls;
  }

  lemma AllowedOneMore(limits: Limits, calls: seq<Call>, last: Call, from: nat, to: nat)
    requires from <= last.now < to && Allowed(limits, calls + [last])
    ensures AllowedDuring(limits, calls + [last], last.agent, from, to)
         == AllowedDuring(limits, calls, last.agent, from, to) + 1
  {
    assert (calls + [last])[..|calls|] == calls;
  }

  /** A check that finds room in all its buckets is allowed. */
  lemma CheckAllowed(limits: Limits, calls: seq<Call>, agent: string, now: nat)
    requires WellTimed(calls + [CheckAt(agent, now)])
    requires forall w: Window :: Increments(calls, KeyAt(agent, w, now)) + 1 <= Limit(limits, w)
    ensures Allowed(limits, calls + [CheckAt(agent, now)])
  {
    hide Increments, WellTimed, Allowed;
    DecisionIsExact(limits, calls + [CheckAt(agent, now)]);
    forall w: Window
      ensures Increments(calls + [CheckAt(agent, now)], KeyAt(agent, w, now)) <= Limit(limits, w)
    {
      IncrementsOneMore(calls, CheckAt(agent, now), KeyAt(agent, w, now));
    }
  }

  lemma SameBucket(boundary: nat, w: Window)
    requires boundary > 0
    ensures (boundary - 1) / Size(w) == boundary / Size(w) <==> boundary % Size(w) != 0
  {
  }

  /** Two checks on either side of a boundary: the longer windows count both, the others one each. */
  lemma RoomForTwo(limits: Limits, agent: string, w: Window, from: nat, boundary: nat)
    requires boundary == Boundary(w, from)
    requires forall v: Window :: Limit(limits, v) >= if Size(v) > Size(w) then 2 else 1
    ensures forall v: Window :: Increments([], KeyAt(agent, v, boundary - 1)) + 1 <= Limit(limits, v)
    ensures forall v: Window :: Increments([CheckAt(agent, boundary - 1)], KeyAt(agent, v, boundary)) + 1 <= Limit(limits, v)
  {
    var first := CheckAt(agent, boundary - 1);
    forall v: Window | Size(v) <= Size(w) ensures boundary % Size(v) == 0 {
      BoundaryOfShorter(w, from, v);
    }
    hide Boundary, Increments;
    assert [] + [first] == [first];
    forall v: Window
      ensures Increments([], KeyAt(agent, v, boundary - 1)) + 1 <= Limit(limits, v)
      ensures Increments([first], KeyAt(agent, v, boundary)) + 1 <= Limit(limits, v)
    {
      IncrementsOneMore([], first, KeyAt(agent, v, boundary - 1));
      IncrementsOneMore([], first, KeyAt(agent, v, boundary));
      SameBucket(boundary, v);
    }
  }

  /** One check just before a boundary and one just after it: both are allowed where the longer windows take two. */
  lemma TwoAround(limits: Limits, agent: string, w: Window, from: nat)
    requires from % Size(w) != 0
    requires forall v: Window :: Limit(limits, v) >= if Size(v) > Size(w) then 2 else 1
    ensures exists calls :: WellTimed(calls) && AllowedDuring(limits, calls, agent, from, from + Size(w)) == 2
  {
    var boundary := Boundary(w, from);
    AroundBoundary(w, from);
    RoomForTwo(limits, agent, w, from, boundary);
    var first, second := CheckAt(agent, boundary - 1), CheckAt(agent, boundary);
    TwoWellTimed(agent, boundary);
    hide WellTimed, Allowed, Increments, AllowedDuring, Boundary, CheckAt, Room, Limit;
    CheckAllowed(limits, [], agent, boundary - 1);
    CheckAllowed(limits, [first], agent, boundary);
    TwoAllowed(limits, agent, first, second, from, from + Size(w));
  }

  lemma TwoWellTimed(agent: string, boundary: nat)
    requires boundary > 0
    ensures WellTimed([] + [CheckAt(agent, boundary - 1)])
    ensures WellTimed([CheckAt(agent, boundary - 1)] + [CheckAt(agent, boundary)])
  {
  }

  lemma TwoAllowed(limits: Limits, agent: string, first: Call, second: Call, from: nat, to: nat)
    requires from <= first.now < to && from <= second.now < to && first.agent == agent == second.agent
    requires Allowed(limits, [] + [first]) && Allowed(limits, [first] + [second])
    ensures AllowedDuring(limits, [first] + [second], agent, from, to) == 2
  {
    hide Allowed;
    NothingAllowed(limits, agent, from, to);
    AllowedOneMore(limits, [], first, from, to);
    assert [] + [first] == [first];
    AllowedOneMore(limits, [first], second, from, to);
  }

  lemma NothingAllowed(limits: Limits, agent: string, from: nat, to: nat)
    ensures AllowedDuring(limits, [], agent, from, to) == 0
  {
  }

  /** Over an interval of the window's length that starts at `from`, the run keeps to the limit. */
  predicate KeepsTo(limits: Limits, calls: seq<Call>, agent: string, w: Window, from: nat) {
    AllowedDuring(limits, calls, agent, from, from + Size(w)) <= Room(limits, w)
  }

  /** The limit holds over an interval, in every run and under all limits, exactly when it is aligned. */
  lemma AlignedExactly(w: Window, from: nat)
    ensures from % Size(w) == 0
        <==> (forall limits, calls, agent :: WellTimed(calls) ==> KeepsTo(limits, calls, agent, w, from))
  {
    hide WellTimed, AllowedDuring;
    if from % Size(w) == 0 {
      forall limits, calls, agent | WellTimed(calls) ensures KeepsTo(limits, calls, agent, w, from) {
        AlignedBound(limits, calls, agent, w, from);
      }
    } else {
      var limits := Limits(if w.Minute? then 1 else 2, if w.Hour? then 1 else 2, if w.Day? then 1 else 2);
      TwoAround(limits, "agent", w, from);
      var calls :| WellTimed(calls) && AllowedDuring(limits, calls, "agent", from, from + Size(w)) == 2;
      assert !KeepsTo(limits, calls, "agent", w, from);
    }
  }
}
