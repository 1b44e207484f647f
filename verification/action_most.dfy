/** The most actions that given limits allow in a given interval of time. */
module ActionMost {
  import opened ActionLimits
  import opened ActionRuns
  import opened ActionWindows

  // ----- the most there can be -----

  /** A window in minutes. */
  function Minutes(w: Window): (m: nat)
    ensures m > 0 && Size(w) == 60 * m
  {
    match w
    case Minute => 1
    case Hour => 60
    case Day => 1440
  }

  /** The bucket that minute `i` is in. */
  function BucketOf(w: Window, i: nat): nat {
    i / Minutes(w)
  }

  function Rank(w: Window): nat {
    match w
    case Minute => 0
    case Hour => 1
    case Day => 2
  }

  function Shorter(w: Window): (v: Window)
    requires !w.Minute?
    ensures Rank(v) + 1 == Rank(w)
  {
    if w.Hour? then Minute else Hour
  }

  function Min(x: nat, y: nat): nat {
    if x < y then x else y
  }

  /** The minute at which the bucket of minute `a` ends, or `b` if that comes first. */
  function BucketEnd(w: Window, a: nat, b: nat): (e: nat)
    requires a < b
    ensures a < e <= b
  {
    var next := (BucketOf(w, a) + 1) * Minutes(w);
    assert a < next;
    Min(b, next)
  }

  /** The most that the minutes from `a` to `e` take, all in one bucket of this window. */
  function InBucket(limits: Limits, w: Window, a: nat, e: nat): nat
    requires a <= e
    decreases Rank(w), e - a, 0
  {
    if w.Minute? then Room(limits, w) else Min(Room(limits, w), Most(limits, Shorter(w), a, e))
  }

  /** The most that the minutes from `a` to `b` take, by the limits of this window and of all shorter ones. */
  function Most(limits: Limits, w: Window, a: nat, b: nat): nat
    requires a <= b
    decreases Rank(w), b - a, 1
  {
    if a == b then 0
    else
      var e := BucketEnd(w, a, b);
      InBucket(limits, w, a, e) + Most(limits, w, e, b)
  }

  // ----- no run allows more -----

  /** The moment of an interval at which minute `i` begins. */
  function Moment(from: nat, to: nat, i: nat): nat {
    var t := if from < 60 * i then 60 * i else from;
    Min(t, to)
  }

  lemma MinutesOfBucket(w: Window, a: nat, b: nat, t: nat)
    requires a < b && 60 * a <= t < 60 * BucketEnd(w, a, b)
    ensures t / Size(w) == BucketOf(w, a)
  {
    var q, m := BucketOf(w, a), Minutes(w);
    assert q * m <= a;
    assert 60 * (q * m) == q * Size(w) && 60 * ((q + 1) * m) == (q + 1) * Size(w);
    QuotientAt(t, q, w);
  }

  lemma BucketKeeps(limits: Limits, calls: seq<Call>, agent: string, w: Window, from: nat, to: nat, a: nat, b: nat)
    requires WellTimed(calls) && from <= to && a < b
    ensures AllowedDuring(limits, calls, agent, Moment(from, to, a), Moment(from, to, BucketEnd(w, a, b))) <= Room(limits, w)
  {
    var start, end := Moment(from, to, a), Moment(from, to, BucketEnd(w, a, b));
    forall t: nat | start <= t < end ensures t / Size(w) == start / Size(w) {
      MinutesOfBucket(w, a, b, t);
      MinutesOfBucket(w, a, b, start);
    }
    BucketsBound(limits, calls, agent, w, start, end);
  }

  lemma {:induction false} MostBounds(limits: Limits, calls: seq<Call>, agent: string, w: Window, from: nat, to: nat, a: nat, b: nat)
    requires WellTimed(calls) && from <= to && a <= b
    ensures AllowedDuring(limits, calls, agent, Moment(from, to, a), Moment(from, to, b)) <= Most(limits, w, a, b)
    decreases Rank(w), b - a
  {
    hide WellTimed, AllowedDuring, Room, BucketEnd;
    if a == b {
      NothingDuring(limits, calls, agent, Moment(from, to, a));
    } else {
      var e := BucketEnd(w, a, b);
      DuringAddsUp(limits, calls, agent, Moment(from, to, a), Moment(from, to, e), Moment(from, to, b));
      BucketKeeps(limits, calls, agent, w, from, to, a, b);
      if !w.Minute? { MostBounds(limits, calls, agent, Shorter(w), from, to, a, e); }
      MostBounds(limits, calls, agent, w, from, to, e, b);
    }
  }

  lemma {:induction false} NothingDuring(limits: Limits, calls: seq<Call>, agent: string, t: nat)
    ensures AllowedDuring(limits, calls, agent, t, t) == 0
  {
    hide Allowed;
    if calls != [] { NothingDuring(limits, calls[..|calls| - 1], agent, t); }
  }

  // ----- spreading actions over minutes -----

  function Sum(counts: seq<nat>): nat {
    if counts == [] then 0 else Sum(counts[..|counts| - 1]) + counts[|counts| - 1]
  }

  /** What falls into one bucket, when `counts[i]` actions are made in minute `a + i`. */
  function Load(counts: seq<nat>, a: nat, w: Window, bucket: nat): nat {
    if counts == [] then 0
    else
      var i := |counts| - 1;
      Load(counts[..i], a, w, bucket) + (if BucketOf(w, a + i) == bucket then counts[i] else 0)
  }

  /** No bucket of this window or a shorter one is over its limit. */
  ghost predicate Fits(limits: Limits, counts: seq<nat>, a: nat, w: Window) {
    forall v: Window, bucket: nat :: Rank(v) <= Rank(w) ==> Load(counts, a, v, bucket) <= Room(limits, v)
  }

  lemma {:induction false} LoadAppend(x: seq<nat>, y: seq<nat>, a: nat, w: Window, bucket: nat)
    ensures Sum(x + y) == Sum(x) + Sum(y)
    ensures Load(x + y, a, w, bucket) == Load(x, a, w, bucket) + Load(y, a + |x|, w, bucket)
  {
    if y == [] {
      assert x + y == x;
    } else {
      var z := y[..|y| - 1];
      LoadAppend(x, z, a, w, bucket);
      assert (x + y)[..|x + y| - 1] == x + z;
    }
  }

  lemma {:induction false} LoadAtMostSum(counts: seq<nat>, a: nat, w: Window, bucket: nat)
    ensures Load(counts, a, w, bucket) <= Sum(counts)
  {
    if counts != [] { LoadAtMostSum(counts[..|counts| - 1], a, w, bucket); }
  }

  lemma {:induction false} NoLoad(counts: seq<nat>, a: nat, w: Window, bucket: nat)
    requires forall i: nat :: a <= i < a + |counts| ==> BucketOf(w, i) != bucket
    ensures Load(counts, a, w, bucket) == 0
  {
    if counts != [] { NoLoad(counts[..|counts| - 1], a, w, bucket); }
  }

  /** A bucket's end is the end of a bucket of every shorter window too. */
  lemma BucketsApart(w: Window, v: Window, a: nat, b: nat, i: nat, j: nat)
    requires a < b && Rank(v) <= Rank(w) && a <= i < BucketEnd(w, a, b) <= j < b
    ensures BucketOf(v, i) < BucketOf(v, j)
  {
    var q, times := BucketOf(w, a) + 1, Minutes(w) / Minutes(v);
    var next := q * Minutes(w);
    assert BucketEnd(w, a, b) == next;
    assert Minutes(w) == times * Minutes(v);
    assert next == q * times * Minutes(v);
    AroundMultiple(i, q * times, v);
    AroundMultiple(j, q * times, v);
  }

  lemma AroundMultiple(i: nat, q: nat, w: Window)
    ensures i < q * Minutes(w) <==> BucketOf(w, i) < q
  {
    match w
    case Minute =>
    case Hour =>
    case Day =>
  }

  /** Two stretches on either side of a bucket's end fit together. */
  lemma FitsTogether(limits: Limits, x: seq<nat>, y: seq<nat>, w: Window, a: nat, b: nat)
    requires a < b && a + |x| == BucketEnd(w, a, b) && a + |x| + |y| == b
    requires Fits(limits, x, a, w) && Fits(limits, y, a + |x|, w)
    ensures Fits(limits, x + y, a, w)
  {
    hide BucketEnd, Room, BucketOf, Minutes, Load;
    forall v: Window, bucket: nat | Rank(v) <= Rank(w) ensures Load(x + y, a, v, bucket) <= Room(limits, v) {
      LoadAppend(x, y, a, v, bucket);
      if i: nat :| a <= i < a + |x| && BucketOf(v, i) == bucket {
        forall j: nat | a + |x| <= j < a + |x| + |y| ensures BucketOf(v, j) != bucket {
          BucketsApart(w, v, a, b, i, j);
        }
        NoLoad(y, a + |x|, v, bucket);
      } else {
        NoLoad(x, a, v, bucket);
      }
    }
  }

  /** Whatever is not more than the most can be spread over the minutes so that it fits. */
  lemma {:induction false} Spreads(limits: Limits, w: Window, a: nat, b: nat, n: nat) returns (counts: seq<nat>)
    requires a <= b && n <= Most(limits, w, a, b)
    ensures |counts| == b - a && Sum(counts) == n && Fits(limits, counts, a, w)
    decreases Rank(w), b - a, 1
  {
    hide BucketEnd, Room;
    if a == b {
      counts := [];
    } else {
      var e := BucketEnd(w, a, b);
      var k := Min(n, InBucket(limits, w, a, e));
      hide Most;
      var x := SpreadsInBucket(limits, w, a, b, k);
      var y := Spreads(limits, w, e, b, n - k);
      counts := x + y;
      LoadAppend(x, y, a, w, 0);
      FitsTogether(limits, x, y, w, a, b);
    }
  }

  lemma {:induction false} SpreadsInBucket(limits: Limits, w: Window, a: nat, b: nat, n: nat) returns (counts: seq<nat>)
    requires a < b && n <= InBucket(limits, w, a, BucketEnd(w, a, b))
    ensures a + |counts| == BucketEnd(w, a, b) && Sum(counts) == n && Fits(limits, counts, a, w)
    decreases Rank(w), BucketEnd(w, a, b) - a, 0
  {
    if w.Minute? {
      counts := [n];
      assert Sum([]) == 0 && counts[..0] == [];
    } else {
      counts := Spreads(limits, Shorter(w), a, BucketEnd(w, a, b), n);
    }
    hide BucketEnd, Most, Load;
    forall v: Window, bucket: nat | Rank(v) <= Rank(w) ensures Load(counts, a, v, bucket) <= Room(limits, v) {
      if v == w { LoadAtMostSum(counts, a, v, bucket); }
    }
  }

  // ----- a run that makes them -----

  /** The moment at which the actions of minute `i` are made. */
  function TimeOf(from: nat, i: nat): nat {
    if from < 60 * i then 60 * i else from
  }

  /** All counted checks, minute by minute, each minute's in one second. */
  function Checks(agent: string, from: nat, counts: seq<nat>): seq<Call>
    decreases |counts|, if counts == [] then 0 else counts[|counts| - 1]
  {
    if counts == [] then []
    else
      var i := |counts| - 1;
      if counts[i] == 0 then Checks(agent, from, counts[..i])
      else Checks(agent, from, counts[i := counts[i] - 1]) + [CheckAt(agent, TimeOf(from, from / 60 + i))]
  }

  lemma WellTimedOneMore(calls: seq<Call>, last: Call)
    requires WellTimed(calls) && last.now <= last.at < last.now + 60
    requires forall i :: 0 <= i < |calls| ==> calls[i].at <= last.at
    ensures WellTimed(calls + [last])
  {
  }

  lemma NothingIsWellTimed()
    ensures WellTimed([])
  {
  }

  lemma {:induction false} ChecksTimes(agent: string, from: nat, counts: seq<nat>)
    ensures WellTimed(Checks(agent, from, counts))
    ensures var calls := Checks(agent, from, counts);
      && (calls != [] ==> counts != [])
      && (forall i :: 0 <= i < |calls| ==> calls[i].at <= TimeOf(from, from / 60 + |counts| - 1))
    decreases |counts|, if counts == [] then 0 else counts[|counts| - 1]
  {
    NothingIsWellTimed();
    hide WellTimed;
    if counts != [] {
      var i := |counts| - 1;
      if counts[i] == 0 {
        ChecksTimes(agent, from, counts[..i]);
      } else {
        ChecksTimes(agent, from, counts[i := counts[i] - 1]);
        WellTimedOneMore(Checks(agent, from, counts[i := counts[i] - 1]), CheckAt(agent, TimeOf(from, from / 60 + i)));
      }
    }
  }

  lemma TimeInBucket(from: nat, i: nat, w: Window)
    requires from / 60 <= i
    ensures TimeOf(from, i) / Size(w) == BucketOf(w, i)
  {
    var t, q, m := TimeOf(from, i), BucketOf(w, i), Minutes(w);
    assert 60 * i <= t < 60 * (i + 1);
    assert q * m <= i < (q + 1) * m;
    assert 60 * (q * m) == q * Size(w) && 60 * ((q + 1) * m) == (q + 1) * Size(w);
    QuotientAt(t, q, w);
  }

  lemma LoadLast(counts: seq<nat>, a: nat, w: Window, bucket: nat)
    requires counts != [] && counts[|counts| - 1] > 0
    ensures var i := |counts| - 1;
      Load(counts, a, w, bucket)
        == Load(counts[i := counts[i] - 1], a, w, bucket) + (if BucketOf(w, a + i) == bucket then 1 else 0)
      && Sum(counts) == Sum(counts[i := counts[i] - 1]) + 1
  {
    var i := |counts| - 1;
    assert counts[i := counts[i] - 1][..i] == counts[..i];
  }

  lemma {:induction false} ChecksLoad(agent: string, from: nat, counts: seq<nat>, w: Window, bucket: nat)
    ensures Increments(Checks(agent, from, counts), Key(agent, w, bucket)) == Load(counts, from / 60, w, bucket)
    decreases |counts|, if counts == [] then 0 else counts[|counts| - 1]
  {
    hide Increments, TimeOf, Minutes, BucketOf, Size;
    IncrementsOneMore([], CheckAt(agent, 0), Key(agent, w, bucket));
    if counts != [] {
      var i := |counts| - 1;
      if counts[i] == 0 {
        ChecksLoad(agent, from, counts[..i], w, bucket);
      } else {
        var fewer, last := counts[i := counts[i] - 1], CheckAt(agent, TimeOf(from, from / 60 + i));
        ChecksLoad(agent, from, fewer, w, bucket);
        IncrementsOneMore(Checks(agent, from, fewer), last, Key(agent, w, bucket));
        TimeInBucket(from, from / 60 + i, w);
        LoadLast(counts, from / 60, w, bucket);
      }
    }
  }

  /** Fewer actions fit where more do. */
  lemma FewerFit(limits: Limits, counts: seq<nat>, a: nat, w: Window)
    requires counts != [] && Fits(limits, counts, a, w)
    ensures Fits(limits, counts[..|counts| - 1], a, w)
    ensures counts[|counts| - 1] > 0 ==> Fits(limits, counts[|counts| - 1 := counts[|counts| - 1] - 1], a, w)
  {
    var i := |counts| - 1;
    hide Room, Minutes, BucketOf;
    forall v: Window, bucket: nat | Rank(v) <= Rank(w) ensures Load(counts[..i], a, v, bucket) <= Room(limits, v) {
      assert Load(counts, a, v, bucket) <= Room(limits, v);
    }
    if counts[i] > 0 {
      var fewer := counts[i := counts[i] - 1];
      forall v: Window, bucket: nat | Rank(v) <= Rank(w) ensures Load(fewer, a, v, bucket) <= Room(limits, v) {
        LoadLast(counts, a, v, bucket);
        assert Load(counts, a, v, bucket) <= Room(limits, v);
      }
    }
  }

  lemma LastHasRoom(limits: Limits, agent: string, from: nat, counts: seq<nat>, w: Window)
    requires counts != [] && counts[|counts| - 1] > 0 && Fits(limits, counts, from / 60, Day)
    ensures var i := |counts| - 1;
      Increments(Checks(agent, from, counts[i := counts[i] - 1]), KeyAt(agent, w, TimeOf(from, from / 60 + i))) + 1 <= Limit(limits, w)
  {
    var i := |counts| - 1;
    var bucket := BucketOf(w, from / 60 + i);
    assert Load(counts, from / 60, w, bucket) <= Room(limits, w);
    hide Increments, Checks, TimeOf, Load, BucketOf, Minutes, Size, Limit, Fits;
    TimeInBucket(from, from / 60 + i, w);
    ChecksLoad(agent, from, counts[i := counts[i] - 1], w, bucket);
    LoadLast(counts, from / 60, w, bucket);
  }

  lemma LastAllowed(limits: Limits, agent: string, from: nat, counts: seq<nat>)
    requires counts != [] && counts[|counts| - 1] > 0 && Fits(limits, counts, from / 60, Day)
    ensures Allowed(limits, Checks(agent, from, counts))
  {
    var i := |counts| - 1;
    var fewer, now := counts[i := counts[i] - 1], TimeOf(from, from / 60 + i);
    ChecksTimes(agent, from, counts);
    assert Checks(agent, from, counts) == Checks(agent, from, fewer) + [CheckAt(agent, now)];
    hide *;
    forall w: Window ensures Increments(Checks(agent, from, fewer), KeyAt(agent, w, now)) + 1 <= Limit(limits, w) {
      LastHasRoom(limits, agent, from, counts, w);
    }
    CheckAllowed(limits, Checks(agent, from, fewer), agent, now);
  }

  lemma {:induction false} ChecksDuring(limits: Limits, agent: string, from: nat, to: nat, counts: seq<nat>)
    requires from < to && (counts != [] ==> 60 * (from / 60 + |counts| - 1) < to) && Fits(limits, counts, from / 60, Day)
    ensures AllowedDuring(limits, Checks(agent, from, counts), agent, from, to) == Sum(counts)
    decreases |counts|, if counts == [] then 0 else counts[|counts| - 1]
  {
    hide Allowed, Fits;
    if counts != [] {
      var i := |counts| - 1;
      FewerFit(limits, counts, from / 60, Day);
      if counts[i] == 0 {
        ChecksDuring(limits, agent, from, to, counts[..i]);
      } else {
        var fewer := counts[i := counts[i] - 1];
        ChecksDuring(limits, agent, from, to, fewer);
        LastAllowed(limits, agent, from, counts);
        AllowedOneMore(limits, Checks(agent, from, fewer), CheckAt(agent, TimeOf(from, from / 60 + i)), from, to);
        LoadLast(counts, from / 60, Day, 0);
      }
    }
  }

  // ----- so the bound is exact -----

  /** What the limits let through from `from` until just before `to`. */
  function MostDuring(limits: Limits, from: nat, to: nat): nat
    requires from < to
  {
    Most(limits, Day, from / 60, (to - 1) / 60 + 1)
  }

  /** For any limits and any interval of time: so many actions, and no more, can be allowed in it. */
  lemma MostExactly(limits: Limits, agent: string, from: nat, to: nat, n: nat)
    requires from < to
    ensures (exists calls :: WellTimed(calls) && AllowedDuring(limits, calls, agent, from, to) == n)
        <==> n <= MostDuring(limits, from, to)
  {
    var a, b := from / 60, (to - 1) / 60 + 1;
    assert Moment(from, to, a) == from && Moment(from, to, b) == to;
    hide WellTimed, AllowedDuring, Most, Fits, Checks, Sum;
    if n <= MostDuring(limits, from, to) {
      var counts := Spreads(limits, Day, a, b, n);
      ChecksTimes(agent, from, counts);
      ChecksDuring(limits, agent, from, to, counts);
      assert AllowedDuring(limits, Checks(agent, from, counts), agent, from, to) == n;
    }
    if calls :| WellTimed(calls) && AllowedDuring(limits, calls, agent, from, to) == n {
      MostBounds(limits, calls, agent, Day, from, to, a, b);
    }
  }

  /** So given limits are kept over an interval of a window's length exactly when the most is within them. */
  lemma KeepsExactly(limits: Limits, agent: string, w: Window, from: nat)
    ensures (forall calls :: WellTimed(calls) ==> KeepsTo(limits, calls, agent, w, from))
        <==> MostDuring(limits, from, from + Size(w)) <= Room(limits, w)
  {
    var to := from + Size(w);
    hide WellTimed, AllowedDuring, MostDuring;
    if MostDuring(limits, from, to) <= Room(limits, w) {
      forall calls | WellTimed(calls) ensures KeepsTo(limits, calls, agent, w, from) {
        MostExactly(limits, agent, from, to, AllowedDuring(limits, calls, agent, from, to));
      }
    } else {
      MostExactly(limits, agent, from, to, MostDuring(limits, from, to));
      var calls :| WellTimed(calls) && AllowedDuring(limits, calls, agent, from, to) == MostDuring(limits, from, to);
      assert !KeepsTo(limits, calls, agent, w, from);
    }
  }

  /** Twice the limit is let through exactly where the most comes to that. */
  lemma SlidingBoundIsReached(limits: Limits, agent: string, w: Window, from: nat)
    ensures (exists calls :: WellTimed(calls) && AllowedDuring(limits, calls, agent, from, from + Size(w)) == 2 * Room(limits, w))
        <==> MostDuring(limits, from, from + Size(w)) == 2 * Room(limits, w)
  {
    var most := MostDuring(limits, from, from + Size(w));
    hide WellTimed, AllowedDuring, MostDuring;
    MostExactly(limits, agent, from, from + Size(w), 2 * Room(limits, w));
    MostExactly(limits, agent, from, from + Size(w), most);
    var calls :| WellTimed(calls) && AllowedDuring(limits, calls, agent, from, from + Size(w)) == most;
    SlidingBound(limits, calls, agent, w, from);
  }

  const DEFAULTS := Limits(10, 100, 500)

  lemma {:induction false} MinutesAdd(limits: Limits, a: nat, b: nat)
    requires a <= b
    ensures Most(limits, Minute, a, b) == (b - a) * Room(limits, Minute)
    decreases b - a
  {
    if a < b {
      MinutesAdd(limits, a + 1, b);
      assert (b - a) * Room(limits, Minute) == Room(limits, Minute) + (b - (a + 1)) * Room(limits, Minute);
    }
  }

  lemma OneBucket(limits: Limits, w: Window, a: nat, b: nat)
    requires a < b && BucketEnd(w, a, b) == b
    ensures Most(limits, w, a, b) == InBucket(limits, w, a, b)
  {
  }

  lemma TwoBuckets(limits: Limits, w: Window, a: nat, e: nat, b: nat)
    requires a < e < b && BucketEnd(w, a, b) == e && BucketEnd(w, e, b) == b
    ensures Most(limits, w, a, b) == InBucket(limits, w, a, e) + InBucket(limits, w, e, b)
  {
    OneBucket(limits, w, e, b);
    hide InBucket;
  }

  lemma HalfHours(limits: Limits, a: nat, e: nat, b: nat)
    requires a == 30 && e == 60 && b == 90 && limits == DEFAULTS
    ensures Most(limits, Day, a, b) == 200
  {
    assert BucketEnd(Hour, a, b) == e && BucketEnd(Hour, e, b) == b && BucketEnd(Day, a, b) == b;
    hide BucketEnd, Most;
    MinutesAdd(limits, a, e);
    MinutesAdd(limits, e, b);
    TwoBuckets(limits, Hour, a, e, b);
    OneBucket(limits, Day, a, b);
  }

  /** By default, an hour that starts at half past lets 200 actions through, 100 in each half. */
  lemma HalfPast(from: nat)
    requires from == 1800
    ensures MostDuring(DEFAULTS, from, from + Size(Hour)) == 2 * Room(DEFAULTS, Hour) == 200
  {
    hide Most;
    HalfHours(DEFAULTS, from / 60, 60, (from + Size(Hour) - 1) / 60 + 1);
  }
}
