/** The feedback loop: rejection rates move a bias for each action type, within bounds. */
module FeedbackLoops {
  import opened Maybe

  datatype Settings = Settings(
    minSamples: int,
    rejectionThreshold: real,
    approvalThreshold: real,
    stepUp: real,
    stepDown: real,
    biasMax: real)

  const DEFAULTS := Settings(10, 0.30, 0.80, 0.10, 0.05, 0.50)

  predicate Sane(s: Settings) {
    s.stepUp >= 0.0 && s.stepDown >= 0.0 && s.biasMax >= 0.0
  }

  datatype ActionStats = ActionStats(actionType: string, total: nat, approvals: nat, rejections: nat)

  function Rate(part: nat, total: nat): real {
    if total > 0 then part as real / total as real else 0.0
  }

  datatype BiasAdjustment = BiasAdjustment(actionType: string, previousBias: real, newBias: real)

  function Min(a: real, b: real): real {
    if a <= b then a else b
  }

  function Max(a: real, b: real): real {
    if a >= b then a else b
  }

  /** The statistics raise the bias, lower it or leave it. */
  predicate Raises(s: Settings, stats: ActionStats) {
    stats.total >= s.minSamples && Rate(stats.rejections, stats.total) > s.rejectionThreshold
  }

  predicate Lowers(s: Settings, stats: ActionStats) {
    && stats.total >= s.minSamples
    && !Raises(s, stats)
    && Rate(stats.approvals, stats.total) > s.approvalThreshold
  }

  function NextBias(s: Settings, current: real, stats: ActionStats): real {
    if Raises(s, stats) then Min(s.biasMax, current + s.stepUp)
    else if Lowers(s, stats) && current > 0.0 then Max(0.0, current - s.stepDown)
    else current
  }

  function BiasOf(biases: map<string, real>, actionType: string): real {
    if actionType in biases then biases[actionType] else 0.0
  }

  class FeedbackLoop {
    const settings: Settings
    var biases: map<string, real>

    constructor (settings: Settings)
      ensures this.settings == settings && biases == map[]
    {
      this.settings := settings;
      biases := map[];
    }

    method MaybeAdjust(stats: ActionStats) returns (adjustment: Option<BiasAdjustment>)
      modifies this
      ensures var current := BiasOf(old(biases), stats.actionType);
        var next := NextBias(settings, current, stats);
        && adjustment == (if next == current then None else Some(BiasAdjustment(stats.actionType, current, next)))
        && biases == (if next == current then old(biases) else old(biases)[stats.actionType := next])
    {
      if stats.total < settings.minSamples {
        return None;
      }
      var current := BiasOf(biases, stats.actionType);
      var newBias: real;
      if Rate(stats.rejections, stats.total) > settings.rejectionThreshold {
        newBias := Min(settings.biasMax, current + settings.stepUp);
      } else if Rate(stats.approvals, stats.total) > settings.approvalThreshold && current > 0.0 {
        newBias := Max(0.0, current - settings.stepDown);
      } else {
        return None;
      }
      if newBias == current {
        return None;
      }
      biases := biases[stats.actionType := newBias];
      return Some(BiasAdjustment(stats.actionType, current, newBias));
    }

    /** One cycle over the collected statistics; a failed query leaves everything as it was. */
    method RunOnce(collected: Option<seq<ActionStats>>) returns (adjustments: seq<BiasAdjustment>)
      modifies this
      ensures (biases, adjustments) == (
        if collected.None? then (old(biases), [])
        else Cycle(settings, old(biases), collected.value))
    {
      adjustments := [];
      if collected.None? {
        return;
      }
      var stats := collected.value;
      assert stats[..0] == [];
      for i := 0 to |stats|
        invariant (biases, adjustments) == Cycle(settings, old(biases), stats[..i])
      {
        assert stats[..i + 1][..i] == stats[..i];
        var adjustment := MaybeAdjust(stats[i]);
        if adjustment.Some? {
          adjustments := adjustments + [adjustment.value];
        }
      }
      assert stats[..|stats|] == stats;
    }
  }

  /** What a list of statistics does to the biases, and the adjustments it makes on the way. */
  function Cycle(s: Settings, biases: map<string, real>, stats: seq<ActionStats>): (map<string, real>, seq<BiasAdjustment>) {
    if stats == [] then (biases, [])
    else
      var (before, made) := Cycle(s, biases, stats[..|stats| - 1]);
      var last := stats[|stats| - 1];
      var current := BiasOf(before, last.actionType);
      var next := NextBias(s, current, last);
      if next == current then (before, made)
      else (before[last.actionType := next], made + [BiasAdjustment(last.actionType, current, next)])
  }

  /** What the adjustments of one action type add up to. */
  function Sum(adjustments: seq<BiasAdjustment>, actionType: string): real {
    if adjustments == [] then 0.0
    else
      var last := adjustments[|adjustments| - 1];
      Sum(adjustments[..|adjustments| - 1], actionType)
        + (if last.actionType == actionType then last.newBias - last.previousBias else 0.0)
  }

  ghost predicate InRange(s: Settings, biases: map<string, real>) {
    forall a: string :: 0.0 <= BiasOf(biases, a) <= s.biasMax
  }

  lemma NextBiasBounded(s: Settings, current: real, stats: ActionStats)
    requires Sane(s) && 0.0 <= current <= s.biasMax
    ensures 0.0 <= NextBias(s, current, stats) <= s.biasMax
  {
  }

  lemma UpdateInRange(s: Settings, biases: map<string, real>, a: string, bias: real)
    requires InRange(s, biases) && 0.0 <= bias <= s.biasMax
    ensures InRange(s, biases[a := bias])
  {
    var after := biases[a := bias];
    forall b: string ensures 0.0 <= BiasOf(after, b) <= s.biasMax {
      assert 0.0 <= BiasOf(biases, b) <= s.biasMax;
    }
  }

  lemma SumOneMore(adjustments: seq<BiasAdjustment>, made: BiasAdjustment, a: string)
    ensures Sum(adjustments + [made], a)
         == Sum(adjustments, a) + (if made.actionType == a then made.newBias - made.previousBias else 0.0)
  {
    assert (adjustments + [made])[..|adjustments|] == adjustments;
  }

  /**
   In every run, over any statistics in any order: each bias stays between 0 and the cap, and is the
   sum of the adjustments reported for its action type.
   */
  lemma {:induction false} BiasesStayBounded(s: Settings, biases: map<string, real>, stats: seq<ActionStats>, a: string)
    requires Sane(s) && InRange(s, biases)
    ensures InRange(s, Cycle(s, biases, stats).0)
    ensures BiasOf(Cycle(s, biases, stats).0, a) == BiasOf(biases, a) + Sum(Cycle(s, biases, stats).1, a)
  {
    if stats != [] {
      var before := Cycle(s, biases, stats[..|stats| - 1]);
      var last := stats[|stats| - 1];
      BiasesStayBounded(s, biases, stats[..|stats| - 1], a);
      var current := BiasOf(before.0, last.actionType);
      var next := NextBias(s, current, last);
      assert 0.0 <= current <= s.biasMax;
      NextBiasBounded(s, current, last);
      hide NextBias, InRange;
      if next != current {
        UpdateInRange(s, before.0, last.actionType, next);
        SumOneMore(before.1, BiasAdjustment(last.actionType, current, next), a);
      }
    }
  }

  function Steps(k: nat, step: real): real {
    k as real * step
  }

  lemma OneMoreStep(k: nat, step: real)
    ensures Steps(0, step) == 0.0
    ensures Steps(k + 1, step) == Steps(k, step) + step
  {
    assert (k + 1) as real == k as real + 1.0;
  }

  lemma StepsNonNegative(k: nat, step: real)
    requires step >= 0.0
    ensures Steps(k, step) >= 0.0
  {
  }

  /** How many of the statistics are about this action type. */
  function Readings(stats: seq<ActionStats>, a: string): nat {
    if stats == [] then 0
    else Readings(stats[..|stats| - 1], a) + (if stats[|stats| - 1].actionType == a then 1 else 0)
  }

  /**
   k readings of one action type, none of which fails to raise its bias, lift it by k steps, up to the
   cap, whatever is read of other types in between; and at the cap there are no more adjustments of it.
   The counters are cumulative, so that k readings of the same rejections will do.
   */
  lemma {:induction false} HighRejectionRun(s: Settings, biases: map<string, real>, stats: seq<ActionStats>, a: string)
    requires Sane(s) && InRange(s, biases)
    requires forall i :: 0 <= i < |stats| && stats[i].actionType == a ==> Raises(s, stats[i])
    ensures BiasOf(Cycle(s, biases, stats).0, a) == Min(s.biasMax, BiasOf(biases, a) + Steps(Readings(stats, a), s.stepUp))
    ensures BiasOf(biases, a) == s.biasMax ==> forall made :: made in Cycle(s, biases, stats).1 ==> made.actionType != a
  {
    hide Steps;
    OneMoreStep(0, s.stepUp);
    assert 0.0 <= BiasOf(biases, a) <= s.biasMax;
    if stats != [] {
      var k := |stats| - 1;
      var before := stats[..k];
      HighRejectionRun(s, biases, before, a);
      OneMoreStep(Readings(before, a), s.stepUp);
      StepsNonNegative(Readings(before, a), s.stepUp);
      assert stats[k].actionType == a ==> Raises(s, stats[k]);
      hide Raises;
    }
  }

  /** From no biases at all, k such readings give k steps, up to the cap. */
  lemma {:induction false} RunFromNothing(s: Settings, stats: seq<ActionStats>, a: string)
    requires Sane(s)
    requires forall i :: 0 <= i < |stats| && stats[i].actionType == a ==> Raises(s, stats[i])
    ensures BiasOf(Cycle(s, map[], stats).0, a) == Min(s.biasMax, Steps(Readings(stats, a), s.stepUp))
  {
    HighRejectionRun(s, map[], stats, a);
    hide Cycle, Steps, Raises;
  }

  /** k readings of one action type that all lower its bias take it down by k steps, and no further than 0. */
  lemma {:induction false} HighApprovalRun(s: Settings, biases: map<string, real>, stats: seq<ActionStats>, a: string)
    requires Sane(s) && InRange(s, biases)
    requires forall i :: 0 <= i < |stats| && stats[i].actionType == a ==> Lowers(s, stats[i])
    ensures BiasOf(Cycle(s, biases, stats).0, a) == Max(0.0, BiasOf(biases, a) - Steps(Readings(stats, a), s.stepDown))
    ensures BiasOf(biases, a) == 0.0 ==> forall made :: made in Cycle(s, biases, stats).1 ==> made.actionType != a
  {
    hide Steps;
    OneMoreStep(0, s.stepDown);
    assert 0.0 <= BiasOf(biases, a) <= s.biasMax;
    if stats != [] {
      var k := |stats| - 1;
      var before := stats[..k];
      HighApprovalRun(s, biases, before, a);
      OneMoreStep(Readings(before, a), s.stepDown);
      StepsNonNegative(Readings(before, a), s.stepDown);
      assert stats[k].actionType == a ==> Lowers(s, stats[k]) && !Raises(s, stats[k]);
      hide Raises, Lowers;
    }
  }

  /** Readings that do neither, or are about other types, leave a bias as it is and report nothing of it. */
  lemma {:induction false} NeutralRun(s: Settings, biases: map<string, real>, stats: seq<ActionStats>, a: string)
    requires forall i :: 0 <= i < |stats| && stats[i].actionType == a ==> !Raises(s, stats[i]) && !Lowers(s, stats[i])
    ensures BiasOf(Cycle(s, biases, stats).0, a) == BiasOf(biases, a)
    ensures forall made :: made in Cycle(s, biases, stats).1 ==> made.actionType != a
  {
    if stats != [] {
      var k := |stats| - 1;
      NeutralRun(s, biases, stats[..k], a);
      assert stats[k].actionType == a ==> !Raises(s, stats[k]) && !Lowers(s, stats[k]);
      hide Raises, Lowers;
    }
  }

  lemma RateAbove(part: nat, total: nat, threshold: real)
    requires total > 0
    ensures Rate(part, total) > threshold <==> part as real > threshold * total as real
  {
    assert part as real == Rate(part, total) * total as real;
  }

  /**
   When statistics count: from the sample size on, rejections beyond their share of the total raise the bias,
   and only if they are not, approvals beyond theirs lower it. Without a sample both shares are 0.
   */
  lemma ThresholdsExactly(s: Settings, stats: ActionStats)
    ensures stats.total > 0 ==>
      (Raises(s, stats) <==>
        stats.total >= s.minSamples && stats.rejections as real > s.rejectionThreshold * stats.total as real)
    ensures stats.total > 0 ==>
      (Lowers(s, stats) <==>
        && stats.total >= s.minSamples
        && stats.rejections as real <= s.rejectionThreshold * stats.total as real
        && stats.approvals as real > s.approvalThreshold * stats.total as real)
    ensures stats.total == 0 ==>
      && (Raises(s, stats) <==> s.minSamples <= 0 && s.rejectionThreshold < 0.0)
      && (Lowers(s, stats) <==> s.minSamples <= 0 && s.rejectionThreshold >= 0.0 > s.approvalThreshold)
  {
    if stats.total > 0 {
      RateAbove(stats.rejections, stats.total, s.rejectionThreshold);
      RateAbove(stats.approvals, stats.total, s.approvalThreshold);
    }
  }

  /** By default ten samples are needed; four rejections in ten raise the bias, and nine approvals in ten lower it. */
  lemma DefaultThresholds(n: nat, m: nat)
    requires n + m == 10
    ensures Raises(DEFAULTS, ActionStats("a", 10, n, m)) <==> m >= 4
    ensures Lowers(DEFAULTS, ActionStats("a", 10, n, m)) <==> n >= 9
    ensures !Raises(DEFAULTS, ActionStats("a", 9, 0, 9)) && !Lowers(DEFAULTS, ActionStats("a", 9, 9, 0))
  {
    ThresholdsExactly(DEFAULTS, ActionStats("a", 10, n, m));
  }

  /** A sample of the counters, as the query returns it. */
  datatype Sample = Sample(actionType: string, count: nat)

  function CountOf(samples: seq<Sample>, a: string): nat {
    if samples == [] then 0
    else CountOf(samples[..|samples| - 1], a) + (if samples[|samples| - 1].actionType == a then samples[|samples| - 1].count else 0)
  }

  predicate Names(samples: seq<Sample>, a: string) {
    exists i :: 0 <= i < |samples| && samples[i].actionType == a
  }

  lemma OneMoreSample(samples: seq<Sample>, i: nat)
    requires i < |samples|
    ensures forall a :: Names(samples[..i + 1], a) <==> Names(samples[..i], a) || a == samples[i].actionType
    ensures forall a :: CountOf(samples[..i + 1], a)
                     == CountOf(samples[..i], a) + (if samples[i].actionType == a then samples[i].count else 0)
  {
    assert samples[..i + 1] == samples[..i] + [samples[i]];
    assert samples[..i + 1][..i] == samples[..i];
    forall a ensures Names(samples[..i + 1], a) <==> Names(samples[..i], a) || a == samples[i].actionType {
      if Names(samples[..i], a) {
        var j :| 0 <= j < i && samples[..i][j].actionType == a;
        assert samples[..i + 1][j].actionType == a;
      }
      assert samples[..i + 1][i] == samples[i];
      if Names(samples[..i + 1], a) && a != samples[i].actionType {
        var j :| 0 <= j < i + 1 && samples[..i + 1][j].actionType == a;
        assert samples[..i][j].actionType == a;
      }
    }
  }

  /**
   What gathering the two lists comes to: an entry for every type in either, whose total is the sum of
   its approvals and rejections.
   */
  ghost predicate Gathered(stats: map<string, ActionStats>, approvals: seq<Sample>, rejections: seq<Sample>) {
    forall a: string ::
      && (a in stats <==> Names(approvals, a) || Names(rejections, a))
      && (a in stats ==> stats[a] == ActionStats(a, CountOf(approvals, a) + CountOf(rejections, a), CountOf(approvals, a), CountOf(rejections, a)))
      && (a !in stats ==> CountOf(approvals, a) == 0 && CountOf(rejections, a) == 0)
  }

  function Entry(stats: map<string, ActionStats>, a: string): ActionStats {
    if a in stats then stats[a] else ActionStats(a, 0, 0, 0)
  }

  lemma GatherApproval(stats: map<string, ActionStats>, approvals: seq<Sample>, i: nat, after: map<string, ActionStats>)
    requires i < |approvals| && Gathered(stats, approvals[..i], [])
    requires var (a, n) := (approvals[i].actionType, approvals[i].count);
      var s := Entry(stats, a);
      after == stats[a := s.(approvals := s.approvals + n, total := s.total + n)]
    ensures Gathered(after, approvals[..i + 1], [])
  {
    OneMoreSample(approvals, i);
    hide CountOf, Names;
    NoSamples();
  }

  lemma GatherRejection(stats: map<string, ActionStats>, approvals: seq<Sample>, rejections: seq<Sample>, i: nat, after: map<string, ActionStats>)
    requires i < |rejections| && Gathered(stats, approvals, rejections[..i])
    requires var (a, n) := (rejections[i].actionType, rejections[i].count);
      var s := Entry(stats, a);
      after == stats[a := s.(rejections := s.rejections + n, total := s.total + n)]
    ensures Gathered(after, approvals, rejections[..i + 1])
  {
    OneMoreSample(rejections, i);
    hide CountOf, Names;
  }

  lemma NoSamples()
    ensures forall a :: !Names([], a) && CountOf([], a) == 0
    ensures Gathered(map[], [], [])
  {
  }

  /** Approvals and rejections by action type. */
  method Collect(approvals: seq<Sample>, rejections: seq<Sample>) returns (stats: map<string, ActionStats>)
    ensures Gathered(stats, approvals, rejections)
  {
    hide Gathered, CountOf, Names;
    NoSamples();
    stats := map[];
    assert approvals[..0] == [] && rejections[..0] == [];
    for i := 0 to |approvals|
      invariant Gathered(stats, approvals[..i], [])
    {
      var sample, before := approvals[i], stats;
      var s := Entry(stats, sample.actionType);
      stats := stats[sample.actionType := s.(approvals := s.approvals + sample.count, total := s.total + sample.count)];
      GatherApproval(before, approvals, i, stats);
    }
    assert approvals[..|approvals|] == approvals;
    for i := 0 to |rejections|
      invariant Gathered(stats, approvals, rejections[..i])
    {
      var sample, before := rejections[i], stats;
      var s := Entry(stats, sample.actionType);
      stats := stats[sample.actionType := s.(rejections := s.rejections + sample.count, total := s.total + sample.count)];
      GatherRejection(before, approvals, rejections, i, stats);
    }
    assert rejections[..|rejections|] == rejections;
  }

  /** No rate that the loop computes exceeds 1, and the two of an action type add up to 1. */
  lemma RatesAddUp(stats: map<string, ActionStats>, approvals: seq<Sample>, rejections: seq<Sample>, a: string)
    requires Gathered(stats, approvals, rejections) && a in stats && stats[a].total > 0
    ensures Rate(stats[a].approvals, stats[a].total) + Rate(stats[a].rejections, stats[a].total) == 1.0
  {
    var s := stats[a];
    assert s.total == s.approvals + s.rejections;
    assert s.approvals as real + s.rejections as real == s.total as real;
    AddQuotients(s.approvals as real, s.rejections as real, s.total as real);
  }

  lemma AddQuotients(x: real, y: real, z: real)
    requires z > 0.0 && x + y == z
    ensures x / z + y / z == 1.0
  {
  }
}
