/** Runs of the approval protocol, position by position. */
module HitlTrace {
  import opened Maybe
  import opened HitlProtocol

  lemma {:induction false} PrefixFeasible(c: Config, s: State, steps: seq<Step>, k: nat)
    requires k <= |steps| && Feasible(c, s, steps)
    ensures Feasible(c, s, steps[..k])
    ensures k < |steps| ==> Enabled(c, Run(c, s, steps[..k]), steps[k])
    decreases k
  {
    hide Enabled, Next;
    if k > 0 {
      PrefixFeasible(c, Next(c, s, steps[0]), steps[1..], k - 1);
      assert steps[..k][1..] == steps[1..][..k - 1];
    }
  }

  /** The state before step `k` of a run from the start. */
  function At(c: Config, steps: seq<Step>, k: nat): State
    requires k <= |steps| && Feasible(c, Start, steps)
  {
    PrefixFeasible(c, Start, steps, k);
    Run(c, Start, steps[..k])
  }

  lemma {:induction false} RunSnoc(c: Config, s: State, steps: seq<Step>)
    requires steps != [] && Feasible(c, s, steps) && Feasible(c, s, steps[..|steps| - 1])
    requires Enabled(c, Run(c, s, steps[..|steps| - 1]), steps[|steps| - 1])
    ensures Run(c, s, steps) == Next(c, Run(c, s, steps[..|steps| - 1]), steps[|steps| - 1])
    decreases |steps|
  {
    hide Enabled, Next;
    if |steps| > 1 {
      assert steps[..|steps| - 1][1..] == steps[1..][..|steps[1..]| - 1];
      RunSnoc(c, Next(c, s, steps[0]), steps[1..]);
    }
  }

  lemma AtNext(c: Config, steps: seq<Step>, k: nat)
    requires k < |steps| && Feasible(c, Start, steps)
    ensures Enabled(c, At(c, steps, k), steps[k]) && At(c, steps, k + 1) == Next(c, At(c, steps, k), steps[k])
  {
    hide Enabled, Next;
    PrefixFeasible(c, Start, steps, k);
    PrefixFeasible(c, Start, steps, k + 1);
    assert steps[..k + 1][..k] == steps[..k];
    RunSnoc(c, Start, steps[..k + 1]);
  }

  lemma AtEnds(c: Config, steps: seq<Step>)
    requires Feasible(c, Start, steps)
    ensures At(c, steps, 0) == Start && At(c, steps, |steps|) == Run(c, Start, steps)
  {
    assert steps[..|steps|] == steps;
  }
}
