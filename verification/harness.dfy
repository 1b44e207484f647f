/** The harness coordinator's sprint loop: generate, evaluate, retry, escalate. */
module Harness {
  import opened Maybe

  datatype Settings = Settings(maxIterations: nat, patchThreshold: int, evaluatorEnabled: bool)

  datatype Choice = FreshGeneration | FeedbackIncorporation | GeneratePatchProposal

  /** What a run writes to the audit log. */
  datatype Entry =
    | Decision(iteration: nat, choice: Choice)
    | Summary(iterations: nat, failures: nat, patchProposals: nat, passed: Option<bool>)
    | Escalation(iteration: nat)

  datatype Sprint = Sprint(iterations: nat, escalated: bool, score: Option<bool>, log: seq<Entry>, llmCalls: nat)

  /** Evaluations until the first pass, or all of them. */
  function Tried(verdicts: seq<bool>): (n: nat)
    ensures n <= |verdicts|
    ensures forall i :: 0 <= i < n - 1 ==> !verdicts[i]
  {
    if verdicts == [] then 0
    else if verdicts[0] then 1
    else 1 + Tried(verdicts[1..])
  }

  predicate AllFail(verdicts: seq<bool>) {
    forall i :: 0 <= i < |verdicts| ==> !verdicts[i]
  }

  function ChoiceAt(s: Settings, iteration: nat): Choice {
    if s.patchThreshold > 0 && iteration - 1 >= s.patchThreshold then GeneratePatchProposal
    else if iteration == 1 then FreshGeneration
    else FeedbackIncorporation
  }

  function Decisions(s: Settings, n: nat): (log: seq<Entry>)
    ensures |log| == n
  {
    if n == 0 then [] else Decisions(s, n - 1) + [Decision(n, ChoiceAt(s, n))]
  }

  function Patches(s: Settings, n: nat): nat {
    if s.patchThreshold > 0 && n > s.patchThreshold then n - s.patchThreshold else 0
  }

  /** What a sprint comes to, from the verdicts the evaluator would give, one for each iteration allowed. */
  function SprintOf(s: Settings, verdicts: seq<bool>): Sprint
    requires |verdicts| == s.maxIterations
  {
    if s.maxIterations == 0 then Sprint(0, false, None, [], 0)
    else if !s.evaluatorEnabled then
      Sprint(1, false, None, Decisions(s, 1) + [Summary(1, 0, 0, None)], 1)
    else
      var n, failed := Tried(verdicts), AllFail(verdicts);
      Sprint(n, failed, Some(!failed),
             Decisions(s, n) + [Summary(n, if failed then n else n - 1, Patches(s, n), Some(!failed))]
                             + (if failed then [Escalation(n)] else []),
             n + Patches(s, n))
  }

  lemma {:induction false} FirstPass(verdicts: seq<bool>, n: nat)
    requires 1 <= n <= |verdicts| && verdicts[n - 1]
    requires forall i :: 0 <= i < n - 1 ==> !verdicts[i]
    ensures Tried(verdicts) == n && !AllFail(verdicts)
  {
    if n > 1 {
      assert verdicts[1..][n - 2] == verdicts[n - 1];
      FirstPass(verdicts[1..], n - 1);
    }
  }

  lemma {:induction false} NoPass(verdicts: seq<bool>)
    requires AllFail(verdicts)
    ensures Tried(verdicts) == |verdicts|
  {
    if verdicts != [] {
      NoPass(verdicts[1..]);
    }
  }

  lemma NoDecisions(s: Settings)
    ensures Decisions(s, 0) == [] && Patches(s, 0) == 0
  {
  }

  lemma DecisionStep(s: Settings, n: nat)
    requires n > 0
    ensures Decisions(s, n) == Decisions(s, n - 1) + [Decision(n, ChoiceAt(s, n))]
    ensures Patches(s, n) == Patches(s, n - 1) + (if ChoiceAt(s, n).GeneratePatchProposal? then 1 else 0)
  {
  }

  lemma NoIterations(s: Settings, verdicts: seq<bool>)
    requires |verdicts| == s.maxIterations == 0
    ensures SprintOf(s, verdicts) == Sprint(0, false, None, [], 0)
  {
  }

  lemma ExitUnevaluated(s: Settings, verdicts: seq<bool>)
    requires |verdicts| == s.maxIterations >= 1 && !s.evaluatorEnabled
    ensures SprintOf(s, verdicts) == Sprint(1, false, None, Decisions(s, 1) + [Summary(1, 0, 0, None)], 1)
    ensures Patches(s, 1) == 0
  {
  }

  lemma ExitPassed(s: Settings, verdicts: seq<bool>, n: nat)
    requires |verdicts| == s.maxIterations && s.evaluatorEnabled
    requires 1 <= n <= |verdicts| && verdicts[n - 1]
    requires forall i :: 0 <= i < n - 1 ==> !verdicts[i]
    ensures SprintOf(s, verdicts) == Sprint(n, false, Some(true),
      Decisions(s, n) + [Summary(n, n - 1, Patches(s, n), Some(true))], n + Patches(s, n))
  {
    FirstPass(verdicts, n);
  }

  lemma ExitFailed(s: Settings, verdicts: seq<bool>)
    requires |verdicts| == s.maxIterations >= 1 && s.evaluatorEnabled
    requires forall i :: 0 <= i < |verdicts| ==> !verdicts[i]
    ensures var n := s.maxIterations;
      SprintOf(s, verdicts) == Sprint(n, true, Some(false),
        Decisions(s, n) + [Summary(n, n, Patches(s, n), Some(false))] + [Escalation(n)], n + Patches(s, n))
  {
    NoPass(verdicts);
  }

  datatype Run = Run(sprints: nat, totalIterations: nat, finalScore: Option<bool>, escalated: bool, log: seq<Entry>, llmCalls: nat)

  /** A run as its sprints make it, one after the other, none after an escalation. */
  function RunOf(s: Settings, scripts: seq<seq<bool>>): Run
    requires forall i :: 0 <= i < |scripts| ==> |scripts[i]| == s.maxIterations
  {
    if scripts == [] then Run(0, 0, None, false, [], 0)
    else
      var before := RunOf(s, scripts[..|scripts| - 1]);
      if before.escalated then before
      else
        var last := SprintOf(s, scripts[|scripts| - 1]);
        Run(before.sprints + 1, before.totalIterations + last.iterations, last.score, last.escalated,
            before.log + last.log, before.llmCalls + last.llmCalls)
  }

  lemma {:induction false} StopsThere(s: Settings, scripts: seq<seq<bool>>, k: nat)
    requires forall i :: 0 <= i < |scripts| ==> |scripts[i]| == s.maxIterations
    requires k <= |scripts| && RunOf(s, scripts[..k]).escalated
    ensures RunOf(s, scripts) == RunOf(s, scripts[..k])
    decreases |scripts|
  {
    if k == |scripts| {
      assert scripts[..k] == scripts;
    } else {
      var before := scripts[..|scripts| - 1];
      assert before[..k] == scripts[..k];
      StopsThere(s, before, k);
    }
  }

  class HarnessCoordinator {
    const settings: Settings
    var audit: seq<Entry>
    var llmCalls: nat

    constructor (settings: Settings)
      ensures this.settings == settings && audit == [] && llmCalls == 0
    {
      this.settings := settings;
      audit := [];
      llmCalls := 0;
    }

    method RunSprint(verdicts: seq<bool>) returns (score: Option<bool>, iterations: nat, escalated: bool)
      requires |verdicts| == settings.maxIterations
      modifies this
      ensures var sprint := SprintOf(settings, verdicts);
        && iterations == sprint.iterations && escalated == sprint.escalated && score == sprint.score
        && audit == old(audit) + sprint.log
        && llmCalls == old(llmCalls) + sprint.llmCalls
    {
      hide SprintOf, Decisions, Tried, AllFail;
      NoDecisions(settings);
      var lastScore: Option<bool> := None;
      var failures, patchProposalsApplied := 0, 0;
      ghost var before := audit;
      for iteration := 1 to settings.maxIterations + 1
        invariant forall i :: 0 <= i < iteration - 1 ==> !verdicts[i]
        invariant settings.evaluatorEnabled || iteration == 1
        invariant lastScore == if iteration == 1 then None else Some(false)
        invariant failures == iteration - 1 && patchProposalsApplied == Patches(settings, iteration - 1)
        invariant audit == before + Decisions(settings, iteration - 1)
        invariant llmCalls == old(llmCalls) + iteration - 1 + Patches(settings, iteration - 1)
        invariant iteration > settings.maxIterations ==> settings.maxIterations == 0
      {
        var threshold := settings.patchThreshold;
        if threshold > 0 && lastScore.Some? && iteration - 1 >= threshold {
          llmCalls := llmCalls + 1;
          patchProposalsApplied := patchProposalsApplied + 1;
          audit := audit + [Decision(iteration, GeneratePatchProposal)];
        } else {
          audit := audit + [Decision(iteration, if lastScore.None? then FreshGeneration else FeedbackIncorporation)];
        }
        DecisionStep(settings, iteration);
        llmCalls := llmCalls + 1;
        if !settings.evaluatorEnabled {
          ExitUnevaluated(settings, verdicts);
          audit := audit + [Summary(iteration, failures, patchProposalsApplied, None)];
          return None, iteration, false;
        }
        var passed := verdicts[iteration - 1];
        lastScore := Some(passed);
        if passed {
          ExitPassed(settings, verdicts, iteration);
          audit := audit + [Summary(iteration, failures, patchProposalsApplied, Some(true))];
          return Some(true), iteration, false;
        }
        failures := failures + 1;
        if iteration == settings.maxIterations {
          ExitFailed(settings, verdicts);
          audit := audit + [Summary(iteration, failures, patchProposalsApplied, Some(false))];
          audit := audit + [Escalation(iteration)];
          return Some(false), iteration, true;
        }
      }
      NoIterations(settings, verdicts);
      return None, 0, false;
    }

    /** One script of verdicts for each sprint contract. */
    method ExecuteSprints(scripts: seq<seq<bool>>)
      returns (artifacts: nat, totalIterations: nat, finalScore: Option<bool>, escalated: bool)
      requires forall i :: 0 <= i < |scripts| ==> |scripts[i]| == settings.maxIterations
      modifies this
      ensures var run := RunOf(settings, scripts);
        && artifacts == run.sprints && totalIterations == run.totalIterations
        && finalScore == run.finalScore && escalated == run.escalated
        && audit == old(audit) + run.log
        && llmCalls == old(llmCalls) + run.llmCalls
    {
      artifacts, totalIterations, finalScore, escalated := 0, 0, None, false;
      ghost var run := RunOf(settings, []);
      assert scripts[..0] == [];
      for i := 0 to |scripts|
        invariant run == RunOf(settings, scripts[..i]) && !run.escalated
        invariant artifacts == run.sprints && totalIterations == run.totalIterations
        invariant finalScore == run.finalScore && escalated == run.escalated
        invariant audit == old(audit) + run.log && llmCalls == old(llmCalls) + run.llmCalls
      {
        assert scripts[..i + 1][..i] == scripts[..i];
        var score, iterations, didEscalate := RunSprint(scripts[i]);
        artifacts := artifacts + 1;
        finalScore := score;
        totalIterations := totalIterations + iterations;
        run := RunOf(settings, scripts[..i + 1]);
        if didEscalate {
          escalated := true;
          StopsThere(settings, scripts, i + 1);
          return;
        }
      }
      assert scripts[..|scripts|] == scripts;
    }
  }

  datatype Kind = AnyDecision | AnyPatchProposal | AnySummary

  predicate Is(e: Entry, kind: Kind) {
    match kind
    case AnyDecision => e.Decision?
    case AnyPatchProposal => e.Decision? && e.choice == GeneratePatchProposal
    case AnySummary => e.Summary?
  }

  function Count(log: seq<Entry>, kind: Kind): nat {
    if log == [] then 0 else Count(log[..|log| - 1], kind) + (if Is(log[|log| - 1], kind) then 1 else 0)
  }

  lemma {:induction false} CountConcat(a: seq<Entry>, b: seq<Entry>, kind: Kind)
    ensures Count(a + b, kind) == Count(a, kind) + Count(b, kind)
  {
    if b == [] {
      assert a + b == a;
    } else {
      assert (a + b)[..|a + b| - 1] == a + b[..|b| - 1];
      CountConcat(a, b[..|b| - 1], kind);
    }
  }

  lemma {:induction false} DecisionCounts(s: Settings, n: nat)
    ensures Count(Decisions(s, n), AnyPatchProposal) == Patches(s, n)
    ensures Count(Decisions(s, n), AnyDecision) == n
    ensures Count(Decisions(s, n), AnySummary) == 0
  {
    if n > 0 {
      DecisionCounts(s, n - 1);
      assert Decisions(s, n)[..n - 1] == Decisions(s, n - 1);
    }
  }

  lemma {:induction false} DecisionAt(s: Settings, n: nat, i: nat)
    requires i < n
    ensures Decisions(s, n)[i] == Decision(i + 1, ChoiceAt(s, i + 1))
  {
    if i < n - 1 { DecisionAt(s, n - 1, i); }
  }

  /** What a sprint writes of its i-th iteration: fresh, then with the feedback, and with patches after the threshold. */
  lemma SprintDecisions(s: Settings, verdicts: seq<bool>, i: nat)
    requires |verdicts| == s.maxIterations && i < SprintOf(s, verdicts).iterations
    ensures i < |SprintOf(s, verdicts).log|
    ensures SprintOf(s, verdicts).log[i] == Decision(i + 1,
      if i == 0 then FreshGeneration
      else if s.patchThreshold > 0 && i >= s.patchThreshold then GeneratePatchProposal
      else FeedbackIncorporation)
  {
    DecisionAt(s, SprintOf(s, verdicts).iterations, i);
  }

  /** What comes after the decisions: one summary, and an escalation if the sprint escalated. */
  lemma SprintTailExactly(s: Settings, verdicts: seq<bool>)
    requires |verdicts| == s.maxIterations >= 1
    ensures var sprint := SprintOf(s, verdicts); var n := sprint.iterations;
      && |sprint.log| == n + 1 + (if sprint.escalated then 1 else 0)
      && sprint.log[n].Summary? && sprint.log[n].iterations == n && sprint.log[n].passed == sprint.score
      && sprint.log[n].failures == (if sprint.score == Some(true) then n - 1 else if sprint.score == Some(false) then n else 0)
      && (sprint.escalated ==> sprint.log[n + 1] == Escalation(n))
  {
    if s.evaluatorEnabled { TriedEnds(verdicts); }
  }

  /** Without the evaluator a sprint is one fresh generation, neither scored nor escalated. */
  lemma UnevaluatedSprint(s: Settings, verdicts: seq<bool>)
    requires |verdicts| == s.maxIterations && !s.evaluatorEnabled
    ensures var sprint := SprintOf(s, verdicts);
      && sprint.iterations == (if s.maxIterations == 0 then 0 else 1) == sprint.llmCalls
      && !sprint.escalated && sprint.score == None
  {
  }

  /**
   The account of one sprint with the evaluator on: it ends at the first pass or at the last iteration
   allowed, logs one decision for each iteration and one summary, proposes a patch before every
   iteration after the threshold, and escalates exactly when every iteration failed.
   */
  lemma SprintAccount(s: Settings, verdicts: seq<bool>)
    requires |verdicts| == s.maxIterations >= 1 && s.evaluatorEnabled
    ensures var sprint := SprintOf(s, verdicts);
      var n := sprint.iterations;
      && 1 <= n <= s.maxIterations
      && (forall i :: 0 <= i < n - 1 ==> !verdicts[i])
      && (sprint.escalated <==> AllFail(verdicts))
      && (sprint.escalated ==> n == s.maxIterations)
      && (!sprint.escalated ==> verdicts[n - 1])
      && Count(sprint.log, AnyDecision) == n
      && Count(sprint.log, AnyPatchProposal) == (if s.patchThreshold > 0 && n > s.patchThreshold then n - s.patchThreshold else 0)
      && Count(sprint.log, AnySummary) == 1
      && sprint.llmCalls == Count(sprint.log, AnyDecision) + Count(sprint.log, AnyPatchProposal)
      && sprint.score == Some(!sprint.escalated)
      && Summary(n, if sprint.escalated then n else n - 1, Patches(s, n), Some(!sprint.escalated)) in sprint.log
  {
    var n, failed := Tried(verdicts), AllFail(verdicts);
    TriedEnds(verdicts);
    DecisionCounts(s, n);
    var summary := Summary(n, if failed then n else n - 1, Patches(s, n), Some(!failed));
    var escalation := if failed then [Escalation(n)] else [];
    forall kind: Kind
      ensures Count(SprintOf(s, verdicts).log, kind) == Count(Decisions(s, n), kind) + (if kind.AnySummary? then 1 else 0)
    {
      SprintTail(Decisions(s, n), summary, escalation, kind);
    }
    assert (Decisions(s, n) + [summary])[n] == summary;
  }

  lemma SprintTail(decisions: seq<Entry>, summary: Entry, escalation: seq<Entry>, kind: Kind)
    requires summary.Summary?
    requires escalation == [] || (|escalation| == 1 && escalation[0].Escalation?)
    ensures Count(decisions + [summary] + escalation, kind) == Count(decisions, kind) + (if kind.AnySummary? then 1 else 0)
  {
    CountConcat(decisions + [summary], escalation, kind);
    CountConcat(decisions, [summary], kind);
    assert escalation == [] || escalation[..0] == [];
  }

  lemma {:induction false} TriedEnds(verdicts: seq<bool>)
    requires verdicts != []
    ensures Tried(verdicts) >= 1
    ensures AllFail(verdicts) ==> Tried(verdicts) == |verdicts|
    ensures !AllFail(verdicts) ==> verdicts[Tried(verdicts) - 1]
  {
    if !verdicts[0] && |verdicts| > 1 {
      TriedEnds(verdicts[1..]);
      assert AllFail(verdicts) <==> AllFail(verdicts[1..]);
    }
  }

  function TotalTried(scripts: seq<seq<bool>>): nat {
    if scripts == [] then 0 else TotalTried(scripts[..|scripts| - 1]) + Tried(scripts[|scripts| - 1])
  }

  /** What one more sprint adds to the counts of a run. */
  lemma OneMoreSprint(s: Settings, scripts: seq<seq<bool>>, last: seq<bool>)
    requires s.maxIterations >= 1 && s.evaluatorEnabled && |last| == s.maxIterations
    requires forall i :: 0 <= i < |scripts| ==> |scripts[i]| == s.maxIterations
    ensures var run, sprint := RunOf(s, scripts), SprintOf(s, last);
      && (forall kind: Kind :: Count(run.log + sprint.log, kind) == Count(run.log, kind) + Count(sprint.log, kind))
      && Count(sprint.log, AnyDecision) == sprint.iterations == Tried(last) && Count(sprint.log, AnySummary) == 1
      && sprint.llmCalls == Count(sprint.log, AnyDecision) + Count(sprint.log, AnyPatchProposal)
      && sprint.score == Some(!sprint.escalated) && (sprint.escalated <==> AllFail(last))
      && Count([], AnyDecision) == Count([], AnyPatchProposal) == Count([], AnySummary) == 0
  {
    SprintAccount(s, last);
    forall kind: Kind
      ensures Count(RunOf(s, scripts).log + SprintOf(s, last).log, kind) == Count(RunOf(s, scripts).log, kind) + Count(SprintOf(s, last).log, kind)
    {
      CountConcat(RunOf(s, scripts).log, SprintOf(s, last).log, kind);
    }
  }

  /**
   The account of a whole run: it stops at the first sprint that escalates, every sprint before it
   passed, and the iterations add up.
   */
  lemma {:induction false} RunAccount(s: Settings, scripts: seq<seq<bool>>)
    requires s.maxIterations >= 1 && s.evaluatorEnabled
    requires forall i :: 0 <= i < |scripts| ==> |scripts[i]| == s.maxIterations
    ensures var run := RunOf(s, scripts);
      && run.sprints <= |scripts|
      && run.totalIterations == TotalTried(scripts[..run.sprints])
      && (forall i :: 0 <= i < run.sprints && !(run.escalated && i == run.sprints - 1) ==> !AllFail(scripts[i]))
      && (run.escalated ==> run.sprints > 0 && AllFail(scripts[run.sprints - 1]))
      && (!run.escalated ==> run.sprints == |scripts|)
      && (run.escalated <==> exists i :: 0 <= i < |scripts| && AllFail(scripts[i]))
  {
    if scripts != [] {
      var before := scripts[..|scripts| - 1];
      RunAccount(s, before);
      var run := RunOf(s, before);
      if run.escalated {
        assert before[..run.sprints] == scripts[..run.sprints];
        assert before[run.sprints - 1] == scripts[run.sprints - 1];
      } else {
        assert scripts[..|scripts|] == scripts && before[..|before|] == before;
        assert forall i :: 0 <= i < |before| ==> before[i] == scripts[i] && !AllFail(before[i]);
      }
    }
  }

  /** The logs of these sprints, the first one first. */
  function LogsFrom(s: Settings, scripts: seq<seq<bool>>): seq<Entry>
    requires forall i :: 0 <= i < |scripts| ==> |scripts[i]| == s.maxIterations
  {
    if scripts == [] then [] else SprintOf(s, scripts[0]).log + LogsFrom(s, scripts[1..])
  }

  lemma {:induction false} LogsOneMore(s: Settings, scripts: seq<seq<bool>>, last: seq<bool>)
    requires forall i :: 0 <= i < |scripts| ==> |scripts[i]| == s.maxIterations
    requires |last| == s.maxIterations
    ensures LogsFrom(s, scripts + [last]) == LogsFrom(s, scripts) + SprintOf(s, last).log
  {
    hide SprintOf;
    if scripts == [] {
      assert [] + [last] == [last];
      assert [last][1..] == [];
      assert LogsFrom(s, [last]) == SprintOf(s, last).log + LogsFrom(s, []);
    } else {
      assert (scripts + [last])[1..] == scripts[1..] + [last];
      LogsOneMore(s, scripts[1..], last);
    }
  }

  /** A run writes the logs of its sprints one after the other. */
  lemma {:induction false} RunLogs(s: Settings, scripts: seq<seq<bool>>)
    requires forall i :: 0 <= i < |scripts| ==> |scripts[i]| == s.maxIterations
    ensures RunOf(s, scripts).sprints <= |scripts|
    ensures RunOf(s, scripts).sprints == |scripts| || RunOf(s, scripts).escalated
    ensures RunOf(s, scripts).log == LogsFrom(s, scripts[..RunOf(s, scripts).sprints])
  {
    hide SprintOf;
    if scripts != [] {
      var before, last := scripts[..|scripts| - 1], scripts[|scripts| - 1];
      var run := RunOf(s, before);
      RunLogs(s, before);
      if run.escalated {
        assert before[..run.sprints] == scripts[..run.sprints];
      } else {
        assert before[..|before|] == before && scripts[..|scripts|] == before + [last];
        LogsOneMore(s, before, last);
      }
    }
  }

  /** What a run reports: the last score, one summary a sprint, one decision an iteration, and a call for each and for each patch. */
  lemma {:induction false} RunCounts(s: Settings, scripts: seq<seq<bool>>)
    requires s.maxIterations >= 1 && s.evaluatorEnabled
    requires forall i :: 0 <= i < |scripts| ==> |scripts[i]| == s.maxIterations
    ensures var run := RunOf(s, scripts);
      && run.finalScore == (if scripts == [] then None else Some(!run.escalated))
      && Count(run.log, AnySummary) == run.sprints
      && Count(run.log, AnyDecision) == run.totalIterations
      && run.llmCalls == Count(run.log, AnyDecision) + Count(run.log, AnyPatchProposal)
  {
    if scripts != [] {
      RunCounts(s, scripts[..|scripts| - 1]);
      OneMoreSprint(s, scripts[..|scripts| - 1], scripts[|scripts| - 1]);
      hide SprintOf, Count;
    }
  }
}
