/** The five-factor risk score, over exact reals. */
module RiskScorer {
  import opened FeedbackLoops
  import opened Maybe

  datatype RiskComponents = RiskComponents(
    irreversibility: real,
    externalEffect: real,
    scale: real,
    dataSensitivity: real,
    rejectionRate: real)

  const HITL_RISK_THRESHOLD := 0.4

  function WeightedTotal(c: RiskComponents): real {
    Min(1.0, Max(0.0,
      0.35 * c.irreversibility + 0.25 * c.externalEffect + 0.20 * c.scale
        + 0.15 * c.dataSensitivity + 0.05 * c.rejectionRate))
  }

  const IRREVERSIBLE_KEYWORDS := {"delete", "drop", "destroy", "truncate", "purge", "wipe", "revoke", "terminate"}
  const HIGH_WRITE_KEYWORDS := {"write", "update", "create", "insert", "modify", "rotate", "send", "push",
                                "publish", "deploy", "execute", "run", "apply"}
  const READ_KEYWORDS := {"read", "get", "list", "query", "search", "fetch", "view", "describe"}
  const EXTERNAL_KEYWORDS := {"external", "api", "webhook", "email", "sms", "notification", "payment", "export"}
  const L1_TOKENS := {"[CPF]", "[SSN]", "[CARD]", "[HEALTH]"}
  const L2_TOKENS := {"[EMAIL]", "[PHONE]", "[IP]", "[NAME]", "[ADDRESS]"}
  const L3_TOKENS := {"[TOKEN]", "[UUID]", "[SESSION]", "[USER_ID]"}

  predicate Contains(text: string, part: string) {
    exists i :: 0 <= i <= |text| && part <= text[i..]
  }

  predicate Mentions(text: string, parts: set<string>) {
    exists part :: part in parts && Contains(text, part)
  }

  /** A text contains exactly what it can be split around. */
  lemma ContainsExactly(text: string, part: string)
    ensures Contains(text, part) <==> exists before, after :: text == before + part + after
  {
    if Contains(text, part) {
      var i :| 0 <= i <= |text| && part <= text[i..];
      assert text == text[..i] + part + text[i + |part|..];
    }
    if exists before, after :: text == before + part + after {
      var before, after :| text == before + part + after;
      assert text[|before|..] == part + after;
    }
  }

  /**
   What the scorer reads of an action: its type in lower case, the "external" flag, the target
   environment in lower case, the numbers found under the five size keys in order, the bulk flags, and
   the parameters printed as text.
   */
  datatype Action = Action(
    actionType: string,
    external: bool,
    targetEnv: string,
    sizes: seq<Option<real>>,
    bulk: bool,
    payload: string)

  function ScoreIrreversibility(a: Action): real {
    if Mentions(a.actionType, IRREVERSIBLE_KEYWORDS) then 1.0
    else if Mentions(a.actionType, HIGH_WRITE_KEYWORDS) then 0.7
    else if Mentions(a.actionType, READ_KEYWORDS) then 0.1
    else 0.5
  }

  function ScoreExternal(a: Action): real {
    if Mentions(a.actionType, EXTERNAL_KEYWORDS) then 1.0
    else if a.external then 1.0
    else if a.targetEnv == "production" || a.targetEnv == "prod" then 0.8
    else 0.2
  }

  /** The first positive number decides. */
  function ScoreScale(sizes: seq<Option<real>>, bulk: bool): real {
    if sizes == [] then (if bulk then 0.8 else 0.1)
    else if sizes[0].Some? && sizes[0].value > 0.0 then
      if sizes[0].value >= 1000.0 then 1.0
      else if sizes[0].value >= 100.0 then 0.7
      else if sizes[0].value >= 10.0 then 0.4
      else 0.1
    else ScoreScale(sizes[1..], bulk)
  }

  function ScoreSensitivity(a: Action): real {
    if Mentions(a.payload, L1_TOKENS) then 1.0
    else if Mentions(a.payload, L2_TOKENS) then 0.6
    else if Mentions(a.payload, L3_TOKENS) then 0.3
    else 0.0
  }

  function Components(a: Action, bias: real): RiskComponents {
    RiskComponents(
      ScoreIrreversibility(a),
      ScoreExternal(a),
      ScoreScale(a.sizes, a.bulk),
      ScoreSensitivity(a),
      Min(1.0, Max(0.0, bias)))
  }

  function Score(a: Action, bias: real): real {
    WeightedTotal(Components(a, bias))
  }

  lemma {:induction false} ScaleRange(sizes: seq<Option<real>>, bulk: bool)
    ensures 0.1 <= ScoreScale(sizes, bulk) <= 1.0
  {
    if sizes != [] && !(sizes[0].Some? && sizes[0].value > 0.0) {
      ScaleRange(sizes[1..], bulk);
    }
  }

  /** The score without its bias term and without clamping. */
  function Unbiased(a: Action): real {
    0.35 * ScoreIrreversibility(a) + 0.25 * ScoreExternal(a) + 0.20 * ScoreScale(a.sizes, a.bulk) + 0.15 * ScoreSensitivity(a)
  }

  /**
   The clamp of the total never takes effect: the weights leave every score between 0.105 and 1, and what
   a bias adds is exactly a twentieth of it, of a bias in [0, 1] that is, beyond which it counts as 0 or 1.
   */
  lemma ScoreIsUnclamped(a: Action, bias: real)
    ensures 0.105 <= Unbiased(a) <= 0.95
    ensures Score(a, bias) == Unbiased(a) + (if bias < 0.0 then 0.0 else if bias > 1.0 then 0.05 else 0.05 * bias)
  {
    ScaleRange(a.sizes, a.bulk);
  }

  /** Any action whose type holds an irreversible keyword is sent for approval, whatever the rest. */
  lemma {:induction false} IrreversibleIsGated(a: Action, bias: real, keyword: string)
    requires keyword in IRREVERSIBLE_KEYWORDS && Contains(a.actionType, keyword)
    ensures Score(a, bias) >= 0.42 > HITL_RISK_THRESHOLD
  {
    ScaleRange(a.sizes, a.bulk);
    assert Mentions(a.actionType, IRREVERSIBLE_KEYWORDS);
    hide Mentions, Contains;
    assert ScoreIrreversibility(a) == 1.0;
    hide ScoreIrreversibility;
  }

  /**
   From no bias and by default settings, no history of feedback moves a score by more than 0.025; it
   changes the routing of an action only if its unbiased score lies less than that below the threshold.
   */
  lemma {:induction false} FeedbackMovesLittle(a: Action, stats: seq<ActionStats>, actionType: string)
    ensures var bias := BiasOf(Cycle(DEFAULTS, map[], stats).0, actionType);
      && 0.0 <= Score(a, bias) - Score(a, 0.0) <= 0.025
      && (Score(a, bias) >= HITL_RISK_THRESHOLD > Score(a, 0.0) ==> Unbiased(a) >= 0.375)
  {
    var bias := BiasOf(Cycle(DEFAULTS, map[], stats).0, actionType);
    BiasesStayBounded(DEFAULTS, map[], stats, actionType);
    assert 0.0 <= bias <= 0.5;
    ScoreIsUnclamped(a, bias);
    ScoreIsUnclamped(a, 0.0);
  }

  lemma FiveSteps(n: nat)
    requires n >= 5
    ensures Steps(n, 0.10) >= 0.5
  {
  }

  /**
   The bound is met: five high-rejection readings of an action type, among any of other types, move every
   action's score by the whole 0.025.
   */
  lemma {:induction false} FeedbackMovesThatMuch(a: Action, stats: seq<ActionStats>, actionType: string)
    requires Readings(stats, actionType) >= 5
    requires forall i :: 0 <= i < |stats| && stats[i].actionType == actionType ==> Raises(DEFAULTS, stats[i])
    ensures Score(a, BiasOf(Cycle(DEFAULTS, map[], stats).0, actionType)) == Score(a, 0.0) + 0.025
  {
    hide Score, Unbiased, Cycle, Raises, Steps;
    HighRejectionRun(DEFAULTS, map[], stats, actionType);
    FiveSteps(Readings(stats, actionType));
    ScoreIsUnclamped(a, 0.5);
    ScoreIsUnclamped(a, 0.0);
  }

  // ----- which actions are sent for approval -----

  /** None of the sizes before this one is a positive number. */
  predicate First(sizes: seq<Option<real>>, i: nat) {
    i < |sizes| && forall j :: 0 <= j < i && sizes[j].Some? ==> sizes[j].value <= 0.0
  }

  /** The first positive number among the sizes, if there is one. */
  function SizeOf(sizes: seq<Option<real>>): (size: Option<real>)
    ensures size.Some? ==> size.value > 0.0 && exists i: nat :: First(sizes, i) && sizes[i] == size
    ensures size.None? ==> forall j :: 0 <= j < |sizes| && sizes[j].Some? ==> sizes[j].value <= 0.0
  {
    if sizes == [] then None
    else if sizes[0].Some? && sizes[0].value > 0.0 then
      assert First(sizes, 0);
      sizes[0]
    else
      var later := SizeOf(sizes[1..]);
      assert forall i: nat :: First(sizes[1..], i) && sizes[1..][i] == later ==> First(sizes, i + 1) && sizes[i + 1] == later;
      later
  }

  predicate AtLeast(a: Action, n: real) {
    SizeOf(a.sizes).Some? && SizeOf(a.sizes).value >= n
  }

  /** A hundred and more, or flagged as bulk without a size. */
  predicate Large(a: Action) {
    AtLeast(a, 100.0) || (SizeOf(a.sizes).None? && a.bulk)
  }

  predicate Outside(a: Action) {
    Mentions(a.actionType, EXTERNAL_KEYWORDS) || a.external
  }

  predicate InProduction(a: Action) {
    a.targetEnv == "production" || a.targetEnv == "prod"
  }

  predicate Sensitive(a: Action) {
    Mentions(a.payload, L1_TOKENS) || Mentions(a.payload, L2_TOKENS) || Mentions(a.payload, L3_TOKENS)
  }

  /** The actions that are sent for approval without any feedback, by what they say. */
  predicate Routed(a: Action) {
    if Mentions(a.actionType, IRREVERSIBLE_KEYWORDS) then true
    else if Mentions(a.actionType, HIGH_WRITE_KEYWORDS) then
      || Outside(a) || InProduction(a) || Large(a)
      || Mentions(a.payload, L1_TOKENS) || Mentions(a.payload, L2_TOKENS)
      || (AtLeast(a, 10.0) && Sensitive(a))
    else if Mentions(a.actionType, READ_KEYWORDS) then
      if Outside(a) then
        Large(a) || Mentions(a.payload, L1_TOKENS) || (AtLeast(a, 10.0) && Sensitive(a))
      else if InProduction(a) then
        || AtLeast(a, 1000.0) || Mentions(a.payload, L1_TOKENS) || (Large(a) && Sensitive(a))
        || (AtLeast(a, 10.0) && Mentions(a.payload, L2_TOKENS))
      else
        AtLeast(a, 1000.0) && Mentions(a.payload, L1_TOKENS)
    else
      if Outside(a) then true
      else if InProduction(a) then AtLeast(a, 10.0) || Large(a) || Sensitive(a)
      else
        || AtLeast(a, 1000.0) || (Large(a) && Sensitive(a))
        || (AtLeast(a, 10.0) && Mentions(a.payload, L1_TOKENS))
  }

  lemma {:induction false} ScaleBySize(sizes: seq<Option<real>>, bulk: bool)
    ensures ScoreScale(sizes, bulk) ==
      match SizeOf(sizes)
      case None => if bulk then 0.8 else 0.1
      case Some(size) => if size < 10.0 then 0.1 else if size < 100.0 then 0.4 else if size < 1000.0 then 0.7 else 1.0
  {
    if sizes != [] && !(sizes[0].Some? && sizes[0].value > 0.0) { ScaleBySize(sizes[1..], bulk); }
  }

  /** The score of an action without feedback, in thousandths. */
  lemma ScoreTable(a: Action)
    ensures 1000.0 * Score(a, 0.0) ==
      (if Mentions(a.actionType, IRREVERSIBLE_KEYWORDS) then 350.0
       else if Mentions(a.actionType, HIGH_WRITE_KEYWORDS) then 245.0
       else if Mentions(a.actionType, READ_KEYWORDS) then 35.0 else 175.0)
      + (if Outside(a) then 250.0 else if InProduction(a) then 200.0 else 50.0)
      + (if AtLeast(a, 1000.0) then 200.0 else if AtLeast(a, 100.0) then 140.0 else if AtLeast(a, 10.0) then 80.0
         else if SizeOf(a.sizes).None? && a.bulk then 160.0 else 20.0)
      + (if Mentions(a.payload, L1_TOKENS) then 150.0 else if Mentions(a.payload, L2_TOKENS) then 90.0
         else if Mentions(a.payload, L3_TOKENS) then 45.0 else 0.0)
  {
    ScoreIsUnclamped(a, 0.0);
    ScaleBySize(a.sizes, a.bulk);
    hide Mentions, Score, SizeOf, ScoreScale;
  }

  /** Exactly those actions reach the default threshold. */
  lemma RoutedExactly(a: Action)
    ensures Score(a, 0.0) >= 0.4 <==> Routed(a)
  {
    ScoreIsUnclamped(a, 0.0);
    ScaleBySize(a.sizes, a.bulk);
    hide Mentions, SizeOf, ScoreScale, Score;
  }
}
