/**
  The scoring-rule configuration: the rule record, the initial rule set the
  configuration view starts from, and the consistency properties of that set.
  The rule set is a second encoding of the analysis view's three levels.
 */
module Rules {
  import opened Bands
  import opened Actions
  import Analysis

  /** A scoring rule: the range `[minScore, maxScore)` mapped to an action label. */
  datatype ScoringRule = ScoringRule(
    id: string, name: string, minScore: int, maxScore: int,
    action: string, description: string)

  /** One agent's opinion on a content item; carried as data only. */
  datatype AgentScore = AgentScore(agentId: string, agentName: string, score: int, reasoning: string)

  /** The rule set the configuration view is initialised with (and never changes). */
  const InitialRules: seq<ScoringRule> := [
    ScoringRule("1", "保留", 0, 40, "保留", "内容正常，无需处理"),
    ScoringRule("2", "评审", 40, 60, "评审", "需要人工评审"),
    ScoringRule("3", "预警", 60, 100, "预警", "可能存在违规内容")
  ]

  /** The ranges of a rule set, in rule order. */
  function RuleBands(rules: seq<ScoringRule>): (bands: seq<Band>)
    ensures |bands| == |rules|
    ensures forall i :: 0 <= i < |rules| ==> bands[i] == Band(rules[i].minScore, rules[i].maxScore)
  {
    seq(|rules|, i requires 0 <= i < |rules| => Band(rules[i].minScore, rules[i].maxScore))
  }

  /** No two rules share an id. */
  predicate DistinctIds(rules: seq<ScoringRule>) {
    forall i, j :: 0 <= i < j < |rules| ==> rules[i].id != rules[j].id
  }

  /** Every rule is named after its action. */
  predicate NamedByAction(rules: seq<ScoringRule>) {
    forall i :: 0 <= i < |rules| ==> rules[i].name == rules[i].action
  }

  /** Every rule's action is the label of one of the three actions. */
  predicate KnownActions(rules: seq<ScoringRule>) {
    forall i :: 0 <= i < |rules| ==> exists a: Action :: Label(a) == rules[i].action
  }

  /** Rules are listed in ascending `minScore` order. */
  predicate SortedByMin(rules: seq<ScoringRule>) {
    forall i, j :: 0 <= i < j < |rules| ==> rules[i].minScore <= rules[j].minScore
  }

  /** Every rule has `minScore < maxScore` and both bounds on the slider's scale [0, 100]. */
  predicate OnSliderScale(rules: seq<ScoringRule>) {
    forall i :: 0 <= i < |rules| ==> 0 <= rules[i].minScore < rules[i].maxScore <= Ceiling
  }

  /**
    A rule set whose ranges satisfy the coverage invariant is sorted by
    `minScore`, has non-empty ranges and keeps every bound on the slider's scale.
   */
  lemma ContiguousRulesAreOrdered(rules: seq<ScoringRule>)
    requires Contiguous(RuleBands(rules))
    ensures SortedByMin(rules) && OnSliderScale(rules)
  {
    var bands := RuleBands(rules);
    ContiguousIsAscending(bands);
    ContiguousIsWithinScale(bands);
    forall i, j | 0 <= i < j < |rules|
      ensures rules[i].minScore <= rules[j].minScore
    {
      assert bands[i].lo < bands[i].hi <= bands[j].lo;
    }
    forall i | 0 <= i < |rules|
      ensures 0 <= rules[i].minScore < rules[i].maxScore <= Ceiling
    {
      assert Floor <= bands[i].lo < bands[i].hi <= Ceiling;
    }
  }

  /**
    The initial rule set is well formed: ids "1", "2", "3" are distinct, each
    name equals its action, each action is a known one, and the ranges start at
    0, end at 100 and chain without gaps or overlaps, hence sorted and on scale.
   */
  lemma InitialRulesWellFormed()
    ensures Contiguous(RuleBands(InitialRules))
    ensures DistinctIds(InitialRules) && NamedByAction(InitialRules) && KnownActions(InitialRules)
    ensures SortedByMin(InitialRules) && OnSliderScale(InitialRules)
  {
    var bands := RuleBands(InitialRules);
    assert bands == [Band(0, 40), Band(40, 60), Band(60, 100)];
    assert Label(Retain) == InitialRules[0].action;
    assert Label(Review) == InitialRules[1].action;
    assert Label(Alert) == InitialRules[2].action;
    ContiguousRulesAreOrdered(InitialRules);
  }

  /**
    The rule a score falls under when the rule set is read the way the analysis
    view reads its levels: the first rule whose range contains the score, else
    the first rule.
   */
  function RuleFor(rules: seq<ScoringRule>, score: int): (rule: ScoringRule)
    requires |rules| > 0
    ensures rule in rules
    ensures rule.minScore <= score < rule.maxScore || rule == rules[0]
    ensures (exists k :: 0 <= k < |rules| && rules[k].minScore <= score < rules[k].maxScore) ==>
              rule.minScore <= score < rule.maxScore
  {
    rules[ClassifyIndex(RuleBands(rules), score)]
  }

  /**
    The rule set and the analysis levels encode the same buckets: they have the
    same ranges and actions, so every score gets the same action from both.
   */
  lemma RulesAgreeWithLevels(score: int)
    ensures RuleBands(InitialRules) == Analysis.LevelBands(Analysis.ScoreLevels)
    ensures RuleFor(InitialRules, score).action == Label(Analysis.GetScoreLevel(score).action)
    ensures RuleFor(InitialRules, score).action == Label(Analysis.BucketAction(score))
  {
    Analysis.GetScoreLevelBuckets(score);
    var bands := RuleBands(InitialRules);
    assert bands == [Band(0, 40), Band(40, 60), Band(60, 100)];
    assert Analysis.LevelBands(Analysis.ScoreLevels) == bands;
    var k := ClassifyIndex(bands, score);
    assert InitialRules[k].action == Label(Analysis.ScoreLevels[k].action);
  }
}
