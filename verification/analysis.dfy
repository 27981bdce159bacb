/**
  The content-analysis view's decision logic: the constant table of score
  levels, the classifier that picks a level for a risk score, the icon shown
  for a level's action, and the demo contents used as worked examples.
 */
module Analysis {
  import opened Bands
  import opened Actions

  /** A score level: the half-open range `[min, max)`, its action and its badge colour. */
  datatype ScoreLevel = ScoreLevel(min: int, max: int, action: Action, color: string)

  /** The three levels: [0,40) retain, [40,60) review, [60,100) alert. */
  const ScoreLevels: seq<ScoreLevel> := [
    ScoreLevel(0, 40, Retain, "bg-green-100 text-green-800"),
    ScoreLevel(40, 60, Review, "bg-yellow-100 text-yellow-800"),
    ScoreLevel(60, 100, Alert, "bg-red-100 text-red-800")
  ]

  /** The ranges of a level table, in table order. */
  function LevelBands(levels: seq<ScoreLevel>): (bands: seq<Band>)
    ensures |bands| == |levels|
    ensures forall i :: 0 <= i < |levels| ==> bands[i] == Band(levels[i].min, levels[i].max)
  {
    seq(|levels|, i requires 0 <= i < |levels| => Band(levels[i].min, levels[i].max))
  }

  /**
    The level for a risk score: the first level whose range contains the score,
    or the first level of the table when none does.
   */
  function GetScoreLevel(score: int): (level: ScoreLevel)
    ensures level in ScoreLevels
    ensures level.min <= score < level.max || level == ScoreLevels[0]
    ensures (exists k :: 0 <= k < |ScoreLevels| && ScoreLevels[k].min <= score < ScoreLevels[k].max) ==>
              level.min <= score < level.max
  {
    ScoreLevels[ClassifyIndex(LevelBands(ScoreLevels), score)]
  }

  /** The level table satisfies the coverage invariant. */
  lemma ScoreLevelsContiguous()
    ensures Contiguous(LevelBands(ScoreLevels))
    ensures Ascending(LevelBands(ScoreLevels)) && WithinScale(LevelBands(ScoreLevels))
  {
  }

  /**
    Reference statement of the buckets, written out independently of the table:
    alert from 60 up to (not including) 100, review from 40 up to 60, and
    retain for everything else, including negative scores and scores of 100 or more.
   */
  function BucketAction(score: int): Action {
    if 60 <= score < 100 then Alert
    else if 40 <= score < 60 then Review
    else Retain
  }

  /**
    The classifier agrees with the reference buckets on every score; for scores
    outside [0,100) it is the fallback, the table's first level.
   */
  lemma GetScoreLevelBuckets(score: int)
    ensures GetScoreLevel(score).action == BucketAction(score)
    ensures !(0 <= score < 100) ==> GetScoreLevel(score) == ScoreLevels[0]
    ensures 0 <= score < 100 ==> GetScoreLevel(score).min <= score < GetScoreLevel(score).max
  {
    var bands := LevelBands(ScoreLevels);
    ScoreLevelsContiguous();
    var k := ClassifyIndex(bands, score);
    ClassifyContiguous(bands, score, k);
  }

  /**
    Boundaries: lower bounds are inclusive and upper bounds exclusive, so 40 and
    60 land in the higher bucket; 100 matches no level and falls back to retain.
   */
  lemma Boundaries()
    ensures GetScoreLevel(0).action == Retain && GetScoreLevel(39).action == Retain
    ensures GetScoreLevel(40).action == Review && GetScoreLevel(59).action == Review
    ensures GetScoreLevel(60).action == Alert && GetScoreLevel(99).action == Alert
    ensures GetScoreLevel(100) == ScoreLevels[0] && GetScoreLevel(-1) == ScoreLevels[0]
  {
    GetScoreLevelBuckets(0);
    GetScoreLevelBuckets(39);
    GetScoreLevelBuckets(40);
    GetScoreLevelBuckets(59);
    GetScoreLevelBuckets(60);
    GetScoreLevelBuckets(99);
    GetScoreLevelBuckets(100);
    GetScoreLevelBuckets(-1);
  }

  /** The icons the view can show next to a level. */
  datatype Icon = AlertTriangle | Shield | CheckCircle

  /** The `switch` on an action label: alert and review get their own icon, anything else the check mark. */
  function IconForLabel(action: string): (icon: Icon)
    ensures icon == AlertTriangle <==> action == Label(Alert)
    ensures icon == Shield <==> action == Label(Review)
    ensures icon == CheckCircle <==> action != Label(Alert) && action != Label(Review)
  {
    if action == "预警" then AlertTriangle
    else if action == "评审" then Shield
    else CheckCircle
  }

  /** The icon for a score level, chosen by its action. */
  function ScoreIcon(level: ScoreLevel): (icon: Icon)
    ensures icon == AlertTriangle <==> level.action == Alert
    ensures icon == Shield <==> level.action == Review
    ensures icon == CheckCircle <==> level.action == Retain
  {
    LabelInjective(level.action, Alert);
    LabelInjective(level.action, Review);
    IconForLabel(Label(level.action))
  }

  /** The kinds of content the demo list uses. */
  datatype ContentType =
    | ExplicitAttack   // 显性攻击
    | ImplicitAttack   // 隐性攻击
    | UnwittingAttack  // 无意识攻击
    | Trolling         // 反串
    | Flooding         // 灌水
    | TrafficDiversion // 引流
    | Advertisement    // 广告
    | Normal           // 正常

  /** A descriptive label shown on a content item. */
  datatype ContentTag = ContentTag(name: string, color: string)

  /** One analysed content item as the view lists it. */
  datatype ContentScore = ContentScore(
    score: int, kind: ContentType, tags: seq<ContentTag>,
    content: string, timestamp: string, author: string)

  /** The three demo contents the view displays. */
  const MockData: seq<ContentScore> := [
    ContentScore(45, ExplicitAttack, [ContentTag("情绪化", "bg-orange-100 text-orange-800")],
                 "这个产品真的很差劲！", "2024-03-15 14:30", "用户A"),
    ContentScore(75, TrafficDiversion, [ContentTag("营销", "bg-purple-100 text-purple-800")],
                 "建议大家都来看看这个链接...", "2024-03-15 15:20", "用户B"),
    ContentScore(20, Normal, [ContentTag("建设性", "bg-blue-100 text-blue-800")],
                 "这个功能设计得不错", "2024-03-15 16:10", "用户C")
  ]

  /** Worked examples: the demo scores 45, 75 and 20 are shown as review, alert and retain. */
  lemma MockDataLevels()
    ensures GetScoreLevel(MockData[0].score).action == Review
    ensures GetScoreLevel(MockData[1].score).action == Alert
    ensures GetScoreLevel(MockData[2].score).action == Retain
    ensures ScoreIcon(GetScoreLevel(MockData[0].score)) == Shield
    ensures ScoreIcon(GetScoreLevel(MockData[1].score)) == AlertTriangle
    ensures ScoreIcon(GetScoreLevel(MockData[2].score)) == CheckCircle
  {
    GetScoreLevelBuckets(45);
    GetScoreLevelBuckets(75);
    GetScoreLevelBuckets(20);
  }
}
