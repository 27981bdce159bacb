/** The closed set of moderation actions a score level can carry. */
module Actions {

  /** 保留 (retain), 评审 (review), 预警 (alert). */
  datatype Action = Retain | Review | Alert

  /** The action's label as the dashboard spells it; each label names exactly one action. */
  function Label(a: Action): (s: string)
    ensures a == Retain <==> s == "保留"
    ensures a == Review <==> s == "评审"
    ensures a == Alert <==> s == "预警"
  {
    match a
    case Retain => "保留"
    case Review => "评审"
    case Alert => "预警"
  }

  /** Distinct actions have distinct labels, so a label identifies its action. */
  lemma LabelInjective(a: Action, b: Action)
    ensures Label(a) == Label(b) <==> a == b
  {
  }
}
