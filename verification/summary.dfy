/** The day's level: the first of ELITE, STRONG, SURVIVAL whose threshold the total reaches, else Red Zone. */
module Summary {
  import opened Types

  datatype Tier = RedZone | Survival | Strong | Elite

  /** The label the summary card shows. */
  function Label(t: Tier): (s: string)
    ensures |s| > 0
  {
    match t
    case RedZone => "Red Zone"
    case Survival => "SURVIVAL"
    case Strong => "STRONG"
    case Elite => "ELITE"
  }

  function Rank(t: Tier): nat {
    match t
    case RedZone => 0
    case Survival => 1
    case Strong => 2
    case Elite => 3
  }

  /** Thresholds are tested from the top in this order and are inclusive. */
  function Classify(totalXP: int, levels: Levels): (t: Tier)
    ensures t == Elite <==> totalXP >= levels.elite
    ensures t == Strong <==> totalXP < levels.elite && totalXP >= levels.strong
    ensures t == Survival <==> totalXP < levels.elite && totalXP < levels.strong && totalXP >= levels.survival
    ensures t == RedZone <==> totalXP < levels.elite && totalXP < levels.strong && totalXP < levels.survival
  {
    if totalXP >= levels.elite then Elite
    else if totalXP >= levels.strong then Strong
    else if totalXP >= levels.survival then Survival
    else RedZone
  }

  predicate Ordered(levels: Levels) {
    levels.survival <= levels.strong <= levels.elite
  }

  /** Different tiers show different labels. */
  lemma LabelsDistinct(a: Tier, b: Tier)
    requires a != b
    ensures Label(a) != Label(b)
  {
  }

  /** With ordered thresholds a higher total never shows a lower tier. */
  lemma ClassifyMonotone(a: int, b: int, levels: Levels)
    requires Ordered(levels)
    requires a <= b
    ensures Rank(Classify(a, levels)) <= Rank(Classify(b, levels))
  {
  }

  /** With ordered thresholds each tier holds exactly on its half-open band. */
  lemma ClassifyBands(totalXP: int, levels: Levels)
    requires Ordered(levels)
    ensures Classify(totalXP, levels) == Strong <==> levels.strong <= totalXP < levels.elite
    ensures Classify(totalXP, levels) == Survival <==> levels.survival <= totalXP < levels.strong
    ensures Classify(totalXP, levels) == RedZone <==> totalXP < levels.survival
  {
  }

  /** With misordered thresholds the first test passed still wins: STRONG above ELITE's threshold is unreachable. */
  lemma MisorderedStrongUnreachable(totalXP: int, levels: Levels)
    requires levels.strong >= levels.elite
    ensures Classify(totalXP, levels) != Strong
  {
  }
}
