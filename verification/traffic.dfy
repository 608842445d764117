/** The traffic classifier of fog_handler.py: vehicle count to severity level. */
module Traffic {

  datatype Level = Low | Medium | Heavy

  /** Smallest count classified MEDIUM. */
  const MediumThreshold: int := 5
  /** Smallest count classified HEAVY. */
  const HeavyThreshold: int := 15

  /** `classify_traffic`: total on every integer, including negative counts. */
  function Classify(count: int): (level: Level)
    ensures level == Low <==> count < MediumThreshold
    ensures level == Medium <==> MediumThreshold <= count < HeavyThreshold
    ensures level == Heavy <==> HeavyThreshold <= count
  {
    if count < MediumThreshold then Low
    else if MediumThreshold <= count < HeavyThreshold then Medium
    else Heavy
  }

  /** Severity as a number, LOW < MEDIUM < HEAVY. */
  function Rank(level: Level): nat {
    match level
    case Low => 0
    case Medium => 1
    case Heavy => 2
  }

  /** The levels for which the handler republishes an alert. */
  predicate IsAlertLevel(level: Level) {
    level == Medium || level == Heavy
  }

  /** More vehicles never lower the severity. */
  lemma ClassifyMonotone(a: int, b: int)
    requires a <= b
    ensures Rank(Classify(a)) <= Rank(Classify(b))
  {
  }

  /** The band edges: 4 is the last LOW, 5 and 14 are MEDIUM, 15 is the first HEAVY. */
  lemma ClassifyBoundaries()
    ensures Classify(4) == Low && Classify(5) == Medium
    ensures Classify(14) == Medium && Classify(15) == Heavy
    ensures forall n: int :: n < 0 ==> Classify(n) == Low
  {
  }

  /** An observation raises an alert exactly when its count is at least the MEDIUM threshold. */
  lemma AlertIffAtLeastMedium(count: int)
    ensures IsAlertLevel(Classify(count)) <==> MediumThreshold <= count
  {
  }
}
