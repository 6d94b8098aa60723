/**
 * The pain-level classification shown on a history item
 * (components/PainHistoryItem.tsx:21-31): a badge text and a badge colour,
 * both by the thresholds 3 and 6.
 */
module PainHistoryItem {

  /** The three classes of a pain level. */
  datatype Severity = Mild | Moderate | Severe

  /** Reference partition of the levels: above 6 severe, above 3 moderate,
      everything else (0..3, and anything lower) mild. */
  function Classify(level: int): Severity {
    if level > 6 then Severe else if level > 3 then Moderate else Mild
  }

  /** Classes ordered from mildest to most severe. */
  function Rank(s: Severity): nat {
    match s
    case Mild => 0
    case Moderate => 1
    case Severe => 2
  }

  function SeverityText(s: Severity): string {
    match s
    case Mild => "Mild"
    case Moderate => "Moderate"
    case Severe => "Severe"
  }

  function SeverityColor(s: Severity): string {
    match s
    case Mild => "#2ECC71"
    case Moderate => "#F39C12"
    case Severe => "#E74C3C"
  }

  /** `getPainLevelColor`: the colour of the level's class. */
  function GetPainLevelColor(level: int): (r: string)
    ensures r == SeverityColor(Classify(level))
  {
    if level <= 3 then "#2ECC71"
    else if level <= 6 then "#F39C12"
    else "#E74C3C"
  }

  /** `getPainLevelText`: the name of the level's class. */
  function GetPainLevelText(level: int): (r: string)
    ensures r == SeverityText(Classify(level))
  {
    if level <= 3 then "Mild"
    else if level <= 6 then "Moderate"
    else "Severe"
  }

  /** The thresholds, written out: at most 3 is mild and green, 4..6
      moderate and orange, 7 and above severe and red. */
  lemma Thresholds(level: int)
    ensures level <= 3 ==> GetPainLevelText(level) == "Mild" && GetPainLevelColor(level) == "#2ECC71"
    ensures 4 <= level <= 6 ==> GetPainLevelText(level) == "Moderate" && GetPainLevelColor(level) == "#F39C12"
    ensures level >= 7 ==> GetPainLevelText(level) == "Severe" && GetPainLevelColor(level) == "#E74C3C"
  {
  }

  /** Text and colour always belong to the same class: the text determines
      the colour. */
  lemma TextDeterminesColor(a: int, b: int)
    requires GetPainLevelText(a) == GetPainLevelText(b)
    ensures GetPainLevelColor(a) == GetPainLevelColor(b)
  {
  }

  /** A higher level never gets a milder class. */
  lemma ClassifyMonotone(a: int, b: int)
    requires a <= b
    ensures Rank(Classify(a)) <= Rank(Classify(b))
  {
  }
}
