/**
 * The segmented pain slider (components/PainSlider.tsx): one segment per
 * value from `min` to `max`, the segments up to the current value selected
 * and coloured by the current value, and a press reporting the segment's
 * value through `onChange`.
 */
module PainSlider {
  import opened Wrappers
  import PainHistoryItem

  const DefaultMin: int := 0
  const DefaultMax: int := 10

  /** `getColorForPainLevel` (PainSlider.tsx:18-22), its own copy of the
      history item's thresholds; it gives the same colour for every level. */
  function GetColorForPainLevel(level: int): (r: string)
    ensures r == PainHistoryItem.GetPainLevelColor(level)
  {
    if level <= 3 then "#2ECC71"
    else if level <= 6 then "#F39C12"
    else "#E74C3C"
  }

  /** One rendered segment; `color` is the background it is given over the
      default style, present only when the segment is selected. */
  datatype Segment = Segment(value: int, selected: bool, color: Option<string>)

  /** `Array.from({ length: max - min + 1 })`: a non-positive length gives no
      segments. */
  function SegmentCount(min: int, max: int): (n: nat)
    ensures min <= max ==> n == max - min + 1
    ensures min > max ==> n == 0
  {
    if max - min + 1 <= 0 then 0 else max - min + 1
  }

  /** The segments for the current `value` (PainSlider.tsx:34-44). */
  function Segments(min: int, max: int, value: int): (r: seq<Segment>)
    ensures |r| == SegmentCount(min, max)
    ensures r != [] ==> r[0].value == min && r[|r| - 1].value == max
    ensures forall i, j :: 0 <= i < j < |r| ==> r[i].value < r[j].value
    ensures forall i :: 0 <= i < |r| ==> (r[i].selected <==> r[i].value <= value)
    ensures forall i, j :: 0 <= i <= j < |r| && r[j].selected ==> r[i].selected
    ensures forall i :: 0 <= i < |r| ==>
              r[i].color == if r[i].selected then Some(PainHistoryItem.GetPainLevelColor(value)) else None
  {
    var color := GetColorForPainLevel(value);
    seq(SegmentCount(min, max), idx =>
      var current := idx + min;
      var selected := current <= value;
      Segment(current, selected, if selected then Some(color) else None))
  }

  /** Every value from `min` to `max` has its segment, at index `v - min`. */
  lemma SegmentsEnumerate(min: int, max: int, value: int, v: int)
    requires min <= v <= max
    ensures 0 <= v - min < |Segments(min, max, value)|
    ensures Segments(min, max, value)[v - min].value == v
  {
  }

  /** The number of selected segments is the current value's offset plus
      one, clamped to the segment range. */
  lemma SelectedPrefixLength(min: int, max: int, value: int, i: nat)
    requires i < SegmentCount(min, max)
    ensures Segments(min, max, value)[i].selected <==> i < value - min + 1
  {
  }

  /** The default slider has the eleven segments 0..10. */
  lemma DefaultSegments(value: int)
    ensures |Segments(DefaultMin, DefaultMax, value)| == 11
    ensures forall i :: 0 <= i < 11 ==> Segments(DefaultMin, DefaultMax, value)[i].value == i
  {
  }

  /** `handlePress` on segment `idx` (PainSlider.tsx:24-29, 51): the value
      reported to `onChange` is that segment's value. */
  function HandlePress(min: int, max: int, value: int, idx: nat): (reported: int)
    requires idx < SegmentCount(min, max)
    ensures reported == Segments(min, max, value)[idx].value
    ensures min <= reported <= max
  {
    idx + min
  }
}
