/** The chair-to-pixel map used to place both avatars on the 600-pixel race track. */
module Layout {
  import opened JsSemantics

  const TotalWidth: real := 600.0
  const ChairCount: real := 82.0

  /** `chairToX`: a number is scaled by the width of one chair; any other value maps to 0. */
  function ChairToX(chairIndex: JsValue): (x: real)
    ensures !chairIndex.Num? ==> x == 0.0
    ensures chairIndex.Num? ==> x * ChairCount == chairIndex.n * TotalWidth
  {
    if !chairIndex.Num? then 0.0
    else
      var chairWidth := TotalWidth / ChairCount;
      chairIndex.n * chairWidth
  }

  /** The map is strictly increasing in the chair index. */
  lemma ChairToXStrictlyIncreasing(i: real, j: real)
    requires i < j
    ensures ChairToX(Num(i)) < ChairToX(Num(j))
  {
  }

  /** Chair 0 is the left edge, and neighbouring chairs are one chair width apart. */
  lemma ChairToXSpacing(i: real)
    ensures ChairToX(Num(0.0)) == 0.0
    ensures ChairToX(Num(i + 1.0)) - ChairToX(Num(i)) == TotalWidth / ChairCount
  {
  }

  /** Every chair of the 82-chair track, 0 to 81, starts inside the 600-pixel track. */
  lemma ChairToXWithinTrack(i: real)
    requires 0.0 <= i <= ChairCount - 1.0
    ensures 0.0 <= ChairToX(Num(i)) < TotalWidth
    ensures ChairToX(Num(ChairCount - 1.0)) == 81.0 * TotalWidth / ChairCount
  {
  }
}
