/**
  The width-based layout decision of the OpenPilot wordmark
  (`decideLayout` and `layoutDecision` in the logo component).
*/
module Layout {
  import opened GoInt

  /** The record `decideLayout` builds; `stretchIndex == NoStretch` means no letter is stretched. */
  datatype LayoutDecision = LayoutDecision(
    compact: bool,
    stretchIndex: int,
    applyGradient: bool,
    useSimpleDiag: bool,
    rightFieldWidth: int,
    leftFieldWidth: int)

  const NoStretch: int := -1

  /** Columns between the left field, the word and the right field, plus the minimal right field. */
  const FrameGaps: int := 2

  /**
    The layout for a word of `wordWidth` columns and `letterCount` letters in
    `availableWidth` columns (`availableWidth <= 0` means unconstrained).
    Under a constraint, a non-compact layout fills the width exactly:
    left field, gap, word, gap, right field.
  */
  function DecideLayout(availableWidth: int, wordWidth: int, baseLeft: int, defaultRight: int,
                        letterCount: int): (d: LayoutDecision)
    ensures d.leftFieldWidth == baseLeft
    // unconstrained: the full framed layout with the default right field
    ensures availableWidth <= 0 ==>
      !d.compact && d.applyGradient && !d.useSimpleDiag && d.rightFieldWidth == defaultRight
    // constrained: compact exactly when the frame does not fit
    ensures availableWidth > 0 ==> (d.compact <==> availableWidth < wordWidth + baseLeft + FrameGaps + 1)
    ensures availableWidth > 0 && d.compact ==> d.rightFieldWidth == 0
    ensures availableWidth > 0 && !d.compact ==>
      d.rightFieldWidth >= 1 && baseLeft + 1 + wordWidth + 1 + d.rightFieldWidth == availableWidth
    ensures availableWidth > 0 ==> d.rightFieldWidth >= 0
    ensures availableWidth > 0 ==> (!d.applyGradient <==> availableWidth < wordWidth + baseLeft + 6)
    ensures availableWidth > 0 && d.compact ==> !d.applyGradient
    ensures availableWidth > 0 ==> (d.useSimpleDiag <==> availableWidth < 50)
    // a stretch index, when there is one, names a letter
    ensures d.stretchIndex != NoStretch ==> letterCount > 0
    ensures wordWidth >= 0 && d.stretchIndex != NoStretch ==> 0 <= d.stretchIndex < letterCount
    ensures availableWidth > 0 && (d.compact || availableWidth < wordWidth + baseLeft + FrameGaps + 1 + 12) ==>
      d.stretchIndex == NoStretch
  {
    var d := LayoutDecision(
      compact := false,
      stretchIndex := NoStretch,
      applyGradient := true,
      useSimpleDiag := false,
      rightFieldWidth := if availableWidth > 0 then Max(1, availableWidth - wordWidth - baseLeft - 2) else defaultRight,
      leftFieldWidth := baseLeft);
    if availableWidth <= 0 then
      if letterCount > 0 then d.(stretchIndex := Rem(wordWidth * 31 + letterCount * 17, letterCount)) else d
    else
      var minTotal := wordWidth + baseLeft + FrameGaps + 1;
      var d1 := if availableWidth < minTotal then d.(compact := true, rightFieldWidth := 0) else d;
      var d2 := if availableWidth < wordWidth + baseLeft + 6 then d1.(applyGradient := false) else d1;
      var d3 := if availableWidth < 50 then d2.(useSimpleDiag := true) else d2;
      var d4 := if !d3.compact && availableWidth >= minTotal + 12 && letterCount > 0
                then d3.(stretchIndex := Rem(availableWidth + wordWidth * 7 + letterCount * 13, letterCount))
                else d3;
      if d4.rightFieldWidth < 0 then d4.(rightFieldWidth := 0) else d4
  }

  /** With no width constraint the stretched letter is a fixed hash of the word's size. */
  lemma UnconstrainedStretch(wordWidth: int, baseLeft: int, defaultRight: int, letterCount: int, availableWidth: int)
    requires availableWidth <= 0 && wordWidth >= 0
    ensures var d := DecideLayout(availableWidth, wordWidth, baseLeft, defaultRight, letterCount);
      d.stretchIndex == if letterCount > 0 then (wordWidth * 31 + letterCount * 17) % letterCount else NoStretch
  {
    if letterCount > 0 {
      assert wordWidth * 31 >= 0 && letterCount * 17 > 0;
      AgreeOnNatural(wordWidth * 31 + letterCount * 17, letterCount);
    }
  }

  /** With ample slack the stretched letter shifts with the available width. */
  lemma ConstrainedStretch(availableWidth: int, wordWidth: int, baseLeft: int, defaultRight: int, letterCount: int)
    requires availableWidth > 0 && wordWidth >= 0
    ensures var d := DecideLayout(availableWidth, wordWidth, baseLeft, defaultRight, letterCount);
      d.stretchIndex == if availableWidth >= wordWidth + baseLeft + FrameGaps + 1 + 12 && letterCount > 0
                        then (availableWidth + wordWidth * 7 + letterCount * 13) % letterCount
                        else NoStretch
  {
    if letterCount > 0 {
      assert wordWidth * 7 >= 0 && letterCount * 13 > 0;
      AgreeOnNatural(availableWidth + wordWidth * 7 + letterCount * 13, letterCount);
    }
  }

  /**
    `regulateForAvailableWidth`: forces the compact layout when a width is
    given and is narrower than the word plus the left field and both gaps.
    The options are returned unchanged, so only the flag is modelled.
  */
  function RegulateForAvailableWidth(compact: bool, width: int, brandWidth: int): (c: bool)
    ensures c <==> compact || (0 < width < brandWidth + 6 + FrameGaps)
    ensures width <= 0 || width >= brandWidth + 6 + FrameGaps ==> c == compact
  {
    if width <= 0 then compact
    else
      var minTotal := brandWidth + 6 + FrameGaps + 1;
      if width < minTotal then
        if width >= brandWidth + 6 + FrameGaps then compact else true
      else compact
  }
}
