/**
  What the logo looks like at each width: which variant is drawn, how wide
  its lines are, and that a given width is never exceeded.
*/
module LogoShapes {
  import opened GoInt
  import opened Text
  import opened Glyphs
  import opened Layout
  import opened LineOps
  import opened Logo

  /** The meta row is exactly as wide as the word above which it sits, whatever the version. */
  lemma MetaRowWidth(version: string, width: int)
    requires width >= |Charm| + MetaRowGap
    ensures |FitVersion(version, width - |Charm| - MetaRowGap)| <= width - |Charm| - MetaRowGap
    ensures |MetaRow(FitVersion(version, width - |Charm| - MetaRowGap), width)| == width
  {
  }

  lemma GradedRows(b: Block, apply: bool, w: int)
    requires Width(b) <= w
    ensures forall i :: 0 <= i < |Graded(b, apply)| ==> |Graded(b, apply)[i]| <= w
  {
  }

  lemma SumWidthsOfFive(a: Block, b: Block, c: Block, d: Block, e: Block)
    ensures SumWidths([a, b, c, d, e]) == Width(a) + Width(b) + Width(c) + Width(d) + Width(e)
  {
    assert [e][1..] == [];
    assert SumWidths([e]) == Width(e);
    assert [d, e][1..] == [e];
    assert SumWidths([d, e]) == Width(d) + Width(e);
    assert [c, d, e][1..] == [d, e];
    assert SumWidths([c, d, e]) == Width(c) + Width(d) + Width(e);
    assert [b, c, d, e][1..] == [c, d, e];
    assert SumWidths([b, c, d, e]) == Width(b) + Width(c) + Width(d) + Width(e);
    assert [a, b, c, d, e][1..] == [b, c, d, e];
  }

  /**
    Between the two fields every line has the same width: left field, gap,
    content, gap, right field. When that fits the given width, nothing is cut.
  */
  lemma SidesRows(content: Block, diag: char, leftWidth: nat, rightWidth: int, width: int)
    requires |content| >= 1
    requires width <= 0 || leftWidth + 1 + Width(content) + 1 + Max(0, rightWidth) <= width
    ensures var r := Sides(content, diag, leftWidth, rightWidth, width);
      forall i :: 0 <= i < |r| ==> |r[i]| == leftWidth + 1 + Width(content) + 1 + Max(0, rightWidth)
  {
    var left := Column(Repeat(diag, leftWidth), |content|);
    var right := Column(Repeat(diag, Max(0, rightWidth)), |content|);
    var total := leftWidth + 1 + Width(content) + 1 + Max(0, rightWidth);
    var joined := JoinHorizontal([left, [" "], content, [" "], right]);
    JoinedSides(content, diag, leftWidth, rightWidth);
    if width > 0 {
      WidthAtMost(joined, width);
      ClampFits(joined, width);
    }
  }

  /** Every joined row is as wide as the left field, a gap, the content, a gap and the right field. */
  lemma JoinedSides(content: Block, diag: char, leftWidth: nat, rightWidth: int)
    requires |content| >= 1
    ensures var joined := JoinHorizontal([Column(Repeat(diag, leftWidth), |content|), [" "], content, [" "],
                                          Column(Repeat(diag, Max(0, rightWidth)), |content|)]);
      forall i :: 0 <= i < |joined| ==> |joined[i]| == leftWidth + 1 + Width(content) + 1 + Max(0, rightWidth)
  {
    var left := Column(Repeat(diag, leftWidth), |content|);
    var right := Column(Repeat(diag, Max(0, rightWidth)), |content|);
    WidthIs(left, leftWidth, 0);
    WidthIs(right, Max(0, rightWidth), 0);
    WidthIs([" "], 1, 0);
    var bs := [left, [" "], content, [" "], right];
    SumWidthsOfFive(left, [" "], content, [" "], right);
    var joined := JoinHorizontal(bs);
    forall i | 0 <= i < |joined| ensures |joined[i]| == SumWidths(bs) {
      JoinRowLength(bs, i);
    }
  }

  /** The full brand word is 48 columns wide, stretched or not. */
  lemma BrandWidths(dec: LayoutDecision)
    ensures BrandWidth() == 48 && StretchedWidth(dec) == 48
  {
    WordWidths(NoStretch);
    WordWidths(dec.stretchIndex);
  }

  /** OPEN is 21 columns wide and PILOT 26, so the stack is 26. */
  lemma StackWidths()
    ensures Width(Word(1, NoStretch, OpenLetters)) == 21 && Width(Word(1, NoStretch, PilotLetters)) == 26
    ensures StackWidth() == 26
  {
    WordWidths(NoStretch);
  }

  /** The two-letter abbreviation is 11 columns wide. */
  lemma AbbrWidth()
    ensures Width(Word(1, NoStretch, AbbrLetters)) == 11
  {
    WordWidths(NoStretch);
  }

  /**
    A framed block: at least four lines, the first and the last but one the
    frame row, every line but the final empty one exactly `w` columns.
  */
  predicate FramedShape(r: Block, frame: Line, w: int) {
    && |r| >= 4 && r[|r| - 1] == "" && r[0] == frame && r[|r| - 2] == frame
    && forall i :: 0 <= i < |r| - 1 ==> |r[i]| == w
  }

  /**
    A meta row and two blocks padded to `w` columns between two frame rows
    of that width: every line but the final empty one is exactly `w` wide,
    and a width of at least `w` cuts nothing.
  */
  lemma FramedPadded(frame: Line, meta: Line, a: Block, b: Block, w: nat, width: int)
    requires w > 0 && |frame| == w && |meta| == w && Width(a) <= w && Width(b) <= w
    requires width <= 0 || width >= w
    ensures FramedShape(ClampedLines(Framed(frame, PaddedLines([meta] + a + b, w)), width), frame, w)
  {
    var padded := PaddedLines([meta] + a + b, w);
    assert forall i :: 0 <= i < |padded| ==> |padded[i]| == w by {
      PaddedUnderMeta(meta, a, b, w);
    }
    var framed := Framed(frame, padded);
    assert FramedShape(framed, frame, w) && Width(framed) == w by {
      FramedRows(frame, padded, w);
    }
    if width > 0 {
      ClampFits(framed, width);
    }
  }

  /**
    Without the compact flag and with no width or at least 57 columns, the
    wide logo is drawn and every line fills the width exactly: 71 columns
    when unconstrained (6 + 1 + 48 + 1 + 15), the given width otherwise.
  */
  lemma WideFillsWidth(version: string, compact: bool, width: int)
    requires !compact && (width <= 0 || width >= 57)
    ensures var r := RenderSpec(version, compact, width);
      forall i :: 0 <= i < |r| ==> |r[i]| == (if width > 0 then width else 71)
  {
    var dec := BrandLayout(width);
    BrandWidths(dec);
    var word := Word(1, dec.stretchIndex, Brand);
    var content := WideWord(version, dec);
    assert content == [MetaRow(BrandVersion(version, 48), 48)] + Graded(word, dec.applyGradient);
    VersionedWidth(version, word, dec.applyGradient);
    SidesRows(content, DiagRune(dec), BaseLeft, dec.rightFieldWidth, width);
  }

  /** A 48-column word under its 48-column version row is 48 columns wide. */
  lemma VersionedWidth(version: string, word: Block, apply: bool)
    requires Width(word) == 48
    ensures Width([MetaRow(BrandVersion(version, 48), 48)] + Graded(word, apply)) == 48
  {
    var graded := Graded(word, apply);
    var content := [MetaRow(BrandVersion(version, 48), 48)] + graded;
    MetaRowWidth(version, 48);
    GradedRows(word, apply, 48);
    forall i | 0 <= i < |content| ensures |content[i]| <= 48 {
      if i > 0 {
        assert content[i] == graded[i - 1];
      }
    }
    WidthIs(content, 48, 0);
  }

  /** A block between two frame rows, all of one width, is exactly that wide. */
  lemma FramedRows(frame: Line, content: Block, w: nat)
    requires |frame| == w && forall i :: 0 <= i < |content| ==> |content[i]| == w
    ensures var r := Framed(frame, content);
      && |r| == |content| + 3 && r[0] == frame && r[|r| - 2] == frame && r[|r| - 1] == ""
      && (forall i :: 0 <= i < |r| - 1 ==> |r[i]| == w)
      && Width(r) == w
  {
    var r := Framed(frame, content);
    forall i | 0 <= i < |r| - 1 ensures |r[i]| == w {
      if 0 < i < |r| - 2 {
        assert r[i] == content[i - 1];
      }
    }
    WidthIs(r, w, 0);
  }

  /** Every line is exactly `w` wide once padded, when the meta row is and the words below it are no wider. */
  lemma PaddedUnderMeta(meta: Line, a: Block, b: Block, w: nat)
    requires w > 0 && |meta| == w && Width(a) <= w && Width(b) <= w
    ensures forall i :: 0 <= i < |[meta] + a + b| ==> |PaddedLines([meta] + a + b, w)[i]| == w
  {
    var lines := [meta] + a + b;
    forall i | 0 <= i < |lines| ensures |lines[i]| <= w {
      if 0 < i <= |a| {
        assert lines[i] == a[i - 1];
      } else if i > |a| {
        assert lines[i] == b[i - 1 - |a|];
      }
    }
    WidthAtMost(lines, w);
    PaddedExact(lines, w);
  }

  lemma GradedWidth(b: Block, apply: bool, w: nat)
    requires Width(b) <= w
    ensures Width(Graded(b, apply)) <= w
  {
    GradedRows(b, apply, w);
    WidthAtMost(Graded(b, apply), w);
  }

  lemma StackedLogoShape(v: string, dec: LayoutDecision, width: int)
    requires width <= 0 || width >= 28
    ensures FramedShape(StackedLogo(v, dec, width), Repeat(DiagRune(dec), 26), 26)
  {
    StackWidths();
    StackShape(v, Word(1, NoStretch, OpenLetters), Word(1, NoStretch, PilotLetters), dec.applyGradient, DiagRune(dec), width, 26);
  }

  /** Two words at most `w` wide, the wider exactly `w`, stack into lines of exactly `w` columns. */
  lemma StackShape(v: string, a: Block, b: Block, apply: bool, diag: char, width: int, w: nat)
    requires Max(Width(a), Width(b)) == w && w >= |Charm| + MetaRowGap
    requires width <= 0 || width >= w
    ensures FramedShape(Stack(v, a, b, apply, diag, width), Repeat(diag, w), w)
  {
    var meta := MetaRow(FitVersion(v, Max(0, w - |Charm| - MetaRowGap)), w);
    assert |meta| == w by { MetaRowWidth(v, w); }
    assert Width(Graded(a, apply)) <= w by { GradedWidth(a, apply, w); }
    assert Width(Graded(b, apply)) <= w by { GradedWidth(b, apply, w); }
    FramedPadded(Repeat(diag, w), meta, Graded(a, apply), Graded(b, apply), w, width);
  }

  /**
    In compact mode, or below 57 columns, with no width or at least 28
    columns, the stacked logo is drawn: a diagonal frame row, the meta row,
    OPEN and PILOT, and the frame row again, every line exactly 26 columns
    (so nothing is cut), followed by the final line break. The frame is made
    of plain slashes below 50 columns.
  */
  lemma StackedShape(version: string, compact: bool, width: int)
    requires compact || 0 < width < 57
    requires width <= 0 || width >= 28
    ensures FramedShape(RenderSpec(version, compact, width), Repeat(if 0 < width < 50 then SimpleDiag else Diag, 26), 26)
  {
    var dec := BrandLayout(width);
    BrandWidths(dec);
    StackWidths();
    assert compact || dec.compact;
    assert StackFits(width);
    StackedLogoShape(BrandVersion(version, StretchedWidth(dec)), dec, width);
  }

  lemma AbbrLogoShape(v: string, dec: LayoutDecision, width: int)
    requires 13 <= width
    ensures FramedShape(AbbrLogo(v, dec, width), Repeat(DiagRune(dec), 11), 11)
  {
    AbbrWidth();
    AbbrShape(v, Word(1, NoStretch, AbbrLetters), dec.applyGradient, DiagRune(dec), width, 11);
  }

  /** A word of `w` columns that fits two columns inside the width gives lines of exactly `w` columns. */
  lemma AbbrShape(v: string, abbr: Block, apply: bool, diag: char, width: int, w: nat)
    requires Width(abbr) == w && w >= |Charm| + MetaRowGap && w + 2 <= width
    ensures FramedShape(Abbr(v, abbr, apply, diag, width), Repeat(diag, w), w)
  {
    var abbrC := Graded(abbr, apply);
    var meta := MetaRow(FitVersion(v, Max(0, w - |Charm| - MetaRowGap)), w);
    assert |meta| == w by { MetaRowWidth(v, w); }
    assert Width(abbrC) <= w by { GradedWidth(abbr, apply, w); }
    assert Width([]) <= w;
    FramedPadded(Repeat(diag, w), meta, abbrC, [], w, width);
    assert [meta] + abbrC + [] == [meta] + abbrC;
  }

  /**
    Between 13 and 27 columns the two-letter abbreviation is drawn between
    two rows of plain slashes, every line exactly 11 columns.
  */
  lemma AbbreviatedShape(version: string, compact: bool, width: int)
    requires 13 <= width < 28
    ensures FramedShape(RenderSpec(version, compact, width), Repeat(SimpleDiag, 11), 11)
  {
    var dec := BrandLayout(width);
    BrandWidths(dec);
    StackWidths();
    assert dec.compact && !StackFits(width);
    AbbrLogoShape(BrandVersion(version, StretchedWidth(dec)), dec, width);
  }

  lemma InitialsBlock(v2: string, frame: Line)
    requires v2 == "" && frame == [SimpleDiag, SimpleDiag]
    ensures Framed(frame, PaddedLines([MetaRow(v2, |Initials|)] + [Initials], |Initials|)) ==
      [[SimpleDiag, SimpleDiag], Charm, Initials, [SimpleDiag, SimpleDiag], ""]
  {
    assert Spaces(0) == "";
    assert MetaRow(v2, |Initials|) == Charm;
    assert [Charm] + [Initials] == [Charm, Initials];
    PaddedWide([Charm, Initials], |Initials|);
  }

  lemma InitialsLogo(v: string, dec: LayoutDecision, width: int)
    requires 0 < width < 13 && dec.useSimpleDiag
    ensures AbbrLogo(v, dec, width) ==
      ClampedLines([[SimpleDiag, SimpleDiag], Charm, Initials, [SimpleDiag, SimpleDiag], ""], width)
  {
    AbbrWidth();
    InitialsOnly(v, Word(1, NoStretch, AbbrLetters), dec.applyGradient, width);
  }

  /** A word that does not fit two columns inside the width gives way to the initials and the bare label. */
  lemma InitialsOnly(v: string, abbr: Block, apply: bool, width: int)
    requires 0 < width && Width(abbr) > width - 2
    ensures Abbr(v, abbr, apply, SimpleDiag, width) ==
      ClampedLines([[SimpleDiag, SimpleDiag], Charm, Initials, [SimpleDiag, SimpleDiag], ""], width)
  {
    var v2 := FitVersion(v, Max(0, |Initials| - |Charm| - MetaRowGap));
    assert v2 == "";
    var frame := Repeat(SimpleDiag, Max(0, |Initials|));
    assert frame == [SimpleDiag, SimpleDiag];
    InitialsBlock(v2, frame);
  }

  /**
    Below 13 columns only the plain initials are drawn, whatever the version
    and the compact flag: the version is truncated away and the meta row is
    the bare brand label, then clamped like every other line.
  */
  lemma InitialsShape(version: string, compact: bool, width: int)
    requires 0 < width < 13
    ensures RenderSpec(version, compact, width) ==
      ClampedLines([[SimpleDiag, SimpleDiag], Charm, Initials, [SimpleDiag, SimpleDiag], ""], width)
  {
    var dec := BrandLayout(width);
    BrandWidths(dec);
    StackWidths();
    assert dec.compact && !StackFits(width);
    InitialsLogo(BrandVersion(version, StretchedWidth(dec)), dec, width);
  }

  lemma ClampedInitials()
    ensures ClampedLines([[SimpleDiag, SimpleDiag], Charm, Initials, [SimpleDiag, SimpleDiag], ""], 4) ==
      ["//", " Sur", "OP", "//", ""]
  {
    var lines := [[SimpleDiag, SimpleDiag], Charm, Initials, [SimpleDiag, SimpleDiag], ""];
    assert ClampLine(Charm, 4) == " Sur";
    assert ClampedLines(lines, 4) == [ClampLine(lines[0], 4), ClampLine(lines[1], 4), ClampLine(lines[2], 4),
                                      ClampLine(lines[3], 4), ClampLine(lines[4], 4)];
  }

  /** Four columns: the initials under a cut-off brand label. */
  lemma FourColumns(version: string, compact: bool)
    ensures RenderSpec(version, compact, 4) == ["//", " Sur", "OP", "//", ""]
  {
    InitialsShape(version, compact, 4);
    ClampedInitials();
  }

  lemma SidesFit(content: Block, diag: char, leftWidth: nat, rightWidth: int, width: int)
    requires width > 0
    ensures Width(Sides(content, diag, leftWidth, rightWidth, width)) <= width
  {
    var left := Column(Repeat(diag, leftWidth), |content|);
    var right := Column(Repeat(diag, Max(0, rightWidth)), |content|);
    ClampedWidth(JoinHorizontal([left, [" "], content, [" "], right]), width);
  }

  lemma StackedFits(v: string, dec: LayoutDecision, width: int)
    requires width > 0
    ensures Width(StackedLogo(v, dec, width)) <= width
  {
    StackFit(v, Word(1, NoStretch, OpenLetters), Word(1, NoStretch, PilotLetters), dec.applyGradient, DiagRune(dec), width);
  }

  lemma StackFit(v: string, a: Block, b: Block, apply: bool, diag: char, width: int)
    requires width > 0
    ensures Width(Stack(v, a, b, apply, diag, width)) <= width
  {
    var stackW := Max(Width(a), Width(b));
    var v2 := FitVersion(v, Max(0, stackW - |Charm| - MetaRowGap));
    var content := PaddedLines([MetaRow(v2, stackW)] + Graded(a, apply) + Graded(b, apply), stackW);
    ClampedWidth(Framed(Repeat(diag, stackW), content), width);
  }

  lemma AbbrFits(v: string, dec: LayoutDecision, width: int)
    requires width > 0
    ensures Width(AbbrLogo(v, dec, width)) <= width
  {
    AbbrFit(v, Word(1, NoStretch, AbbrLetters), dec.applyGradient, DiagRune(dec), width);
  }

  lemma AbbrFit(v: string, abbr: Block, apply: bool, diag: char, width: int)
    requires width > 0
    ensures Width(Abbr(v, abbr, apply, diag, width)) <= width
  {
    var tooNarrow := width > 0 && Width(abbr) > width - 2;
    var abbrC := if tooNarrow then [Initials] else Graded(abbr, apply);
    var abbrWidth := if tooNarrow then |Initials| else Width(abbr);
    var v2 := FitVersion(v, Max(0, abbrWidth - |Charm| - MetaRowGap));
    var mini := PaddedLines([MetaRow(v2, abbrWidth)] + abbrC, abbrWidth);
    ClampedWidth(Framed(Repeat(diag, Max(0, abbrWidth)), mini), width);
  }

  /** With a positive width no line of the logo is wider. */
  lemma RenderFits(version: string, compact: bool, width: int)
    requires width > 0
    ensures Width(RenderSpec(version, compact, width)) <= width
  {
    var dec := BrandLayout(width);
    var v := BrandVersion(version, StretchedWidth(dec));
    if !(compact || dec.compact) {
      SidesFit(WideWord(version, dec), DiagRune(dec), BaseLeft, dec.rightFieldWidth, width);
    } else if StackFits(width) {
      StackedFits(v, dec, width);
    } else {
      AbbrFits(v, dec, width);
    }
  }

  /** With no width the wide logo stretches the fourth letter, N (a hash of the word width). */
  lemma RenderUnconstrainedStretch(width: int)
    requires width <= 0
    ensures BrandLayout(width).stretchIndex == 3
  {
    BrandLayoutIs(width);
    BrandStretch(BrandLayout(width), width);
  }

  lemma BrandStretch(d: LayoutDecision, width: int)
    requires width <= 0 && d == DecideLayout(width, 48, BaseLeft, DefaultRight, 9)
    ensures d.stretchIndex == 3
  {
    HashedStretch(48, 9, 3, width);
  }

  /** The wide layout is the layout of a 48-column word of nine letters. */
  lemma BrandLayoutIs(width: int)
    ensures BrandLayout(width) == DecideLayout(width, 48, BaseLeft, DefaultRight, 9)
  {
    BrandWordWidth(NoStretch);
  }

  /** The unconstrained stretch of a word of the given width and letter count. */
  lemma HashedStretch(wordWidth: int, letters: int, expected: int, width: int)
    requires width <= 0 && letters > 0 && wordWidth >= 0
    requires (wordWidth * 31 + letters * 17) % letters == expected
    ensures DecideLayout(width, wordWidth, BaseLeft, DefaultRight, letters).stretchIndex == expected
  {
    UnconstrainedStretch(wordWidth, BaseLeft, DefaultRight, letters, width);
  }

  // ---------------------------------------------------------------------------
  // RenderChat

  /** Below 35 columns the chat logo is the compact logo. */
  lemma ChatFallback(version: string, width: int)
    requires 0 < width < 35
    ensures RenderChatSpec(version, width) == RenderSpec(version, true, width)
  {
    StackWidths();
  }

  /** With no width the chat logo stretches the second letter of PILOT, I. */
  lemma ChatUnconstrainedStretch(width: int)
    requires width <= 0
    ensures RemapStretch(ChatLayout(width).stretchIndex) == (NoStretch, 1)
  {
    ChatStretchIndex(width);
    assert RemapStretch(5) == (NoStretch, 1);
  }

  /** With no width the chat layout's stretch index is (26·31 + 9·17) mod 9 = 5. */
  lemma ChatStretchIndex(width: int)
    requires width <= 0
    ensures ChatLayout(width).stretchIndex == 5
  {
    ChatLayoutIs(width);
    ChatStretch(ChatLayout(width), width);
  }

  lemma ChatStretch(d: LayoutDecision, width: int)
    requires width <= 0 && d == DecideLayout(width, 26, BaseLeft, DefaultRight, 9)
    ensures d.stretchIndex == 5
  {
    HashedStretch(26, 9, 5, width);
  }

  /** The chat layout is the layout of a 26-column word of nine letters. */
  lemma ChatLayoutIs(width: int)
    ensures ChatLayout(width) == DecideLayout(width, 26, BaseLeft, DefaultRight, 9)
  {
    StackWidths();
  }

  /** The stacked chat content: every line 26 columns. */
  lemma ChatContentWidth(version: string, dec: LayoutDecision)
    ensures var c := ChatContent(version, dec); |c| >= 1 && Width(c) == 26
  {
    StackWidths();
    var stretch := RemapStretch(dec.stretchIndex);
    WordIgnoresStretch(1, stretch.0, OpenLetters);
    WordIgnoresStretch(1, stretch.1, PilotLetters);
    ChatStackWidth(version, Word(1, stretch.0, OpenLetters), Word(1, stretch.1, PilotLetters), dec.applyGradient, 26);
  }

  lemma ChatStackWidth(version: string, a: Block, b: Block, apply: bool, w: nat)
    requires Width(a) <= w && Width(b) <= w && w >= |Charm| + MetaRowGap
    ensures var c := ChatStack(version, a, b, apply, w); |c| >= 1 && Width(c) == w
  {
    GradedWidth(a, apply, w);
    GradedWidth(b, apply, w);
    MetaRowWidth(version, w);
    ChatRows(MetaRow(BrandVersion(version, w), w), Graded(a, apply), Graded(b, apply), w);
  }

  /** Meta row, a word, a blank line and a word, padded under a meta row of the full width. */
  lemma ChatRows(meta: Line, a: Block, b: Block, w: nat)
    requires w > 0 && |meta| == w && Width(a) <= w && Width(b) <= w
    ensures var c := PaddedLines([meta] + a + [""] + b, w); |c| >= 1 && Width(c) == w
  {
    WidthAtMost([meta], w);
    WidthAtMost([""], w);
    WidthConcat([meta], a, w);
    WidthConcat([meta] + a, [""], w);
    WidthConcat([meta] + a + [""], b, w);
    var lines := [meta] + a + [""] + b;
    PaddedExact(lines, w);
    WidthIs(PaddedLines(lines, w), w, 0);
  }

  /**
    From 35 columns on, and with no width, the chat logo is drawn between
    the fields and every line fills the width exactly: 49 columns when
    unconstrained (6 + 1 + 26 + 1 + 15), the given width otherwise.
  */
  lemma ChatFillsWidth(version: string, width: int)
    requires width <= 0 || width >= 35
    ensures var r := RenderChatSpec(version, width);
      forall i :: 0 <= i < |r| ==> |r[i]| == (if width > 0 then width else 49)
  {
    StackWidths();
    var dec := ChatLayout(width);
    ChatContentWidth(version, dec);
    SidesRows(ChatContent(version, dec), DiagRune(dec), BaseLeft, dec.rightFieldWidth, width);
  }

  /** With a positive width no line of the chat logo is wider. */
  lemma RenderChatFits(version: string, width: int)
    requires width > 0
    ensures Width(RenderChatSpec(version, width)) <= width
  {
    var dec := ChatLayout(width);
    if dec.compact {
      RenderFits(version, true, width);
    } else {
      SidesFit(ChatContent(version, dec), DiagRune(dec), BaseLeft, dec.rightFieldWidth, width);
    }
  }
}
