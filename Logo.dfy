/**
  The OpenPilot wordmark (`Render` and `RenderChat` of the logo component).
  A rendered logo is a block of lines; colours are left out, so a coloured
  span stands for its plain text, and a line's display width is its length.
*/
module Logo {
  import opened GoInt
  import opened Text
  import opened Glyphs
  import opened Layout
  import opened LineOps

  /** The brand label in front of the version. */
  const Charm: string := " Surya™"
  const MetaRowGap: int := 1
  const Diag: char := '╱'
  const SimpleDiag: char := '/'
  const BaseLeft: int := 6
  const DefaultRight: int := 15
  /** The abbreviation used when even the two-letter word does not fit. */
  const Initials: Line := "OP"

  // ---------------------------------------------------------------------------
  // Building blocks

  /**
    The lines of a builder's text after `fmt.Fprintln(b, row)`: `row` ends
    the current line and a new, empty line starts.
  */
  function Println(acc: Block, row: Line): (r: Block)
    requires |acc| >= 1
    ensures |r| == |acc| + 1 && r[|r| - 1] == ""
  {
    acc[..|acc| - 1] + [acc[|acc| - 1] + row, ""]
  }

  /** A word after the per-line gradient loop: each row printed on its own line, so an empty line follows. */
  function Graded(b: Block, apply: bool): (r: Block)
    ensures |r| == |b| + (if apply then 1 else 0)
  {
    if apply then b + [""] else b
  }

  /** A field of `h` identical rows printed one per line. */
  function Column(row: Line, h: nat): (r: Block)
    ensures |r| == h + 1 && r[h] == ""
    ensures forall i :: 0 <= i < h ==> r[i] == row
  {
    seq(h, i => row) + [""]
  }

  /** The version as `ansi.Truncate(version, maxVersionWidth, "…")` leaves it. */
  function FitVersion(version: string, maxVersionWidth: int): string {
    TruncateTail(version, maxVersionWidth, "…")
  }

  /** The meta row: the brand label, a gap, then the version. */
  function MetaRow(version: string, width: int): Line {
    Charm + Spaces(Max(0, width - |Charm| - |version|)) + version
  }

  /** A top and a bottom frame row around `content`, followed by the final line break. */
  function Framed(frame: Line, content: Block): Block {
    [frame] + content + [frame, ""]
  }

  function DiagRune(dec: LayoutDecision): char {
    if dec.useSimpleDiag then SimpleDiag else Diag
  }

  method ApplyGradient(word: Block) returns (b: Block)
    ensures b == Graded(word, true)
  {
    b := [""];
    for i := 0 to |word|
      invariant b == word[..i] + [""]
    {
      // the gradient colours the row; its text is unchanged
      ghost var before := b;
      b := Println(b, word[i]);
      assert before[..|before| - 1] == word[..i] && before[|before| - 1] + word[i] == word[i];
      assert word[..i + 1] == word[..i] + [word[i]];
    }
    assert word[..|word|] == word;
  }

  method FieldColumn(row: Line, h: nat) returns (b: Block)
    ensures b == Column(row, h)
  {
    b := [""];
    for i := 0 to h
      invariant b == seq(i, j => row) + [""]
    {
      ghost var before := b;
      b := Println(b, row);
      assert before[..|before| - 1] == seq(i, j => row) && before[|before| - 1] + row == row;
      assert seq(i + 1, j => row) == seq(i, j => row) + [row];
    }
  }

  /** The two field loops, the horizontal join and the clamp shared by both wide layouts. */
  method DrawSides(content: Block, diag: char, leftWidth: nat, rightWidth: int, width: int) returns (logo: Block)
    ensures logo == Sides(content, diag, leftWidth, rightWidth, width)
  {
    var fieldHeight := |content|;
    var leftField := FieldColumn(Repeat(diag, leftWidth), fieldHeight);
    var w := rightWidth;
    if w < 0 {
      w := 0;
    }
    var rightField := FieldColumn(Repeat(diag, w), fieldHeight);
    logo := JoinHorizontal([leftField, [" "], content, [" "], rightField]);
    if width > 0 {
      logo := ClampLines(logo, width);
    }
  }

  // ---------------------------------------------------------------------------
  // Render

  function BrandWidth(): int {
    Width(Word(1, NoStretch, Brand))
  }

  function BrandLayout(width: int): LayoutDecision {
    DecideLayout(width, BrandWidth(), BaseLeft, DefaultRight, |Brand|)
  }

  /** The width of the word as drawn, with the letter the layout picks asked to stretch. */
  function StretchedWidth(dec: LayoutDecision): int {
    Width(Word(1, dec.stretchIndex, Brand))
  }

  /** The version after the first truncation, to the drawn word's width. */
  function BrandVersion(version: string, brandWidth: int): string {
    FitVersion(version, brandWidth - |Charm| - MetaRowGap)
  }

  function StackWidth(): int {
    Max(Width(Word(1, NoStretch, OpenLetters)), Width(Word(1, NoStretch, PilotLetters)))
  }

  /** The stacked OPEN / PILOT variant fits without truncation. */
  predicate StackFits(width: int) {
    !(width > 0 && StackWidth() > width - 2)
  }

  /** The meta row above the full word, and the word itself. */
  function WideWord(version: string, dec: LayoutDecision): Block {
    var word := Word(1, dec.stretchIndex, Brand);
    var brandWidth := Width(word);
    [MetaRow(BrandVersion(version, brandWidth), brandWidth)] + Graded(word, dec.applyGradient)
  }

  /**
    `content` between a left and a right diagonal field, one space apart,
    every line clamped to a positive `width`; each field has one row per
    line of `content` and ends with a line break.
  */
  function Sides(content: Block, diag: char, leftWidth: nat, rightWidth: int, width: int): (r: Block)
    ensures Fits(r, width)
  {
    var left := Column(Repeat(diag, leftWidth), |content|);
    var right := Column(Repeat(diag, Max(0, rightWidth)), |content|);
    ClampedLines(JoinHorizontal([left, [" "], content, [" "], right]), width)
  }

  /** The wide variant: diagonal fields left and right of the meta row and the word. */
  function WideLogo(version: string, dec: LayoutDecision, width: int): (r: Block)
    ensures Fits(r, width)
  {
    Sides(WideWord(version, dec), DiagRune(dec), BaseLeft, dec.rightFieldWidth, width)
  }

  /**
    The stacked variant: OPEN above PILOT between two frame rows; `v` is the
    version after the first truncation.
  */
  function StackedLogo(v: string, dec: LayoutDecision, width: int): (r: Block)
    ensures Fits(r, width)
  {
    Stack(v, Word(1, NoStretch, OpenLetters), Word(1, NoStretch, PilotLetters), dec.applyGradient, DiagRune(dec), width)
  }

  /**
    Two words stacked under the meta row, all padded to the wider word and
    framed by rows of `diag` of that width, then clamped to `width`.
  */
  function Stack(v: string, openWord: Block, pilotWord: Block, apply: bool, diag: char, width: int): (r: Block)
    ensures Fits(r, width)
  {
    var stackW := Max(Width(openWord), Width(pilotWord));
    var v2 := FitVersion(v, Max(0, stackW - |Charm| - MetaRowGap));
    var content := PaddedLines([MetaRow(v2, stackW)] + Graded(openWord, apply) + Graded(pilotWord, apply), stackW);
    ClampedLines(Framed(Repeat(diag, stackW), content), width)
  }

  /** The abbreviated variant: the two-letter word, or plain initials when even that does not fit. */
  function AbbrLogo(v: string, dec: LayoutDecision, width: int): (r: Block)
    ensures Fits(r, width)
  {
    Abbr(v, Word(1, NoStretch, AbbrLetters), dec.applyGradient, DiagRune(dec), width)
  }

  /**
    `abbr` under the meta row between two frame rows of its width; when
    `abbr` does not fit two columns inside `width`, the initials instead.
  */
  function Abbr(v: string, abbr: Block, apply: bool, diag: char, width: int): (r: Block)
    ensures Fits(r, width)
  {
    var tooNarrow := width > 0 && Width(abbr) > width - 2;
    var abbrC := if tooNarrow then [Initials] else Graded(abbr, apply);
    var abbrWidth := if tooNarrow then |Initials| else Width(abbr);
    var v2 := FitVersion(v, Max(0, abbrWidth - |Charm| - MetaRowGap));
    var mini := PaddedLines([MetaRow(v2, abbrWidth)] + abbrC, abbrWidth);
    ClampedLines(Framed(Repeat(diag, Max(0, abbrWidth)), mini), width)
  }

  function CompactLogo(v: string, dec: LayoutDecision, width: int): (r: Block)
    ensures Fits(r, width)
  {
    if StackFits(width) then StackedLogo(v, dec, width) else AbbrLogo(v, dec, width)
  }

  /** The logo `Render(version, compact, o)` draws for `o.Width == width`. */
  function RenderSpec(version: string, compact: bool, width: int): (r: Block)
    ensures Fits(r, width)
  {
    var dec := BrandLayout(width);
    if !(compact || dec.compact) then WideLogo(version, dec, width)
    else CompactLogo(BrandVersion(version, StretchedWidth(dec)), dec, width)
  }

  /** The sidebar variants: stacked when the stack fits, abbreviated otherwise. */
  method DrawCompact(v: string, dec: LayoutDecision, width: int) returns (logo: Block)
    ensures logo == CompactLogo(v, dec, width)
  {
    var openWord := RenderWord(1, NoStretch, OpenLetters);
    var pilotWord := RenderWord(1, NoStretch, PilotLetters);
    var stackW := Max(Width(openWord), Width(pilotWord));
    var stackOK := true;
    if width > 0 && stackW > width - 2 {
      stackOK := false;
    }
    assert stackOK == StackFits(width);
    var diagRune := if dec.useSimpleDiag then SimpleDiag else Diag;
    if stackOK {
      logo := DrawStacked(openWord, pilotWord, v, dec.applyGradient, diagRune, width);
    } else {
      var abbr := RenderWord(1, NoStretch, AbbrLetters);
      logo := DrawAbbreviated(abbr, v, dec.applyGradient, diagRune, width);
    }
  }

  method DrawStacked(openWord: Block, pilotWord: Block, v: string, apply: bool, diag: char, width: int)
    returns (logo: Block)
    ensures logo == Stack(v, openWord, pilotWord, apply, diag, width)
  {
    var stackW := Max(Width(openWord), Width(pilotWord));
    var openC, pilotC := openWord, pilotWord;
    if apply {
      openC := ApplyGradient(openWord);
      pilotC := ApplyGradient(pilotWord);
    }
    var maxVersionWidth := stackW - |Charm| - MetaRowGap;
    if maxVersionWidth < 0 {
      maxVersionWidth := 0;
    }
    var v2 := TruncateTail(v, maxVersionWidth, "…");
    var content := PadLines([MetaRow(v2, stackW)] + openC + pilotC, stackW);
    var frame := Repeat(diag, stackW);
    logo := [frame] + content + [frame, ""];
    if width > 0 {
      logo := ClampLines(logo, width);
    }
  }

  method DrawAbbreviated(word: Block, v: string, apply: bool, diag: char, width: int) returns (logo: Block)
    ensures logo == Abbr(v, word, apply, diag, width)
  {
    var abbr := word;
    var abbrWidth := Width(abbr);
    if apply {
      abbr := ApplyGradient(abbr);
    }
    if width > 0 && abbrWidth > width - 2 {
      abbr := [Initials];
      abbrWidth := |Initials|;
    }
    var maxVersionWidth := abbrWidth - |Charm| - MetaRowGap;
    if maxVersionWidth < 0 {
      maxVersionWidth := 0;
    }
    var v2 := TruncateTail(v, maxVersionWidth, "…");
    var mini := PadLines([MetaRow(v2, abbrWidth)] + abbr, abbrWidth);
    var fieldWidth := abbrWidth;
    if fieldWidth < 0 {
      fieldWidth := 0;
    }
    var field := Repeat(diag, fieldWidth);
    logo := [field] + mini + [field, ""];
    if width > 0 {
      logo := ClampLines(logo, width);
    }
  }

  /**
    `Render`: decides the layout from the width, draws the wide logo unless
    that layout or the caller asks for the compact one, and in compact mode
    prefers the stacked variant, then the two-letter abbreviation, then the
    plain initials. With a positive width every line is clamped to it.
  */
  method Render(version: string, compact: bool, width: int) returns (logo: Block)
    ensures logo == RenderSpec(version, compact, width)
  {
    var baseWord := RenderWord(1, NoStretch, Brand);
    var baseWidth := Width(baseWord);
    var dec := DecideLayout(width, baseWidth, BaseLeft, DefaultRight, |Brand|);
    assert dec == BrandLayout(width);
    var isCompact := compact || dec.compact;
    var word, v := DrawWord(version, dec);
    if isCompact {
      logo := DrawCompact(v, dec, width);
    } else {
      var diagRune := if dec.useSimpleDiag then SimpleDiag else Diag;
      logo := DrawSides(word, diagRune, dec.leftFieldWidth, dec.rightFieldWidth, width);
    }
  }

  /** The stretched word, graded when the layout allows, under its meta row; and the truncated version. */
  method DrawWord(version: string, dec: LayoutDecision) returns (word: Block, v: string)
    ensures word == WideWord(version, dec)
    ensures v == BrandVersion(version, StretchedWidth(dec))
  {
    word := RenderWord(1, dec.stretchIndex, Brand);
    var brandWidth := Width(word);
    assert brandWidth == StretchedWidth(dec);
    if dec.applyGradient {
      word := ApplyGradient(word);
    }
    v := FitVersion(version, brandWidth - |Charm| - MetaRowGap);
    word := [MetaRow(v, brandWidth)] + word;
  }

  // ---------------------------------------------------------------------------
  // RenderChat

  /** The layout for the two stacked words, measured by the wider of them. */
  function ChatLayout(width: int): LayoutDecision {
    DecideLayout(width, StackWidth(), BaseLeft, DefaultRight, |OpenLetters| + |PilotLetters|)
  }

  /**
    The letter to stretch in OPEN and in PILOT for a stretch index counted
    over all nine letters: at most one word gets one, at the same position.
  */
  function RemapStretch(stretchIndex: int): (r: (int, int))
    ensures r.0 == NoStretch || (0 <= r.0 < |OpenLetters| && r.0 == stretchIndex)
    ensures r.1 == NoStretch || (0 <= r.1 < |PilotLetters| && r.1 == stretchIndex - |OpenLetters|)
    ensures r.0 == NoStretch || r.1 == NoStretch
    ensures (r.0 != NoStretch || r.1 != NoStretch) <==> 0 <= stretchIndex < |OpenLetters| + |PilotLetters|
  {
    if stretchIndex < 0 then (NoStretch, NoStretch)
    else if stretchIndex < |OpenLetters| then (stretchIndex, NoStretch)
    else if stretchIndex - |OpenLetters| >= |PilotLetters| then (NoStretch, NoStretch)
    else (NoStretch, stretchIndex - |OpenLetters|)
  }

  /** The meta row, OPEN, an empty line and PILOT, every line padded to the wider word's width. */
  function ChatContent(version: string, dec: LayoutDecision): Block {
    var stretch := RemapStretch(dec.stretchIndex);
    ChatStack(version, Word(1, stretch.0, OpenLetters), Word(1, stretch.1, PilotLetters), dec.applyGradient, StackWidth())
  }

  /** The meta row, `openWord`, an empty line and `pilotWord`, padded to `brandWidth`. */
  function ChatStack(version: string, openWord: Block, pilotWord: Block, apply: bool, brandWidth: int): Block {
    var lines := [MetaRow(BrandVersion(version, brandWidth), brandWidth)] + Graded(openWord, apply) + [""] + Graded(pilotWord, apply);
    PaddedLines(lines, brandWidth)
  }

  /** The logo `RenderChat(version, o)` draws for `o.Width == width`. */
  function RenderChatSpec(version: string, width: int): (r: Block)
    ensures Fits(r, width)
  {
    var dec := ChatLayout(width);
    if dec.compact then RenderSpec(version, true, width)
    else Sides(ChatContent(version, dec), DiagRune(dec), BaseLeft, dec.rightFieldWidth, width)
  }

  /**
    `RenderChat`: OPEN above PILOT between the two diagonal fields; when the
    layout for the wider word is compact, the compact `Render` instead.
  */
  method RenderChat(version: string, width: int) returns (logo: Block)
    ensures logo == RenderChatSpec(version, width)
  {
    var openBase := RenderWord(1, NoStretch, OpenLetters);
    var pilotBase := RenderWord(1, NoStretch, PilotLetters);
    var brandWidth := Max(Width(openBase), Width(pilotBase));
    var dec := DecideLayout(width, brandWidth, BaseLeft, DefaultRight, |OpenLetters| + |PilotLetters|);
    assert dec == ChatLayout(width);
    if dec.compact {
      logo := Render(version, true, width);
      return;
    }
    var content := DrawChatContent(version, dec, brandWidth);
    var diagRune := if dec.useSimpleDiag then SimpleDiag else Diag;
    logo := DrawSides(content, diagRune, dec.leftFieldWidth, dec.rightFieldWidth, width);
  }

  method DrawChatContent(version: string, dec: LayoutDecision, brandWidth: int) returns (content: Block)
    requires brandWidth == StackWidth()
    ensures content == ChatContent(version, dec)
  {
    var stretchOpen := NoStretch;
    var stretchPilot := NoStretch;
    if dec.stretchIndex >= 0 {
      if dec.stretchIndex < |OpenLetters| {
        stretchOpen := dec.stretchIndex;
      } else {
        stretchPilot := dec.stretchIndex - |OpenLetters|;
        if stretchPilot >= |PilotLetters| {
          stretchPilot := NoStretch;
        }
      }
    }
    ghost var stretch := RemapStretch(dec.stretchIndex);
    assert stretchOpen == stretch.0 && stretchPilot == stretch.1;
    var openWord := RenderWord(1, stretchOpen, OpenLetters);
    var pilotWord := RenderWord(1, stretchPilot, PilotLetters);
    content := DrawChatStack(version, openWord, pilotWord, dec.applyGradient, brandWidth);
  }

  method DrawChatStack(version: string, openWord: Block, pilotWord: Block, apply: bool, brandWidth: int)
    returns (content: Block)
    ensures content == ChatStack(version, openWord, pilotWord, apply, brandWidth)
  {
    var openC, pilotC := openWord, pilotWord;
    if apply {
      openC := ApplyGradient(openWord);
      pilotC := ApplyGradient(pilotWord);
    }
    var v := FitVersion(version, brandWidth - |Charm| - MetaRowGap);
    content := PadLines([MetaRow(v, brandWidth)] + openC + [""] + pilotC, brandWidth);
  }
}
