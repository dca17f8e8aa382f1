/**
  The glyph table of the OpenPilot wordmark and `renderWord`, which joins
  glyphs side by side with blank columns between them.
*/
module Glyphs {
  import opened Text

  /** The closed set of letters the wordmark uses. */
  datatype Letter = O | P | E | N | I | L | T

  /**
    The glyph of a letter, as the lines of its dedented here-document. Every
    glyph function takes a `stretch` flag and ignores it, so the stretched
    glyph is the plain one. Each block ends with an empty line (the text ends
    in a newline); the I block carries one more blank line.
  */
  function Glyph(l: Letter, stretch: bool): (g: Block)
    ensures |g| >= 4
  {
    match l
    case O => ["▄▀▀▀▄", "█   █", "▀▄▄▄▀", ""]
    case P => ["█▀▀▀█", "█▄▄▄█", "█", ""]
    case E => ["█▀▀▀", "█▀▀", "█▄▄▄", ""]
    case N => ["█▌ █", "██▌█", "█ ▐█", ""]
    case I => ["▀█▀", " █", "▄█▄", "", ""]
    case L => ["█", "█", "█▄▄▄", ""]
    case T => ["▀▀█▀▀", "  █", "  █", ""]
  }

  /** The widths of the glyphs. */
  function GlyphWidth(l: Letter): nat {
    match l
    case O => 5
    case P => 5
    case E => 4
    case N => 4
    case I => 3
    case L => 4
    case T => 5
  }

  lemma GlyphWidthIs(l: Letter, stretch: bool)
    ensures Width(Glyph(l, stretch)) == GlyphWidth(l)
  {
    var g := Glyph(l, stretch);
    var k := if l == L then 2 else 0;
    WidthIs(g, GlyphWidth(l), k);
  }

  lemma StretchIgnored(l: Letter)
    ensures Glyph(l, true) == Glyph(l, false)
  {
  }

  // ---------------------------------------------------------------------------
  // lipgloss.JoinHorizontal

  function LineAt(b: Block, i: nat): Line {
    if i < |b| then b[i] else ""
  }

  function MaxHeight(bs: seq<Block>): (h: nat)
    ensures forall j :: 0 <= j < |bs| ==> |bs[j]| <= h
  {
    if bs == [] then 0
    else
      var rest := MaxHeight(bs[1..]);
      assert forall j :: 1 <= j < |bs| ==> |bs[j]| <= rest by {
        forall j | 1 <= j < |bs| ensures |bs[j]| <= rest { assert bs[j] == bs[1..][j - 1]; }
      }
      if |bs[0]| > rest then |bs[0]| else rest
  }

  /** Row `i` of the joined blocks: each block's line, padded with spaces to that block's width. */
  function JoinRow(bs: seq<Block>, i: nat): Line {
    if bs == [] then "" else PadLine(LineAt(bs[0], i), Width(bs[0])) + JoinRow(bs[1..], i)
  }

  /**
    The behaviour this model assumes of `lipgloss.JoinHorizontal(lipgloss.Top, ...)`,
    whose code is not part of this model: no blocks give the empty string, a
    single block is returned as it is, and otherwise the blocks are aligned
    at the top, padded with empty lines to the tallest block's height and
    each padded with spaces to its own width.
  */
  function JoinHorizontal(bs: seq<Block>): Block {
    if |bs| == 0 then [""]
    else if |bs| == 1 then bs[0]
    else seq(MaxHeight(bs), i requires 0 <= i < MaxHeight(bs) => JoinRow(bs, i))
  }

  function SumWidths(bs: seq<Block>): nat {
    if bs == [] then 0 else Width(bs[0]) + SumWidths(bs[1..])
  }

  /** Every joined row is exactly as wide as the blocks together. */
  lemma {:induction false} JoinRowLength(bs: seq<Block>, i: nat)
    ensures |JoinRow(bs, i)| == SumWidths(bs)
  {
    if bs != [] {
      if i < |bs[0]| { assert |bs[0][i]| <= Width(bs[0]); }
      JoinRowLength(bs[1..], i);
    }
  }

  lemma PadLineKeeps(l: Line, w: int)
    ensures |PadLine(l, w)| == (if |l| < w then w else |l|)
    ensures PadLine(l, w)[..|l|] == l
    ensures |l| >= w ==> PadLine(l, w) == l
  {
  }

  lemma JoinRowFirstChar(bs: seq<Block>)
    requires |bs| >= 1 && |bs[0]| >= 1 && |bs[0][0]| >= 1
    ensures |JoinRow(bs, 0)| >= 1 && JoinRow(bs, 0)[0] == bs[0][0][0]
  {
    var l := bs[0][0];
    var first := PadLine(l, Width(bs[0]));
    PadLineKeeps(l, Width(bs[0]));
    assert first[0] == first[..|l|][0] == l[0];
    assert JoinRow(bs, 0) == first + JoinRow(bs[1..], 0);
  }

  /** A joined row starts with the first block's line. */
  lemma JoinRowStarts(bs: seq<Block>, i: nat)
    requires |bs| >= 1 && i < |bs[0]|
    ensures |JoinRow(bs, i)| >= |bs[0][i]| && JoinRow(bs, i)[..|bs[0][i]|] == bs[0][i]
  {
    var l := bs[0][i];
    PadLineKeeps(l, Width(bs[0]));
    assert JoinRow(bs, i) == PadLine(l, Width(bs[0])) + JoinRow(bs[1..], i);
  }

  // ---------------------------------------------------------------------------
  // renderWord

  /** `slice.Intersperse`: `sep` between every two adjacent blocks. */
  function Intersperse(bs: seq<Block>, sep: Block): (r: seq<Block>)
    ensures |bs| >= 1 ==> |r| == 2 * |bs| - 1 && r[0] == bs[0] && r[|r| - 1] == bs[|bs| - 1]
    ensures |bs| == 0 ==> r == []
    ensures forall i :: 0 <= i < |bs| ==> r[2 * i] == bs[i]
    ensures forall i :: 0 <= i < |bs| - 1 ==> r[2 * i + 1] == sep
  {
    if |bs| <= 1 then bs
    else
      var rest := Intersperse(bs[1..], sep);
      var r := [bs[0], sep] + rest;
      assert forall i :: 0 <= i < |bs| - 1 ==> r[2 * i + 1] == sep by {
        forall i | 1 <= i < |bs| - 1 ensures r[2 * i + 1] == sep {
          assert r[2 * i + 1] == rest[2 * (i - 1) + 1];
        }
      }
      r
  }

  /** The glyphs of `letters`, the one at `stretchIndex` asked to stretch. */
  function Rendered(letters: seq<Letter>, stretchIndex: int): (r: seq<Block>)
    ensures |r| == |letters|
  {
    seq(|letters|, i requires 0 <= i < |letters| => Glyph(letters[i], i == stretchIndex))
  }

  /** What `renderWord` joins: the glyphs, with a blank spacer between them when `spacing > 0`. */
  function Pieces(spacing: int, stretchIndex: int, letters: seq<Letter>): seq<Block> {
    Spaced(Rendered(letters, stretchIndex), spacing)
  }

  /** `spacing` blank columns between every two neighbours, when `spacing > 0`. */
  function Spaced(bs: seq<Block>, spacing: int): seq<Block> {
    if spacing > 0 then Intersperse(bs, [Spaces(spacing)]) else bs
  }

  /** The word `renderWord(spacing, stretchIndex, letters...)` returns. */
  function Word(spacing: int, stretchIndex: int, letters: seq<Letter>): (r: Block)
    ensures Width(r) <= 5 * |letters| + (if spacing > 0 && |letters| > 0 then spacing * (|letters| - 1) else 0)
  {
    var pieces := Pieces(spacing, stretchIndex, letters);
    var joined := JoinHorizontal(pieces);
    JoinedWidth(pieces);
    TrimSpaceNarrows(joined);
    PiecesBound(spacing, stretchIndex, letters);
    TrimSpace(joined)
  }

  /** No glyph is wider than five columns. */
  lemma RenderedNarrow(letters: seq<Letter>, stretchIndex: int)
    ensures forall i :: 0 <= i < |letters| ==> Width(Rendered(letters, stretchIndex)[i]) <= 5
  {
    forall i | 0 <= i < |letters| ensures Width(Rendered(letters, stretchIndex)[i]) <= 5 {
      GlyphWidthIs(letters[i], i == stretchIndex);
    }
  }

  lemma {:induction false} SumWidthsAtMost(bs: seq<Block>)
    requires forall i :: 0 <= i < |bs| ==> Width(bs[i]) <= 5
    ensures SumWidths(bs) <= 5 * |bs|
  {
    if bs != [] {
      SumWidthsAtMost(bs[1..]);
    }
  }

  /** The pieces are at most five columns per glyph plus the spacers. */
  lemma PiecesBound(spacing: int, stretchIndex: int, letters: seq<Letter>)
    ensures SumWidths(Pieces(spacing, stretchIndex, letters)) <=
      5 * |letters| + (if spacing > 0 && |letters| > 0 then spacing * (|letters| - 1) else 0)
  {
    RenderedNarrow(letters, stretchIndex);
    SpacedBound(Rendered(letters, stretchIndex), spacing);
  }

  /** Blocks at most five columns wide, spaced, are at most five columns each plus the spacers. */
  lemma SpacedBound(bs: seq<Block>, spacing: int)
    requires forall i :: 0 <= i < |bs| ==> Width(bs[i]) <= 5
    ensures SumWidths(Spaced(bs, spacing)) <=
      5 * |bs| + (if spacing > 0 && |bs| > 0 then spacing * (|bs| - 1) else 0)
  {
    SumWidthsAtMost(bs);
    if |bs| > 0 {
      SpacedWidth(bs, spacing, |bs| - 1);
      if spacing > 0 {
        GapsProduct(spacing, |bs| - 1);
      }
    } else if spacing > 0 {
      assert Spaced(bs, spacing) == [];
    }
  }

  /** The joined blocks are never wider than the blocks together. */
  lemma JoinedWidth(bs: seq<Block>)
    ensures Width(JoinHorizontal(bs)) <= SumWidths(bs)
  {
    var joined := JoinHorizontal(bs);
    if |bs| == 1 {
      assert bs[1..] == [];
    } else if |bs| >= 2 {
      forall i | 0 <= i < |joined| ensures |joined[i]| <= SumWidths(bs) {
        JoinRowLength(bs, i);
      }
      WidthAtMost(joined, SumWidths(bs));
    } else {
      WidthAtMost(joined, 0);
    }
  }

  /**
    `renderWord`: renders each letter (asking the one at `stretchIndex` to
    stretch), puts `spacing` blank columns between neighbours and trims the
    joined text. No glyph honours the stretch flag, so the word is the same
    whatever `stretchIndex` is (`WordIgnoresStretch`).
  */
  method RenderWord(spacing: int, stretchIndex: int, letters: seq<Letter>) returns (word: Block)
    ensures word == Word(spacing, stretchIndex, letters)
  {
    var sp := if spacing < 0 then 0 else spacing;
    var rendered := new Block[|letters|];
    for i := 0 to |letters|
      invariant forall j :: 0 <= j < i ==> rendered[j] == Glyph(letters[j], j == stretchIndex)
    {
      rendered[i] := Glyph(letters[i], i == stretchIndex);
    }
    var pieces := rendered[..];
    assert pieces == Rendered(letters, stretchIndex);
    if sp > 0 {
      pieces := Intersperse(pieces, [Spaces(sp)]);
    }
    assert pieces == Pieces(spacing, stretchIndex, letters);
    word := TrimSpace(JoinHorizontal(pieces));
  }

  lemma RenderedIgnoresStretch(letters: seq<Letter>, stretchIndex: int)
    ensures Rendered(letters, stretchIndex) == Rendered(letters, -1)
  {
    forall i | 0 <= i < |letters| ensures Rendered(letters, stretchIndex)[i] == Rendered(letters, -1)[i] {
      StretchIgnored(letters[i]);
    }
  }

  /** The stretch index never changes the word. */
  lemma WordIgnoresStretch(spacing: int, stretchIndex: int, letters: seq<Letter>)
    ensures Word(spacing, stretchIndex, letters) == Word(spacing, -1, letters)
  {
    RenderedIgnoresStretch(letters, stretchIndex);
  }

  function SumGlyphWidths(letters: seq<Letter>): nat {
    if letters == [] then 0 else GlyphWidth(letters[0]) + SumGlyphWidths(letters[1..])
  }

  lemma {:induction false} SumWidthsConcat(a: seq<Block>, b: seq<Block>)
    ensures SumWidths(a + b) == SumWidths(a) + SumWidths(b)
  {
    if a == [] {
      assert a + b == b;
    } else {
      assert (a + b)[1..] == a[1..] + b;
      SumWidthsConcat(a[1..], b);
    }
  }

  /** `k` spacers of `w` columns each, added one at a time. */
  function Gaps(w: nat, k: nat): nat {
    if k == 0 then 0 else w + Gaps(w, k - 1)
  }

  lemma {:induction false} GapsProduct(w: nat, k: nat)
    ensures Gaps(w, k) == w * k
  {
    if k > 0 {
      GapsProduct(w, k - 1);
      assert w * k == w + w * (k - 1);
    }
  }

  /** Interspersing `k` spacers of width `w` among `k + 1` blocks adds `w * k` columns. */
  lemma {:induction false} SumWidthsIntersperse(bs: seq<Block>, sep: Block, w: nat, k: nat)
    requires |bs| == k + 1 && Width(sep) == w
    ensures SumWidths(Intersperse(bs, sep)) == SumWidths(bs) + Gaps(w, k)
  {
    if k > 0 {
      var rest := bs[1..];
      var tail := Intersperse(rest, sep);
      SumWidthsIntersperse(rest, sep, w, k - 1);
      SumWidthsConcat([bs[0], sep], tail);
      assert SumWidths([bs[0], sep]) == Width(bs[0]) + w by {
        assert [bs[0], sep][1..] == [sep];
        assert [sep][1..] == [];
      }
      assert Intersperse(bs, sep) == [bs[0], sep] + tail;
    }
  }

  lemma {:induction false} SumWidthsRendered(letters: seq<Letter>, stretchIndex: int)
    ensures SumWidths(Rendered(letters, stretchIndex)) == SumGlyphWidths(letters)
  {
    if letters != [] {
      var r := Rendered(letters, stretchIndex);
      assert r[1..] == Rendered(letters[1..], stretchIndex - 1);
      SumWidthsRendered(letters[1..], stretchIndex - 1);
      GlyphWidthIs(letters[0], 0 == stretchIndex);
    }
  }

  /**
    Every glyph's top row starts with a visible character and its second row
    ends with one, so it is not blank.
  */
  lemma GlyphRows(l: Letter, stretch: bool)
    ensures var g := Glyph(l, stretch); Opens(g[0]) && !Blank(g[1])
  {
    var g := Glyph(l, stretch);
    assert !IsSpace(g[1][|g[1]| - 1]);
  }

  /**
    Every glyph's third row ends with a visible character and the rows below
    it are blank, so trimming a lone glyph only drops its trailing blank rows.
  */
  lemma GlyphTrimmed(l: Letter, stretch: bool)
    ensures TrimSpace(Glyph(l, stretch)) == Glyph(l, stretch)[..3]
  {
    var g := Glyph(l, stretch);
    GlyphRows(l, stretch);
    assert !IsSpace(g[2][|g[2]| - 1]);
    assert forall i :: 2 < i < |g| ==> g[i] == "";
    TrimSpaceBlankTail(g, 2);
  }

  /** A lone glyph keeps its width through the trim. */
  lemma GlyphTrimmedWidth(l: Letter, stretch: bool)
    ensures Width(TrimSpace(Glyph(l, stretch))) == GlyphWidth(l)
  {
    var g := Glyph(l, stretch);
    GlyphTrimmed(l, stretch);
    GlyphWidthIs(l, stretch);
    var k := if l == L then 2 else 0;
    forall i | 0 <= i < 3 ensures |g[..3][i]| <= GlyphWidth(l) { assert g[..3][i] == g[i]; }
    WidthIs(g[..3], GlyphWidth(l), k);
  }

  /**
    More than one block, the first of which starts its top row with a
    visible character and has a second row that is not blank.
  */
  predicate Edged(pieces: seq<Block>) {
    && |pieces| >= 2 && |pieces[0]| >= 2
    && Opens(pieces[0][0]) && !Blank(pieces[0][1])
  }

  /**
    Edged blocks keep their combined width when joined and trimmed: the
    joined top row is that wide, starts visibly and is followed by a
    non-blank row, so the trim leaves it alone.
  */
  lemma JoinedTrimmedWidth(pieces: seq<Block>)
    requires Edged(pieces)
    ensures Width(TrimSpace(JoinHorizontal(pieces))) == SumWidths(pieces)
  {
    var joined := JoinHorizontal(pieces);
    assert |joined| == MaxHeight(pieces) >= |pieces[0]| >= 2;
    assert joined[0] == JoinRow(pieces, 0) && joined[1] == JoinRow(pieces, 1);
    JoinRowStarts(pieces, 0);
    JoinRowStarts(pieces, 1);
    assert Opens(joined[0]) by {
      assert joined[0][0] == joined[0][..|pieces[0][0]|][0];
    }
    assert !Blank(joined[1]) by {
      var c :| 0 <= c < |pieces[0][1]| && !IsSpace(pieces[0][1][c]);
      assert joined[1][c] == joined[1][..|pieces[0][1]|][c];
    }
    forall i | 0 <= i < |joined| ensures |joined[i]| == SumWidths(pieces) {
      JoinRowLength(pieces, i);
    }
    WidthIs(joined, SumWidths(pieces), 0);
    TrimSpaceKeepsWideOpenFirst(joined, 1);
  }

  /** Spacers after the first block leave it first. */
  lemma IntersperseEdged(bs: seq<Block>, sep: Block)
    requires Edged(bs)
    ensures Edged(Intersperse(bs, sep))
  {
  }

  lemma WordEdges(spacing: int, stretchIndex: int, letters: seq<Letter>)
    requires |letters| >= 2
    ensures Edged(Pieces(spacing, stretchIndex, letters))
  {
    var glyphs := Rendered(letters, stretchIndex);
    assert glyphs[0] == Glyph(letters[0], 0 == stretchIndex);
    GlyphRows(letters[0], 0 == stretchIndex);
    assert Edged(glyphs);
    if spacing > 0 {
      IntersperseEdged(glyphs, [Spaces(spacing)]);
    }
  }

  /** The width of the blocks `renderWord` joins: the glyphs plus the spacers. */
  lemma PiecesWidth(spacing: int, stretchIndex: int, letters: seq<Letter>)
    requires |letters| >= 1
    ensures SumWidths(Pieces(spacing, stretchIndex, letters)) ==
      SumGlyphWidths(letters) + (if spacing > 0 then Gaps(spacing, |letters| - 1) else 0)
  {
    SumWidthsRendered(letters, stretchIndex);
    SpacedGlyphsWidth(Rendered(letters, stretchIndex), letters, spacing);
  }

  lemma SpacedGlyphsWidth(glyphs: seq<Block>, letters: seq<Letter>, spacing: int)
    requires |glyphs| == |letters| >= 1 && SumWidths(glyphs) == SumGlyphWidths(letters)
    ensures SumWidths(Spaced(glyphs, spacing)) ==
      SumGlyphWidths(letters) + (if spacing > 0 then Gaps(spacing, |letters| - 1) else 0)
  {
    SpacedWidth(glyphs, spacing, |letters| - 1);
  }

  lemma SpacedWidth(bs: seq<Block>, spacing: int, k: nat)
    requires |bs| == k + 1
    ensures SumWidths(Spaced(bs, spacing)) == SumWidths(bs) + (if spacing > 0 then Gaps(spacing, k) else 0)
  {
    if spacing > 0 {
      WidthIs([Spaces(spacing)], spacing, 0);
      SumWidthsIntersperse(bs, [Spaces(spacing)], spacing, k);
    }
  }

  /**
    Every word is exactly as wide as its glyphs plus the spacers between
    them. The trim of the joined text cannot shorten it: a lone glyph only
    loses blank rows, and the top row of several joined glyphs spans them
    all and is followed by a non-blank row.
  */
  lemma WordWidth(spacing: int, stretchIndex: int, letters: seq<Letter>)
    requires |letters| >= 1
    ensures Width(Word(spacing, stretchIndex, letters)) ==
      SumGlyphWidths(letters) + (if spacing > 0 then Gaps(spacing, |letters| - 1) else 0)
  {
    var pieces := Pieces(spacing, stretchIndex, letters);
    PiecesWidth(spacing, stretchIndex, letters);
    if |letters| == 1 {
      var g := Glyph(letters[0], 0 == stretchIndex);
      assert Rendered(letters, stretchIndex) == [g];
      assert pieces == [g];
      assert JoinHorizontal(pieces) == g;
      GlyphTrimmedWidth(letters[0], 0 == stretchIndex);
      assert SumGlyphWidths(letters) == GlyphWidth(letters[0]);
    } else {
      WordEdges(spacing, stretchIndex, letters);
      JoinedTrimmedWidth(pieces);
    }
  }

  /** The whole wordmark and the pieces the narrow layouts use. */
  const Brand: seq<Letter> := [O, P, E, N, P, I, L, O, T]
  const OpenLetters: seq<Letter> := [O, P, E, N]
  const PilotLetters: seq<Letter> := [P, I, L, O, T]
  const AbbrLetters: seq<Letter> := [O, P]

  /** With one blank column between letters: OPENPILOT is 48 columns, OPEN 21, PILOT 26 and OP 11. */
  lemma WordWidths(stretchIndex: int)
    ensures Width(Word(1, stretchIndex, Brand)) == 48
    ensures Width(Word(1, stretchIndex, OpenLetters)) == 21
    ensures Width(Word(1, stretchIndex, PilotLetters)) == 26
    ensures Width(Word(1, stretchIndex, AbbrLetters)) == 11
  {
    BrandWordWidth(stretchIndex);
    OpenWordWidth(stretchIndex);
    PilotWordWidth(stretchIndex);
    AbbrWordWidth(stretchIndex);
  }

  lemma BrandWordWidth(stretchIndex: int)
    ensures Width(Word(1, stretchIndex, Brand)) == 48
  {
    BrandGlyphWidths();
    LetterWidths(stretchIndex, Brand, 40);
  }

  /** The nine glyphs of the wordmark are 40 columns wide together: OPEN's 18 and PILOT's 22. */
  lemma BrandGlyphWidths()
    ensures SumGlyphWidths(Brand) == 40
  {
    assert Brand == OpenLetters + PilotLetters;
    assert SumGlyphWidths(OpenLetters) == 18;
    assert SumGlyphWidths(PilotLetters) == 22;
    SumGlyphWidthsConcat(OpenLetters, PilotLetters);
  }

  lemma {:induction false} SumGlyphWidthsConcat(a: seq<Letter>, b: seq<Letter>)
    ensures SumGlyphWidths(a + b) == SumGlyphWidths(a) + SumGlyphWidths(b)
  {
    if a == [] {
      assert a + b == b;
    } else {
      assert (a + b)[1..] == a[1..] + b;
      SumGlyphWidthsConcat(a[1..], b);
    }
  }

  lemma OpenWordWidth(stretchIndex: int)
    ensures Width(Word(1, stretchIndex, OpenLetters)) == 21
  {
    LetterWidths(stretchIndex, OpenLetters, 18);
  }

  lemma PilotWordWidth(stretchIndex: int)
    ensures Width(Word(1, stretchIndex, PilotLetters)) == 26
  {
    LetterWidths(stretchIndex, PilotLetters, 22);
  }

  lemma AbbrWordWidth(stretchIndex: int)
    ensures Width(Word(1, stretchIndex, AbbrLetters)) == 11
  {
    LetterWidths(stretchIndex, AbbrLetters, 10);
  }

  lemma LetterWidths(stretchIndex: int, letters: seq<Letter>, glyphWidths: nat)
    requires |letters| >= 1
    requires SumGlyphWidths(letters) == glyphWidths
    ensures Width(Word(1, stretchIndex, letters)) == glyphWidths + |letters| - 1
  {
    var k := |letters| - 1;
    GapsProduct(1, k);
    assert Gaps(1, k) == k;
    WordWidth(1, stretchIndex, letters);
  }
}
