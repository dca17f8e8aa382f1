/** `padLines` and `clampLines` of the logo component: line-wise padding and truncation. */
module LineOps {
  import opened Text
  import opened GoInt

  /** The lines `padLines(s, width)` produces. */
  function PaddedLines(s: Block, width: int): (r: Block)
    ensures |r| == |s|
  {
    if width <= 0 then s else seq(|s|, i requires 0 <= i < |s| => PadLine(s[i], width))
  }

  /** No line is wider than `width`, when a width is given. */
  predicate Fits(b: Block, width: int) {
    width <= 0 || forall i :: 0 <= i < |b| ==> |b[i]| <= width
  }

  /** The lines `clampLines(s, width)` produces. */
  function ClampedLines(s: Block, width: int): (r: Block)
    ensures |r| == |s|
    ensures Fits(r, width)
  {
    if width <= 0 then s else seq(|s|, i requires 0 <= i < |s| => ClampLine(s[i], width))
  }

  /**
    `padLines`: with a positive width, every line is extended with spaces to
    `width` columns; lines already that wide, and every line when the width
    is not positive, are left alone.
  */
  method PadLines(s: Block, width: int) returns (r: Block)
    ensures r == PaddedLines(s, width)
    ensures width <= 0 ==> r == s
    ensures |r| == |s|
    ensures forall i :: 0 <= i < |s| ==>
      && |r[i]| == (if width <= 0 then |s[i]| else Max(width, |s[i]|))
      && r[i][..|s[i]|] == s[i]
      && Blank(r[i][|s[i]|..])
  {
    if width <= 0 {
      return s;
    }
    var lines := new Line[|s|](i requires 0 <= i < |s| => s[i]);
    for i := 0 to lines.Length
      invariant forall j :: 0 <= j < i ==> lines[j] == PadLine(s[j], width)
      invariant forall j :: i <= j < lines.Length ==> lines[j] == s[j]
    {
      var w := |lines[i]|;
      if w < width {
        lines[i] := lines[i] + Spaces(width - w);
      }
    }
    r := lines[..];
    forall i | 0 <= i < |s|
      ensures |r[i]| == Max(width, |s[i]|) && r[i][..|s[i]|] == s[i] && Blank(r[i][|s[i]|..])
    {
      assert r[i] == PadLine(s[i], width);
    }
  }

  /**
    `clampLines`: with a positive width, every line is cut to at most `width`
    columns, without an overflow marker; lines that fit are left alone.
  */
  method ClampLines(s: Block, width: int) returns (r: Block)
    ensures r == ClampedLines(s, width)
    ensures width <= 0 ==> r == s
    ensures |r| == |s|
    ensures width > 0 ==> forall i :: 0 <= i < |s| ==> |r[i]| <= width && r[i] == s[i][..|r[i]|]
    ensures forall i :: 0 <= i < |s| && |s[i]| <= width ==> r[i] == s[i]
  {
    if width <= 0 {
      return s;
    }
    var lines := new Line[|s|](i requires 0 <= i < |s| => s[i]);
    for i := 0 to lines.Length
      invariant forall j :: 0 <= j < i ==> lines[j] == ClampLine(s[j], width)
      invariant forall j :: i <= j < lines.Length ==> lines[j] == s[j]
    {
      lines[i] := TruncateTail(lines[i], width, "");
    }
    r := lines[..];
  }

  /** Padding to `a` and then to a width at least `a` is padding to the larger width at once. */
  lemma PadLineAbsorb(l: Line, a: int, c: int)
    requires a <= c
    ensures PadLine(PadLine(l, a), c) == PadLine(l, c)
  {
    if |l| < a {
      assert PadLine(l, a) + Spaces(c - a) == l + Spaces(c - |l|);
    }
  }

  lemma PadLinesAbsorb(s: Block, a: int, c: int)
    requires 0 < a <= c
    ensures PaddedLines(PaddedLines(s, a), c) == PaddedLines(s, c)
  {
    forall i | 0 <= i < |s| ensures PaddedLines(PaddedLines(s, a), c)[i] == PaddedLines(s, c)[i] {
      PadLineAbsorb(s[i], a, c);
    }
  }

  /** `padLines` is idempotent. */
  lemma PadLinesIdempotent(s: Block, width: int)
    ensures PaddedLines(PaddedLines(s, width), width) == PaddedLines(s, width)
  {
    if width > 0 {
      PadLinesAbsorb(s, width, width);
    }
  }

  /** A non-empty padded block is as wide as the wider of the target and the original. */
  lemma PaddedWidth(s: Block, width: int)
    requires |s| > 0 && width > 0
    ensures Width(PaddedLines(s, width)) == Max(width, Width(s))
  {
    var r := PaddedLines(s, width);
    var k := WidthReached(s);
    forall i | 0 <= i < |s| ensures |r[i]| == Max(width, |s[i]|) {
    }
    if width >= Width(s) {
      WidthIs(r, width, 0);
    } else {
      WidthIs(r, Width(s), k);
    }
  }

  /** Padding a block no wider than the target makes every line exactly the target width. */
  lemma PaddedExact(s: Block, width: int)
    requires width > 0 && Width(s) <= width
    ensures forall i :: 0 <= i < |s| ==> |PaddedLines(s, width)[i]| == width
  {
  }

  /** A block whose every line is already that wide is left alone. */
  lemma PaddedWide(s: Block, width: int)
    requires forall i :: 0 <= i < |s| ==> |s[i]| >= width
    ensures PaddedLines(s, width) == s
  {
  }

  /** `clampLines` is idempotent, and leaves a block that already fits unchanged. */
  lemma ClampLinesIdempotent(s: Block, width: int)
    ensures ClampedLines(ClampedLines(s, width), width) == ClampedLines(s, width)
  {
  }

  lemma ClampFits(s: Block, width: int)
    requires Width(s) <= width
    ensures ClampedLines(s, width) == s
  {
  }

  /** After clamping to a positive width, the block is at most that wide. */
  lemma ClampedWidth(s: Block, width: int)
    requires width > 0
    ensures Width(ClampedLines(s, width)) <= width
  {
    WidthAtMost(ClampedLines(s, width), width);
  }
}
