/**
  Text as the wordmark code sees it. A Go string is modelled by its lines,
  `strings.Split(s, "\n")`; a line holds single-width characters, so its
  display width is its length. Joining strings with "\n" concatenates their
  line sequences, and printing rows with `fmt.Fprintln` yields the rows
  followed by one empty line.
*/
module Text {

  type Line = string

  /** A multi-line string, as its lines. */
  type Block = seq<Line>

  /** Go's `unicode.IsSpace`. */
  predicate IsSpace(c: char) {
    c == ' ' || c == '\t' || c == '\n' || c == '\r' || c == '\U{B}' || c == '\U{C}'
    || c == '\U{85}' || c == '\U{A0}' || c == '\U{1680}' || ('\U{2000}' <= c <= '\U{200A}')
    || c == '\U{2028}' || c == '\U{2029}' || c == '\U{202F}' || c == '\U{205F}' || c == '\U{3000}'
  }

  predicate Blank(s: string) {
    forall i :: 0 <= i < |s| ==> IsSpace(s[i])
  }

  /** `strings.Repeat(string(c), n)`; Go panics on a negative count, so the count is a nat. */
  function Repeat(c: char, n: nat): (s: string)
    ensures |s| == n && forall i :: 0 <= i < n ==> s[i] == c
  {
    seq(n, _ => c)
  }

  function Spaces(n: nat): (s: string)
    ensures |s| == n && Blank(s)
  {
    Repeat(' ', n)
  }

  /** `lipgloss.Width`: the widest line. */
  function Width(b: Block): (w: nat)
    ensures forall i :: 0 <= i < |b| ==> |b[i]| <= w
    ensures |b| == 0 ==> w == 0
  {
    if |b| == 0 then 0
    else
      var rest := Width(b[1..]);
      assert forall i :: 1 <= i < |b| ==> |b[i]| <= rest by {
        forall i | 1 <= i < |b| ensures |b[i]| <= rest { assert b[i] == b[1..][i - 1]; }
      }
      if |b[0]| >= rest then |b[0]| else rest
  }

  /** Some line of a non-empty block is as wide as the block. */
  lemma {:induction false} WidthReached(b: Block) returns (k: nat)
    requires |b| > 0
    ensures k < |b| && |b[k]| == Width(b)
  {
    if |b[0]| >= Width(b[1..]) || |b| == 1 {
      k := 0;
    } else {
      var j := WidthReached(b[1..]);
      k := j + 1;
    }
  }

  /** A bound on every line bounds the width. */
  lemma WidthAtMost(b: Block, w: nat)
    requires forall i :: 0 <= i < |b| ==> |b[i]| <= w
    ensures Width(b) <= w
  {
    if |b| > 0 {
      var j := WidthReached(b);
    }
  }

  /** Two blocks each within a bound stay within it when one follows the other. */
  lemma WidthConcat(a: Block, b: Block, w: nat)
    requires Width(a) <= w && Width(b) <= w
    ensures Width(a + b) <= w
  {
    var ab := a + b;
    forall i | 0 <= i < |ab| ensures |ab[i]| <= w {
      if i >= |a| {
        assert ab[i] == b[i - |a|];
      }
    }
    WidthAtMost(ab, w);
  }

  /** The width is pinned down by a bound that some line reaches. */
  lemma WidthIs(b: Block, w: nat, k: nat)
    requires k < |b| && |b[k]| == w
    requires forall i :: 0 <= i < |b| ==> |b[i]| <= w
    ensures Width(b) == w
  {
    var j := WidthReached(b);
  }

  /**
    `ansi.Truncate(s, n, tail)` on single-width text: `s` itself when it fits
    in `n` columns, otherwise its first `n - |tail|` characters followed by
    `tail`, or nothing when `tail` alone does not fit.
  */
  function TruncateTail(s: string, n: int, tail: string): (r: string)
    ensures |s| <= n ==> r == s
    ensures |s| > n && n - |tail| < 0 ==> r == ""
    ensures |s| > n && n - |tail| >= 0 ==> |r| == n && r == s[..n - |tail|] + tail
    ensures |r| <= |s| || (|s| > n >= |tail| && |r| == n)
  {
    if |s| <= n then s
    else if n - |tail| < 0 then ""
    else s[..n - |tail|] + tail
  }

  /** One line of `padLines`: spaces appended up to `width` columns. */
  function PadLine(l: Line, width: int): Line {
    if |l| < width then l + Spaces(width - |l|) else l
  }

  /** One line of `clampLines`: `ansi.Truncate(l, width, "")`. */
  function ClampLine(l: Line, width: int): Line {
    TruncateTail(l, width, "")
  }

  // ---------------------------------------------------------------------------
  // strings.TrimSpace, on the text and on its lines

  /** The string a block stands for: `strings.Join(b, "\n")`. */
  function Join(b: Block): string {
    if |b| == 0 then ""
    else if |b| == 1 then b[0]
    else b[0] + "\n" + Join(b[1..])
  }

  function TrimLeftText(s: string): (r: string)
    ensures |r| <= |s| && r == s[|s| - |r|..]
    ensures r == "" || !IsSpace(r[0])
  {
    if |s| > 0 && IsSpace(s[0]) then TrimLeftText(s[1..]) else s
  }

  function TrimRightText(s: string): (r: string)
    ensures |r| <= |s| && r == s[..|r|]
    ensures r == "" || !IsSpace(r[|r| - 1])
  {
    if |s| > 0 && IsSpace(s[|s| - 1]) then TrimRightText(s[..|s| - 1]) else s
  }

  /** Go's `strings.TrimSpace` on the text itself: the reference definition. */
  function TrimSpaceText(s: string): string {
    TrimRightText(TrimLeftText(s))
  }

  /** Leading whitespace on the lines: blank leading lines go, then the first line is left-trimmed. */
  function TrimLeftLines(b: Block): Block {
    if |b| <= 1 then (if |b| == 0 then [] else [TrimLeftText(b[0])])
    else if Blank(b[0]) then TrimLeftLines(b[1..])
    else [TrimLeftText(b[0])] + b[1..]
  }

  /** Trailing whitespace on the lines: blank trailing lines go, then the last line is right-trimmed. */
  function TrimRightLines(b: Block): Block {
    if |b| <= 1 then (if |b| == 0 then [] else [TrimRightText(b[0])])
    else if Blank(b[|b| - 1]) then TrimRightLines(b[..|b| - 1])
    else b[..|b| - 1] + [TrimRightText(b[|b| - 1])]
  }

  /**
    `strings.TrimSpace` applied to the whole multi-line string, expressed on
    its lines. It is not a row-by-row trim: only the very first and very last
    non-blank lines lose whitespace.
  */
  function TrimSpace(b: Block): (r: Block)
    ensures |r| <= |b|
    ensures |b| >= 1 ==> |r| >= 1
  {
    TrimLeftLinesCount(b);
    TrimRightLinesCount(TrimLeftLines(b));
    TrimRightLines(TrimLeftLines(b))
  }

  lemma {:induction false} TrimLeftLinesCount(b: Block)
    ensures |TrimLeftLines(b)| <= |b| && (|b| >= 1 ==> |TrimLeftLines(b)| >= 1)
  {
    if |b| >= 2 && Blank(b[0]) {
      TrimLeftLinesCount(b[1..]);
    }
  }

  lemma {:induction false} TrimRightLinesCount(b: Block)
    ensures |TrimRightLines(b)| <= |b| && (|b| >= 1 ==> |TrimRightLines(b)| >= 1)
  {
    if |b| >= 2 && Blank(b[|b| - 1]) {
      TrimRightLinesCount(b[..|b| - 1]);
    }
  }

  lemma {:induction false} TrimLeftBlankPrefix(a: string, x: string)
    requires Blank(a)
    ensures TrimLeftText(a + x) == TrimLeftText(x)
  {
    if a != [] {
      assert (a + x)[1..] == a[1..] + x;
      TrimLeftBlankPrefix(a[1..], x);
    } else {
      assert a + x == x;
    }
  }

  lemma {:induction false} TrimLeftSolidPrefix(a: string, x: string)
    requires !Blank(a)
    ensures TrimLeftText(a + x) == TrimLeftText(a) + x
  {
    if IsSpace(a[0]) {
      assert (a + x)[1..] == a[1..] + x;
      TrimLeftSolidPrefix(a[1..], x);
    }
  }

  lemma {:induction false} TrimRightBlankSuffix(x: string, a: string)
    requires Blank(a)
    ensures TrimRightText(x + a) == TrimRightText(x)
  {
    if a != [] {
      assert (x + a)[..|x + a| - 1] == x + a[..|a| - 1];
      TrimRightBlankSuffix(x, a[..|a| - 1]);
    } else {
      assert x + a == x;
    }
  }

  lemma {:induction false} TrimRightSolidSuffix(x: string, a: string)
    requires !Blank(a)
    ensures TrimRightText(x + a) == x + TrimRightText(a)
  {
    if IsSpace(a[|a| - 1]) {
      assert (x + a)[..|x + a| - 1] == x + a[..|a| - 1];
      TrimRightSolidSuffix(x, a[..|a| - 1]);
    }
  }

  lemma {:induction false} JoinSnoc(a: Block, l: Line)
    requires |a| >= 1
    ensures Join(a + [l]) == Join(a) + "\n" + l
  {
    if |a| > 1 {
      assert (a + [l])[1..] == a[1..] + [l];
      JoinSnoc(a[1..], l);
    }
  }

  lemma BlankNewline(a: string)
    requires Blank(a)
    ensures Blank(a + "\n") && Blank("\n" + a)
  {
  }

  lemma {:induction false} TrimLeftLinesAgrees(b: Block)
    ensures Join(TrimLeftLines(b)) == TrimLeftText(Join(b))
  {
    if |b| >= 2 {
      var head, rest := b[0], b[1..];
      assert Join(b) == head + "\n" + Join(rest);
      if Blank(head) {
        BlankNewline(head);
        assert Join(b) == (head + "\n") + Join(rest);
        TrimLeftBlankPrefix(head + "\n", Join(rest));
        assert TrimLeftLines(b) == TrimLeftLines(rest);
        TrimLeftLinesAgrees(rest);
      } else {
        assert Join(b) == head + ("\n" + Join(rest));
        TrimLeftSolidPrefix(head, "\n" + Join(rest));
        var t := [TrimLeftText(head)] + rest;
        assert TrimLeftLines(b) == t;
        assert t[0] == TrimLeftText(head) && t[1..] == rest;
        assert Join(t) == TrimLeftText(head) + "\n" + Join(rest);
      }
    }
  }

  lemma {:induction false} TrimRightLinesAgrees(b: Block)
    ensures Join(TrimRightLines(b)) == TrimRightText(Join(b))
  {
    if |b| >= 2 {
      var init, last := b[..|b| - 1], b[|b| - 1];
      assert b == init + [last];
      JoinSnoc(init, last);
      if Blank(last) {
        assert Blank("\n" + last);
        assert Join(b) == Join(init) + ("\n" + last);
        TrimRightBlankSuffix(Join(init), "\n" + last);
        TrimRightLinesAgrees(init);
      } else {
        assert !Blank("\n" + last) by { assert ("\n" + last)[1..] == last; }
        assert Join(b) == Join(init) + ("\n" + last);
        TrimRightSolidSuffix(Join(init), "\n" + last);
        TrimRightSolidSuffix("\n", last);
        assert "\n" + last == "\n" + last;
        JoinSnoc(init, TrimRightText(last));
      }
    }
  }

  /** Trimming the lines is exactly `strings.TrimSpace` on the joined string. */
  lemma TrimSpaceAgrees(b: Block)
    ensures Join(TrimSpace(b)) == TrimSpaceText(Join(b))
  {
    TrimLeftLinesAgrees(b);
    TrimRightLinesAgrees(TrimLeftLines(b));
  }

  /** A line that starts and ends with a visible character. */
  predicate Solid(l: Line) {
    |l| > 0 && !IsSpace(l[0]) && !IsSpace(l[|l| - 1])
  }

  lemma {:induction false} TrimRightKeepsSolidFirst(b: Block)
    requires |b| >= 1 && Solid(b[0])
    ensures |TrimRightLines(b)| >= 1 && TrimRightLines(b)[0] == b[0]
  {
    if |b| >= 2 && Blank(b[|b| - 1]) {
      TrimRightKeepsSolidFirst(b[..|b| - 1]);
    }
  }

  /** Trimming never touches a first line that starts and ends with a visible character. */
  lemma TrimSpaceKeepsSolidFirst(b: Block)
    requires |b| >= 1 && Solid(b[0])
    ensures |TrimSpace(b)| >= 1 && TrimSpace(b)[0] == b[0]
  {
    assert !Blank(b[0]);
    assert TrimLeftLines(b) == b by {
      if |b| >= 2 { assert [b[0]] + b[1..] == b; }
    }
    TrimRightKeepsSolidFirst(b);
  }

  lemma {:induction false} TrimLeftNarrows(b: Block)
    ensures Width(TrimLeftLines(b)) <= Width(b)
  {
    if |b| >= 2 {
      if Blank(b[0]) {
        TrimLeftNarrows(b[1..]);
        assert Width(b[1..]) <= Width(b) by {
          forall i | 0 <= i < |b[1..]| ensures |b[1..][i]| <= Width(b) { assert b[1..][i] == b[i + 1]; }
          WidthAtMost(b[1..], Width(b));
        }
      } else {
        var t := [TrimLeftText(b[0])] + b[1..];
        forall i | 0 <= i < |t| ensures |t[i]| <= Width(b) {
          if i > 0 { assert t[i] == b[i]; }
        }
        WidthAtMost(t, Width(b));
      }
    }
  }

  lemma {:induction false} TrimRightNarrows(b: Block)
    ensures Width(TrimRightLines(b)) <= Width(b)
  {
    if |b| >= 2 {
      var init := b[..|b| - 1];
      assert Width(init) <= Width(b) by {
        forall i | 0 <= i < |init| ensures |init[i]| <= Width(b) { assert init[i] == b[i]; }
        WidthAtMost(init, Width(b));
      }
      if Blank(b[|b| - 1]) {
        TrimRightNarrows(init);
      } else {
        var t := init + [TrimRightText(b[|b| - 1])];
        forall i | 0 <= i < |t| ensures |t[i]| <= Width(b) {
          if i < |init| { assert t[i] == b[i]; }
        }
        WidthAtMost(t, Width(b));
      }
    }
  }

  /** Trimming whitespace never widens a block. */
  lemma TrimSpaceNarrows(b: Block)
    ensures Width(TrimSpace(b)) <= Width(b)
  {
    TrimLeftNarrows(b);
    TrimRightNarrows(TrimLeftLines(b));
  }

  /** A block whose first line is solid and widest keeps its width through trimming. */
  lemma TrimSpaceKeepsWidth(b: Block)
    requires |b| >= 1 && Solid(b[0]) && |b[0]| == Width(b)
    ensures Width(TrimSpace(b)) == Width(b)
  {
    TrimSpaceKeepsSolidFirst(b);
    TrimSpaceNarrows(b);
    assert |TrimSpace(b)[0]| == Width(b);
  }

  /** A line that starts with a visible character. */
  predicate Opens(l: Line) {
    |l| > 0 && !IsSpace(l[0])
  }

  lemma {:induction false} TrimRightKeepsFirst(b: Block, j: nat)
    requires 1 <= j < |b| && !Blank(b[j])
    ensures |TrimRightLines(b)| >= 1 && TrimRightLines(b)[0] == b[0]
  {
    if Blank(b[|b| - 1]) {
      assert b[..|b| - 1][j] == b[j];
      TrimRightKeepsFirst(b[..|b| - 1], j);
    }
  }

  /**
    A first line that starts with a visible character survives the trim
    unchanged whenever a later line is not blank: it is then not the last
    non-blank line, so only its (absent) leading whitespace could go.
  */
  lemma TrimSpaceKeepsOpenFirst(b: Block, j: nat)
    requires 1 <= j < |b| && !Blank(b[j]) && Opens(b[0])
    ensures |TrimSpace(b)| >= 1 && TrimSpace(b)[0] == b[0]
  {
    assert TrimLeftLines(b) == b by {
      assert !Blank(b[0]);
      assert [b[0]] + b[1..] == b;
    }
    TrimRightKeepsFirst(b, j);
  }

  /** Such a first line, when it is the widest, keeps the block's width through the trim. */
  lemma TrimSpaceKeepsWideOpenFirst(b: Block, j: nat)
    requires 1 <= j < |b| && !Blank(b[j]) && Opens(b[0]) && |b[0]| == Width(b)
    ensures Width(TrimSpace(b)) == Width(b)
  {
    TrimSpaceKeepsOpenFirst(b, j);
    TrimSpaceNarrows(b);
    assert |TrimSpace(b)[0]| == Width(b);
  }

  /**
    When line `k` ends with a visible character and every line after it is
    blank, the right trim removes exactly those blank lines.
  */
  lemma {:induction false} TrimRightBlankTail(b: Block, k: nat)
    requires k < |b| && |b[k]| > 0 && !IsSpace(b[k][|b[k]| - 1])
    requires forall i :: k < i < |b| ==> Blank(b[i])
    ensures TrimRightLines(b) == b[..k + 1]
  {
    if k < |b| - 1 {
      var init := b[..|b| - 1];
      assert Blank(b[|b| - 1]);
      forall i | k < i < |init| ensures Blank(init[i]) { assert init[i] == b[i]; }
      TrimRightBlankTail(init, k);
      assert init[..k + 1] == b[..k + 1];
    } else {
      assert !Blank(b[k]);
      assert TrimRightText(b[k]) == b[k];
      if |b| > 1 {
        assert b[..|b| - 1] + [b[k]] == b;
      }
    }
  }

  /**
    A block whose first line starts visibly, and whose line `k` ends visibly
    with only blank lines after it, loses just those blank lines to the trim.
  */
  lemma TrimSpaceBlankTail(b: Block, k: nat)
    requires k < |b| && Opens(b[0]) && |b[k]| > 0 && !IsSpace(b[k][|b[k]| - 1])
    requires forall i :: k < i < |b| ==> Blank(b[i])
    ensures TrimSpace(b) == b[..k + 1]
  {
    assert TrimLeftText(b[0]) == b[0];
    assert TrimLeftLines(b) == b by {
      assert !Blank(b[0]);
      assert [b[0]] + b[1..] == b;
    }
    TrimRightBlankTail(b, k);
  }
}
