/** What the two extractors promise, proved about their specification
    functions (and so, through the methods' postconditions, about the loops). */
module BdfGeometryFacts {
  import opened Results
  import opened Lexical
  import opened BdfFont
  import opened BdfGeometry

  // ---------------------------------------------------------------------
  // Rectangles

  /** `p` is the closed unit square at its own first point. */
  predicate IsUnitSquare(p: seq<Point>) {
    |p| == 5 && p == UnitSquare(p[0].0, p[0].1)
  }

  /** The pixel of square `p` comes before that of `q` in row-major order:
      a higher row first, then left to right. */
  predicate SquareBefore(p: seq<Point>, q: seq<Point>) {
    |p| > 0 && |q| > 0 && (p[0].1 > q[0].1 || (p[0].1 == q[0].1 && p[0].0 < q[0].0))
  }

  lemma {:induction false} RowSquaresFacts(row: u16, c: nat, x0: int, y: int)
    ensures var s := RowSquares(row, c, x0, y);
      && |s| == LitCount(row, c)
      && (forall k | 0 <= k < |s| :: IsUnitSquare(s[k]) && s[k][0].1 == y && x0 <= s[k][0].0 < x0 + c)
      && (forall i, j | 0 <= i < j < |s| :: s[i][0].0 < s[j][0].0)
  {
    if c > 0 {
      RowSquaresFacts(row, c - 1, x0, y);
    }
  }

  lemma {:induction false} RowSquaresMember(row: u16, c: nat, x0: int, y: int, x: int, y': int)
    ensures UnitSquare(x, y') in RowSquares(row, c, x0, y) <==> y' == y && x0 <= x < x0 + c && Lit(row, x - x0)
  {
    if c > 0 {
      RowSquaresMember(row, c - 1, x0, y, x, y');
      assert UnitSquare(x, y')[0] == (x, y') && UnitSquare(x0 + c - 1, y)[0] == (x0 + c - 1, y);
    }
  }

  lemma {:induction false} GlyphSquaresFacts(bitmap: seq<u16>, bbx: BoundingBox, n: nat)
    requires n <= |bitmap|
    ensures var s := GlyphSquares(bitmap, bbx, n);
      && |s| == PixelCount(bitmap, bbx.width, n)
      && (forall k | 0 <= k < |s| :: IsUnitSquare(s[k]) && LocalRowY(bbx, n) < s[k][0].1 <= LocalRowY(bbx, 0)
                                      && bbx.xOffset <= s[k][0].0 < bbx.xOffset + bbx.width)
      && (forall i, j | 0 <= i < j < |s| :: SquareBefore(s[i], s[j]))
  {
    if n > 0 {
      GlyphSquaresFacts(bitmap, bbx, n - 1);
      RowSquaresFacts(bitmap[n - 1], bbx.width, bbx.xOffset, LocalRowY(bbx, n - 1));
    }
  }

  lemma {:induction false} GlyphSquaresMember(bitmap: seq<u16>, bbx: BoundingBox, n: nat, x: int, y: int)
    requires n <= |bitmap|
    ensures UnitSquare(x, y) in GlyphSquares(bitmap, bbx, n) <==>
      var r := bbx.yOffset + bbx.height - 1 - y;
      var c := x - bbx.xOffset;
      0 <= r < n && 0 <= c < bbx.width && Lit(bitmap[r], c)
  {
    if n > 0 {
      GlyphSquaresMember(bitmap, bbx, n - 1, x, y);
      RowSquaresMember(bitmap[n - 1], bbx.width, bbx.xOffset, LocalRowY(bbx, n - 1), x, y);
    }
  }

  /** `bdf_to_rects` gives one closed unit square per lit pixel of the
      stored rows: five points, the first repeated last, inside the box, in
      row-major order (top row first, each row left to right). */
  lemma RectsAreUnitSquaresInRowMajorOrder(g: Glyph)
    ensures var rects := Rects(g);
      && |rects| == PixelCount(g.bitmap, g.bbx.width, |g.bitmap|)
      && (forall k | 0 <= k < |rects| :: |rects[k]| == 5 && rects[k][0] == rects[k][4] && IsUnitSquare(rects[k]))
      && (forall k | 0 <= k < |rects| :: g.bbx.xOffset <= rects[k][0].0 < g.bbx.xOffset + g.bbx.width)
      && (forall i, j | 0 <= i < j < |rects| :: SquareBefore(rects[i], rects[j]))
  {
    GlyphSquaresFacts(g.bitmap, g.bbx, |g.bitmap|);
  }

  /** The square at `(x, y)` is emitted exactly when the pixel at column
      `x - x_off`, row `y_off + height - 1 - y` is a stored, lit pixel within
      the box's width. */
  lemma RectsExactlyLitPixels(g: Glyph, x: int, y: int)
    ensures UnitSquare(x, y) in Rects(g) <==>
      var r := g.bbx.yOffset + g.bbx.height - 1 - y;
      var c := x - g.bbx.xOffset;
      0 <= r < |g.bitmap| && 0 <= c < g.bbx.width && Lit(g.bitmap[r], c)
  {
    GlyphSquaresMember(g.bitmap, g.bbx, |g.bitmap|, x, y);
  }

  /** The top-left pixel alone, in a 1 by 1 box at the origin, is the unit square at the origin. */
  lemma SinglePixelSquare(name: string)
    ensures Rects(Glyph(name, 0, (0, 0), (0, 0), BoundingBox(1, 1, 0, 0), [0x8000]))
            == [[(0, 0), (1, 0), (1, 1), (0, 1), (0, 0)]]
  {
    var bbx := BoundingBox(1, 1, 0, 0);
    HighBits();
    assert Lit(0x8000, 0);
    assert RowSquares(0x8000, 1, 0, 0) == [UnitSquare(0, 0)];
    assert GlyphSquares([0x8000], bbx, 1) == GlyphSquares([0x8000], bbx, 0) + RowSquares(0x8000, 1, 0, LocalRowY(bbx, 0));
  }

  /** The weights of the three leftmost columns. */
  lemma HighBits()
    ensures Pow2(15) == 0x8000 && Pow2(14) == 0x4000 && Pow2(13) == 0x2000
  {
    assert Pow2(3) == 8;
    assert Pow2(6) == 64;
    assert Pow2(9) == 512;
    assert Pow2(12) == 4096;
  }

  // ---------------------------------------------------------------------
  // Runs of one row

  /** A maximal run of lit columns of a row `w` columns wide: non-empty, every
      column lit, the column before it and the one after it not. */
  predicate IsRun(row: u16, w: nat, run: (nat, nat)) {
    && run.0 < run.1 <= w
    && (forall col | run.0 <= col < run.1 :: Lit(row, col))
    && (run.0 == 0 || !Lit(row, run.0 - 1))
    && (run.1 == w || !Lit(row, run.1))
  }

  lemma {:induction false} RowRunsFrom(row: u16, w: nat, c: nat)
    requires c <= w && (c == 0 || !Lit(row, c - 1))
    ensures var runs := RowRuns(row, w, c);
      && (forall k | 0 <= k < |runs| :: c <= runs[k].0 && IsRun(row, w, runs[k]))
      && (forall i, j | 0 <= i < j < |runs| :: runs[i].1 < runs[j].0)
    decreases w - c
  {
    if c < w {
      if !Lit(row, c) {
        RowRunsSkip(row, w, c);
        RowRunsFrom(row, w, c + 1);
      } else {
        var e := RunEnd(row, w, c);
        var runs := RowRuns(row, w, c);
        var rest := RowRuns(row, w, e);
        assert runs == [(c, e)] + rest;
        if e < w {
          RowRunsSkip(row, w, e);
          RowRunsFrom(row, w, e + 1);
        }
        assert forall k | 1 <= k < |runs| :: runs[k] == rest[k - 1];
      }
    }
  }

  /** The runs of a row are its maximal runs of lit columns, left to right,
      each separated from the next by at least one unlit column. */
  lemma RowRunsAreMaximal(row: u16, w: nat)
    ensures var runs := RowRuns(row, w, 0);
      && (forall k | 0 <= k < |runs| :: IsRun(row, w, runs[k]))
      && (forall i, j | 0 <= i < j < |runs| :: runs[i].1 < runs[j].0)
  {
    RowRunsFrom(row, w, 0);
  }

  /** Every lit column among the first `w` lies in one of the runs. */
  lemma {:induction false} LitColumnInRun(row: u16, w: nat, c: nat, col: nat) returns (k: nat)
    requires c <= col < w && Lit(row, col)
    ensures var runs := RowRuns(row, w, c);
      k < |runs| && runs[k].0 <= col < runs[k].1
    decreases w - c
  {
    if !Lit(row, c) {
      k := LitColumnInRun(row, w, c + 1, col);
    } else {
      var e := RunEnd(row, w, c);
      if col < e {
        k := 0;
      } else {
        var j := LitColumnInRun(row, w, e, col);
        k := j + 1;
      }
    }
  }

  /** The total length of a row's runs. */
  function RunsLength(runs: seq<(nat, nat)>): int {
    if runs == [] then 0 else (runs[0].1 - runs[0].0) + RunsLength(runs[1..])
  }

  lemma {:induction false} LitCountOfRun(row: u16, c: nat, e: nat)
    requires c <= e && forall k | c <= k < e :: Lit(row, k)
    ensures LitCount(row, e) == LitCount(row, c) + (e - c)
    decreases e - c
  {
    if c < e {
      LitCountOfRun(row, c, e - 1);
    }
  }

  lemma {:induction false} RunsCountLitFrom(row: u16, w: nat, c: nat)
    requires c <= w
    ensures RunsLength(RowRuns(row, w, c)) + LitCount(row, c) == LitCount(row, w)
    decreases w - c
  {
    if c < w {
      if !Lit(row, c) {
        RunsCountLitFrom(row, w, c + 1);
      } else {
        var e := RunEnd(row, w, c);
        RunsCountLitFrom(row, w, e);
        LitCountOfRun(row, c, e);
        assert ([(c, e)] + RowRuns(row, w, e))[1..] == RowRuns(row, w, e);
      }
    }
  }

  /** The runs of a row are as long, together, as the row has lit columns. */
  lemma RunsCountLitColumns(row: u16, w: nat)
    ensures RunsLength(RowRuns(row, w, 0)) == LitCount(row, w)
  {
    RunsCountLitFrom(row, w, 0);
  }

  // ---------------------------------------------------------------------
  // Segments

  /** The width a list of two-point segments covers. */
  function LinesLength(lines: seq<seq<Point>>): int {
    if lines == [] then 0
    else (if |lines[0]| == 2 then lines[0][1].0 - lines[0][0].0 else 0) + LinesLength(lines[1..])
  }

  lemma {:induction false} LinesLengthAppend(a: seq<seq<Point>>, b: seq<seq<Point>>)
    ensures LinesLength(a + b) == LinesLength(a) + LinesLength(b)
    decreases |a|
  {
    if a != [] {
      assert (a + b)[1..] == a[1..] + b;
      LinesLengthAppend(a[1..], b);
    } else {
      assert a + b == b;
    }
  }

  lemma {:induction false} RunLinesLength(runs: seq<(nat, nat)>, x0: int, y: int)
    ensures LinesLength(RunLines(runs, x0, y)) == RunsLength(runs)
    decreases |runs|
  {
    if runs != [] {
      assert RunLines(runs, x0, y)[1..] == RunLines(runs[1..], x0, y);
      RunLinesLength(runs[1..], x0, y);
    }
  }

  /** Segment `p` lies before segment `q`: on an earlier row, or on the same
      row and to the left with a gap between them. */
  predicate LineBefore(p: seq<Point>, q: seq<Point>) {
    |p| == 2 && |q| == 2 && (p[0].1 < q[0].1 || (p[0].1 == q[0].1 && p[1].0 < q[0].0))
  }

  /** A horizontal segment from left to right. */
  predicate IsStroke(p: seq<Point>) {
    |p| == 2 && p[0].1 == p[1].1 && p[0].0 < p[1].0
  }

  lemma RowLinesFacts(row: u16, w: nat, x0: int, y: int)
    ensures LinesLength(RowLines(row, w, x0, y)) == LitCount(row, w)
    ensures forall k | 0 <= k < |RowLines(row, w, x0, y)| ::
      var line := RowLines(row, w, x0, y)[k];
      IsStroke(line) && line[0].1 == y && x0 <= line[0].0 && line[1].0 <= x0 + w
    ensures forall i, j | 0 <= i < j < |RowLines(row, w, x0, y)| ::
      LineBefore(RowLines(row, w, x0, y)[i], RowLines(row, w, x0, y)[j])
  {
    var runs := RowRuns(row, w, 0);
    RowRunsAreMaximal(row, w);
    RunLinesLength(runs, x0, y);
    RunsCountLitColumns(row, w);
  }

  /** Row 0xE000 of a glyph three columns wide is one segment over all three. */
  lemma ThreePixelRunIsOneSegment(x0: int, y: int)
    ensures RowLines(0xE000, 3, x0, y) == [[(x0, y), (x0 + 3, y)]]
  {
    HighBits();
    assert Lit(0xE000, 0) && Lit(0xE000, 1) && Lit(0xE000, 2);
    RunEndAt(0xE000, 3, 0, 3);
    assert RowRuns(0xE000, 3, 3) == [];
    assert RowRuns(0xE000, 3, 0) == [(0, 3)];
  }

  lemma {:induction false} GlyphLinesLength(bitmap: seq<u16>, bbx: BoundingBox, ascent: int, n: nat)
    requires n <= |bitmap|
    ensures LinesLength(GlyphLines(bitmap, bbx, ascent, n)) == PixelCount(bitmap, bbx.width, n)
  {
    if n > 0 {
      var y := AscentRowY(ascent, bbx, n - 1);
      GlyphLinesLength(bitmap, bbx, ascent, n - 1);
      RowLinesFacts(bitmap[n - 1], bbx.width, bbx.xOffset, y);
      LinesLengthAppend(GlyphLines(bitmap, bbx, ascent, n - 1), RowLines(bitmap[n - 1], bbx.width, bbx.xOffset, y));
    }
  }

  lemma {:induction false} GlyphLinesShape(bitmap: seq<u16>, bbx: BoundingBox, ascent: int, n: nat)
    requires n <= |bitmap|
    ensures forall k | 0 <= k < |GlyphLines(bitmap, bbx, ascent, n)| ::
      var line := GlyphLines(bitmap, bbx, ascent, n)[k];
      && IsStroke(line) && AscentRowY(ascent, bbx, 0) <= line[0].1 < AscentRowY(ascent, bbx, n)
      && bbx.xOffset <= line[0].0 && line[1].0 <= bbx.xOffset + bbx.width
    ensures forall i, j | 0 <= i < j < |GlyphLines(bitmap, bbx, ascent, n)| ::
      LineBefore(GlyphLines(bitmap, bbx, ascent, n)[i], GlyphLines(bitmap, bbx, ascent, n)[j])
  {
    if n > 0 {
      var y := AscentRowY(ascent, bbx, n - 1);
      var prior := GlyphLines(bitmap, bbx, ascent, n - 1);
      var last := RowLines(bitmap[n - 1], bbx.width, bbx.xOffset, y);
      var lines: seq<seq<Point>> := prior + last;
      GlyphLinesShape(bitmap, bbx, ascent, n - 1);
      RowLinesFacts(bitmap[n - 1], bbx.width, bbx.xOffset, y);
      forall k | 0 <= k < |lines|
        ensures IsStroke(lines[k]) && AscentRowY(ascent, bbx, 0) <= lines[k][0].1 < AscentRowY(ascent, bbx, n)
        ensures bbx.xOffset <= lines[k][0].0 && lines[k][1].0 <= bbx.xOffset + bbx.width
      {
        if k >= |prior| {
          assert lines[k] == last[k - |prior|];
        } else {
          assert lines[k] == prior[k];
        }
      }
      forall i, j | 0 <= i < j < |lines|
        ensures LineBefore(lines[i], lines[j])
      {
        if j < |prior| {
          assert lines[i] == prior[i] && lines[j] == prior[j];
        } else if i >= |prior| {
          assert lines[i] == last[i - |prior|] && lines[j] == last[j - |prior|];
        } else {
          assert lines[i] == prior[i] && lines[j] == last[j - |prior|];
        }
      }
    }
  }

  /** A glyph's segments are horizontal left-to-right strokes inside the
      box, one row after another from the top row (at
      `font_ascent - y_offset - height`) down, never crossing rows, and
      together exactly as long as the glyph has lit pixels: as many as it
      has squares. */
  lemma CurvesMatchRects(g: Glyph, ascent: int)
    ensures var lines := GlyphCurve(g, ascent).2;
      && LinesLength(lines) == |Rects(g)|
      && (forall k | 0 <= k < |lines| :: IsStroke(lines[k]) && AscentRowY(ascent, g.bbx, 0) <= lines[k][0].1 < AscentRowY(ascent, g.bbx, |g.bitmap|))
      && (forall i, j | 0 <= i < j < |lines| :: LineBefore(lines[i], lines[j]))
  {
    GlyphLinesLength(g.bitmap, g.bbx, ascent, |g.bitmap|);
    GlyphLinesShape(g.bitmap, g.bbx, ascent, |g.bitmap|);
    GlyphSquaresFacts(g.bitmap, g.bbx, |g.bitmap|);
  }

  /** One entry per glyph, in glyph order: the name parses back to the
      glyph's encoding, the advance is `dwidth.0`, and the segments are
      measured from the font's ascent. */
  lemma CurvesPerGlyph(font: Font)
    ensures var curves := Curves(font);
      && |curves| == |font.glyphs|
      && forall k | 0 <= k < |curves| ::
           && ParseUsize(curves[k].0) == Some(font.glyphs[k].encoding)
           && curves[k].1 == font.glyphs[k].dwidth.0
           && curves[k].2 == GlyphLines(font.glyphs[k].bitmap, font.glyphs[k].bbx, font.properties.fontAscent, |font.glyphs[k].bitmap|)
  {
    forall k | 0 <= k < |font.glyphs|
      ensures ParseUsize(Curves(font)[k].0) == Some(font.glyphs[k].encoding)
    {
      DecimalRoundTrip(font.glyphs[k].encoding);
    }
  }
}
