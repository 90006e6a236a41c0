/** `bdf_to_rects` and `bdf_to_curves` (commons/src/lib.rs:204-272).

    Both extractors turn the stored rows of a glyph into geometry. The
    coordinates the source casts to `f32` are all whole numbers; here they
    are `int`. The specification is a family of recursive functions over
    rows and columns; the methods are the source's loops, proved equal to
    those functions. */
module BdfGeometry {
  import opened Results
  import opened Lexical
  import opened BdfFont

  type Point = (int, int)

  function Pow2(n: nat): (p: nat)
    ensures p > 0
  {
    if n == 0 then 1 else 2 * Pow2(n - 1)
  }

  /** `(row >> (15 - col)) & 1 != 0`: column 0 is bit 15. Past column 15 the
      source's shift amount underflows; no column there is lit here, and the
      methods demand `bbx.width <= 16` so that none is ever asked about. */
  predicate Lit(row: u16, col: nat) {
    col < 16 && (row / Pow2(15 - col)) % 2 == 1
  }

  /** The number of lit columns among the first `c` of a row. */
  function LitCount(row: u16, c: nat): nat {
    if c == 0 then 0 else LitCount(row, c - 1) + (if Lit(row, c - 1) then 1 else 0)
  }

  /** The number of lit pixels in the first `n` rows of a bitmap, `width` columns each. */
  function PixelCount(bitmap: seq<u16>, width: nat, n: nat): nat
    requires n <= |bitmap|
  {
    if n == 0 then 0 else PixelCount(bitmap, width, n - 1) + LitCount(bitmap[n - 1], width)
  }

  // ---------------------------------------------------------------------
  // Rectangles (commons/src/lib.rs:204-225)

  /** The closed unit square with lower-left corner `(x, y)`, first point repeated last. */
  function UnitSquare(x: int, y: int): seq<Point> {
    [(x, y), (x + 1, y), (x + 1, y + 1), (x, y + 1), (x, y)]
  }

  /** The glyph-local, bottom-up height of bitmap row `r`: the top row is the
      highest, at `y_offset + height - 1`. */
  function LocalRowY(bbx: BoundingBox, r: nat): int {
    bbx.yOffset + (bbx.height - 1 - r)
  }

  /** The squares of the lit pixels among the first `c` columns of one row. */
  function RowSquares(row: u16, c: nat, x0: int, y: int): seq<seq<Point>> {
    if c == 0 then []
    else RowSquares(row, c - 1, x0, y) + (if Lit(row, c - 1) then [UnitSquare(x0 + c - 1, y)] else [])
  }

  /** The squares of the first `n` rows, row after row. */
  function GlyphSquares(bitmap: seq<u16>, bbx: BoundingBox, n: nat): seq<seq<Point>>
    requires n <= |bitmap|
  {
    if n == 0 then []
    else GlyphSquares(bitmap, bbx, n - 1) + RowSquares(bitmap[n - 1], bbx.width, bbx.xOffset, LocalRowY(bbx, n - 1))
  }

  /** What `bdf_to_rects(glyph)` returns: every stored row, not `bbx.height` rows. */
  function Rects(g: Glyph): seq<seq<Point>> {
    GlyphSquares(g.bitmap, g.bbx, |g.bitmap|)
  }

  /** `bdf_to_rects` */
  method BdfToRects(glyph: Glyph) returns (rects: seq<seq<Point>>)
    requires glyph.bbx.width <= 16
    ensures rects == Rects(glyph)
  {
    var width, height, xOff, yOff := glyph.bbx.width, glyph.bbx.height, glyph.bbx.xOffset, glyph.bbx.yOffset;
    rects := [];
    var rowIdx := 0;
    while rowIdx < |glyph.bitmap|
      invariant rowIdx <= |glyph.bitmap|
      invariant rects == GlyphSquares(glyph.bitmap, glyph.bbx, rowIdx)
    {
      var rowData := glyph.bitmap[rowIdx];
      var y := yOff + (height - 1 - rowIdx);
      ghost var before := rects;
      var colIdx := 0;
      while colIdx < width
        invariant colIdx <= width
        invariant rects == before + RowSquares(rowData, colIdx, xOff, y)
      {
        if Lit(rowData, colIdx) {
          var x := xOff + colIdx;
          rects := rects + [[(x, y), (x + 1, y), (x + 1, y + 1), (x, y + 1), (x, y)]];
        }
        colIdx := colIdx + 1;
      }
      rowIdx := rowIdx + 1;
    }
  }

  // ---------------------------------------------------------------------
  // Curves (commons/src/lib.rs:227-272)

  /** The first column at or after `c` that is not lit, or `w` if all are. */
  function RunEnd(row: u16, w: nat, c: nat): (e: nat)
    requires c <= w
    ensures c <= e <= w
    ensures forall k | c <= k < e :: Lit(row, k)
    ensures e == w || !Lit(row, e)
    decreases w - c
  {
    if c == w || !Lit(row, c) then c else RunEnd(row, w, c + 1)
  }

  /** The runs of lit columns from column `c` to `w`, as (first column, column
      after the last) pairs, left to right. */
  function RowRuns(row: u16, w: nat, c: nat): seq<(nat, nat)>
    requires c <= w
    decreases w - c
  {
    if c == w then []
    else if !Lit(row, c) then RowRuns(row, w, c + 1)
    else
      var e := RunEnd(row, w, c);
      [(c, e)] + RowRuns(row, w, e)
  }

  /** `create_line(start_pixel, end_pixel, x_offset, y)`: the two-point
      horizontal segment over columns `start_pixel` to `end_pixel`. */
  function CreateLine(startPixel: nat, endPixel: nat, xOffset: int, y: int): (line: seq<Point>)
    ensures |line| == 2 && line[0].1 == y && line[1].1 == y
    ensures line[1].0 - line[0].0 == endPixel - startPixel
    ensures line[0].0 - xOffset == startPixel
  {
    [(xOffset + startPixel, y), (xOffset + endPixel, y)]
  }

  /** One segment per run, in order. */
  function RunLines(runs: seq<(nat, nat)>, xOffset: int, y: int): seq<seq<Point>> {
    seq(|runs|, k requires 0 <= k < |runs| => CreateLine(runs[k].0, runs[k].1, xOffset, y))
  }

  /** The height a curve gives bitmap row `r`: measured down from the font's
      ascent, so the top row comes first and lies lowest. */
  function AscentRowY(ascent: int, bbx: BoundingBox, r: nat): int {
    ascent - bbx.yOffset - bbx.height + r
  }

  /** The segments of one row. */
  function RowLines(row: u16, w: nat, xOffset: int, y: int): seq<seq<Point>> {
    RunLines(RowRuns(row, w, 0), xOffset, y)
  }

  /** The segments of the first `n` rows, row after row. */
  function GlyphLines(bitmap: seq<u16>, bbx: BoundingBox, ascent: int, n: nat): seq<seq<Point>>
    requires n <= |bitmap|
  {
    if n == 0 then []
    else GlyphLines(bitmap, bbx, ascent, n - 1)
         + RowLines(bitmap[n - 1], bbx.width, bbx.xOffset, AscentRowY(ascent, bbx, n - 1))
  }

  /** The entry of one glyph: its encoding in decimal, its advance, its segments. */
  function GlyphCurve(g: Glyph, ascent: int): (string, usize, seq<seq<Point>>) {
    (DecimalString(g.encoding), g.dwidth.0, GlyphLines(g.bitmap, g.bbx, ascent, |g.bitmap|))
  }

  /** What `bdf_to_curves(bdf)` returns. */
  function Curves(font: Font): seq<(string, usize, seq<seq<Point>>)> {
    seq(|font.glyphs|, k requires 0 <= k < |font.glyphs| => GlyphCurve(font.glyphs[k], font.properties.fontAscent))
  }

  lemma RunLinesAppend(runs: seq<(nat, nat)>, run: (nat, nat), xOffset: int, y: int)
    ensures RunLines(runs + [run], xOffset, y) == RunLines(runs, xOffset, y) + [CreateLine(run.0, run.1, xOffset, y)]
  {
  }

  lemma RowRunsSkip(row: u16, w: nat, c: nat)
    requires c < w && !Lit(row, c)
    ensures RowRuns(row, w, c) == RowRuns(row, w, c + 1)
  {
  }

  /** A run that has reached an unlit column, or the end, ends there. */
  lemma {:induction false} RunEndAt(row: u16, w: nat, s: nat, col: nat)
    requires s <= col <= w
    requires forall k | s <= k < col :: Lit(row, k)
    requires col == w || !Lit(row, col)
    ensures RunEnd(row, w, s) == col
    decreases col - s
  {
    if s < col {
      RunEndAt(row, w, s + 1, col);
    }
  }

  /** One row of the closure that `bdf_to_curves` maps over the glyphs:
      `start_col` is the first column of the run in progress, and a run still
      open after the last column closes at the row's right edge. */
  method RowPaths(rowBits: u16, bbxWidth: nat, xOffset: int, y: int) returns (paths: seq<seq<Point>>)
    requires bbxWidth <= 16
    ensures paths == RowLines(rowBits, bbxWidth, xOffset, y)
  {
    paths := [];
    // `runs` are the runs closed so far; the row's runs from column `from`
    // on are the ones still to come
    ghost var runs: seq<(nat, nat)> := [];
    ghost var from: nat := 0;
    var startCol: Option<nat> := None;
    var colIdx := 0;
    while colIdx < bbxWidth
      invariant from <= colIdx <= bbxWidth
      invariant paths == RunLines(runs, xOffset, y)
      invariant RowRuns(rowBits, bbxWidth, 0) == runs + RowRuns(rowBits, bbxWidth, from)
      invariant startCol.None? ==> from == colIdx
      invariant startCol.Some? ==> from == startCol.value < colIdx && Lit(rowBits, from)
      invariant startCol.Some? ==> RunEnd(rowBits, bbxWidth, from) == RunEnd(rowBits, bbxWidth, colIdx)
    {
      var bitIsSet := Lit(rowBits, colIdx);
      if bitIsSet && startCol.None? {
        startCol := Some(colIdx);
      } else if !bitIsSet && startCol.Some? {
        var start := startCol.value;
        RowRunsSkip(rowBits, bbxWidth, colIdx);
        RunLinesAppend(runs, (start, colIdx), xOffset, y);
        assert runs + ([(start, colIdx)] + RowRuns(rowBits, bbxWidth, colIdx))
            == (runs + [(start, colIdx)]) + RowRuns(rowBits, bbxWidth, colIdx + 1);
        paths := paths + [CreateLine(start, colIdx, xOffset, y)];
        runs := runs + [(start, colIdx)];
        startCol := None;
        from := colIdx + 1;
      } else if !bitIsSet {
        RowRunsSkip(rowBits, bbxWidth, colIdx);
        from := colIdx + 1;
      }
      colIdx := colIdx + 1;
    }
    if startCol.Some? {
      var start := startCol.value;
      RunLinesAppend(runs, (start, bbxWidth), xOffset, y);
      paths := paths + [CreateLine(start, bbxWidth, xOffset, y)];
      runs := runs + [(start, bbxWidth)];
    }
    assert runs == RowRuns(rowBits, bbxWidth, 0);
  }

  /** The closure that `bdf_to_curves` maps over the glyphs, row after row. */
  method GlyphPaths(glyph: Glyph, fontAscent: usize) returns (paths: seq<seq<Point>>)
    requires glyph.bbx.width <= 16
    ensures paths == GlyphLines(glyph.bitmap, glyph.bbx, fontAscent, |glyph.bitmap|)
  {
    var bbxWidth, bbxHeight, xOffset, yOffset := glyph.bbx.width, glyph.bbx.height, glyph.bbx.xOffset, glyph.bbx.yOffset;
    paths := [];
    var rowIdx := 0;
    while rowIdx < |glyph.bitmap|
      invariant rowIdx <= |glyph.bitmap|
      invariant paths == GlyphLines(glyph.bitmap, glyph.bbx, fontAscent, rowIdx)
    {
      var y := fontAscent - yOffset - bbxHeight + rowIdx;
      var rowPaths := RowPaths(glyph.bitmap[rowIdx], bbxWidth, xOffset, y);
      paths := paths + rowPaths;
      rowIdx := rowIdx + 1;
    }
  }

  /** `bdf_to_curves`: one entry per glyph, in the order of the glyphs. */
  method BdfToCurves(bdf: Font) returns (curves: seq<(string, usize, seq<seq<Point>>)>)
    requires forall k | 0 <= k < |bdf.glyphs| :: bdf.glyphs[k].bbx.width <= 16
    ensures curves == Curves(bdf)
  {
    curves := [];
    var i := 0;
    while i < |bdf.glyphs|
      invariant i <= |bdf.glyphs|
      invariant |curves| == i
      invariant forall k | 0 <= k < i :: curves[k] == GlyphCurve(bdf.glyphs[k], bdf.properties.fontAscent)
    {
      var glyph := bdf.glyphs[i];
      var paths := GlyphPaths(glyph, bdf.properties.fontAscent);
      curves := curves + [(DecimalString(glyph.encoding), glyph.dwidth.0, paths)];
      i := i + 1;
    }
  }
}
