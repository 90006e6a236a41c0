# BDF bitmap-font parser and glyph geometry, in Dafny

This project models the core of `commons/src/lib.rs`. It has three parts.

- `load_bdf` reads the text of a BDF (Glyph Bitmap Distribution Format 2.1) font. It handles the header records, the STARTPROPERTIES…ENDPROPERTIES block, and the STARTCHAR…ENDCHAR glyph records with their BITMAP rows. It produces a `BDFFont`.
- `bdf_to_rects` turns one glyph into one closed unit square per lit pixel.
- `bdf_to_curves` turns every glyph of a font into its encoding, its advance and its horizontal run-length segments.

Files:

- `results.dfy`: `Option` and a `Result` that supports `:-`, the model of Rust's `?`.
- `lexical.dfy`: the parts of Rust's standard library the parser uses. These are `usize`/`isize`/`u16`, `starts_with`, `split_whitespace`, `parse::<usize>()`, `parse::<isize>()`, `u16::from_str_radix(_, 16)` and `usize::to_string()`. A 64-bit target is assumed.
- `bdf_font.dfy`: the `BDFGlyph`, `BDFProperties` and `BDFFont` records and their starting values.
- `bdf_parser.dfy`: the parser. It is specified as recursive functions over the lines still to be read (`ParseBody`, `ParseProperties`, `ParseGlyph`, `ParseBitmap`). The source's index-driven loops (`LoadBdf` and one method per inner loop) are proved equal to those functions.
- `parser_facts.dfy`, `font_facts.dfy`: what the parser promises, proved about those functions.
- `bdf_geometry.dfy`: the two extractors. They are specified as functions over rows and columns (`Rects`, `RowRuns`, `GlyphLines`, `Curves`), and the source's loops are methods proved equal to them.
- `geometry_facts.dfy`: what the extractors promise.

The input of the parser is the sequence of lines that `contents.lines()` yields. Failures are a small datatype:

- `MalformedInteger` is a failed `parse::<usize>()` or `parse::<isize>()`.
- `MalformedHexRow` is a failed `from_str_radix`.
- `MissingToken` is `parts[k]` past the end of a split record, which panics in the source.
- `SliceOutOfRange` is the `_GBDFED_INFO` slice past the end of its line, which panics in the source.

In every case the parse returns no font. Coordinates are `int`: every value the extractors cast to `f32` is a whole number.

Two predicates carry a piece of the source's behaviour with no contract of their own. `IsWhitespace` (`lexical.dfy`) is `char::is_whitespace`, the Unicode White_Space set that `split_whitespace` splits on. `Lit` (`bdf_geometry.dfy`) is the bit test `(row >> (15 - col)) & 1` of lib.rs:210 and 242, written as a division by a power of two; column 0 is bit 15. Their meaning is stated by the rows of `SplitWhitespace` and `RectsExactlyLitPixels` below.

Behaviours of the code that are easy to get wrong, all modelled as written:

- The properties block ends at the first line that *starts with* `ENDPROPERTIES`, not at a line equal to it (lib.rs:100).
- A record with too few tokens panics on `parts[k]`; it does not return an error value. The model shows this as the separate failure `MissingToken`.
- `_GBDFED_INFO ` is 13 characters, but its value is sliced from index 14 (lib.rs:119). The first character of the value is dropped, and a line with nothing after the keyword's space fails. `GbdfedInfoDropsOneCharacter` and `GbdfedInfoWithoutValueFails` state both.
- A glyph with no BITMAP line absorbs the lines after it up to the next line that is exactly `BITMAP` (lib.rs:151-193). Inside it, a later STARTCHAR or ENDFONT line is passed over, and the record lines of the next glyph overwrite its own. At that BITMAP it takes the next glyph's rows and ends at its ENDCHAR, so the next glyph is lost. If no BITMAP line follows, it reads to the end of the input and is appended without rows.
- `create_line` (lib.rs:268-272) is never called: `bdf_to_curves` builds each segment inline (lib.rs:246-249, 256-259). The model's `CreateLine` is that inline two-point segment, shared by both places.

## Model

| member | source | states |
|---|---|---|
| BdfParser.LoadBdf | commons/src/lib.rs:43-202 | the line loop returns exactly `Parse(lines)`: the font built from the lines, or the first failure, with no partial font |
| BdfParser.ReadProperties | commons/src/lib.rs:97-137 | the properties loop stops one past the first line starting with ENDPROPERTIES (or past the end) and agrees with `ParseProperties` |
| BdfParser.ReadGlyph | commons/src/lib.rs:141-193 | the glyph loop reads records until a line exactly `BITMAP` or the end of input, and agrees with `ParseGlyph` |
| BdfParser.ReadBitmap | commons/src/lib.rs:173-188 | the bitmap loop decodes rows until a line exactly `ENDCHAR`, consumes it, and agrees with `ParseBitmap` |
| BdfParser.Integer | commons/src/lib.rs:139 | `parse::<usize>()?` succeeds exactly when the token is a `usize`, and fails with MalformedInteger otherwise |
| BdfParser.SignedInteger | commons/src/lib.rs:93-94 | `parse::<isize>()?` succeeds exactly when the token is an `isize`, and fails with MalformedInteger otherwise |
| BdfParser.DecodeRow | commons/src/lib.rs:175-184 | a row decodes exactly when `from_str_radix(_, 16)` accepts it; otherwise the failure is MalformedHexRow |
| BdfParser.UsizeField | commons/src/lib.rs:83-85 | `parts[k].parse::<usize>()` succeeds exactly when token k exists and is a `usize`; MissingToken exactly when k is past the last token |
| BdfParser.IsizeField | commons/src/lib.rs:93-94 | `parts[k].parse::<isize>()` succeeds exactly when token k exists and is an `isize`; MissingToken exactly when k is past the last token |
| BdfParser.SizeRecord | commons/src/lib.rs:81-86 | a SIZE record that succeeds had at least three tokens; it fails only as MalformedInteger or MissingToken |
| BdfParser.BoxRecord | commons/src/lib.rs:88-172 | a FONTBOUNDINGBOX or BBX record that succeeds had at least four tokens; it fails only as MalformedInteger or MissingToken |
| BdfParser.WidthRecord | commons/src/lib.rs:156-163 | an SWIDTH or DWIDTH record that succeeds had at least two tokens; it fails only as MalformedInteger or MissingToken |
| BdfParser.ApplyProperty | commons/src/lib.rs:102-134 | a property line fails only as MalformedInteger, or as SliceOutOfRange when it is `_GBDFED_INFO ` with nothing after it |
| BdfParser.GlyphLine | commons/src/lib.rs:153-191 | a line inside a glyph never changes the glyph's name or rows; it fails only as MalformedInteger or MissingToken |
| BdfParser.ParseProperties | commons/src/lib.rs:99-137 | the properties block leaves a suffix of its input to the top level |
| BdfParser.ParseBitmap | commons/src/lib.rs:175-187 | the bitmap block leaves a suffix of its input |
| BdfParser.ParseGlyph | commons/src/lib.rs:150-192 | the glyph block leaves a suffix of its input and keeps the STARTCHAR name |
| BdfParser.ParseBody | commons/src/lib.rs:73-199 | the top level stops either at the end of input or at a line exactly `ENDFONT` |
| Lexical.SplitWhitespace | commons/src/lib.rs:81 | `split_whitespace` yields non-empty tokens without whitespace, and together they hold every non-whitespace character in order |
| Lexical.SplitWhitespaceAppend | commons/src/lib.rs:81 | splitting at a whitespace character splits the token list there |
| Lexical.SingleToken | commons/src/lib.rs:81 | a non-empty string without whitespace is one token |
| Lexical.ParseUsize | commons/src/lib.rs:83-85 | a `usize` is only read from a non-empty token without whitespace |
| Lexical.ParseIsize | commons/src/lib.rs:93-94 | an `isize` is only read from a non-empty token without whitespace |
| Lexical.DecimalString | commons/src/lib.rs:263 | `to_string` gives decimal digits with no leading zero |
| Lexical.DecimalRoundTrip | commons/src/lib.rs:263 | parsing `n.to_string()`, with or without a leading `+`, gives back `n` |
| Lexical.SignedRoundTrip | commons/src/lib.rs:93-94 | `isize` parsing reads a decimal back, and reads a leading `-` as negation down to `isize::MIN` |
| Lexical.UnsignedRejects | commons/src/lib.rs:83-85 | `usize` parsing refuses a `-` sign, the empty string, a lone `+` and `usize::MAX + 1` |
| Lexical.ParseHexU16 | commons/src/lib.rs:177 | `from_str_radix(_, 16)` accepts only a non-empty string without whitespace and without a `-` sign |
| Lexical.ShortHexBelow256 | commons/src/lib.rs:179-183 | a row of at most two characters is below 256, so `value << 8` keeps every bit in 16 bits |
| BdfParserFacts.OneByteRowsFillHighByte | commons/src/lib.rs:177-184 | `"FF"` and `"FF00"` both decode to `0xFF00`; `"80"` is `0x8000`; `"+F"` is `0x0F00` |
| BdfParserFacts.MalformedRowsRefused | commons/src/lib.rs:177 | empty, non-hex, negative, space-led and wider-than-16-bit rows fail with MalformedHexRow |
| BdfParserFacts.ShortRowIsPaddedRow | commons/src/lib.rs:177-184 | a row of one or two characters decodes to the same cell as that row followed by `00`, so bit 15 is always the leftmost pixel |
| BdfParserFacts.BitmapFailsOnlyOnBadRows | commons/src/lib.rs:175-186 | the bitmap block succeeds exactly when every row before the first ENDCHAR decodes; any failure is MalformedHexRow |
| BdfParserFacts.BitmapIsDecodedRows | commons/src/lib.rs:174-188 | the bitmap is the rows before the first ENDCHAR, each decoded, in order; only that ENDCHAR is consumed after them |
| BdfParserFacts.PropertiesBlockEnds | commons/src/lib.rs:100-137 | the block ends at the first line starting with ENDPROPERTIES and consumes it, whatever count was declared |
| BdfParserFacts.UnknownPropertiesSkipped | commons/src/lib.rs:102-135 | an unrecognised property line changes nothing and the block goes on |
| BdfParserFacts.StringPropertiesVerbatim | commons/src/lib.rs:116-133 | each string property is the rest of its line, unchanged |
| BdfParserFacts.GbdfedInfoDropsOneCharacter | commons/src/lib.rs:118-119 | `_GBDFED_INFO` keeps its line from index 14, so the value loses its first character |
| BdfParserFacts.GbdfedInfoWithoutValueFails | commons/src/lib.rs:118-119 | `_GBDFED_INFO ` with nothing after it slices past the end of the line |
| BdfParserFacts.NumericPropertyLines | commons/src/lib.rs:102-115 | each of POINT_SIZE, PIXEL_SIZE, RESOLUTION_X, RESOLUTION_Y, FONT_ASCENT, FONT_DESCENT and AVERAGE_WIDTH sets its own field to the `usize` after the keyword, or fails with MalformedInteger |
| BdfParserFacts.NumericPropertyExact | commons/src/lib.rs:102-115 | each of the seven numeric keywords followed by `n.to_string()` sets its field to `n` |
| BdfParserFacts.NumericPropertyLeadingSpace | commons/src/lib.rs:110-111 | a second space before the number makes the property a MalformedInteger failure, since the value is not trimmed |
| BdfParserFacts.NumericPropertyTrailingSpace | commons/src/lib.rs:110-111 | a space after the number makes the property a MalformedInteger failure |
| BdfParserFacts.SpaceIsNotANumber | commons/src/lib.rs:103 | a field with a space anywhere in it is a malformed integer |
| BdfParserFacts.SizeRecordMeaning | commons/src/lib.rs:80-86 | SIZE succeeds exactly when its first three tokens are `usize`, with those values; it is short of tokens exactly when every token it has parses but there are fewer than three |
| BdfParserFacts.BoxRecordMeaning | commons/src/lib.rs:88-95 | FONTBOUNDINGBOX/BBX reads two `usize` and two `isize` tokens in order; it is short of tokens exactly when the tokens it has parse but there are fewer than four |
| BdfParserFacts.WidthRecordMeaning | commons/src/lib.rs:156-163 | SWIDTH/DWIDTH reads two `usize` tokens; it is short of tokens exactly when the tokens it has parse but there are fewer than two |
| BdfParserFacts.EncodingLine | commons/src/lib.rs:153-155 | inside a glyph, ENCODING sets the encoding, or fails the glyph with MalformedInteger |
| BdfParserFacts.SwidthLine | commons/src/lib.rs:156-159 | SWIDTH sets the scalable width, or fails the glyph with the record's failure |
| BdfParserFacts.DwidthLine | commons/src/lib.rs:160-163 | DWIDTH sets the device width, or fails the glyph with the record's failure |
| BdfParserFacts.BbxLine | commons/src/lib.rs:164-172 | BBX sets the glyph's box, or fails the glyph with the record's failure |
| BdfParserFacts.BitmapLine | commons/src/lib.rs:173-188 | BITMAP ends the glyph: its rows become the decoded rows before the first ENDCHAR, and the lines after that ENDCHAR go back to the top level; a bad row fails the glyph |
| BdfParserFacts.OtherGlyphLine | commons/src/lib.rs:189-191 | any other line inside a glyph, ENDCHAR included, is passed over |
| BdfParserFacts.StartcharInsideGlyph | commons/src/lib.rs:151-191 | a STARTCHAR line inside a glyph opens no glyph and changes nothing |
| BdfParserFacts.BbxGlyphLine | commons/src/lib.rs:164-171 | a BBX line inside a glyph sets the box, or fails with the record's failure |
| BdfParserFacts.EncodingGlyphLine | commons/src/lib.rs:153-155 | an ENCODING line inside a glyph sets the encoding, or fails as MalformedInteger |
| BdfParserFacts.GlyphLineFailureIgnoresState | commons/src/lib.rs:151-172 | whether a record line inside a glyph fails, and with which failure, does not depend on what the glyph has read before it |
| BdfParserFacts.GoodRecords | commons/src/lib.rs:151-172 | record lines that all succeed, before BITMAP, keep the glyph's name and rows and hand the lines after them to the glyph loop |
| BdfParserFacts.GlyphFailsAtRecord | commons/src/lib.rs:151-172 | a failing record line anywhere before BITMAP fails the glyph; after record lines that succeed, with that line's failure |
| BdfParserFacts.ClosedBitmap | commons/src/lib.rs:173-188 | BITMAP, rows without ENDCHAR that all decode, then ENDCHAR: the glyph's rows gain exactly the decoded rows and the lines after that ENDCHAR are left |
| BdfParserFacts.MissingYOffset | commons/src/lib.rs:165-170 | a box record of three good numbers fails on the missing fourth token |
| BdfParserFacts.MissingThirdNumber | commons/src/lib.rs:81-85 | `SIZE a b` with two good numbers fails on the missing third token |
| BdfParserFacts.MalformedNumberFirst | commons/src/lib.rs:82-85 | a bad token fails as MalformedInteger before the missing token is reached |
| BdfParserFacts.SizeIgnoresExtraTokens | commons/src/lib.rs:81-86 | tokens after the third do not change SIZE |
| BdfParserFacts.BoxIgnoresExtraTokens | commons/src/lib.rs:89-95 | tokens after the fourth do not change a bounding box |
| BdfParserFacts.WidthIgnoresExtraTokens | commons/src/lib.rs:157-158 | tokens after the second do not change SWIDTH/DWIDTH |
| BdfFontFacts.StartfontLine | commons/src/lib.rs:75-76 | a STARTFONT line is passed over |
| BdfFontFacts.FontLine | commons/src/lib.rs:77-79 | a FONT line sets the name to the rest of the line |
| BdfFontFacts.SizeLine | commons/src/lib.rs:80-87 | a SIZE line sets the size, or fails the whole file with its record's failure |
| BdfFontFacts.BoundingBoxLine | commons/src/lib.rs:88-96 | a FONTBOUNDINGBOX line sets the box, or fails the whole file |
| BdfFontFacts.PropertiesLine | commons/src/lib.rs:97-137 | STARTPROPERTIES parses its count (a bad count fails), then reads the block and goes on after it |
| BdfFontFacts.CharsLine | commons/src/lib.rs:138-140 | a CHARS line sets `charcount`, or fails the file |
| BdfFontFacts.StartcharLine | commons/src/lib.rs:141-193 | STARTCHAR reads a glyph and appends it after the glyphs already read |
| BdfFontFacts.EndfontLine | commons/src/lib.rs:194-195 | a line exactly ENDFONT stops the parse with the font as it is |
| BdfFontFacts.OtherLine | commons/src/lib.rs:196-197 | any other top-level line, such as COMMENT, is passed over |
| BdfFontFacts.DeclaredPropertyCountIgnored | commons/src/lib.rs:98 | any two well-formed property counts read the same block |
| BdfFontFacts.CharcountNotChecked | commons/src/lib.rs:138-140 | CHARS n records n and nothing else, whatever number of glyphs follows |
| BdfFontFacts.ShortSizeFailsTheFile | commons/src/lib.rs:80-86 | `SIZE 17 75` fails the whole file |
| BdfFontFacts.GlyphRecordFailureFailsTheFile | commons/src/lib.rs:151-172 | a malformed ENCODING, SWIDTH, DWIDTH or BBX line anywhere among a glyph's lines before BITMAP fails the whole file; when the record lines before it all succeed, with that record's failure |
| BdfFontFacts.ShortBbxFailsTheFile | commons/src/lib.rs:164-171 | a glyph with `BBX 8 16 0` anywhere before its BITMAP line fails the whole file; after record lines that succeed, on the missing fourth token |
| BdfFontFacts.MalformedEncodingFailsTheFile | commons/src/lib.rs:153-155 | an ENCODING that is not a `usize`, anywhere before the glyph's BITMAP line, fails the whole file; after record lines that succeed, as MalformedInteger |
| BdfFontFacts.GlyphWithoutBitmapRunsToEnd | commons/src/lib.rs:151-192 | without a BITMAP line, the glyph either fails on one of its records or reads to the end of the input, keeping its name and its rows |
| BdfFontFacts.RunawayGlyphEndsTheFile | commons/src/lib.rs:141-193 | such a glyph is appended without rows, nothing after it is read, and the rest of the font is unchanged |
| BdfFontFacts.NextStartcharSwallowed | commons/src/lib.rs:141-193 | a STARTCHAR line right after a glyph's STARTCHAR line is swallowed: the file parses as if it were not there, so the first glyph takes the next glyph's records and rows |
| BdfFontFacts.RunawayGlyphTakesTheNextGlyph | commons/src/lib.rs:141-195 | `STARTCHAR A`, `STARTCHAR B`, `ENCODING 66`, `BITMAP`, `80`, `ENDCHAR`, `ENDFONT` gives one glyph A with encoding 66 and row `0x8000` |
| BdfFontFacts.EndfontIgnoresTheRest | commons/src/lib.rs:194-195 | once ENDFONT has stopped the parse, appending any lines, STARTCHAR blocks included, does not change the result |
| BdfFontFacts.GlyphsInStartcharOrder | commons/src/lib.rs:141-193 | the names of the glyphs added are STARTCHAR names of the input, in input order (some may be missing), after the glyphs already read, which are kept |
| BdfFontFacts.ClosedBlocksInOrder | commons/src/lib.rs:141-193 | a run of glyph blocks, each STARTCHAR, record lines that succeed, BITMAP, rows that decode and ENDCHAR, adds exactly one glyph per block, in block order, with the block's name and decoded rows, and the parse goes on after the last ENDCHAR |
| BdfFontFacts.ClosedBlocksFile | commons/src/lib.rs:43-202 | a file made of such glyph blocks parses, and its glyphs are the blocks' glyphs in the order of their STARTCHAR lines |
| BdfFontFacts.TwoGlyphsInOrder | commons/src/lib.rs:141-193 | glyph A then glyph B gives the glyph list [A, B] |
| BdfFontFacts.PropertiesOnlyFromBlocks | commons/src/lib.rs:97-137 | without a STARTPROPERTIES line, the properties stay as they were |
| BdfFontFacts.DefaultsWithoutProperties | commons/src/lib.rs:47-71 | a file with no STARTPROPERTIES block parses with all properties at their defaults, so `font_ascent == 0` and `family_name == ""` |
| BdfGeometry.BdfToRects | commons/src/lib.rs:204-225 | the nested loops return exactly `Rects(glyph)` |
| BdfGeometry.RunEnd | commons/src/lib.rs:241-254 | a run that starts at column c goes through lit columns only and ends at the first unlit column or at the width |
| BdfGeometry.CreateLine | commons/src/lib.rs:268-272 | a two-point horizontal segment at height y, starting at `x_offset + start`, as long as the column span |
| BdfGeometry.RowPaths | commons/src/lib.rs:236-261 | the `start_col` state machine of one row emits exactly the segments of the row's runs |
| BdfGeometry.GlyphPaths | commons/src/lib.rs:230-264 | the closure emits the segments of every stored row, row after row |
| BdfGeometry.BdfToCurves | commons/src/lib.rs:227-266 | the map returns exactly `Curves(bdf)` |
| BdfGeometryFacts.RectsAreUnitSquaresInRowMajorOrder | commons/src/lib.rs:204-224 | one square per lit pixel of the stored rows; each has 5 points, `(x,y),(x+1,y),(x+1,y+1),(x,y+1),(x,y)`, with first equal to last; each lies within the box's columns; the squares are in row-major order |
| BdfGeometryFacts.RectsExactlyLitPixels | commons/src/lib.rs:208-213 | the square at (x, y) is emitted exactly when row `y_off + height - 1 - y` is stored and column `x - x_off` is lit and below `bbx.0` |
| BdfGeometryFacts.SinglePixelSquare | commons/src/lib.rs:204-224 | bitmap `[0x8000]` in box `(1,1,0,0)` gives exactly `[(0,0),(1,0),(1,1),(0,1),(0,0)]` |
| BdfGeometryFacts.RowRunsAreMaximal | commons/src/lib.rs:239-260 | the runs of a row are maximal runs of lit columns, left to right, separated by unlit columns; a run reaching the last column ends at the width |
| BdfGeometryFacts.LitColumnInRun | commons/src/lib.rs:241-260 | every lit column lies in one of the runs |
| BdfGeometryFacts.RunsCountLitColumns | commons/src/lib.rs:239-260 | the runs of a row are, together, as long as the row has lit columns among its first `bbx.0` |
| BdfGeometryFacts.RowLinesFacts | commons/src/lib.rs:236-261 | a row's segments are horizontal strokes with `x1 < x2`, at the row's height, inside the box, ordered with a gap between neighbours; their total length is the row's lit count |
| BdfGeometryFacts.ThreePixelRunIsOneSegment | commons/src/lib.rs:241-260 | row `0xE000` with width 3 is one segment `[(x0, y), (x0 + 3, y)]` |
| BdfGeometryFacts.CurvesMatchRects | commons/src/lib.rs:227-264 | a glyph's segments are horizontal strokes at heights from `font_ascent - y_offset - height` down one row at a time, never crossing rows; their total length equals the number of squares `bdf_to_rects` gives |
| BdfGeometryFacts.CurvesPerGlyph | commons/src/lib.rs:227-265 | one entry per glyph, in glyph order; its name parses back to the encoding, its advance is `dwidth.0`, its segments are that glyph's |

## Left out

- `contents.lines()`: the model starts from the sequence of lines. It does not model how a text is split into lines, including the removal of a trailing `\r`.
- `HAXOR_FONT` (lib.rs:274): the file it includes is not part of this model.
- `jrport26/src/bin/reelone.rs` and `jrport26/src/bin/reeltwo.rs`: they are window, GPU, timing and particle code that consumes the geometry. This includes `get_text_points`, the lazily built curve table and the easing function, which rely on `f32` arithmetic and frame buffers.
- `Box<dyn Error>`: the error values are reduced to the four failure kinds above. The two panics (`parts[k]` out of bounds, the `_GBDFED_INFO` slice) are modelled as failures, not as a crash.
- ApplyProperty: a `_GBDFED_INFO ` line whose next character is not ASCII panics in the source, because byte 14 is not a character boundary. The model drops that character instead, since it counts characters and not bytes.
- BdfToRects: coordinates are unbounded integers. The `as isize` casts of values above `isize::MAX`, overflow in `x_off + col`, and `f32` rounding of large values are not modelled. The same holds for BdfToCurves, GlyphPaths and RowPaths.
- BdfToRects: requires `bbx.0 <= 16`. With a wider box the source computes `15 - col_idx` below zero, which panics or shifts by an out-of-range amount. GlyphPaths, RowPaths and BdfToCurves carry the same requirement.
