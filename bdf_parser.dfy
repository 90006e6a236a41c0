/** `load_bdf` (commons/src/lib.rs:43-202).

    The specification is a family of recursive functions over the lines still
    to be read: each consumes a block of lines and returns what it built
    together with the lines that follow the block. `LoadBdf` and its helper
    methods are the source's index-driven loops, each proved equal to the
    function for its block. */
module BdfParser {
  import opened Results
  import opened Lexical
  import opened BdfFont

  // ---------------------------------------------------------------------
  // Fields of a single record

  /** `s.parse::<usize>()?` */
  function Integer(s: string): (r: Result<usize, ParseError>)
    ensures r.Ok? <==> ParseUsize(s).Some?
    ensures r.Ok? ==> r.value == ParseUsize(s).value
    ensures r.Err? ==> r.error == MalformedInteger
  {
    match ParseUsize(s)
    case Some(v) => Ok(v)
    case None => Err(MalformedInteger)
  }

  /** `s.parse::<isize>()?` */
  function SignedInteger(s: string): (r: Result<isize, ParseError>)
    ensures r.Ok? <==> ParseIsize(s).Some?
    ensures r.Ok? ==> r.value == ParseIsize(s).value
    ensures r.Err? ==> r.error == MalformedInteger
  {
    match ParseIsize(s)
    case Some(v) => Ok(v)
    case None => Err(MalformedInteger)
  }

  /** `parts[k].parse::<usize>()?`: indexing past the end panics. */
  function UsizeField(parts: seq<string>, k: nat): (r: Result<usize, ParseError>)
    ensures r.Ok? <==> k < |parts| && ParseUsize(parts[k]).Some?
    ensures r.Ok? ==> r.value == ParseUsize(parts[k]).value
    ensures r.Err? ==> (r.error == MissingToken <==> k >= |parts|)
    ensures r.Err? ==> r.error == MissingToken || r.error == MalformedInteger
  {
    if k < |parts| then Integer(parts[k]) else Err(MissingToken)
  }

  /** `parts[k].parse::<isize>()?` */
  function IsizeField(parts: seq<string>, k: nat): (r: Result<isize, ParseError>)
    ensures r.Ok? <==> k < |parts| && ParseIsize(parts[k]).Some?
    ensures r.Ok? ==> r.value == ParseIsize(parts[k]).value
    ensures r.Err? ==> (r.error == MissingToken <==> k >= |parts|)
    ensures r.Err? ==> r.error == MissingToken || r.error == MalformedInteger
  {
    if k < |parts| then SignedInteger(parts[k]) else Err(MissingToken)
  }

  /** The three whitespace-separated numbers of a SIZE record. */
  function SizeRecord(fields: string): (r: Result<(usize, usize, usize), ParseError>)
    ensures r.Ok? ==> |SplitWhitespace(fields)| >= 3
    ensures r.Err? ==> r.error == MalformedInteger || r.error == MissingToken
  {
    var parts := SplitWhitespace(fields);
    var pointSize :- UsizeField(parts, 0);
    var resolutionX :- UsizeField(parts, 1);
    var resolutionY :- UsizeField(parts, 2);
    Ok((pointSize, resolutionX, resolutionY))
  }

  /** The four numbers of a FONTBOUNDINGBOX or BBX record: two unsigned, two signed. */
  function BoxRecord(fields: string): (r: Result<BoundingBox, ParseError>)
    ensures r.Ok? ==> |SplitWhitespace(fields)| >= 4
    ensures r.Err? ==> r.error == MalformedInteger || r.error == MissingToken
  {
    var parts := SplitWhitespace(fields);
    var width :- UsizeField(parts, 0);
    var height :- UsizeField(parts, 1);
    var xOffset :- IsizeField(parts, 2);
    var yOffset :- IsizeField(parts, 3);
    Ok(BoundingBox(width, height, xOffset, yOffset))
  }

  /** The two numbers of an SWIDTH or DWIDTH record. */
  function WidthRecord(fields: string): (r: Result<(usize, usize), ParseError>)
    ensures r.Ok? ==> |SplitWhitespace(fields)| >= 2
    ensures r.Err? ==> r.error == MalformedInteger || r.error == MissingToken
  {
    var parts := SplitWhitespace(fields);
    var x :- UsizeField(parts, 0);
    var y :- UsizeField(parts, 1);
    Ok((x, y))
  }

  /** One BITMAP row: a hexadecimal `u16`; a row of at most two characters
      is one byte and moves to the high byte. (`hex_str.len()` counts bytes;
      every string `from_str_radix` accepts is ASCII, so bytes are characters.) */
  function DecodeRow(s: string): (r: Result<u16, ParseError>)
    ensures r.Ok? <==> ParseHexU16(s).Some?
    ensures r.Err? ==> r.error == MalformedHexRow
  {
    match ParseHexU16(s)
    case None => Err(MalformedHexRow)
    case Some(v) =>
      if |s| <= 2 then
        ShortHexBelow256(s);
        Ok(v * 256)
      else Ok(v)
  }

  /** One line of a STARTPROPERTIES block (commons/src/lib.rs:102-134).
      Unrecognised lines leave the properties as they are. */
  function ApplyProperty(p: Properties, line: string): (r: Result<Properties, ParseError>)
    ensures r.Err? ==> r.error == MalformedInteger || r.error == SliceOutOfRange
    ensures r.Err? && r.error == SliceOutOfRange ==> StartsWith(line, "_GBDFED_INFO ") && |line| == 13
  {
    if StartsWith(line, "POINT_SIZE ") then
      var v :- Integer(line[11..]); Ok(p.(pointSize := v))
    else if StartsWith(line, "PIXEL_SIZE ") then
      var v :- Integer(line[11..]); Ok(p.(pixelSize := v))
    else if StartsWith(line, "RESOLUTION_X ") then
      var v :- Integer(line[13..]); Ok(p.(resolutionX := v))
    else if StartsWith(line, "RESOLUTION_Y ") then
      var v :- Integer(line[13..]); Ok(p.(resolutionY := v))
    else if StartsWith(line, "FONT_ASCENT ") then
      var v :- Integer(line[12..]); Ok(p.(fontAscent := v))
    else if StartsWith(line, "FONT_DESCENT ") then
      var v :- Integer(line[13..]); Ok(p.(fontDescent := v))
    else if StartsWith(line, "AVERAGE_WIDTH ") then
      var v :- Integer(line[14..]); Ok(p.(averageWidth := v))
    else if StartsWith(line, "SPACING ") then
      Ok(p.(spacing := line[8..]))
    else if StartsWith(line, "_GBDFED_INFO ") then
      // the keyword and its space are 13 characters, the slice starts at 14
      if |line| < 14 then Err(SliceOutOfRange) else Ok(p.(gbdfedInfo := line[14..]))
    else if StartsWith(line, "CHARSET_ENCODING ") then
      Ok(p.(charsetEncoding := line[17..]))
    else if StartsWith(line, "CHARSET_REGISTRY ") then
      Ok(p.(charsetRegistry := line[17..]))
    else if StartsWith(line, "FAMILY_NAME ") then
      Ok(p.(familyName := line[12..]))
    else if StartsWith(line, "FOUNDRY ") then
      Ok(p.(foundry := line[8..]))
    else if StartsWith(line, "SETWIDTH_NAME ") then
      Ok(p.(setwidthName := line[14..]))
    else if StartsWith(line, "SLANT ") then
      Ok(p.(slant := line[6..]))
    else if StartsWith(line, "WEIGHT_NAME ") then
      Ok(p.(weightName := line[12..]))
    else
      Ok(p)
  }

  // ---------------------------------------------------------------------
  // Blocks of lines

  /** `t` is what is left of `s` after some of its first lines were read. */
  predicate IsSuffix(t: seq<string>, s: seq<string>) {
    |t| <= |s| && t == s[|s| - |t|..]
  }

  /** The lines of a STARTPROPERTIES block, up to and including the first line
      that starts with ENDPROPERTIES (commons/src/lib.rs:99-137). */
  function ParseProperties(ls: seq<string>, p: Properties): (r: Result<(Properties, seq<string>), ParseError>)
    ensures r.Ok? ==> IsSuffix(r.value.1, ls)
    decreases |ls|
  {
    if ls == [] then Ok((p, []))
    else if StartsWith(ls[0], "ENDPROPERTIES") then Ok((p, ls[1..]))
    else
      var q :- ApplyProperty(p, ls[0]);
      ParseProperties(ls[1..], q)
  }

  /** The rows after a BITMAP line, up to and including the line ENDCHAR
      (commons/src/lib.rs:174-187). */
  function ParseBitmap(ls: seq<string>, rows: seq<u16>): (r: Result<(seq<u16>, seq<string>), ParseError>)
    ensures r.Ok? ==> IsSuffix(r.value.1, ls)
    decreases |ls|
  {
    if ls == [] then Ok((rows, []))
    else if ls[0] == "ENDCHAR" then Ok((rows, ls[1..]))
    else
      var row :- DecodeRow(ls[0]);
      ParseBitmap(ls[1..], rows + [row])
  }

  /** One line inside a glyph record other than BITMAP
      (commons/src/lib.rs:153-172, 189-191). Unrecognised lines, ENDCHAR and a
      STARTCHAR that follows a glyph without BITMAP among them, leave the
      glyph as it is. */
  function GlyphLine(g: Glyph, line: string): (r: Result<Glyph, ParseError>)
    ensures r.Ok? ==> r.value.startchar == g.startchar && r.value.bitmap == g.bitmap
    ensures r.Err? ==> r.error == MalformedInteger || r.error == MissingToken
  {
    if StartsWith(line, "ENCODING ") then
      var encoding :- Integer(line[9..]); Ok(g.(encoding := encoding))
    else if StartsWith(line, "SWIDTH ") then
      var swidth :- WidthRecord(line[7..]); Ok(g.(swidth := swidth))
    else if StartsWith(line, "DWIDTH ") then
      var dwidth :- WidthRecord(line[7..]); Ok(g.(dwidth := dwidth))
    else if StartsWith(line, "BBX ") then
      var bbx :- BoxRecord(line[4..]); Ok(g.(bbx := bbx))
    else
      Ok(g)
  }

  /** The lines after a STARTCHAR line, up to the end of its bitmap; a glyph
      without a BITMAP line runs to the end of the input
      (commons/src/lib.rs:150-192). None of the record keywords is a prefix of
      BITMAP, so testing for BITMAP first changes nothing. */
  function ParseGlyph(ls: seq<string>, g: Glyph): (r: Result<(Glyph, seq<string>), ParseError>)
    ensures r.Ok? ==> IsSuffix(r.value.1, ls) && r.value.0.startchar == g.startchar
    decreases |ls|
  {
    if ls == [] then Ok((g, []))
    else if ls[0] == "BITMAP" then
      var bitmap :- ParseBitmap(ls[1..], g.bitmap);
      Ok((g.(bitmap := bitmap.0), bitmap.1))
    else
      var updated :- GlyphLine(g, ls[0]);
      ParseGlyph(ls[1..], updated)
  }

  /** The top level of the file (commons/src/lib.rs:73-199). The lines
      returned are empty when the input ran out, and start with the ENDFONT
      line that stopped the parse otherwise. */
  function ParseBody(ls: seq<string>, font: Font): (r: Result<(Font, seq<string>), ParseError>)
    ensures r.Ok? ==> IsSuffix(r.value.1, ls) && (r.value.1 == [] || r.value.1[0] == "ENDFONT")
    decreases |ls|
  {
    if ls == [] then Ok((font, []))
    else
      var line := ls[0];
      if StartsWith(line, "STARTFONT ") then
        ParseBody(ls[1..], font)
      else if StartsWith(line, "FONT ") then
        ParseBody(ls[1..], font.(name := line[5..]))
      else if StartsWith(line, "SIZE ") then
        var size :- SizeRecord(line[5..]);
        ParseBody(ls[1..], font.(size := size))
      else if StartsWith(line, "FONTBOUNDINGBOX ") then
        var box :- BoxRecord(line[16..]);
        ParseBody(ls[1..], font.(boundingBox := box))
      else if StartsWith(line, "STARTPROPERTIES ") then
        var declared :- Integer(line[16..]);
        var block :- ParseProperties(ls[1..], font.properties);
        ParseBody(block.1, font.(properties := block.0))
      else if StartsWith(line, "CHARS ") then
        var count :- Integer(line[6..]);
        ParseBody(ls[1..], font.(charcount := count))
      else if StartsWith(line, "STARTCHAR ") then
        var glyph :- ParseGlyph(ls[1..], NewGlyph(line[10..]));
        ParseBody(glyph.1, font.(glyphs := font.glyphs + [glyph.0]))
      else if line == "ENDFONT" then
        Ok((font, ls))
      else
        ParseBody(ls[1..], font)
  }

  function Finish<T>(r: Result<(T, seq<string>), ParseError>): Result<T, ParseError> {
    match r
    case Ok(v) => Ok(v.0)
    case Err(e) => Err(e)
  }

  /** What `load_bdf` returns for the lines of a file. */
  function Parse(lines: seq<string>): Result<Font, ParseError> {
    Finish(ParseBody(lines, EmptyFont))
  }

  // ---------------------------------------------------------------------
  // The loops

  /** The lines from index `i` on; an index one past the end (where the
      source's `i += 1` after an exhausted inner loop can leave it) reads as
      no lines. */
  function Rest(lines: seq<string>, i: nat): seq<string> {
    if i <= |lines| then lines[i..] else []
  }

  /** A loop that stopped with result `r` at index `next` did what the
      function `spec` says of its block. */
  predicate Agrees<T(==)>(spec: Result<(T, seq<string>), ParseError>, lines: seq<string>, r: Result<T, ParseError>, next: nat) {
    match spec
    case Ok(v) => r == Ok(v.0) && Rest(lines, next) == v.1
    case Err(e) => r == Err(e)
  }

  /** The STARTPROPERTIES loop, from the first line after the STARTPROPERTIES line. */
  method ReadProperties(lines: seq<string>, start: nat, props0: Properties) returns (r: Result<Properties, ParseError>, next: nat)
    requires start <= |lines|
    ensures start < next <= |lines| + 1
    ensures Agrees(ParseProperties(Rest(lines, start), props0), lines, r, next)
  {
    var i := start;
    var props := props0;
    while i < |lines| && !StartsWith(lines[i], "ENDPROPERTIES")
      invariant start <= i <= |lines|
      invariant ParseProperties(lines[i..], props) == ParseProperties(lines[start..], props0)
    {
      assert lines[i..][0] == lines[i] && lines[i..][1..] == lines[i + 1..];
      var updated := ApplyProperty(props, lines[i]);
      if updated.Err? {
        return Err(updated.error), i + 1;
      }
      props := updated.value;
      i := i + 1;
    }
    if i < |lines| {
      assert lines[i..][0] == lines[i] && lines[i..][1..] == Rest(lines, i + 1);
    }
    return Ok(props), i + 1;
  }

  /** The BITMAP loop, from the first line after the BITMAP line. */
  method ReadBitmap(lines: seq<string>, start: nat, rows0: seq<u16>) returns (r: Result<seq<u16>, ParseError>, next: nat)
    requires start <= |lines|
    ensures start < next <= |lines| + 1
    ensures Agrees(ParseBitmap(Rest(lines, start), rows0), lines, r, next)
  {
    var i := start;
    var rows := rows0;
    while i < |lines| && lines[i] != "ENDCHAR"
      invariant start <= i <= |lines|
      invariant ParseBitmap(lines[i..], rows) == ParseBitmap(lines[start..], rows0)
    {
      assert lines[i..][0] == lines[i] && lines[i..][1..] == lines[i + 1..];
      var row := DecodeRow(lines[i]);
      if row.Err? {
        return Err(row.error), i + 1;
      }
      assert ParseBitmap(lines[i..], rows) == ParseBitmap(lines[i + 1..], rows + [row.value]);
      rows := rows + [row.value];
      i := i + 1;
    }
    if i < |lines| {
      assert lines[i..][0] == lines[i] && lines[i..][1..] == Rest(lines, i + 1);
    }
    return Ok(rows), i + 1;
  }

  /** The glyph loop, from the first line after the STARTCHAR line. The
      record lines are read until a BITMAP line; the BITMAP branch, which
      ends the loop in the source, is taken after it. */
  method ReadGlyph(lines: seq<string>, start: nat, startchar: string) returns (r: Result<Glyph, ParseError>, next: nat)
    requires start <= |lines|
    ensures start <= next <= |lines| + 1
    ensures Agrees(ParseGlyph(Rest(lines, start), NewGlyph(startchar)), lines, r, next)
  {
    var glyph := NewGlyph(startchar);
    var i := start;
    while i < |lines| && lines[i] != "BITMAP"
      invariant start <= i <= |lines|
      invariant ParseGlyph(lines[i..], glyph) == ParseGlyph(lines[start..], NewGlyph(startchar))
    {
      assert lines[i..][0] == lines[i] && lines[i..][1..] == lines[i + 1..];
      var updated := GlyphLine(glyph, lines[i]);
      if updated.Err? {
        return Err(updated.error), i;
      }
      glyph := updated.value;
      i := i + 1;
    }
    if i == |lines| {
      return Ok(glyph), i;
    }
    assert lines[i..][0] == lines[i] && lines[i..][1..] == lines[i + 1..];
    var bitmap, after := ReadBitmap(lines, i + 1, glyph.bitmap);
    if bitmap.Err? {
      return Err(bitmap.error), after;
    }
    return Ok(glyph.(bitmap := bitmap.value)), after;
  }

  /** `load_bdf(contents)`, given `contents.lines()`. */
  method LoadBdf(lines: seq<string>) returns (r: Result<Font, ParseError>)
    ensures r == Parse(lines)
  {
    var i: nat := 0;
    var font := EmptyFont;
    while i < |lines|
      invariant i <= |lines| + 1
      invariant Finish(ParseBody(Rest(lines, i), font)) == Parse(lines)
      decreases |lines| + 1 - i
    {
      var line := lines[i];
      assert Rest(lines, i)[0] == line && Rest(lines, i)[1..] == Rest(lines, i + 1);
      if StartsWith(line, "STARTFONT ") {
        i := i + 1;
      } else if StartsWith(line, "FONT ") {
        font := font.(name := line[5..]);
        i := i + 1;
      } else if StartsWith(line, "SIZE ") {
        var size := SizeRecord(line[5..]);
        if size.Err? {
          return Err(size.error);
        }
        font := font.(size := size.value);
        i := i + 1;
      } else if StartsWith(line, "FONTBOUNDINGBOX ") {
        var box := BoxRecord(line[16..]);
        if box.Err? {
          return Err(box.error);
        }
        font := font.(boundingBox := box.value);
        i := i + 1;
      } else if StartsWith(line, "STARTPROPERTIES ") {
        var declared := Integer(line[16..]);
        if declared.Err? {
          return Err(declared.error);
        }
        var props, after := ReadProperties(lines, i + 1, font.properties);
        if props.Err? {
          return Err(props.error);
        }
        font := font.(properties := props.value);
        i := after;
      } else if StartsWith(line, "CHARS ") {
        var count := Integer(line[6..]);
        if count.Err? {
          return Err(count.error);
        }
        font := font.(charcount := count.value);
        i := i + 1;
      } else if StartsWith(line, "STARTCHAR ") {
        var glyph, after := ReadGlyph(lines, i + 1, line[10..]);
        if glyph.Err? {
          return Err(glyph.error);
        }
        font := font.(glyphs := font.glyphs + [glyph.value]);
        i := after;
      } else if line == "ENDFONT" {
        break;
      } else {
        i := i + 1;
      }
    }
    return Ok(font);
  }
}
