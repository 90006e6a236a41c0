/** What `load_bdf` promises, proved about the parser's specification
    functions (and so, through `LoadBdf`'s postcondition, about the loops). */
module BdfParserFacts {
  import opened Results
  import opened Lexical
  import opened BdfFont
  import opened BdfParser

  /** A string that differs from `p` at position `k` does not start with `p`. */
  lemma PrefixChar(s: string, k: nat)
    ensures forall p {:trigger StartsWith(s, p)} :: k < |p| && k < |s| && p[k] != s[k] ==> !StartsWith(s, p)
  {
    forall p | k < |p| && k < |s| && p[k] != s[k]
      ensures !StartsWith(s, p)
    {
      assert |p| <= |s| ==> s[..|p|][k] == s[k];
    }
  }

  /** The lengths and first letters of the keywords, so that a line starting
      with one keyword is seen not to start with the others. */
  lemma PropertyKeywords()
    ensures |"POINT_SIZE "| == 11 && "POINT_SIZE "[0] == 'P' && "POINT_SIZE "[1] == 'O'
    ensures |"PIXEL_SIZE "| == 11 && "PIXEL_SIZE "[0] == 'P' && "PIXEL_SIZE "[1] == 'I'
    ensures |"RESOLUTION_X "| == 13 && "RESOLUTION_X "[0] == 'R'
    ensures |"RESOLUTION_Y "| == 13 && "RESOLUTION_Y "[0] == 'R'
    ensures |"FONT_ASCENT "| == 12 && "FONT_ASCENT "[0] == 'F' && "FONT_ASCENT "[1] == 'O' && "FONT_ASCENT "[2] == 'N'
    ensures |"FONT_DESCENT "| == 13 && "FONT_DESCENT "[0] == 'F' && "FONT_DESCENT "[1] == 'O' && "FONT_DESCENT "[2] == 'N'
    ensures |"AVERAGE_WIDTH "| == 14 && "AVERAGE_WIDTH "[0] == 'A'
    ensures |"SPACING "| == 8 && "SPACING "[0] == 'S' && "SPACING "[1] == 'P'
    ensures |"_GBDFED_INFO "| == 13 && "_GBDFED_INFO "[0] == '_'
    ensures |"CHARSET_ENCODING "| == 17 && "CHARSET_ENCODING "[0] == 'C' && "CHARSET_ENCODING "[8] == 'E'
    ensures |"CHARSET_REGISTRY "| == 17 && "CHARSET_REGISTRY "[0] == 'C' && "CHARSET_REGISTRY "[8] == 'R'
    ensures |"FAMILY_NAME "| == 12 && "FAMILY_NAME "[0] == 'F' && "FAMILY_NAME "[1] == 'A'
    ensures |"FOUNDRY "| == 8 && "FOUNDRY "[0] == 'F' && "FOUNDRY "[1] == 'O' && "FOUNDRY "[2] == 'U'
    ensures |"SETWIDTH_NAME "| == 14 && "SETWIDTH_NAME "[0] == 'S' && "SETWIDTH_NAME "[1] == 'E'
    ensures |"SLANT "| == 6 && "SLANT "[0] == 'S' && "SLANT "[1] == 'L'
    ensures |"WEIGHT_NAME "| == 12 && "WEIGHT_NAME "[0] == 'W'
  {
  }

  lemma KeywordLine(keyword: string, rest: string)
    ensures StartsWith(keyword + rest, keyword)
    ensures (keyword + rest)[|keyword|..] == rest
  {
    assert (keyword + rest)[..|keyword|] == keyword;
  }

  /** A line that starts with a keyword is the keyword and what follows it. */
  lemma SplitKeyword(line: string, keyword: string)
    requires StartsWith(line, keyword)
    ensures line == keyword + line[|keyword|..]
  {
    assert line == line[..|keyword|] + line[|keyword|..];
  }

  // ---------------------------------------------------------------------
  // BITMAP rows

  /** A one-byte row lands in the high byte, so "FF" and "FF00" are the same
      row; "80" is the leftmost pixel alone. */
  lemma OneByteRowsFillHighByte()
    ensures DecodeRow("FF") == Ok(0xFF00)
    ensures DecodeRow("FF00") == Ok(0xFF00)
    ensures DecodeRow("80") == Ok(0x8000)
    ensures DecodeRow("+F") == Ok(0x0F00)
  {
    assert "FF"[..1] == "F" && "F"[..0] == "";
    assert AllHexDigits("F") && HexValue("F") == 15;
    assert AllHexDigits("FF") && HexValue("FF") == 255;
    assert "FF00"[..3] == "FF0" && "FF0"[..2] == "FF";
    assert AllHexDigits("FF0") && HexValue("FF0") == 4080;
    assert AllHexDigits("FF00") && HexValue("FF00") == 65280;
    assert "80"[..1] == "8" && "8"[..0] == "";
    assert AllHexDigits("8") && HexValue("8") == 8;
    assert AllHexDigits("80") && HexValue("80") == 128;
    assert Unsigned("+F") == "F";
  }

  /** Empty, non-hexadecimal, negative and wider-than-16-bit rows are refused. */
  lemma MalformedRowsRefused()
    ensures DecodeRow("") == Err(MalformedHexRow)
    ensures DecodeRow("G0") == Err(MalformedHexRow)
    ensures DecodeRow("-1") == Err(MalformedHexRow)
    ensures DecodeRow(" FF") == Err(MalformedHexRow)
    ensures DecodeRow("10000") == Err(MalformedHexRow)
  {
    assert "G0"[..1] == "G" && "G"[..0] == "" && !IsHexDigit("G"[0]);
    assert "-1"[..1] == "-" && "-"[..0] == "" && !IsHexDigit("-"[0]);
    assert " FF"[..2] == " F" && " F"[..1] == " " && " "[..0] == "" && !IsHexDigit(" "[0]);
    assert "10000"[..4] == "1000" && "1000"[..3] == "100" && "100"[..2] == "10";
    assert "10"[..1] == "1" && "1"[..0] == "";
    assert AllHexDigits("1") && HexValue("1") == 1;
    assert AllHexDigits("10") && HexValue("10") == 16;
    assert AllHexDigits("100") && HexValue("100") == 256;
    assert AllHexDigits("1000") && HexValue("1000") == 4096;
    assert AllHexDigits("10000") && HexValue("10000") == 65536;
  }

  /** A row of one or two digits is the same cell as that row padded with
      "00": a one-byte row is read as the high byte, so bit 15 is always the
      leftmost pixel whatever the row's width. */
  lemma ShortRowIsPaddedRow(s: string)
    requires ParseHexU16(s).Some? && |s| <= 2
    ensures DecodeRow(s + "00").Ok?
    ensures DecodeRow(s) == DecodeRow(s + "00")
  {
    var d := Unsigned(s);
    var d0, d00 := d + "0", d + "00";
    assert Unsigned(s + "00") == d00 by {
      if s[0] == '+' {
        assert (s + "00")[1..] == s[1..] + "00";
      }
    }
    assert d00[..|d00| - 1] == d0 && d0[..|d0| - 1] == d;
    assert IsHexDigit(d00[|d00| - 1]) && IsHexDigit(d0[|d0| - 1]);
    assert HexDigitValue(d00[|d00| - 1]) == 0 && HexDigitValue(d0[|d0| - 1]) == 0;
    assert AllHexDigits(d0) && AllHexDigits(d00);
    assert HexValue(d0) == 16 * HexValue(d);
    assert HexValue(d00) == 256 * HexValue(d);
    ShortHexBelow256(s);
    assert ParseHexU16(s + "00") == Some(256 * HexValue(d));
  }

  /** Index of the first ENDCHAR line, or the number of lines if there is none. */
  function BitmapEnd(ls: seq<string>): (e: nat)
    ensures e <= |ls|
    ensures forall k | 0 <= k < e :: ls[k] != "ENDCHAR"
    ensures e < |ls| ==> ls[e] == "ENDCHAR"
  {
    if ls == [] || ls[0] == "ENDCHAR" then 0 else 1 + BitmapEnd(ls[1..])
  }

  /** The bitmap block succeeds exactly when every row before the first
      ENDCHAR decodes; when it fails, it fails on a malformed row. */
  lemma {:induction false} BitmapFailsOnlyOnBadRows(ls: seq<string>, rows: seq<u16>)
    ensures ParseBitmap(ls, rows).Ok? <==> forall k | 0 <= k < BitmapEnd(ls) :: DecodeRow(ls[k]).Ok?
    ensures ParseBitmap(ls, rows).Err? ==> ParseBitmap(ls, rows).error == MalformedHexRow
    decreases |ls|
  {
    if ls != [] && ls[0] != "ENDCHAR" && DecodeRow(ls[0]).Ok? {
      var tail := ls[1..];
      BitmapFailsOnlyOnBadRows(tail, rows + [DecodeRow(ls[0]).value]);
      assert BitmapEnd(tail) == BitmapEnd(ls) - 1;
      assert forall k | 1 <= k < BitmapEnd(ls) :: ls[k] == tail[k - 1];
    }
  }

  /** Every row of `ls` decoded, in order; the first malformed row fails. */
  function DecodeRows(ls: seq<string>): (r: Result<seq<u16>, ParseError>)
    ensures r.Ok? ==> |r.value| == |ls|
  {
    if ls == [] then Ok([])
    else
      var row :- DecodeRow(ls[0]);
      var more :- DecodeRows(ls[1..]);
      Ok([row] + more)
  }

  /** Decoding row by row keeps each row's own value at its own index. */
  lemma {:induction false} DecodeRowsPointwise(ls: seq<string>)
    requires DecodeRows(ls).Ok?
    ensures forall k | 0 <= k < |ls| :: DecodeRow(ls[k]).Ok? && DecodeRows(ls).value[k] == DecodeRow(ls[k]).value
  {
    if ls != [] {
      DecodeRowsPointwise(ls[1..]);
      forall k | 1 <= k < |ls|
        ensures DecodeRow(ls[k]).Ok? && DecodeRows(ls).value[k] == DecodeRow(ls[k]).value
      {
        assert ls[k] == ls[1..][k - 1];
      }
    }
  }

  /** The bitmap block is the rows before the first ENDCHAR, each decoded,
      appended in order; it consumes that ENDCHAR and nothing after it. */
  lemma {:induction false} BitmapIsDecodedRows(ls: seq<string>, rows: seq<u16>)
    ensures var e := BitmapEnd(ls);
      ParseBitmap(ls, rows) == match DecodeRows(ls[..e])
                               case Ok(decoded) => Ok((rows + decoded, ls[if e < |ls| then e + 1 else e..]))
                               case Err(err) => Err(err)
    decreases |ls|
  {
    var e := BitmapEnd(ls);
    if ls == [] || ls[0] == "ENDCHAR" {
      assert ls[..e] == [];
      assert rows + [] == rows;
    } else {
      var tail := ls[1..];
      assert ls[..e][0] == ls[0];
      if DecodeRow(ls[0]).Ok? {
        var row := DecodeRow(ls[0]).value;
        BitmapIsDecodedRows(tail, rows + [row]);
        assert BitmapEnd(tail) == e - 1;
        assert ls[..e][1..] == tail[..e - 1];
        assert tail[if e - 1 < |tail| then e else e - 1..] == ls[if e < |ls| then e + 1 else e..];
        if DecodeRows(tail[..e - 1]).Ok? {
          var more := DecodeRows(tail[..e - 1]).value;
          assert rows + [row] + more == rows + ([row] + more);
        }
      }
    }
  }

  // ---------------------------------------------------------------------
  // Glyph records

  /** The lengths and telling letters of the glyph keywords. */
  lemma GlyphKeywords()
    ensures |"ENCODING "| == 9 && "ENCODING "[0] == 'E'
    ensures |"SWIDTH "| == 7 && "SWIDTH "[0] == 'S' && "SWIDTH "[1] == 'W'
    ensures |"DWIDTH "| == 7 && "DWIDTH "[0] == 'D'
    ensures |"BBX "| == 4 && "BBX "[0] == 'B' && "BBX "[1] == 'B'
    ensures |"BITMAP"| == 6 && "BITMAP"[0] == 'B' && "BITMAP"[1] == 'I'
  {
  }

  /** The lines a glyph record reads a value from. */
  predicate GlyphRecordLine(line: string) {
    StartsWith(line, "ENCODING ") || StartsWith(line, "SWIDTH ") || StartsWith(line, "DWIDTH ") || StartsWith(line, "BBX ")
  }

  /** ENCODING sets the glyph's encoding, or fails the glyph. */
  lemma EncodingLine(v: string, ls: seq<string>, g: Glyph)
    ensures ParseGlyph(["ENCODING " + v] + ls, g) ==
      if Integer(v).Ok? then ParseGlyph(ls, g.(encoding := Integer(v).value)) else Err(MalformedInteger)
  {
    var line := "ENCODING " + v;
    KeywordLine("ENCODING ", v);
    GlyphKeywords();
    assert line[0] != "BITMAP"[0];
    assert ([line] + ls)[1..] == ls;
  }

  /** SWIDTH sets the scalable width, or fails the glyph with the record's error. */
  lemma SwidthLine(fields: string, ls: seq<string>, g: Glyph)
    ensures ParseGlyph(["SWIDTH " + fields] + ls, g) ==
      if WidthRecord(fields).Ok? then ParseGlyph(ls, g.(swidth := WidthRecord(fields).value))
      else Err(WidthRecord(fields).error)
  {
    var line := "SWIDTH " + fields;
    KeywordLine("SWIDTH ", fields);
    GlyphKeywords();
    assert line[0] != "BITMAP"[0];
    PrefixChar(line, 0);
    assert ([line] + ls)[1..] == ls;
  }

  /** DWIDTH sets the device width, or fails the glyph with the record's error. */
  lemma DwidthLine(fields: string, ls: seq<string>, g: Glyph)
    ensures ParseGlyph(["DWIDTH " + fields] + ls, g) ==
      if WidthRecord(fields).Ok? then ParseGlyph(ls, g.(dwidth := WidthRecord(fields).value))
      else Err(WidthRecord(fields).error)
  {
    var line := "DWIDTH " + fields;
    KeywordLine("DWIDTH ", fields);
    GlyphKeywords();
    assert line[0] != "BITMAP"[0];
    PrefixChar(line, 0);
    assert ([line] + ls)[1..] == ls;
  }

  /** BBX sets the glyph's box, or fails the glyph with the record's error. */
  lemma BbxLine(fields: string, ls: seq<string>, g: Glyph)
    ensures ParseGlyph(["BBX " + fields] + ls, g) ==
      if BoxRecord(fields).Ok? then ParseGlyph(ls, g.(bbx := BoxRecord(fields).value))
      else Err(BoxRecord(fields).error)
  {
    var line := "BBX " + fields;
    KeywordLine("BBX ", fields);
    GlyphKeywords();
    assert line[1] != "BITMAP"[1];
    PrefixChar(line, 0);
    assert ([line] + ls)[1..] == ls;
  }

  /** BITMAP reads the rows up to ENDCHAR into the glyph and ends it: the
      glyph's rows are the decoded rows, and the lines after that ENDCHAR
      are left to the top level. */
  lemma BitmapLine(ls: seq<string>, g: Glyph)
    ensures var e := BitmapEnd(ls);
      ParseGlyph(["BITMAP"] + ls, g) == match DecodeRows(ls[..e])
        case Ok(decoded) => Ok((g.(bitmap := g.bitmap + decoded), ls[if e < |ls| then e + 1 else e..]))
        case Err(err) => Err(err)
  {
    assert (["BITMAP"] + ls)[1..] == ls;
    BitmapIsDecodedRows(ls, g.bitmap);
  }

  /** Any other line, ENDCHAR and STARTCHAR among them, is passed over. */
  lemma OtherGlyphLine(line: string, ls: seq<string>, g: Glyph)
    requires line != "BITMAP" && !GlyphRecordLine(line)
    ensures ParseGlyph([line] + ls, g) == ParseGlyph(ls, g)
  {
    assert ([line] + ls)[1..] == ls;
  }

  /** So a STARTCHAR line inside a glyph opens no glyph of its own. */
  lemma StartcharInsideGlyph(name: string, ls: seq<string>, g: Glyph)
    ensures ParseGlyph(["STARTCHAR " + name] + ls, g) == ParseGlyph(ls, g)
  {
    var line := "STARTCHAR " + name;
    KeywordLine("STARTCHAR ", name);
    GlyphKeywords();
    assert line[0] == 'S' && line[1] == 'T';
    PrefixChar(line, 0);
    PrefixChar(line, 1);
    OtherGlyphLine(line, ls, g);
  }

  /** A BBX line is a record line, not BITMAP, and sets the box or fails. */
  lemma BbxGlyphLine(fields: string, g: Glyph)
    ensures "BBX " + fields != "BITMAP"
    ensures GlyphLine(g, "BBX " + fields) ==
      if BoxRecord(fields).Ok? then Ok(g.(bbx := BoxRecord(fields).value)) else Err(BoxRecord(fields).error)
  {
    var line := "BBX " + fields;
    KeywordLine("BBX ", fields);
    GlyphKeywords();
    assert line[1] != "BITMAP"[1];
    PrefixChar(line, 0);
  }

  /** An ENCODING line is a record line, not BITMAP, and sets the encoding or fails. */
  lemma EncodingGlyphLine(v: string, g: Glyph)
    ensures "ENCODING " + v != "BITMAP"
    ensures GlyphLine(g, "ENCODING " + v) ==
      if Integer(v).Ok? then Ok(g.(encoding := Integer(v).value)) else Err(MalformedInteger)
  {
    var line := "ENCODING " + v;
    KeywordLine("ENCODING ", v);
    GlyphKeywords();
    assert line[0] != "BITMAP"[0];
  }

  /** Whether a line inside a glyph fails, and how, does not depend on what
      the glyph has read so far. */
  lemma GlyphLineFailureIgnoresState(g: Glyph, h: Glyph, line: string)
    ensures GlyphLine(g, line).Err? <==> GlyphLine(h, line).Err?
    ensures GlyphLine(g, line).Err? ==> GlyphLine(h, line).error == GlyphLine(g, line).error
  {
  }

  /** Record lines that all succeed, before BITMAP, only set fields of the
      glyph: its name and rows are kept and the parse goes on after them. */
  lemma {:induction false} GoodRecords(pre: seq<string>, ls: seq<string>, g: Glyph) returns (h: Glyph)
    requires forall k | 0 <= k < |pre| :: pre[k] != "BITMAP" && GlyphLine(g, pre[k]).Ok?
    ensures ParseGlyph(pre + ls, g) == ParseGlyph(ls, h)
    ensures h.startchar == g.startchar && h.bitmap == g.bitmap
    decreases |pre|
  {
    if pre == [] {
      assert pre + ls == ls;
      h := g;
    } else {
      var next := GlyphLine(g, pre[0]).value;
      assert (pre + ls)[0] == pre[0] && (pre + ls)[1..] == pre[1..] + ls;
      forall k | 0 <= k < |pre| - 1
        ensures pre[1..][k] != "BITMAP" && GlyphLine(next, pre[1..][k]).Ok?
      {
        GlyphLineFailureIgnoresState(g, next, pre[k + 1]);
      }
      h := GoodRecords(pre[1..], ls, next);
    }
  }

  /** A failing record line anywhere before BITMAP fails the glyph; when the
      record lines before it all succeed, with that line's own error. */
  lemma {:induction false} GlyphFailsAtRecord(pre: seq<string>, line: string, ls: seq<string>, g: Glyph)
    requires forall k | 0 <= k < |pre| :: pre[k] != "BITMAP"
    requires line != "BITMAP" && GlyphLine(g, line).Err?
    ensures ParseGlyph(pre + [line] + ls, g).Err?
    ensures (forall k | 0 <= k < |pre| :: GlyphLine(g, pre[k]).Ok?) ==>
      ParseGlyph(pre + [line] + ls, g) == Err(GlyphLine(g, line).error)
    decreases |pre|
  {
    var all := pre + [line] + ls;
    if pre == [] {
      assert all[0] == line && all[1..] == ls;
    } else {
      assert all[0] == pre[0] && all[1..] == pre[1..] + [line] + ls;
      if GlyphLine(g, pre[0]).Ok? {
        var next := GlyphLine(g, pre[0]).value;
        GlyphLineFailureIgnoresState(g, next, line);
        forall k | 0 <= k < |pre| - 1
          ensures GlyphLine(next, pre[1..][k]).Ok? <==> GlyphLine(g, pre[k + 1]).Ok?
        {
          GlyphLineFailureIgnoresState(g, next, pre[k + 1]);
        }
        GlyphFailsAtRecord(pre[1..], line, ls, next);
      }
    }
  }

  /** The bitmap rows of a glyph, closed by ENDCHAR: BITMAP ends the glyph
      with those rows decoded and leaves the lines after that ENDCHAR. */
  lemma ClosedBitmap(rows: seq<string>, ls: seq<string>, g: Glyph)
    requires forall k | 0 <= k < |rows| :: rows[k] != "ENDCHAR"
    requires DecodeRows(rows).Ok?
    ensures ParseGlyph(["BITMAP"] + rows + ["ENDCHAR"] + ls, g) ==
      Ok((g.(bitmap := g.bitmap + DecodeRows(rows).value), ls))
  {
    var tail := rows + ["ENDCHAR"] + ls;
    assert ["BITMAP"] + rows + ["ENDCHAR"] + ls == ["BITMAP"] + tail;
    var e := BitmapEnd(tail);
    assert tail[|rows|] == "ENDCHAR";
    assert e == |rows|;
    assert tail[..e] == rows && tail[e + 1..] == ls;
    BitmapLine(tail, g);
  }

  // ---------------------------------------------------------------------
  // The properties block

  /** Index of the first line starting with ENDPROPERTIES, or the number of lines. */
  function PropertiesEnd(ls: seq<string>): (e: nat)
    ensures e <= |ls|
    ensures forall k | 0 <= k < e :: !StartsWith(ls[k], "ENDPROPERTIES")
    ensures e < |ls| ==> StartsWith(ls[e], "ENDPROPERTIES")
  {
    if ls == [] || StartsWith(ls[0], "ENDPROPERTIES") then 0 else 1 + PropertiesEnd(ls[1..])
  }

  /** The block ends at the first line that starts with ENDPROPERTIES (an
      `ENDPROPERTIES_X` line too), consumes it, and ignores the declared count. */
  lemma {:induction false} PropertiesBlockEnds(ls: seq<string>, p: Properties)
    requires ParseProperties(ls, p).Ok?
    ensures var e := PropertiesEnd(ls);
      ParseProperties(ls, p).value.1 == ls[if e < |ls| then e + 1 else e..]
    decreases |ls|
  {
    if ls != [] && !StartsWith(ls[0], "ENDPROPERTIES") {
      var q := ApplyProperty(p, ls[0]).value;
      PropertiesBlockEnds(ls[1..], q);
      var e := PropertiesEnd(ls);
      assert PropertiesEnd(ls[1..]) == e - 1;
      assert ls[1..][if e - 1 < |ls| - 1 then e else e - 1..] == ls[if e < |ls| then e + 1 else e..];
    }
  }

  /** The lines the properties block recognises. */
  predicate IsKnownProperty(line: string) {
    || StartsWith(line, "POINT_SIZE ") || StartsWith(line, "PIXEL_SIZE ")
    || StartsWith(line, "RESOLUTION_X ") || StartsWith(line, "RESOLUTION_Y ")
    || StartsWith(line, "FONT_ASCENT ") || StartsWith(line, "FONT_DESCENT ")
    || StartsWith(line, "AVERAGE_WIDTH ") || StartsWith(line, "SPACING ")
    || StartsWith(line, "_GBDFED_INFO ") || StartsWith(line, "CHARSET_ENCODING ")
    || StartsWith(line, "CHARSET_REGISTRY ") || StartsWith(line, "FAMILY_NAME ")
    || StartsWith(line, "FOUNDRY ") || StartsWith(line, "SETWIDTH_NAME ")
    || StartsWith(line, "SLANT ") || StartsWith(line, "WEIGHT_NAME ")
  }

  /** A property line the parser does not know is passed over. */
  lemma UnknownPropertiesSkipped(line: string, ls: seq<string>, p: Properties)
    requires !IsKnownProperty(line) && !StartsWith(line, "ENDPROPERTIES")
    ensures ApplyProperty(p, line) == Ok(p)
    ensures ParseProperties([line] + ls, p) == ParseProperties(ls, p)
  {
    assert ([line] + ls)[1..] == ls;
  }

  /** String properties keep the rest of the line as it is: quotes, inner and
      trailing spaces included. */
  lemma StringPropertiesVerbatim(p: Properties, v: string)
    ensures ApplyProperty(p, "SPACING " + v) == Ok(p.(spacing := v))
    ensures ApplyProperty(p, "CHARSET_ENCODING " + v) == Ok(p.(charsetEncoding := v))
    ensures ApplyProperty(p, "CHARSET_REGISTRY " + v) == Ok(p.(charsetRegistry := v))
    ensures ApplyProperty(p, "FAMILY_NAME " + v) == Ok(p.(familyName := v))
    ensures ApplyProperty(p, "FOUNDRY " + v) == Ok(p.(foundry := v))
    ensures ApplyProperty(p, "SETWIDTH_NAME " + v) == Ok(p.(setwidthName := v))
    ensures ApplyProperty(p, "SLANT " + v) == Ok(p.(slant := v))
    ensures ApplyProperty(p, "WEIGHT_NAME " + v) == Ok(p.(weightName := v))
  {
    SpacingVerbatim(p, v);
    CharsetEncodingVerbatim(p, v);
    CharsetRegistryVerbatim(p, v);
    FamilyNameVerbatim(p, v);
    FoundryVerbatim(p, v);
    SetwidthNameVerbatim(p, v);
    SlantVerbatim(p, v);
    WeightNameVerbatim(p, v);
  }

  lemma SpacingVerbatim(p: Properties, v: string)
    ensures ApplyProperty(p, "SPACING " + v) == Ok(p.(spacing := v))
  {
    var line := "SPACING " + v;
    KeywordLine("SPACING ", v);
    PropertyKeywords();
    PrefixChar(line, 0);
    PrefixChar(line, 1);
    PrefixChar(line, 2);
    PrefixChar(line, 8);
  }

  lemma CharsetEncodingVerbatim(p: Properties, v: string)
    ensures ApplyProperty(p, "CHARSET_ENCODING " + v) == Ok(p.(charsetEncoding := v))
  {
    var line := "CHARSET_ENCODING " + v;
    KeywordLine("CHARSET_ENCODING ", v);
    PropertyKeywords();
    PrefixChar(line, 0);
    PrefixChar(line, 1);
    PrefixChar(line, 2);
    PrefixChar(line, 8);
  }

  lemma CharsetRegistryVerbatim(p: Properties, v: string)
    ensures ApplyProperty(p, "CHARSET_REGISTRY " + v) == Ok(p.(charsetRegistry := v))
  {
    var line := "CHARSET_REGISTRY " + v;
    KeywordLine("CHARSET_REGISTRY ", v);
    PropertyKeywords();
    PrefixChar(line, 0);
    PrefixChar(line, 1);
    PrefixChar(line, 2);
    PrefixChar(line, 8);
  }

  lemma FamilyNameVerbatim(p: Properties, v: string)
    ensures ApplyProperty(p, "FAMILY_NAME " + v) == Ok(p.(familyName := v))
  {
    var line := "FAMILY_NAME " + v;
    KeywordLine("FAMILY_NAME ", v);
    PropertyKeywords();
    PrefixChar(line, 0);
    PrefixChar(line, 1);
    PrefixChar(line, 2);
    PrefixChar(line, 8);
  }

  lemma FoundryVerbatim(p: Properties, v: string)
    ensures ApplyProperty(p, "FOUNDRY " + v) == Ok(p.(foundry := v))
  {
    var line := "FOUNDRY " + v;
    KeywordLine("FOUNDRY ", v);
    PropertyKeywords();
    PrefixChar(line, 0);
    PrefixChar(line, 1);
    PrefixChar(line, 2);
    PrefixChar(line, 8);
  }

  lemma SetwidthNameVerbatim(p: Properties, v: string)
    ensures ApplyProperty(p, "SETWIDTH_NAME " + v) == Ok(p.(setwidthName := v))
  {
    var line := "SETWIDTH_NAME " + v;
    KeywordLine("SETWIDTH_NAME ", v);
    PropertyKeywords();
    PrefixChar(line, 0);
    PrefixChar(line, 1);
    PrefixChar(line, 2);
    PrefixChar(line, 8);
  }

  lemma SlantVerbatim(p: Properties, v: string)
    ensures ApplyProperty(p, "SLANT " + v) == Ok(p.(slant := v))
  {
    var line := "SLANT " + v;
    KeywordLine("SLANT ", v);
    PropertyKeywords();
    PrefixChar(line, 0);
    PrefixChar(line, 1);
    PrefixChar(line, 2);
    PrefixChar(line, 8);
  }

  lemma WeightNameVerbatim(p: Properties, v: string)
    ensures ApplyProperty(p, "WEIGHT_NAME " + v) == Ok(p.(weightName := v))
  {
    var line := "WEIGHT_NAME " + v;
    KeywordLine("WEIGHT_NAME ", v);
    PropertyKeywords();
    PrefixChar(line, 0);
    PrefixChar(line, 1);
    PrefixChar(line, 2);
    PrefixChar(line, 8);
  }

  /** `_GBDFED_INFO` is sliced one character past its keyword: the first
      character of the value is dropped. */
  lemma GbdfedInfoDropsOneCharacter(p: Properties, c: char, v: string)
    ensures ApplyProperty(p, "_GBDFED_INFO " + [c] + v) == Ok(p.(gbdfedInfo := v))
  {
    var line := "_GBDFED_INFO " + [c] + v;
    assert line == "_GBDFED_INFO " + ([c] + v);
    KeywordLine("_GBDFED_INFO ", [c] + v);
    assert line[14..] == v;
    PropertyKeywords();
    PrefixChar(line, 0);
  }

  /** A `_GBDFED_INFO` line with nothing after the keyword's space is out of range. */
  lemma GbdfedInfoWithoutValueFails(p: Properties)
    ensures ApplyProperty(p, "_GBDFED_INFO ") == Err(SliceOutOfRange)
  {
    KeywordLine("_GBDFED_INFO ", "");
    PropertyKeywords();
    PrefixChar("_GBDFED_INFO ", 0);
  }

  /** Numeric properties are parsed from the rest of the line untrimmed:
      the decimal form of a number is read back as that number, but one more
      space before or after it fails the parse. */
  lemma NumericPropertyExact(p: Properties, n: usize)
    ensures ApplyProperty(p, "POINT_SIZE " + DecimalString(n)) == Ok(p.(pointSize := n))
    ensures ApplyProperty(p, "PIXEL_SIZE " + DecimalString(n)) == Ok(p.(pixelSize := n))
    ensures ApplyProperty(p, "RESOLUTION_X " + DecimalString(n)) == Ok(p.(resolutionX := n))
    ensures ApplyProperty(p, "RESOLUTION_Y " + DecimalString(n)) == Ok(p.(resolutionY := n))
    ensures ApplyProperty(p, "FONT_ASCENT " + DecimalString(n)) == Ok(p.(fontAscent := n))
    ensures ApplyProperty(p, "FONT_DESCENT " + DecimalString(n)) == Ok(p.(fontDescent := n))
    ensures ApplyProperty(p, "AVERAGE_WIDTH " + DecimalString(n)) == Ok(p.(averageWidth := n))
  {
    NumericPropertyLines(p, DecimalString(n));
    DecimalRoundTrip(n);
  }

  lemma NumericPropertyLeadingSpace(p: Properties, n: usize)
    ensures ApplyProperty(p, "FONT_ASCENT  " + DecimalString(n)) == Err(MalformedInteger)
  {
    var d := DecimalString(n);
    assert "FONT_ASCENT  " + d == "FONT_ASCENT " + (" " + d);
    FontAscentLine(p, " " + d);
    SpaceIsNotANumber(" " + d, 0);
  }

  lemma NumericPropertyTrailingSpace(p: Properties, n: usize)
    ensures ApplyProperty(p, "FONT_ASCENT " + DecimalString(n) + " ") == Err(MalformedInteger)
  {
    var d := DecimalString(n);
    assert "FONT_ASCENT " + d + " " == "FONT_ASCENT " + (d + " ");
    FontAscentLine(p, d + " ");
    SpaceIsNotANumber(d + " ", |d|);
  }

  /** A space anywhere in a field makes it a malformed integer. */
  lemma SpaceIsNotANumber(s: string, k: nat)
    requires k < |s| && s[k] == ' '
    ensures Integer(s) == Err(MalformedInteger)
  {
    var digits := Unsigned(s);
    if |s| > 0 && s[0] == '+' {
      assert k > 0 && digits[k - 1] == ' ';
    } else {
      assert digits[k] == ' ';
    }
  }

  /** Each of the seven numeric properties sets its own field to the `usize`
      after its keyword, or fails the block with the parse's error. */
  lemma NumericPropertyLines(p: Properties, v: string)
    ensures ApplyProperty(p, "POINT_SIZE " + v) == match Integer(v)
      case Ok(n) => Ok(p.(pointSize := n)) case Err(e) => Err(e)
    ensures ApplyProperty(p, "PIXEL_SIZE " + v) == match Integer(v)
      case Ok(n) => Ok(p.(pixelSize := n)) case Err(e) => Err(e)
    ensures ApplyProperty(p, "RESOLUTION_X " + v) == match Integer(v)
      case Ok(n) => Ok(p.(resolutionX := n)) case Err(e) => Err(e)
    ensures ApplyProperty(p, "RESOLUTION_Y " + v) == match Integer(v)
      case Ok(n) => Ok(p.(resolutionY := n)) case Err(e) => Err(e)
    ensures ApplyProperty(p, "FONT_ASCENT " + v) == match Integer(v)
      case Ok(n) => Ok(p.(fontAscent := n)) case Err(e) => Err(e)
    ensures ApplyProperty(p, "FONT_DESCENT " + v) == match Integer(v)
      case Ok(n) => Ok(p.(fontDescent := n)) case Err(e) => Err(e)
    ensures ApplyProperty(p, "AVERAGE_WIDTH " + v) == match Integer(v)
      case Ok(n) => Ok(p.(averageWidth := n)) case Err(e) => Err(e)
  {
    PointSizeLine(p, v);
    PixelSizeLine(p, v);
    ResolutionXLine(p, v);
    ResolutionYLine(p, v);
    FontAscentLine(p, v);
    FontDescentLine(p, v);
    AverageWidthLine(p, v);
  }

  lemma PointSizeLine(p: Properties, v: string)
    ensures ApplyProperty(p, "POINT_SIZE " + v) == match Integer(v)
      case Ok(n) => Ok(p.(pointSize := n)) case Err(e) => Err(e)
  {
    KeywordLine("POINT_SIZE ", v);
  }

  lemma PixelSizeLine(p: Properties, v: string)
    ensures ApplyProperty(p, "PIXEL_SIZE " + v) == match Integer(v)
      case Ok(n) => Ok(p.(pixelSize := n)) case Err(e) => Err(e)
  {
    var line := "PIXEL_SIZE " + v;
    KeywordLine("PIXEL_SIZE ", v);
    PropertyKeywords();
    PrefixChar(line, 1);
  }

  lemma ResolutionXLine(p: Properties, v: string)
    ensures ApplyProperty(p, "RESOLUTION_X " + v) == match Integer(v)
      case Ok(n) => Ok(p.(resolutionX := n)) case Err(e) => Err(e)
  {
    var line := "RESOLUTION_X " + v;
    KeywordLine("RESOLUTION_X ", v);
    PropertyKeywords();
    PrefixChar(line, 0);
  }

  lemma ResolutionYLine(p: Properties, v: string)
    ensures ApplyProperty(p, "RESOLUTION_Y " + v) == match Integer(v)
      case Ok(n) => Ok(p.(resolutionY := n)) case Err(e) => Err(e)
  {
    var line := "RESOLUTION_Y " + v;
    KeywordLine("RESOLUTION_Y ", v);
    PropertyKeywords();
    PrefixChar(line, 0);
    assert "RESOLUTION_X "[11] == 'X' && line[11] == 'Y';
    PrefixChar(line, 11);
  }

  lemma FontAscentLine(p: Properties, v: string)
    ensures ApplyProperty(p, "FONT_ASCENT " + v) == match Integer(v)
      case Ok(n) => Ok(p.(fontAscent := n)) case Err(e) => Err(e)
  {
    var line := "FONT_ASCENT " + v;
    KeywordLine("FONT_ASCENT ", v);
    PropertyKeywords();
    PrefixChar(line, 0);
    PrefixChar(line, 1);
  }

  lemma FontDescentLine(p: Properties, v: string)
    ensures ApplyProperty(p, "FONT_DESCENT " + v) == match Integer(v)
      case Ok(n) => Ok(p.(fontDescent := n)) case Err(e) => Err(e)
  {
    var line := "FONT_DESCENT " + v;
    KeywordLine("FONT_DESCENT ", v);
    PropertyKeywords();
    PrefixChar(line, 0);
    PrefixChar(line, 1);
    assert "FONT_ASCENT "[5] == 'A' && line[5] == 'D';
    PrefixChar(line, 5);
  }

  lemma AverageWidthLine(p: Properties, v: string)
    ensures ApplyProperty(p, "AVERAGE_WIDTH " + v) == match Integer(v)
      case Ok(n) => Ok(p.(averageWidth := n)) case Err(e) => Err(e)
  {
    var line := "AVERAGE_WIDTH " + v;
    KeywordLine("AVERAGE_WIDTH ", v);
    PropertyKeywords();
    PrefixChar(line, 0);
  }

  // ---------------------------------------------------------------------
  // Records

  /** A SIZE record reads the first three tokens as `usize`; it is short of
      tokens exactly when the tokens it has all parse. */
  lemma SizeRecordMeaning(fields: string)
    ensures var parts := SplitWhitespace(fields);
      SizeRecord(fields).Ok? <==> (|parts| >= 3 && ParseUsize(parts[0]).Some? && ParseUsize(parts[1]).Some?
                                   && ParseUsize(parts[2]).Some?)
    ensures var parts := SplitWhitespace(fields);
      SizeRecord(fields).Ok? ==> SizeRecord(fields).value == (ParseUsize(parts[0]).value, ParseUsize(parts[1]).value, ParseUsize(parts[2]).value)
    ensures var parts := SplitWhitespace(fields);
      SizeRecord(fields) == Err(MissingToken) <==>
        (|parts| < 3 && (|parts| > 0 ==> ParseUsize(parts[0]).Some?) && (|parts| > 1 ==> ParseUsize(parts[1]).Some?))
  {
  }

  /** A FONTBOUNDINGBOX or BBX record reads two `usize` and two `isize` tokens. */
  lemma BoxRecordMeaning(fields: string)
    ensures var parts := SplitWhitespace(fields);
      BoxRecord(fields).Ok? <==> (|parts| >= 4 && ParseUsize(parts[0]).Some? && ParseUsize(parts[1]).Some?
                                  && ParseIsize(parts[2]).Some? && ParseIsize(parts[3]).Some?)
    ensures var parts := SplitWhitespace(fields);
      BoxRecord(fields).Ok? ==> BoxRecord(fields).value == BoundingBox(ParseUsize(parts[0]).value, ParseUsize(parts[1]).value,
                                       ParseIsize(parts[2]).value, ParseIsize(parts[3]).value)
    ensures var parts := SplitWhitespace(fields);
      BoxRecord(fields) == Err(MissingToken) <==>
        (|parts| < 4 && (|parts| > 0 ==> ParseUsize(parts[0]).Some?) && (|parts| > 1 ==> ParseUsize(parts[1]).Some?)
         && (|parts| > 2 ==> ParseIsize(parts[2]).Some?))
  {
  }

  /** An SWIDTH or DWIDTH record reads two `usize` tokens. */
  lemma WidthRecordMeaning(fields: string)
    ensures var parts := SplitWhitespace(fields);
      WidthRecord(fields).Ok? <==> |parts| >= 2 && ParseUsize(parts[0]).Some? && ParseUsize(parts[1]).Some?
    ensures var parts := SplitWhitespace(fields);
      WidthRecord(fields).Ok? ==> WidthRecord(fields).value == (ParseUsize(parts[0]).value, ParseUsize(parts[1]).value)
    ensures var parts := SplitWhitespace(fields);
      WidthRecord(fields) == Err(MissingToken) <==> |parts| < 2 && (|parts| > 0 ==> ParseUsize(parts[0]).Some?)
  {
  }

  /** A SIZE record of two numbers ("SIZE 17 75") lacks its third:
      `parts[2]` is out of bounds. */
  lemma MissingThirdNumber(a: string, b: string)
    requires ParseUsize(a).Some? && ParseUsize(b).Some?
    ensures SizeRecord(a + " " + b) == Err(MissingToken)
  {
    TwoTokens(a, b);
  }

  /** A token that is not a number fails the record before the count of
      tokens is looked at. */
  lemma MalformedNumberFirst(a: string, x: string)
    requires ParseUsize(a).Some? && x != [] && NoWhitespace(x) && ParseUsize(x).None?
    ensures SizeRecord(a + " " + x) == Err(MalformedInteger)
  {
    TwoTokens(a, x);
  }

  lemma TwoTokens(a: string, b: string)
    requires a != [] && NoWhitespace(a) && b != [] && NoWhitespace(b)
    ensures SplitWhitespace(a + " " + b) == [a, b]
  {
    assert a + " " + b == a + [' '] + b;
    SplitWhitespaceAppend(a, ' ', b);
    SingleToken(a);
    SingleToken(b);
  }

  /** A box record of three numbers lacks its y offset: `parts[3]` is out of bounds. */
  lemma MissingYOffset(a: string, b: string, c: string)
    requires ParseUsize(a).Some? && ParseUsize(b).Some? && ParseIsize(c).Some?
    ensures BoxRecord(a + " " + b + " " + c) == Err(MissingToken)
  {
    ThreeTokens(a, b, c);
  }

  lemma ThreeTokens(a: string, b: string, c: string)
    requires a != [] && NoWhitespace(a) && b != [] && NoWhitespace(b) && c != [] && NoWhitespace(c)
    ensures SplitWhitespace(a + " " + b + " " + c) == [a, b, c]
  {
    assert a + " " + b + " " + c == (a + " " + b) + [' '] + c;
    SplitWhitespaceAppend(a + " " + b, ' ', c);
    TwoTokens(a, b);
    SingleToken(c);
  }

  /** Tokens after the ones a record reads are ignored. */
  lemma SizeIgnoresExtraTokens(fields: string, w: char, extra: string)
    requires IsWhitespace(w) && |SplitWhitespace(fields)| >= 3
    ensures SizeRecord(fields + [w] + extra) == SizeRecord(fields)
  {
    SplitWhitespaceAppend(fields, w, extra);
  }

  lemma BoxIgnoresExtraTokens(fields: string, w: char, extra: string)
    requires IsWhitespace(w) && |SplitWhitespace(fields)| >= 4
    ensures BoxRecord(fields + [w] + extra) == BoxRecord(fields)
  {
    SplitWhitespaceAppend(fields, w, extra);
    var parts := SplitWhitespace(fields);
    var longer := SplitWhitespace(fields + [w] + extra);
    assert longer[0] == parts[0] && longer[1] == parts[1] && longer[2] == parts[2] && longer[3] == parts[3];
    assert UsizeField(longer, 0) == UsizeField(parts, 0) && UsizeField(longer, 1) == UsizeField(parts, 1);
    assert IsizeField(longer, 2) == IsizeField(parts, 2) && IsizeField(longer, 3) == IsizeField(parts, 3);
  }

  lemma WidthIgnoresExtraTokens(fields: string, w: char, extra: string)
    requires IsWhitespace(w) && |SplitWhitespace(fields)| >= 2
    ensures WidthRecord(fields + [w] + extra) == WidthRecord(fields)
  {
    SplitWhitespaceAppend(fields, w, extra);
  }
}
