/** What `load_bdf` promises about the file as a whole: one step per kind of
    top-level line, then the consequences (ENDFONT ends the parse, glyph
    order, defaults, the unchecked CHARS count, the glyph without BITMAP). */
module BdfFontFacts {
  import opened Results
  import opened Lexical
  import opened BdfFont
  import opened BdfParser
  import opened BdfParserFacts

  /** The lengths and telling letters of the top-level keywords. */
  lemma TopKeywords()
    ensures |"STARTFONT "| == 10 && "STARTFONT "[0] == 'S' && "STARTFONT "[1] == 'T' && "STARTFONT "[5] == 'F'
    ensures |"FONT "| == 5 && "FONT "[0] == 'F' && "FONT "[4] == ' '
    ensures |"SIZE "| == 5 && "SIZE "[0] == 'S' && "SIZE "[1] == 'I'
    ensures |"FONTBOUNDINGBOX "| == 16 && "FONTBOUNDINGBOX "[0] == 'F' && "FONTBOUNDINGBOX "[4] == 'B'
    ensures |"STARTPROPERTIES "| == 16 && "STARTPROPERTIES "[0] == 'S' && "STARTPROPERTIES "[1] == 'T'
    ensures "STARTPROPERTIES "[5] == 'P'
    ensures |"CHARS "| == 6 && "CHARS "[0] == 'C'
    ensures |"STARTCHAR "| == 10 && "STARTCHAR "[0] == 'S' && "STARTCHAR "[1] == 'T' && "STARTCHAR "[5] == 'C'
    ensures |"ENDFONT"| == 7 && "ENDFONT"[0] == 'E'
  {
  }

  // ---------------------------------------------------------------------
  // One step per kind of line

  lemma StartfontLine(version: string, ls: seq<string>, font: Font)
    ensures ParseBody(["STARTFONT " + version] + ls, font) == ParseBody(ls, font)
  {
    var line := "STARTFONT " + version;
    KeywordLine("STARTFONT ", version);
    assert ([line] + ls)[1..] == ls;
  }

  lemma FontLine(name: string, ls: seq<string>, font: Font)
    ensures ParseBody(["FONT " + name] + ls, font) == ParseBody(ls, font.(name := name))
  {
    var line := "FONT " + name;
    KeywordLine("FONT ", name);
    TopKeywords();
    PrefixChar(line, 0);
    assert ([line] + ls)[1..] == ls;
  }

  lemma SizeLine(fields: string, ls: seq<string>, font: Font)
    ensures ParseBody(["SIZE " + fields] + ls, font) == 
      if SizeRecord(fields).Ok? then ParseBody(ls, font.(size := SizeRecord(fields).value))
      else Err(SizeRecord(fields).error)
  {
    var line := "SIZE " + fields;
    KeywordLine("SIZE ", fields);
    TopKeywords();
    PrefixChar(line, 0);
    PrefixChar(line, 1);
    assert ([line] + ls)[1..] == ls;
  }

  lemma BoundingBoxLine(fields: string, ls: seq<string>, font: Font)
    ensures ParseBody(["FONTBOUNDINGBOX " + fields] + ls, font) == 
      if BoxRecord(fields).Ok? then ParseBody(ls, font.(boundingBox := BoxRecord(fields).value))
      else Err(BoxRecord(fields).error)
  {
    var line := "FONTBOUNDINGBOX " + fields;
    KeywordLine("FONTBOUNDINGBOX ", fields);
    TopKeywords();
    PrefixChar(line, 0);
    PrefixChar(line, 4);
    assert ([line] + ls)[1..] == ls;
  }

  lemma PropertiesLine(count: string, ls: seq<string>, font: Font)
    ensures ParseBody(["STARTPROPERTIES " + count] + ls, font) ==
      if Integer(count).Err? then Err(MalformedInteger)
      else if ParseProperties(ls, font.properties).Err? then Err(ParseProperties(ls, font.properties).error)
      else
        var block := ParseProperties(ls, font.properties).value;
        ParseBody(block.1, font.(properties := block.0))
  {
    var line := "STARTPROPERTIES " + count;
    KeywordLine("STARTPROPERTIES ", count);
    TopKeywords();
    PrefixChar(line, 0);
    PrefixChar(line, 1);
    PrefixChar(line, 5);
    assert ([line] + ls)[1..] == ls;
  }

  lemma CharsLine(count: string, ls: seq<string>, font: Font)
    ensures ParseBody(["CHARS " + count] + ls, font) == 
      if Integer(count).Ok? then ParseBody(ls, font.(charcount := Integer(count).value))
      else Err(MalformedInteger)
  {
    var line := "CHARS " + count;
    KeywordLine("CHARS ", count);
    TopKeywords();
    PrefixChar(line, 0);
    assert ([line] + ls)[1..] == ls;
  }

  lemma StartcharLine(name: string, ls: seq<string>, font: Font)
    ensures ParseBody(["STARTCHAR " + name] + ls, font) ==
      if ParseGlyph(ls, NewGlyph(name)).Err? then Err(ParseGlyph(ls, NewGlyph(name)).error)
      else
        var glyph := ParseGlyph(ls, NewGlyph(name)).value;
        ParseBody(glyph.1, font.(glyphs := font.glyphs + [glyph.0]))
  {
    var line := "STARTCHAR " + name;
    KeywordLine("STARTCHAR ", name);
    TopKeywords();
    PrefixChar(line, 0);
    PrefixChar(line, 1);
    PrefixChar(line, 5);
    assert ([line] + ls)[1..] == ls;
  }

  lemma EndfontLine(ls: seq<string>, font: Font)
    ensures ParseBody(["ENDFONT"] + ls, font) == Ok((font, ["ENDFONT"] + ls))
  {
    TopKeywords();
    PrefixChar("ENDFONT", 0);
  }

  /** A line that starts with no top-level keyword and is not ENDFONT
      (a COMMENT, say) is passed over. */
  lemma OtherLine(line: string, ls: seq<string>, font: Font)
    requires !StartsWith(line, "STARTFONT ") && !StartsWith(line, "FONT ") && !StartsWith(line, "SIZE ")
    requires !StartsWith(line, "FONTBOUNDINGBOX ") && !StartsWith(line, "STARTPROPERTIES ")
    requires !StartsWith(line, "CHARS ") && !StartsWith(line, "STARTCHAR ") && line != "ENDFONT"
    ensures ParseBody([line] + ls, font) == ParseBody(ls, font)
  {
    assert ([line] + ls)[1..] == ls;
  }

  // ---------------------------------------------------------------------
  // Consequences

  /** The number a STARTPROPERTIES line declares is parsed, so a malformed one
      fails the file, but it is not used: any well-formed count reads the
      same block. */
  lemma DeclaredPropertyCountIgnored(a: string, b: string, ls: seq<string>, font: Font)
    requires Integer(a).Ok? && Integer(b).Ok?
    ensures ParseBody(["STARTPROPERTIES " + a] + ls, font) == ParseBody(["STARTPROPERTIES " + b] + ls, font)
  {
    PropertiesLine(a, ls, font);
    PropertiesLine(b, ls, font);
  }

  /** CHARS is recorded and nothing else: the glyphs that follow are read
      whatever their number. */
  lemma CharcountNotChecked(n: usize, ls: seq<string>, font: Font)
    ensures ParseBody(["CHARS " + DecimalString(n)] + ls, font) == ParseBody(ls, font.(charcount := n))
  {
    CharsLine(DecimalString(n), ls, font);
    DecimalRoundTrip(n);
  }

  /** A SIZE line of two numbers ("SIZE 17 75") fails the whole file. */
  lemma ShortSizeFailsTheFile(a: string, b: string, ls: seq<string>, font: Font)
    requires ParseUsize(a).Some? && ParseUsize(b).Some?
    ensures ParseBody(["SIZE " + a + " " + b] + ls, font) == Err(MissingToken)
  {
    MissingThirdNumber(a, b);
    assert "SIZE " + a + " " + b == "SIZE " + (a + " " + b);
    SizeLine(a + " " + b, ls, font);
  }

  // ---------------------------------------------------------------------
  // Lines inside a glyph

  /** A malformed record anywhere inside a glyph, before its BITMAP line (an
      ENCODING that is not a `usize`, an SWIDTH, DWIDTH or BBX short of
      tokens or with a bad one), fails the whole file; when the glyph's
      earlier record lines all succeed, with that record's error. */
  lemma GlyphRecordFailureFailsTheFile(name: string, pre: seq<string>, line: string, ls: seq<string>, font: Font)
    requires forall k | 0 <= k < |pre| :: pre[k] != "BITMAP"
    requires line != "BITMAP" && GlyphLine(NewGlyph(name), line).Err?
    ensures ParseBody(["STARTCHAR " + name] + pre + [line] + ls, font).Err?
    ensures (forall k | 0 <= k < |pre| :: GlyphLine(NewGlyph(name), pre[k]).Ok?) ==>
      ParseBody(["STARTCHAR " + name] + pre + [line] + ls, font) == Err(GlyphLine(NewGlyph(name), line).error)
  {
    var inner := pre + [line] + ls;
    assert ["STARTCHAR " + name] + pre + [line] + ls == ["STARTCHAR " + name] + inner;
    GlyphFailsAtRecord(pre, line, ls, NewGlyph(name));
    StartcharLine(name, inner, font);
  }

  /** A BBX line of three numbers ("BBX 8 16 0") lacks its y offset:
      `parts[3]` is out of bounds and the file fails, wherever the line
      stands among the glyph's records. */
  lemma ShortBbxFailsTheFile(name: string, pre: seq<string>, a: string, b: string, c: string, ls: seq<string>, font: Font)
    requires forall k | 0 <= k < |pre| :: pre[k] != "BITMAP"
    requires ParseUsize(a).Some? && ParseUsize(b).Some? && ParseIsize(c).Some?
    ensures ParseBody(["STARTCHAR " + name] + pre + ["BBX " + a + " " + b + " " + c] + ls, font).Err?
    ensures (forall k | 0 <= k < |pre| :: GlyphLine(NewGlyph(name), pre[k]).Ok?) ==>
      ParseBody(["STARTCHAR " + name] + pre + ["BBX " + a + " " + b + " " + c] + ls, font) == Err(MissingToken)
  {
    var fields := a + " " + b + " " + c;
    var line := "BBX " + fields;
    assert "BBX " + a + " " + b + " " + c == line;
    MissingYOffset(a, b, c);
    BbxGlyphLine(fields, NewGlyph(name));
    GlyphRecordFailureFailsTheFile(name, pre, line, ls, font);
  }

  /** A malformed ENCODING fails the file, wherever it stands among the
      glyph's records. */
  lemma MalformedEncodingFailsTheFile(name: string, pre: seq<string>, v: string, ls: seq<string>, font: Font)
    requires forall k | 0 <= k < |pre| :: pre[k] != "BITMAP"
    requires ParseUsize(v).None?
    ensures ParseBody(["STARTCHAR " + name] + pre + ["ENCODING " + v] + ls, font).Err?
    ensures (forall k | 0 <= k < |pre| :: GlyphLine(NewGlyph(name), pre[k]).Ok?) ==>
      ParseBody(["STARTCHAR " + name] + pre + ["ENCODING " + v] + ls, font) == Err(MalformedInteger)
  {
    var line := "ENCODING " + v;
    EncodingGlyphLine(v, NewGlyph(name));
    GlyphRecordFailureFailsTheFile(name, pre, line, ls, font);
  }

  // ---------------------------------------------------------------------
  // A glyph without BITMAP

  /** Until BITMAP comes, the glyph loop applies the record lines it knows
      and passes over every other line, ENDFONT and STARTCHAR included: a
      glyph without BITMAP either fails on one of its records or reads to
      the end of the input, keeping its name and no rows. */
  lemma {:induction false} GlyphWithoutBitmapRunsToEnd(ls: seq<string>, g: Glyph)
    requires forall k | 0 <= k < |ls| :: ls[k] != "BITMAP"
    ensures ParseGlyph(ls, g).Ok? ==> ParseGlyph(ls, g).value.1 == []
    ensures ParseGlyph(ls, g).Ok? ==> ParseGlyph(ls, g).value.0.startchar == g.startchar
    ensures ParseGlyph(ls, g).Ok? ==> ParseGlyph(ls, g).value.0.bitmap == g.bitmap
    decreases |ls|
  {
    if ls != [] && GlyphLine(g, ls[0]).Ok? {
      GlyphWithoutBitmapRunsToEnd(ls[1..], GlyphLine(g, ls[0]).value);
    }
  }

  /** So the glyph is added without rows, everything after it is lost, an
      ENDFONT line and further glyphs included, and the rest of the font is
      as it was. */
  lemma RunawayGlyphEndsTheFile(name: string, ls: seq<string>, font: Font)
    requires forall k | 0 <= k < |ls| :: ls[k] != "BITMAP"
    ensures var r := ParseBody(["STARTCHAR " + name] + ls, font);
      r.Ok? ==>
        && r.value.1 == []
        && r.value.0 == font.(glyphs := r.value.0.glyphs)
        && |r.value.0.glyphs| == |font.glyphs| + 1
        && r.value.0.glyphs[..|font.glyphs|] == font.glyphs
        && r.value.0.glyphs[|font.glyphs|].startchar == name
        && r.value.0.glyphs[|font.glyphs|].bitmap == []
  {
    GlyphWithoutBitmapRunsToEnd(ls, NewGlyph(name));
    StartcharLine(name, ls, font);
  }

  /** A STARTCHAR line that follows a glyph without BITMAP is swallowed by
      it: that glyph takes the next glyph's records and rows, and the next
      glyph is lost. */
  lemma NextStartcharSwallowed(a: string, b: string, ls: seq<string>, font: Font)
    ensures ParseBody(["STARTCHAR " + a, "STARTCHAR " + b] + ls, font) == ParseBody(["STARTCHAR " + a] + ls, font)
  {
    var inner := ["STARTCHAR " + b] + ls;
    assert ["STARTCHAR " + a, "STARTCHAR " + b] + ls == ["STARTCHAR " + a] + inner;
    assert ParseGlyph(inner, NewGlyph(a)) == ParseGlyph(ls, NewGlyph(a)) by {
      StartcharInsideGlyph(b, ls, NewGlyph(a));
    }
    StartcharLine(a, inner, font);
    StartcharLine(a, ls, font);
  }

  /** Glyph A has no BITMAP: it takes glyph B's encoding and row, and the
      font has the one glyph A. */
  lemma RunawayGlyphTakesTheNextGlyph(lines: seq<string>)
    requires lines == ["STARTCHAR A", "STARTCHAR B", "ENCODING 66", "BITMAP", "80", "ENDCHAR", "ENDFONT"]
    ensures Parse(lines) == Ok(EmptyFont.(glyphs := [Glyph("A", 66, (0, 0), (0, 0), NoBox, [0x8000])]))
  {
    var tail := ["BITMAP", "80", "ENDCHAR", "ENDFONT"];
    var inner := ["ENCODING " + "66"] + tail;
    assert lines == ["STARTCHAR " + "A", "STARTCHAR " + "B"] + inner by {
      assert "STARTCHAR A" == "STARTCHAR " + "A" && "STARTCHAR B" == "STARTCHAR " + "B";
      assert "ENCODING 66" == "ENCODING " + "66";
    }
    var glyph := ExampleGlyph(tail, inner);
    var font := EmptyFont.(glyphs := [glyph]);
    assert ParseBody(lines, EmptyFont) == ParseBody(["STARTCHAR " + "A"] + inner, EmptyFont) by {
      NextStartcharSwallowed("A", "B", inner, EmptyFont);
    }
    assert ParseBody(["STARTCHAR " + "A"] + inner, EmptyFont) == ParseBody(["ENDFONT"], font) by {
      StartcharLine("A", inner, EmptyFont);
      assert EmptyFont.(glyphs := EmptyFont.glyphs + [glyph]) == font;
    }
    assert ParseBody(["ENDFONT"], font) == Ok((font, ["ENDFONT"])) by {
      EndfontLine([], font);
      assert ["ENDFONT"] + [] == ["ENDFONT"];
    }
  }

  lemma ExampleGlyph(tail: seq<string>, inner: seq<string>) returns (glyph: Glyph)
    requires tail == ["BITMAP", "80", "ENDCHAR", "ENDFONT"] && inner == ["ENCODING " + "66"] + tail
    ensures glyph == Glyph("A", 66, (0, 0), (0, 0), NoBox, [0x8000])
    ensures ParseGlyph(inner, NewGlyph("A")) == Ok((glyph, ["ENDFONT"]))
  {
    assert Integer("66") == Ok(66) by {
      assert "66"[..1] == "6" && "6"[..0] == "";
    }
    EncodingLine("66", tail, NewGlyph("A"));
    var g := NewGlyph("A").(encoding := 66);
    ExampleBitmap(tail, g);
    glyph := g.(bitmap := g.bitmap + [0x8000]);
  }

  lemma ExampleBitmap(tail: seq<string>, g: Glyph)
    requires tail == ["BITMAP", "80", "ENDCHAR", "ENDFONT"]
    ensures ParseGlyph(tail, g) == Ok((g.(bitmap := g.bitmap + [0x8000]), ["ENDFONT"]))
  {
    OneByteRowsFillHighByte();
    assert tail[1..] == ["80", "ENDCHAR", "ENDFONT"];
    assert ParseBitmap(["80", "ENDCHAR", "ENDFONT"], g.bitmap) == ParseBitmap(["ENDCHAR", "ENDFONT"], g.bitmap + [0x8000]);
  }

  // ---------------------------------------------------------------------
  // Lines after the end of a block are not looked at

  lemma {:induction false} PropertiesLocal(a: seq<string>, b: seq<string>, p: Properties)
    requires ParseProperties(a, p).Ok? && ParseProperties(a, p).value.1 != []
    ensures ParseProperties(a + b, p) == Ok((ParseProperties(a, p).value.0, ParseProperties(a, p).value.1 + b))
    decreases |a|
  {
    assert (a + b)[0] == a[0] && (a + b)[1..] == a[1..] + b;
    if !StartsWith(a[0], "ENDPROPERTIES") {
      PropertiesLocal(a[1..], b, ApplyProperty(p, a[0]).value);
    }
  }

  lemma {:induction false} BitmapLocal(a: seq<string>, b: seq<string>, rows: seq<u16>)
    requires ParseBitmap(a, rows).Ok? && ParseBitmap(a, rows).value.1 != []
    ensures ParseBitmap(a + b, rows) == Ok((ParseBitmap(a, rows).value.0, ParseBitmap(a, rows).value.1 + b))
    decreases |a|
  {
    assert (a + b)[0] == a[0] && (a + b)[1..] == a[1..] + b;
    if a[0] != "ENDCHAR" {
      BitmapLocal(a[1..], b, rows + [DecodeRow(a[0]).value]);
    }
  }

  lemma {:induction false} GlyphLocal(a: seq<string>, b: seq<string>, g: Glyph)
    requires ParseGlyph(a, g).Ok? && ParseGlyph(a, g).value.1 != []
    ensures ParseGlyph(a + b, g) == Ok((ParseGlyph(a, g).value.0, ParseGlyph(a, g).value.1 + b))
    decreases |a|
  {
    assert (a + b)[0] == a[0] && (a + b)[1..] == a[1..] + b;
    if a[0] == "BITMAP" {
      BitmapLocal(a[1..], b, g.bitmap);
    } else {
      GlyphLocal(a[1..], b, GlyphLine(g, a[0]).value);
    }
  }

  lemma {:induction false} BodyLocal(a: seq<string>, b: seq<string>, font: Font)
    requires ParseBody(a, font).Ok? && ParseBody(a, font).value.1 != []
    ensures ParseBody(a + b, font) == Ok((ParseBody(a, font).value.0, ParseBody(a, font).value.1 + b))
    decreases |a|
  {
    var line := a[0];
    assert (a + b)[0] == line && (a + b)[1..] == a[1..] + b;
    if StartsWith(line, "STARTFONT ") {
      BodyLocal(a[1..], b, font);
    } else if StartsWith(line, "FONT ") {
      BodyLocal(a[1..], b, font.(name := line[5..]));
    } else if StartsWith(line, "SIZE ") {
      BodyLocal(a[1..], b, font.(size := SizeRecord(line[5..]).value));
    } else if StartsWith(line, "FONTBOUNDINGBOX ") {
      BodyLocal(a[1..], b, font.(boundingBox := BoxRecord(line[16..]).value));
    } else if StartsWith(line, "STARTPROPERTIES ") {
      var block := ParseProperties(a[1..], font.properties).value;
      PropertiesLocal(a[1..], b, font.properties);
      BodyLocal(block.1, b, font.(properties := block.0));
    } else if StartsWith(line, "CHARS ") {
      BodyLocal(a[1..], b, font.(charcount := Integer(line[6..]).value));
    } else if StartsWith(line, "STARTCHAR ") {
      var glyph := ParseGlyph(a[1..], NewGlyph(line[10..])).value;
      GlyphLocal(a[1..], b, NewGlyph(line[10..]));
      BodyLocal(glyph.1, b, font.(glyphs := font.glyphs + [glyph.0]));
    } else if line != "ENDFONT" {
      BodyLocal(a[1..], b, font);
    }
  }

  /** Once ENDFONT has stopped the parse, what follows it is never read. */
  lemma EndfontIgnoresTheRest(a: seq<string>, b: seq<string>)
    requires ParseBody(a, EmptyFont).Ok? && ParseBody(a, EmptyFont).value.1 != []
    ensures Parse(a + b) == Parse(a)
  {
    BodyLocal(a, b, EmptyFont);
  }

  // ---------------------------------------------------------------------
  // Glyph order

  /** The names of the STARTCHAR lines of `ls`, in order. */
  function StartcharNames(ls: seq<string>): seq<string> {
    if ls == [] then []
    else if StartsWith(ls[0], "STARTCHAR ") then [ls[0][10..]] + StartcharNames(ls[1..])
    else StartcharNames(ls[1..])
  }

  function GlyphNames(gs: seq<Glyph>): (names: seq<string>)
    ensures |names| == |gs| && forall k | 0 <= k < |gs| :: names[k] == gs[k].startchar
  {
    if gs == [] then [] else [gs[0].startchar] + GlyphNames(gs[1..])
  }

  /** `x` is `y` with some elements left out. */
  predicate IsSubsequence(x: seq<string>, y: seq<string>)
    decreases |y|
  {
    x == [] || (y != [] && ((x[0] == y[0] && IsSubsequence(x[1..], y[1..])) || IsSubsequence(x, y[1..])))
  }

  lemma {:induction false} SubsequenceOfLaterLines(x: seq<string>, t: seq<string>, s: seq<string>)
    requires IsSuffix(t, s) && IsSubsequence(x, StartcharNames(t))
    ensures IsSubsequence(x, StartcharNames(s))
    decreases |s|
  {
    if |t| < |s| {
      assert IsSuffix(t, s[1..]) by {
        assert s[1..][|s| - 1 - |t|..] == s[|s| - |t|..];
      }
      SubsequenceOfLaterLines(x, t, s[1..]);
      if StartsWith(s[0], "STARTCHAR ") {
        var names := StartcharNames(s);
        assert names[1..] == StartcharNames(s[1..]);
        assert x == [] || (names != [] && IsSubsequence(x, names[1..]));
      }
    }
  }

  /** The glyphs the parse adds after those of `font` carry, in order, names
      of STARTCHAR lines of `ls`. */
  predicate InStartcharOrder(ls: seq<string>, font: Font) {
    ParseBody(ls, font).Ok? ==>
      var glyphs := ParseBody(ls, font).value.0.glyphs;
      |font.glyphs| <= |glyphs| && glyphs[..|font.glyphs|] == font.glyphs
      && IsSubsequence(GlyphNames(glyphs[|font.glyphs|..]), StartcharNames(ls))
  }

  /** One line at the top level that neither opens a block nor ends the
      file: it sets at most the record it names and the parse goes on with
      the next line. */
  lemma OneLineStep(ls: seq<string>, font: Font) returns (next: Font)
    requires ls != [] && ParseBody(ls, font).Ok?
    requires !StartsWith(ls[0], "STARTPROPERTIES ") && !StartsWith(ls[0], "STARTCHAR ") && ls[0] != "ENDFONT"
    ensures ParseBody(ls, font) == ParseBody(ls[1..], next)
    ensures next.glyphs == font.glyphs && next.properties == font.properties
    ensures !StartsWith(ls[0], "FONT ") ==> next.name == font.name
    ensures !StartsWith(ls[0], "SIZE ") ==> next.size == font.size
    ensures !StartsWith(ls[0], "FONTBOUNDINGBOX ") ==> next.boundingBox == font.boundingBox
    ensures !StartsWith(ls[0], "CHARS ") ==> next.charcount == font.charcount
  {
    var line := ls[0];
    assert ls == [line] + ls[1..];
    TopKeywords();
    if StartsWith(line, "STARTFONT ") {
      SplitKeyword(line, "STARTFONT ");
      StartfontLine(line[10..], ls[1..], font);
      next := font;
    } else if StartsWith(line, "FONT ") {
      SplitKeyword(line, "FONT ");
      FontLine(line[5..], ls[1..], font);
      next := font.(name := line[5..]);
      PrefixChar(line, 4);
    } else if StartsWith(line, "SIZE ") {
      SplitKeyword(line, "SIZE ");
      SizeLine(line[5..], ls[1..], font);
      next := font.(size := SizeRecord(line[5..]).value);
    } else if StartsWith(line, "FONTBOUNDINGBOX ") {
      SplitKeyword(line, "FONTBOUNDINGBOX ");
      BoundingBoxLine(line[16..], ls[1..], font);
      next := font.(boundingBox := BoxRecord(line[16..]).value);
      PrefixChar(line, 4);
    } else if StartsWith(line, "CHARS ") {
      SplitKeyword(line, "CHARS ");
      CharsLine(line[6..], ls[1..], font);
      next := font.(charcount := Integer(line[6..]).value);
    } else {
      OtherLine(line, ls[1..], font);
      next := font;
    }
  }

  /** A line that leaves the glyphs alone keeps the order. */
  lemma OrderAfterOtherLines(ls: seq<string>, font: Font, t: seq<string>, next: Font)
    requires IsSuffix(t, ls) && ParseBody(ls, font) == ParseBody(t, next) && next.glyphs == font.glyphs
    requires InStartcharOrder(t, next)
    ensures InStartcharOrder(ls, font)
  {
    if ParseBody(ls, font).Ok? {
      var glyphs := ParseBody(ls, font).value.0.glyphs;
      SubsequenceOfLaterLines(GlyphNames(glyphs[|font.glyphs|..]), t, ls);
    }
  }

  /** The names of the glyphs from `glyphs[n]` on, with the first one apart. */
  lemma GlyphNamesFrom(glyphs: seq<Glyph>, n: nat)
    requires n < |glyphs|
    ensures GlyphNames(glyphs[n..]) == [glyphs[n].startchar] + GlyphNames(glyphs[n + 1..])
  {
    assert glyphs[n..][1..] == glyphs[n + 1..];
  }

  /** The list of glyphs after a STARTCHAR line's glyph `g` is in order, so
      the list from `g` on is too. */
  lemma NamesAfterGlyph(glyphs: seq<Glyph>, done: seq<Glyph>, g: Glyph, t: seq<string>, ls: seq<string>)
    requires ls != [] && StartsWith(ls[0], "STARTCHAR ") && g.startchar == ls[0][10..]
    requires IsSuffix(t, ls[1..])
    requires |done| + 1 <= |glyphs| && glyphs[..|done| + 1] == done + [g]
    requires IsSubsequence(GlyphNames(glyphs[|done| + 1..]), StartcharNames(t))
    ensures glyphs[..|done|] == done
    ensures IsSubsequence(GlyphNames(glyphs[|done|..]), StartcharNames(ls))
  {
    var n := |done|;
    assert glyphs[..n] == glyphs[..n + 1][..n];
    assert glyphs[n] == glyphs[..n + 1][n];
    var rest := GlyphNames(glyphs[n + 1..]);
    SubsequenceOfLaterLines(rest, t, ls[1..]);
    GlyphNamesFrom(glyphs, n);
    var names := GlyphNames(glyphs[n..]);
    var lineNames := StartcharNames(ls);
    assert lineNames == [g.startchar] + StartcharNames(ls[1..]);
    assert names[0] == lineNames[0] && names[1..] == rest && lineNames[1..] == StartcharNames(ls[1..]);
  }

  /** A STARTCHAR line adds its glyph, named by the line, before the others. */
  lemma OrderAfterGlyph(ls: seq<string>, font: Font, t: seq<string>, g: Glyph)
    requires ls != [] && StartsWith(ls[0], "STARTCHAR ") && g.startchar == ls[0][10..]
    requires IsSuffix(t, ls[1..]) && ParseBody(ls, font) == ParseBody(t, font.(glyphs := font.glyphs + [g]))
    requires InStartcharOrder(t, font.(glyphs := font.glyphs + [g]))
    ensures InStartcharOrder(ls, font)
  {
    if ParseBody(ls, font).Ok? {
      var glyphs := ParseBody(ls, font).value.0.glyphs;
      NamesAfterGlyph(glyphs, font.glyphs, g, t, ls);
    }
  }

  /** The glyphs are added in the order of their STARTCHAR lines; the lines
      that a properties block, a bitmap or a glyph without BITMAP swallows
      are the ones missing. */
  lemma {:induction false} GlyphsInStartcharOrder(ls: seq<string>, font: Font)
    ensures InStartcharOrder(ls, font)
    decreases |ls|
  {
    if ls != [] && ParseBody(ls, font).Ok? {
      var line := ls[0];
      if StartsWith(line, "STARTPROPERTIES ") {
        assert ParseProperties(ls[1..], font.properties).Ok? by {
          assert ls == [line] + ls[1..];
          SplitKeyword(line, "STARTPROPERTIES ");
          PropertiesLine(line[16..], ls[1..], font);
        }
        var block := ParseProperties(ls[1..], font.properties).value;
        var next := font.(properties := block.0);
        assert IsSuffix(block.1, ls) && ParseBody(ls, font) == ParseBody(block.1, next) by {
          assert ls == [line] + ls[1..];
          SplitKeyword(line, "STARTPROPERTIES ");
          PropertiesLine(line[16..], ls[1..], font);
        }
        GlyphsInStartcharOrder(block.1, next);
        OrderAfterOtherLines(ls, font, block.1, next);
      } else if StartsWith(line, "STARTCHAR ") {
        var name := line[10..];
        assert ParseGlyph(ls[1..], NewGlyph(name)).Ok? by {
          assert ls == [line] + ls[1..];
          SplitKeyword(line, "STARTCHAR ");
          StartcharLine(name, ls[1..], font);
        }
        var glyph := ParseGlyph(ls[1..], NewGlyph(name)).value;
        var next := font.(glyphs := font.glyphs + [glyph.0]);
        assert ParseBody(ls, font) == ParseBody(glyph.1, next) by {
          assert ls == [line] + ls[1..];
          SplitKeyword(line, "STARTCHAR ");
          StartcharLine(name, ls[1..], font);
        }
        GlyphsInStartcharOrder(glyph.1, next);
        OrderAfterGlyph(ls, font, glyph.1, glyph.0);
      } else if line == "ENDFONT" {
        assert ls == [line] + ls[1..];
        EndfontLine(ls[1..], font);
      } else {
        var next := OneLineStep(ls, font);
        GlyphsInStartcharOrder(ls[1..], next);
        OrderAfterOtherLines(ls, font, ls[1..], next);
      }
    }
  }

  /** A glyph as a well-formed file writes it: STARTCHAR, its record lines,
      BITMAP, its rows, ENDCHAR. */
  datatype GlyphBlock = GlyphBlock(name: string, records: seq<string>, rows: seq<string>)

  function BlockLines(b: GlyphBlock): seq<string> {
    ["STARTCHAR " + b.name] + b.records + ["BITMAP"] + b.rows + ["ENDCHAR"]
  }

  function BlocksLines(bs: seq<GlyphBlock>): seq<string> {
    if bs == [] then [] else BlockLines(bs[0]) + BlocksLines(bs[1..])
  }

  /** No BITMAP among the records and each record succeeds; no ENDCHAR among
      the rows and each row decodes. */
  predicate ClosedBlock(b: GlyphBlock) {
    && (forall k | 0 <= k < |b.records| :: b.records[k] != "BITMAP" && GlyphLine(NewGlyph(b.name), b.records[k]).Ok?)
    && (forall k | 0 <= k < |b.rows| :: b.rows[k] != "ENDCHAR")
    && DecodeRows(b.rows).Ok?
  }

  /** The rows of a block, decoded. */
  function BlockBitmap(b: GlyphBlock): seq<u16> {
    if DecodeRows(b.rows).Ok? then DecodeRows(b.rows).value else []
  }

  lemma BlockLinesSplit(b: GlyphBlock, ls: seq<string>)
    ensures BlockLines(b) + ls == ["STARTCHAR " + b.name] + (b.records + (["BITMAP"] + b.rows + ["ENDCHAR"] + ls))
  {
  }

  /** A closed glyph block adds one glyph, with the block's name and decoded
      rows, and the parse goes on after its ENDCHAR. */
  lemma ClosedBlockStep(b: GlyphBlock, ls: seq<string>, font: Font) returns (g: Glyph)
    requires ClosedBlock(b)
    ensures ParseBody(BlockLines(b) + ls, font) == ParseBody(ls, font.(glyphs := font.glyphs + [g]))
    ensures g.startchar == b.name && g.bitmap == BlockBitmap(b)
  {
    var after := ["BITMAP"] + b.rows + ["ENDCHAR"] + ls;
    var inner := b.records + after;
    BlockLinesSplit(b, ls);
    var h := GoodRecords(b.records, after, NewGlyph(b.name));
    g := h.(bitmap := h.bitmap + DecodeRows(b.rows).value);
    assert ParseGlyph(inner, NewGlyph(b.name)) == Ok((g, ls)) by {
      ClosedBitmap(b.rows, ls, h);
    }
    StartcharLine(b.name, inner, font);
  }

  lemma AppendNothing<T>(s: seq<T>)
    ensures s + [] == s && [] + s == s
  {
  }

  lemma GlyphsCons(done: seq<Glyph>, g: Glyph, more: seq<Glyph>)
    ensures done + [g] + more == done + ([g] + more)
  {
  }

  lemma BlocksLinesCons(bs: seq<GlyphBlock>, ls: seq<string>)
    requires bs != []
    ensures BlocksLines(bs) + ls == BlockLines(bs[0]) + (BlocksLines(bs[1..]) + ls)
  {
  }

  /** The first block's glyph followed by the glyphs of the others. */
  lemma ConsBlocks(bs: seq<GlyphBlock>, ls: seq<string>, font: Font, g: Glyph, more: seq<Glyph>) returns (gs: seq<Glyph>)
    requires bs != []
    requires ParseBody(BlockLines(bs[0]) + (BlocksLines(bs[1..]) + ls), font)
      == ParseBody(BlocksLines(bs[1..]) + ls, font.(glyphs := font.glyphs + [g]))
    requires ParseBody(BlocksLines(bs[1..]) + ls, font.(glyphs := font.glyphs + [g]))
      == ParseBody(ls, font.(glyphs := font.glyphs + [g] + more))
    requires g.startchar == bs[0].name && g.bitmap == BlockBitmap(bs[0])
    requires |more| == |bs| - 1
    requires forall i | 0 <= i < |bs| - 1 :: more[i].startchar == bs[1..][i].name && more[i].bitmap == BlockBitmap(bs[1..][i])
    ensures gs == [g] + more
    ensures ParseBody(BlocksLines(bs) + ls, font) == ParseBody(ls, font.(glyphs := font.glyphs + gs))
    ensures |gs| == |bs|
    ensures forall i | 0 <= i < |bs| :: gs[i].startchar == bs[i].name && gs[i].bitmap == BlockBitmap(bs[i])
  {
    gs := [g] + more;
    GlyphsCons(font.glyphs, g, more);
    BlocksLinesCons(bs, ls);
    forall i | 1 <= i < |bs|
      ensures gs[i].startchar == bs[i].name && gs[i].bitmap == BlockBitmap(bs[i])
    {
      assert gs[i] == more[i - 1] && bs[i] == bs[1..][i - 1];
    }
  }

  /** A run of closed glyph blocks adds one glyph per block, in the order of
      the blocks, each with its block's name and rows, after the glyphs
      already read. */
  lemma {:induction false} ClosedBlocksInOrder(bs: seq<GlyphBlock>, ls: seq<string>, font: Font) returns (gs: seq<Glyph>)
    requires forall i | 0 <= i < |bs| :: ClosedBlock(bs[i])
    ensures ParseBody(BlocksLines(bs) + ls, font) == ParseBody(ls, font.(glyphs := font.glyphs + gs))
    ensures |gs| == |bs|
    ensures forall i | 0 <= i < |bs| :: gs[i].startchar == bs[i].name && gs[i].bitmap == BlockBitmap(bs[i])
    decreases |bs|
  {
    if bs == [] {
      assert BlocksLines(bs) + ls == ls;
      gs := [];
      assert font.(glyphs := font.glyphs + gs) == font;
    } else {
      var rest := BlocksLines(bs[1..]) + ls;
      var g := ClosedBlockStep(bs[0], rest, font);
      var next := font.(glyphs := font.glyphs + [g]);
      assert forall i | 0 <= i < |bs| - 1 :: ClosedBlock(bs[1..][i]) by {
        assert forall i | 0 <= i < |bs| - 1 :: bs[1..][i] == bs[i + 1];
      }
      var more := ClosedBlocksInOrder(bs[1..], ls, next);
      gs := ConsBlocks(bs, ls, font, g, more);
    }
  }

  /** A file made of closed glyph blocks parses, and its glyphs are the
      blocks' glyphs in the order of their STARTCHAR lines: A then B gives
      [A, B]. */
  lemma ClosedBlocksFile(bs: seq<GlyphBlock>)
    requires forall i | 0 <= i < |bs| :: ClosedBlock(bs[i])
    ensures Parse(BlocksLines(bs)).Ok?
    ensures var glyphs := Parse(BlocksLines(bs)).value.glyphs;
      |glyphs| == |bs|
      && (forall i | 0 <= i < |bs| :: glyphs[i].startchar == bs[i].name && glyphs[i].bitmap == BlockBitmap(bs[i]))
  {
    AppendNothing(BlocksLines(bs));
    var gs := ClosedBlocksInOrder(bs, [], EmptyFont);
    AppendNothing(gs);
  }

  /** Two empty glyphs, A then B, come out as [A, B]. */
  lemma TwoGlyphsInOrder(lines: seq<string>)
    requires lines == ["STARTCHAR A", "BITMAP", "ENDCHAR", "STARTCHAR B", "BITMAP", "ENDCHAR"]
    ensures Parse(lines).Ok? && GlyphNames(Parse(lines).value.glyphs) == ["A", "B"]
  {
    var bs := [GlyphBlock("A", [], []), GlyphBlock("B", [], [])];
    assert "STARTCHAR " + "A" == "STARTCHAR A" && "STARTCHAR " + "B" == "STARTCHAR B";
    assert BlockLines(bs[0]) == ["STARTCHAR A", "BITMAP", "ENDCHAR"];
    assert BlockLines(bs[1]) == ["STARTCHAR B", "BITMAP", "ENDCHAR"];
    assert BlocksLines(bs[1..][1..]) == [];
    assert BlocksLines(bs[1..]) == BlockLines(bs[1]);
    assert BlocksLines(bs) == lines;
    ClosedBlocksFile(bs);
  }

  // ---------------------------------------------------------------------
  // Defaults

  /** A suffix of lines without STARTPROPERTIES lines has none either. */
  lemma NoPropertiesLineInSuffix(t: seq<string>, ls: seq<string>)
    requires IsSuffix(t, ls) && forall k | 0 <= k < |ls| :: !StartsWith(ls[k], "STARTPROPERTIES ")
    ensures forall k | 0 <= k < |t| :: !StartsWith(t[k], "STARTPROPERTIES ")
  {
    assert forall k | 0 <= k < |t| :: t[k] == ls[|ls| - |t| + k];
  }

  /** Only a STARTPROPERTIES line changes the properties. */
  lemma {:induction false} PropertiesOnlyFromBlocks(ls: seq<string>, font: Font)
    requires forall k | 0 <= k < |ls| :: !StartsWith(ls[k], "STARTPROPERTIES ")
    ensures ParseBody(ls, font).Ok? ==> ParseBody(ls, font).value.0.properties == font.properties
    decreases |ls|
  {
    if ls != [] && ParseBody(ls, font).Ok? {
      var line := ls[0];
      assert ls == [line] + ls[1..];
      NoPropertiesLineInSuffix(ls[1..], ls);
      if StartsWith(line, "STARTCHAR ") {
        SplitKeyword(line, "STARTCHAR ");
        StartcharLine(line[10..], ls[1..], font);
        var glyph := ParseGlyph(ls[1..], NewGlyph(line[10..])).value;
        NoPropertiesLineInSuffix(glyph.1, ls[1..]);
        PropertiesOnlyFromBlocks(glyph.1, font.(glyphs := font.glyphs + [glyph.0]));
      } else if line == "ENDFONT" {
        EndfontLine(ls[1..], font);
      } else {
        var next := OneLineStep(ls, font);
        PropertiesOnlyFromBlocks(ls[1..], next);
      }
    }
  }

  /** A file without a STARTPROPERTIES block keeps every property at its
      default: `font_ascent` is 0 and `family_name` is empty. */
  lemma DefaultsWithoutProperties(lines: seq<string>)
    requires forall k | 0 <= k < |lines| :: !StartsWith(lines[k], "STARTPROPERTIES ")
    ensures Parse(lines).Ok? ==> Parse(lines).value.properties == NoProperties
    ensures Parse(lines).Ok? ==> Parse(lines).value.properties.fontAscent == 0
    ensures Parse(lines).Ok? ==> Parse(lines).value.properties.familyName == ""
  {
    PropertiesOnlyFromBlocks(lines, EmptyFont);
  }
}
