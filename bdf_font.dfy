/** The records that `load_bdf` fills in: `BDFGlyph`, `BDFProperties` and
    `BDFFont` (commons/src/lib.rs:1-39), with the zero/empty values they
    start from (commons/src/lib.rs:47-71, 142-149). */
module BdfFont {
  import opened Lexical

  /** Why a parse gave up. The first two are the `Err` values that `?`
      propagates; the last two are panics of the source (an index past the
      end of a split record, a string slice past the end of a line). */
  datatype ParseError =
    | MalformedInteger
    | MalformedHexRow
    | MissingToken
    | SliceOutOfRange

  /** `(width, height, x offset, y offset)`, used for FONTBOUNDINGBOX and BBX. */
  datatype BoundingBox = BoundingBox(width: usize, height: usize, xOffset: isize, yOffset: isize)

  /** One STARTCHAR ... ENDCHAR record. `bitmap` holds one 16-bit cell per
      BITMAP row, top row first, leftmost pixel in bit 15. */
  datatype Glyph = Glyph(
    startchar: string,
    encoding: usize,
    swidth: (usize, usize),
    dwidth: (usize, usize),
    bbx: BoundingBox,
    bitmap: seq<u16>)

  /** The sixteen properties the parser recognises in a STARTPROPERTIES block. */
  datatype Properties = Properties(
    pointSize: usize,
    pixelSize: usize,
    resolutionX: usize,
    resolutionY: usize,
    fontAscent: usize,
    fontDescent: usize,
    averageWidth: usize,
    spacing: string,
    gbdfedInfo: string,
    charsetEncoding: string,
    charsetRegistry: string,
    familyName: string,
    foundry: string,
    setwidthName: string,
    slant: string,
    weightName: string)

  datatype Font = Font(
    size: (usize, usize, usize),
    name: string,
    boundingBox: BoundingBox,
    charcount: usize,
    properties: Properties,
    glyphs: seq<Glyph>)

  const NoBox := BoundingBox(0, 0, 0, 0)

  const NoProperties := Properties(0, 0, 0, 0, 0, 0, 0, "", "", "", "", "", "", "", "", "")

  /** The font `load_bdf` starts from, before the first line is read. */
  const EmptyFont := Font((0, 0, 0), "", NoBox, 0, NoProperties, [])

  /** The glyph a STARTCHAR line opens. */
  function NewGlyph(startchar: string): Glyph {
    Glyph(startchar, 0, (0, 0), (0, 0), NoBox, [])
  }
}
