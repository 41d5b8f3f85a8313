/** The bytes of one TSPL print job. */
module TsplRender {
  import opened Images
  import opened Numerals

  const LF: byte := 10
  const COMMA: byte := 44
  const CRLF: seq<byte> := [13, 10]
  const SIZE: seq<byte> := [83, 73, 90, 69]
  const GAP: seq<byte> := [71, 65, 80]
  const MM: seq<byte> := [32, 109, 109]
  const COMMA_SPACE: seq<byte> := [44, 32]
  const DIRECTION: seq<byte> := [68, 73, 82, 69, 67, 84, 73, 79, 78, 32, 49]
  const CLS: seq<byte> := [67, 76, 83]
  const BITMAP: seq<byte> := [66, 73, 84, 77, 65, 80]
  const PRINT: seq<byte> := [80, 82, 73, 78, 84]

  function SizeLine(widthMm: nat, heightMm: nat): seq<byte> {
    SIZE + [32] + Decimal(widthMm) + MM + COMMA_SPACE + Decimal(heightMm) + MM
  }

  function GapLine(gap: seq<byte>): seq<byte> {
    GAP + [32] + gap + MM + COMMA_SPACE + [48] + MM
  }

  function BitmapHeader(bytesPerRow: nat, height: nat): seq<byte> {
    BITMAP + [32, 48] + [COMMA] + [48] + [COMMA] + Decimal(bytesPerRow) + [COMMA] + Decimal(height)
    + [COMMA] + [48]
  }

  function PrintLine(copies: nat): seq<byte> {
    PRINT + [32] + Decimal(copies)
  }

  /** `image_to_tspl_bitmap`; `gap` is the text the gap is printed as. */
  function Job(img: Image, widthMm: nat, heightMm: nat, gap: seq<byte>, copies: nat): seq<byte> {
    SizeLine(widthMm, heightMm) + CRLF + Label(img, gap, copies)
  }

  function Label(img: Image, gap: seq<byte>, copies: nat): seq<byte> {
    GapLine(gap) + CRLF + (DIRECTION + CRLF + (CLS + CRLF + Picture(img, copies)))
  }

  function Picture(img: Image, copies: nat): seq<byte> {
    BitmapHeader(img.bytesPerRow, |img.rows|) + [COMMA] + (Pixels(img) + (CRLF + (PrintLine(copies) + CRLF)))
  }

  function RibbonMm(canvas: Image): nat {
    var mm := (|canvas.rows| + 7) / 8;
    if mm < 1 then 1 else mm
  }

  /** `_emit_tspl_canvas`: a continuous ribbon, one copy, 8 dots to the millimetre. */
  function RibbonJob(canvas: Image, paperWidthMm: nat): seq<byte> {
    Job(canvas, paperWidthMm, RibbonMm(canvas), [48], 1)
  }
}
