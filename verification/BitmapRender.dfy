/** The `GS v 0` raster encoder of the receipt path. */
module BitmapRender {
  import opened Images

  const GS: byte := 29

  /** The wire packs a set bit as black: `byte ^ 0xFF`. */
  function Invert(raw: seq<byte>): (r: seq<byte>)
    ensures |r| == |raw|
  {
    seq(|raw|, i requires 0 <= i < |raw| => 255 - raw[i])
  }

  lemma InvertTwice(raw: seq<byte>)
    ensures Invert(Invert(raw)) == raw
  {
  }

  function Low(n: nat): byte { n % 256 }

  function High(n: nat): byte { (n / 256) % 256 }

  function Header(bytesPerRow: nat, height: nat): seq<byte> {
    [GS, 118, 48, 0, Low(bytesPerRow), High(bytesPerRow), Low(height), High(height)]
  }

  /** `image_to_gs_v_0`. */
  function Encode(img: Image): seq<byte> {
    Header(img.bytesPerRow, |img.rows|) + Invert(Pixels(img))
  }

  /** `render_paragraph`: the rendered lines of a paragraph, one below the other. */
  method RenderParagraph(lines: seq<Image>, width: nat) returns (picture: Image)
    ensures picture == Image(width, Stack(lines, width))
  {
    var canvas := Compose(lines, width);
    picture := Image(width, canvas);
  }
}
