/** One-bit pictures whose width is a whole number of bytes.

    A picture is a list of rows; a row is `bytesPerRow` packed bytes, most significant
    bit leftmost, a set bit being white. That is the packing of the "1" mode the
    renderers and both emulators share. */
module Images {
  type byte = b: int | 0 <= b < 256

  const WHITE: byte := 255

  type Row = seq<byte>

  datatype Image = Image(bytesPerRow: nat, rows: seq<Row>)

  ghost predicate WellFormed(img: Image) {
    forall i :: 0 <= i < |img.rows| ==> |img.rows[i]| == img.bytesPerRow
  }

  /** Bytes to a row that are too many for a Pillow picture: eight dots each, and at most a
      quarter of the largest C int, less one, of them. */
  const ROW_LIMIT: int := 0x400_0000
  /** Rows that no C int counts. */
  const HEIGHT_LIMIT: int := 0x8000_0000

  /** Sizes of which Pillow makes no picture. */
  predicate Refused(bytesPerRow: int, height: int) {
    bytesPerRow < 0 || height < 0 || bytesPerRow >= ROW_LIMIT || height >= HEIGHT_LIMIT
  }

  /** Sizes of a picture that has any dots. */
  predicate Possible(width: int, height: int) {
    0 < width < ROW_LIMIT && 0 < height < HEIGHT_LIMIT
  }

  ghost predicate Printable(img: Image) {
    WellFormed(img) && Possible(img.bytesPerRow, |img.rows|)
  }

  function Concat<T>(parts: seq<seq<T>>): seq<T> {
    if parts == [] then [] else parts[0] + Concat(parts[1..])
  }

  lemma Associative<T>(a: seq<T>, b: seq<T>, c: seq<T>)
    ensures a + (b + c) == a + b + c
  {
  }

  lemma {:induction false} ConcatAppend<T>(a: seq<seq<T>>, b: seq<seq<T>>)
    ensures Concat(a + b) == Concat(a) + Concat(b)
  {
    if a == [] {
      assert a + b == b;
    } else {
      ConcatAppend(a[1..], b);
      assert (a + b)[0] == a[0] && (a + b)[1..] == a[1..] + b;
      Associative(a[0], Concat(a[1..]), Concat(b));
    }
  }

  lemma ConcatOne<T>(a: seq<T>)
    ensures Concat([a]) == a
  {
    assert [a][1..] == [];
  }

  /** The packed bytes of a picture, row after row. */
  function Pixels(img: Image): Row {
    Concat(img.rows)
  }

  /** The byte count of a picture; kept as a sum so that the solver need not multiply. */
  function Area(width: nat, height: nat): nat {
    if height == 0 then 0 else width + Area(width, height - 1)
  }

  lemma {:induction false} AreaIsProduct(width: nat, height: nat)
    ensures Area(width, height) == width * height
  {
    if height > 0 {
      AreaIsProduct(width, height - 1);
    }
  }

  lemma {:induction false} PixelsLength(width: nat, rows: seq<Row>)
    requires forall i :: 0 <= i < |rows| ==> |rows[i]| == width
    ensures |Concat(rows)| == Area(width, |rows|)
  {
    if rows != [] {
      PixelsLength(width, rows[1..]);
    }
  }

  /** Cut `raw` back into `height` rows of `width` bytes. */
  function RowsOf(width: nat, height: nat, raw: Row): (rows: seq<Row>)
    requires |raw| == Area(width, height)
    ensures |rows| == height
    ensures forall i :: 0 <= i < |rows| ==> |rows[i]| == width
    ensures Concat(rows) == raw
    decreases height
  {
    if height == 0 then [] else [raw[..width]] + RowsOf(width, height - 1, raw[width..])
  }

  /** Packing a picture and unpacking it again changes nothing. */
  lemma {:induction false} UnpackPacked(width: nat, rows: seq<Row>)
    requires forall i :: 0 <= i < |rows| ==> |rows[i]| == width
    ensures |Concat(rows)| == Area(width, |rows|)
    ensures RowsOf(width, |rows|, Concat(rows)) == rows
    decreases |rows|
  {
    PixelsLength(width, rows);
    if rows != [] {
      UnpackPacked(width, rows[1..]);
      assert Concat(rows)[..width] == rows[0];
      assert Concat(rows)[width..] == Concat(rows[1..]);
    }
  }

  function Whites(n: nat): (r: Row)
    ensures |r| == n && forall i :: 0 <= i < n ==> r[i] == WHITE
  {
    seq(n, i => WHITE)
  }

  /** A row on a canvas `width` bytes wide: white to the right of it, cropped if longer. */
  function FitRow(row: Row, width: nat): (r: Row)
    ensures |r| == width
  {
    if |row| <= width then row + Whites(width - |row|) else row[..width]
  }

  function FitRows(rows: seq<Row>, width: nat): (r: seq<Row>)
    ensures |r| == |rows|
    ensures forall i :: 0 <= i < |r| ==> r[i] == FitRow(rows[i], width)
  {
    seq(|rows|, i requires 0 <= i < |rows| => FitRow(rows[i], width))
  }

  /** Pictures pasted one under the other at the left edge of a canvas `width` bytes wide. */
  function Stack(images: seq<Image>, width: nat): (rows: seq<Row>)
    ensures forall i :: 0 <= i < |rows| ==> |rows[i]| == width
  {
    if images == [] then [] else FitRows(images[0].rows, width) + Stack(images[1..], width)
  }

  lemma {:induction false} StackAppend(a: seq<Image>, b: seq<Image>, width: nat)
    ensures Stack(a + b, width) == Stack(a, width) + Stack(b, width)
  {
    if a == [] {
      assert a + b == b;
    } else {
      StackAppend(a[1..], b, width);
      assert (a + b)[0] == a[0] && (a + b)[1..] == a[1..] + b;
      Associative(FitRows(a[0].rows, width), Stack(a[1..], width), Stack(b, width));
    }
  }

  lemma StackOne(img: Image, width: nat)
    ensures Stack([img], width) == FitRows(img.rows, width)
  {
    assert [img][1..] == [];
  }

  function Widest(images: seq<Image>): nat {
    if images == [] then 0
    else
      var rest := Widest(images[1..]);
      if images[0].bytesPerRow > rest then images[0].bytesPerRow else rest
  }

  lemma {:induction false} WidestBounds(images: seq<Image>, k: nat)
    requires k < |images|
    ensures images[k].bytesPerRow <= Widest(images)
  {
    if k > 0 {
      WidestBounds(images[1..], k - 1);
    }
  }

  lemma {:induction false} WidestIsOne(images: seq<Image>) returns (k: nat)
    requires images != []
    ensures k < |images| && images[k].bytesPerRow == Widest(images)
    ensures forall i :: 0 <= i < |images| ==> images[i].bytesPerRow <= images[k].bytesPerRow
  {
    k := 0;
    if |images| > 1 {
      var later := WidestIsOne(images[1..]);
      assert forall i :: 1 <= i < |images| ==> images[i] == images[1..][i - 1];
      if images[0].bytesPerRow <= Widest(images[1..]) {
        k := later + 1;
      }
    }
  }

  /** How many rows stand above the picture with this number. */
  function RowsAbove(images: seq<Image>, i: nat): nat
    requires i <= |images|
  {
    if i == 0 then 0 else RowsAbove(images, i - 1) + |images[i - 1].rows|
  }

  lemma {:induction false} RowsAboveFirst(images: seq<Image>, i: nat)
    requires 0 < i <= |images|
    ensures RowsAbove(images, i) == |images[0].rows| + RowsAbove(images[1..], i - 1)
  {
    if i > 1 {
      RowsAboveFirst(images, i - 1);
    }
  }

  /** Byte by byte: below the rows of the pictures above it each row stands at the left edge, and
      what is left of its line is white. */
  lemma {:induction false} StackedAt(images: seq<Image>, width: nat, i: nat, r: nat)
    requires i < |images| && r < |images[i].rows|
    ensures RowsAbove(images, i) + r < |Stack(images, width)|
    ensures var line, row := Stack(images, width)[RowsAbove(images, i) + r], images[i].rows[r];
            |line| == width && forall k :: 0 <= k < width ==> line[k] == if k < |row| then row[k] else 255
  {
    if i > 0 {
      RowsAboveFirst(images, i);
      StackedAt(images[1..], width, i - 1, r);
    }
  }

  /** And there are no other rows. */
  lemma {:induction false} StackedRows(images: seq<Image>, width: nat)
    ensures |Stack(images, width)| == RowsAbove(images, |images|)
  {
    if images != [] {
      RowsAboveFirst(images, |images|);
      StackedRows(images[1..], width);
    }
  }

  /** Paste a column of pictures into a fresh white canvas, moving down by each height. */
  method Compose(images: seq<Image>, width: nat) returns (canvas: seq<Row>)
    ensures canvas == Stack(images, width)
  {
    var total := 0;
    for i := 0 to |images|
      invariant total == |Stack(images[..i], width)|
    {
      total := total + |images[i].rows|;
      StackSnoc(images, i, width);
    }
    assert images[..|images|] == images;
    canvas := seq(total, i => Whites(width));
    var y := 0;
    for i := 0 to |images|
      invariant |canvas| == |Stack(images, width)|
      invariant y == |Stack(images[..i], width)| <= |canvas|
      invariant canvas[..y] == Stack(images[..i], width)
    {
      StackSnoc(images, i, width);
      StackAppend(images[..i + 1], images[i + 1..], width);
      assert images[..i + 1] + images[i + 1..] == images;
      var strip := FitRows(images[i].rows, width);
      canvas := canvas[..y] + strip + canvas[y + |strip|..];
      y := y + |strip|;
    }
  }

  lemma StackSnoc(images: seq<Image>, i: nat, width: nat)
    requires i < |images|
    ensures Stack(images[..i + 1], width) == Stack(images[..i], width) + FitRows(images[i].rows, width)
  {
    assert images[..i + 1] == images[..i] + [images[i]];
    StackAppend(images[..i], [images[i]], width);
    StackOne(images[i], width);
  }
}
