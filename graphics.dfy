/** The packed framebuffer: four pixels per byte, rows padded to whole bytes, pixels written one
    2-bit field at a time. */
module Graphics {
  import opened Lib
  import opened Color

  /** `line_bytes(width, bits_per_pixel)`: the bytes of one row, the row's bits rounded up to a
      whole byte. */
  function LineBytes(width: nat, bitsPerPixel: nat): (r: nat)
    ensures r * 8 >= width * bitsPerPixel
    ensures r * 8 < width * bitsPerPixel + 8
  {
    (width * bitsPerPixel + 7) / 8
  }

  /** `Pixel<QuadColor>` of `embedded-graphics`: a point with `i32` coordinates and a colour. */
  datatype Pixel = Pixel(x: i32, y: i32, color: QuadColor)

  /** The bounds check of `set_pixel`; the dimensions are compared as `width as i32`. */
  predicate InFrame(p: Pixel, width: u32, height: u32)
  {
    !(p.x < 0 || p.x >= AsI32(width) || p.y < 0 || p.y >= AsI32(height))
  }

  /** The byte that holds pixel `(x, y)`: row-major, `line_bytes` per row. */
  function PixelIndex(x: nat, y: nat, width: u32): nat
  {
    x * BITS_PER_PIXEL / 8 + y * LineBytes(width, BITS_PER_PIXEL)
  }

  /** `set_pixel` indexes the buffer only for a pixel inside the frame; for such a pixel the index
      must be within the buffer (otherwise the slice access panics). */
  predicate Fits(length: nat, width: u32, height: u32, p: Pixel)
  {
    InFrame(p, width, height) ==> PixelIndex(p.x, p.y, width) < length
  }

  predicate AllFit(length: nat, width: u32, height: u32, pixels: seq<Pixel>)
  {
    forall p <- pixels :: Fits(length, width, height, p)
  }

  /** The buffer after `set_pixel`: unchanged outside the frame, otherwise the pixel's field of
      its byte painted with its colour. */
  function WithPixel(buffer: seq<bv8>, width: u32, height: u32, p: Pixel, order: ShiftOrder): (r: seq<bv8>)
    requires Fits(|buffer|, width, height, p)
    ensures |r| == |buffer|
  {
    if !InFrame(p, width, height) then buffer
    else
      var index := PixelIndex(p.x, p.y, width);
      buffer[index := Paint(buffer[index], p.color, p.x, order)]
  }

  /** The colour the buffer holds for pixel `(x, y)`: its field decoded with `from_bits`. */
  function PixelAt(buffer: seq<bv8>, width: u32, x: u32, y: nat, order: ShiftOrder): QuadColor
    requires PixelIndex(x, y, width) < |buffer|
  {
    FromBits(FieldAt(buffer[PixelIndex(x, y, width)], Shift(order, x)))
  }

  /** The buffer after `draw_iter`: `set_pixel` applied to every pixel in order. */
  function DrawAll(buffer: seq<bv8>, width: u32, height: u32, pixels: seq<Pixel>, order: ShiftOrder): (r: seq<bv8>)
    requires AllFit(|buffer|, width, height, pixels)
    ensures |r| == |buffer|
    decreases |pixels|
  {
    if pixels == [] then buffer
    else
      var last := pixels[|pixels| - 1];
      WithPixel(DrawAll(buffer, width, height, pixels[..|pixels| - 1], order), width, height, last, order)
  }

  /** For a pixel inside the frame the index is below `line_bytes(width, 2) * height`, so a buffer
      of that many bytes is never indexed out of bounds. */
  lemma IndexInBounds(p: Pixel, width: u32, height: u32)
    requires InFrame(p, width, height)
    ensures PixelIndex(p.x, p.y, width) < LineBytes(width, BITS_PER_PIXEL) * height
  {
    var lb := LineBytes(width, BITS_PER_PIXEL);
    var col := p.x * BITS_PER_PIXEL / 8;
    assert col * 8 <= p.x * 2 < width * 2 <= lb * 8;
    assert col < lb;
    assert p.y + 1 <= height;
    MulMonotone(height, p.y + 1, lb);
    assert (p.y + 1) * lb == p.y * lb + lb;
  }

  /** Two pixels of the frame that share a byte and a field are the same pixel. */
  lemma AddressInjective(x1: u32, y1: nat, x2: u32, y2: nat, width: u32)
    requires x1 < width && x2 < width
    requires PixelIndex(x1, y1, width) == PixelIndex(x2, y2, width)
    requires x1 % 4 == x2 % 4
    ensures x1 == x2 && y1 == y2
  {
    var lb := LineBytes(width, BITS_PER_PIXEL);
    assert x1 * BITS_PER_PIXEL / 8 == x1 / 4 && x2 * BITS_PER_PIXEL / 8 == x2 / 4;
    assert x1 / 4 < lb && x2 / 4 < lb;
    if y1 != y2 {
      if y1 < y2 {
        RowsApart(y1, y2, lb);
      } else {
        RowsApart(y2, y1, lb);
      }
      assert false;
    }
    assert x1 / 4 == x2 / 4;
  }

  /** A later row starts at least a whole row further on. */
  lemma RowsApart(y1: nat, y2: nat, lb: nat)
    requires y1 < y2
    ensures y1 * lb + lb <= y2 * lb
  {
    MulMonotone(y2, y1 + 1, lb);
  }

  /** Outside the frame `set_pixel` changes no byte. */
  lemma SetPixelOutside(buffer: seq<bv8>, width: u32, height: u32, p: Pixel, order: ShiftOrder)
    requires !InFrame(p, width, height)
    ensures WithPixel(buffer, width, height, p, order) == buffer
  {
  }

  /** Inside the frame `set_pixel` changes only the pixel's byte, and in it only the pixel's field. */
  lemma SetPixelLocal(buffer: seq<bv8>, width: u32, height: u32, p: Pixel, order: ShiftOrder)
    requires InFrame(p, width, height) && Fits(|buffer|, width, height, p)
    ensures var r, index := WithPixel(buffer, width, height, p, order), PixelIndex(p.x, p.y, width);
      && (forall j | 0 <= j < |buffer| && j != index :: r[j] == buffer[j])
      && (forall i: bv8 | i < 8 && i != Shift(order, p.x) && i != Shift(order, p.x) + 1 ::
            Bit(r[index], i) == Bit(buffer[index], i))
  {
  }

  /** A pixel written inside the frame reads back as the colour written. */
  lemma SetThenGet(buffer: seq<bv8>, width: u32, height: u32, p: Pixel, order: ShiftOrder)
    requires InFrame(p, width, height) && Fits(|buffer|, width, height, p)
    ensures PixelAt(WithPixel(buffer, width, height, p, order), width, p.x, p.y, order) == p.color
  {
  }

  /** Writing a pixel leaves the colour of every other pixel as it was. */
  lemma SetPixelKeepsOthers(buffer: seq<bv8>, width: u32, height: u32, p: Pixel, order: ShiftOrder, x: u32, y: nat)
    requires Fits(|buffer|, width, height, p)
    requires x < width && PixelIndex(x, y, width) < |buffer|
    requires !(InFrame(p, width, height) && p.x == x && p.y == y)
    ensures PixelAt(WithPixel(buffer, width, height, p, order), width, x, y, order) == PixelAt(buffer, width, x, y, order)
  {
    if InFrame(p, width, height) {
      var index := PixelIndex(p.x, p.y, width);
      if PixelIndex(x, y, width) == index {
        if x % 4 == p.x % 4 {
          AddressInjective(x, y, p.x, p.y, width);
        }
        PaintOtherField(buffer[index], p.color, p.x, x, order);
      }
    }
  }

  /** `set_pixel` is idempotent: a second identical write changes nothing. */
  lemma SetPixelIdempotent(buffer: seq<bv8>, width: u32, height: u32, p: Pixel, order: ShiftOrder)
    requires Fits(|buffer|, width, height, p)
    ensures WithPixel(WithPixel(buffer, width, height, p, order), width, height, p, order)
         == WithPixel(buffer, width, height, p, order)
  {
    if InFrame(p, width, height) {
      var index := PixelIndex(p.x, p.y, width);
      PaintTwice(buffer[index], p.color, p.color, p.x, order);
    }
  }

  /** After `draw_iter` the last in-frame write to a pixel decides its colour. */
  lemma {:induction false} DrawLastWins(buffer: seq<bv8>, width: u32, height: u32, pixels: seq<Pixel>, order: ShiftOrder, k: nat)
    requires AllFit(|buffer|, width, height, pixels)
    requires k < |pixels| && InFrame(pixels[k], width, height)
    requires forall j | k < j < |pixels| ::
      !(InFrame(pixels[j], width, height) && pixels[j].x == pixels[k].x && pixels[j].y == pixels[k].y)
    ensures PixelIndex(pixels[k].x, pixels[k].y, width) < |buffer|
    ensures PixelAt(DrawAll(buffer, width, height, pixels, order), width, pixels[k].x, pixels[k].y, order) == pixels[k].color
    decreases |pixels|
  {
    assert Fits(|buffer|, width, height, pixels[k]);
    var n := |pixels| - 1;
    var init := pixels[..n];
    var before := DrawAll(buffer, width, height, init, order);
    if k == n {
      SetThenGet(before, width, height, pixels[n], order);
    } else {
      assert forall p <- init :: p in pixels;
      assert init[k] == pixels[k];
      DrawLastWins(buffer, width, height, init, order, k);
      SetPixelKeepsOthers(before, width, height, pixels[n], order, pixels[k].x, pixels[k].y);
    }
  }

  /** After `draw_iter` a pixel that no in-frame write addresses keeps its colour. */
  lemma {:induction false} DrawKeepsUntouched(buffer: seq<bv8>, width: u32, height: u32, pixels: seq<Pixel>, order: ShiftOrder, x: u32, y: nat)
    requires AllFit(|buffer|, width, height, pixels)
    requires x < width && PixelIndex(x, y, width) < |buffer|
    requires forall p <- pixels :: !(InFrame(p, width, height) && p.x == x && p.y == y)
    ensures PixelAt(DrawAll(buffer, width, height, pixels, order), width, x, y, order) == PixelAt(buffer, width, x, y, order)
    decreases |pixels|
  {
    if pixels != [] {
      var n := |pixels| - 1;
      var init := pixels[..n];
      assert forall p <- init :: p in pixels;
      DrawKeepsUntouched(buffer, width, height, init, order, x, y);
      SetPixelKeepsOthers(DrawAll(buffer, width, height, init, order), width, height, pixels[n], order, x, y);
    }
  }

  /** Every pixel of a buffer filled with `default_color_byte()` reads as the default colour. */
  lemma DefaultBufferIsWhite(n: nat, width: u32, x: u32, y: nat, order: ShiftOrder)
    requires PixelIndex(x, y, width) < n
    ensures PixelAt(seq(n, _ => DefaultColorByte()), width, x, y, order) == Default()
  {
  }

  /** A display sized by `buffer_len(width, 2 * height)` holds `line_bytes(width, 2) * height`
      bytes or more, so it contains every index `set_pixel` can compute. */
  lemma BufferLenCoversRows(width: nat, height: nat)
    ensures BufferLen(width, 2 * height) >= LineBytes(width, BITS_PER_PIXEL) * height
  {
    var q := (width + 7) / 8;
    assert q * 8 >= width;
    assert (2 * width + 7) / 8 <= 2 * q;
    BufferLenIsCeiling(width, 2 * height, q);
    MulMonotone(2 * q, LineBytes(width, BITS_PER_PIXEL), height);
    assert q * (2 * height) == 2 * q * height;
  }

  /** `set_pixel(buffer, width, height, pixel)`: writes one pixel of the packed buffer in place. */
  method SetBufferPixel(buffer: array<bv8>, width: u32, height: u32, p: Pixel, order: ShiftOrder)
    requires Fits(buffer.Length, width, height, p)
    modifies buffer
    ensures buffer[..] == WithPixel(old(buffer[..]), width, height, p, order)
  {
    if p.x < 0 || p.x >= AsI32(width) || p.y < 0 || p.y >= AsI32(height) {
      return;
    }
    var index := p.x * BITS_PER_PIXEL / 8 + p.y * LineBytes(width, BITS_PER_PIXEL);
    var (mask, bits) := Bitmask(p.color, p.x, order);
    buffer[index] := (buffer[index] & mask) | (bits as bv8);
  }

  /** `Display<WIDTH, HEIGHT, BYTECOUNT, QuadColor>`: a fixed-size packed buffer of `BYTECOUNT`
      bytes for a `WIDTH` x `HEIGHT` raster. The shift direction is the build's. */
  class Display {
    const width: u32
    const height: u32
    const order: ShiftOrder
    const buffer: array<bv8>

    /** `Display::default()`: every byte holds `default_color_byte()`. */
    constructor Default(width: u32, height: u32, byteCount: nat, order: ShiftOrder)
      ensures this.width == width && this.height == height && this.order == order
      ensures fresh(buffer) && buffer.Length == byteCount
      ensures forall j | 0 <= j < byteCount :: buffer[j] == DefaultColorByte()
    {
      this.width := width;
      this.height := height;
      this.order := order;
      buffer := new bv8[byteCount](_ => DefaultColorByte());
    }

    /** `buffer()`: the stored bytes, all `BYTECOUNT` of them; nothing changes. */
    method Buffer() returns (bytes: seq<bv8>)
      ensures bytes == buffer[..] && |bytes| == buffer.Length
    {
      bytes := buffer[..];
    }

    /** `Display::set_pixel(pixel)`. */
    method SetPixel(p: Pixel)
      requires Fits(buffer.Length, width, height, p)
      modifies buffer
      ensures buffer[..] == WithPixel(old(buffer[..]), width, height, p, order)
    {
      SetBufferPixel(buffer, width, height, p, order);
    }

    /** `draw_iter(pixels)`: every pixel written in order; the error type is `Infallible`. */
    method DrawIter(pixels: seq<Pixel>)
      requires AllFit(buffer.Length, width, height, pixels)
      modifies buffer
      ensures buffer[..] == DrawAll(old(buffer[..]), width, height, pixels, order)
    {
      var i := 0;
      while i < |pixels|
        invariant 0 <= i <= |pixels|
        invariant buffer[..] == DrawAll(old(buffer[..]), width, height, pixels[..i], order)
      {
        assert pixels[..i + 1][..i] == pixels[..i];
        SetPixel(pixels[i]);
        i := i + 1;
      }
      assert pixels[..|pixels|] == pixels;
    }
  }
}
