/** Crate-level definitions of the driver: the machine integer ranges the code works in
    and `buffer_len`, the byte count of a packed raster. */
module Lib {

  /** Rust `u32`. */
  type u32 = x: int | 0 <= x < 0x1_0000_0000

  /** Rust `i32`, the coordinate type of a pixel's point. */
  type i32 = x: int | -0x8000_0000 <= x < 0x8000_0000

  /** The cast `w as i32` of a `u32`: the bit pattern is kept, so values from 2^31 up turn negative. */
  function AsI32(w: u32): (r: i32)
    ensures w < 0x8000_0000 ==> r == w
    ensures w >= 0x8000_0000 ==> r < 0
    ensures r <= w
  {
    if w < 0x8000_0000 then w else w - 0x1_0000_0000
  }

  /** The cast `n as i32` of a `usize`: the low 32 bits are kept and read as two's complement. */
  function UsizeAsI32(n: nat): (r: i32)
    ensures n < 0x8000_0000 ==> r == n
    ensures (n - r) % 0x1_0000_0000 == 0
  {
    AsI32(n % 0x1_0000_0000)
  }

  /** `buffer_len(width, height)`: every row of `width` bits is rounded up to whole bytes.
      The length leaves room for `width` bits per row and pads each row by less than one byte. */
  function BufferLen(width: nat, height: nat): (r: nat)
    ensures r * 8 >= width * height
    ensures r * 8 <= (width + 7) * height
  {
    var rowBytes := (width + 7) / 8;
    assert rowBytes * 8 >= width && rowBytes * 8 <= width + 7;
    MulMonotone(rowBytes * 8, width, height);
    MulMonotone(width + 7, rowBytes * 8, height);
    rowBytes * height
  }

  lemma MulMonotone(a: nat, b: nat, c: nat)
    requires a >= b
    ensures a * c >= b * c
  {
  }

  /** The length is the ceiling of `width / 8` times `height`: any `rowBytes` that is that ceiling gives it. */
  lemma BufferLenIsCeiling(width: nat, height: nat, rowBytes: nat)
    requires rowBytes * 8 >= width && rowBytes * 8 < width + 8
    ensures BufferLen(width, height) == rowBytes * height
  {
    assert (width + 7) / 8 == rowBytes;
  }

  /** Without padding, the length is exactly `width / 8 * height`. */
  lemma BufferLenWholeBytes(width: nat, height: nat)
    requires width % 8 == 0
    ensures BufferLen(width, height) == width / 8 * height
  {
    BufferLenIsCeiling(width, height, width / 8);
  }

  /** A wider or taller raster never needs fewer bytes. */
  lemma {:induction false} BufferLenMonotone(w1: nat, h1: nat, w2: nat, h2: nat)
    requires w1 <= w2 && h1 <= h2
    ensures BufferLen(w1, h1) <= BufferLen(w2, h2)
  {
    var r1, r2 := (w1 + 7) / 8, (w2 + 7) / 8;
    assert r1 <= r2;
    MulMonotone(r2, r1, h1);
    assert r2 * h1 <= r2 * h2;
  }

  /** The concatenation of a sequence of sequences, in order. */
  function Concat<T>(parts: seq<seq<T>>): seq<T>
    decreases |parts|
  {
    if parts == [] then [] else Concat(parts[..|parts| - 1]) + parts[|parts| - 1]
  }

  /** Concatenation distributes over appending parts. */
  lemma {:induction false} ConcatAppend<T>(a: seq<seq<T>>, b: seq<seq<T>>)
    ensures Concat(a + b) == Concat(a) + Concat(b)
    decreases |b|
  {
    if b == [] {
      assert a + b == a;
    } else {
      var n := |b| - 1;
      assert (a + b)[..|a + b| - 1] == a + b[..n];
      ConcatAppend(a, b[..n]);
    }
  }

  /** The parts before index `k` concatenate to a prefix of the whole. */
  lemma {:induction false} ConcatPrefix<T>(parts: seq<seq<T>>, k: nat)
    requires k <= |parts|
    ensures Concat(parts[..k]) <= Concat(parts)
  {
    assert parts == parts[..k] + parts[k..];
    ConcatAppend(parts[..k], parts[k..]);
  }
}
