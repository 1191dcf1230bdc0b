/** The panel's four-colour space and how one colour is packed into a 2-bit field of a byte. */
module Color {
  import opened Lib

  /** `QuadColor`: the four colours the panel shows. */
  datatype QuadColor = Black | White | Red | Yellow

  /** `QuadColor::default()`: white, the colour of blank paper, whose code `01` fills
      `default_color_byte`. */
  function Default(): (r: QuadColor)
    ensures Code(r) == 0x1
  {
    White
  }

  /** `ColorType::BITS_PER_PIXEL` of `QuadColor`. */
  const BITS_PER_PIXEL: nat := 2

  /** Where the pixel `pos % 4` of a byte sits. The hardware build puts pixel 0 in the two most
      significant bits (`6 - (pos % 4) * 2`); the simulator build puts it in the two least
      significant bits (`(pos % 4) * 2`). */
  datatype ShiftOrder = MsbFirst | LsbFirst

  /** The bit shift of the field of pixel `pos`. Field `k` of a byte covers bits `2k` and `2k+1`. */
  function Shift(order: ShiftOrder, pos: u32): (s: bv8)
    ensures s <= 6 && s % 2 == 0
    ensures order == LsbFirst ==> s as int / 2 == pos % 4
    ensures order == MsbFirst ==> s as int / 2 == 3 - pos % 4
  {
    var k := pos % 4;
    match order
    case MsbFirst => if k == 0 then 6 else if k == 1 then 4 else if k == 2 then 2 else 0
    case LsbFirst => if k == 0 then 0 else if k == 1 then 2 else if k == 2 then 4 else 6
  }

  /** The 2-bit code of a colour, as `bitmask` writes it. */
  function Code(c: QuadColor): (r: bv8)
    ensures r <= 3
  {
    match c
    case Black => 0x0
    case White => 0x1
    case Yellow => 0x2
    case Red => 0x3
  }

  /** `from_bits`: total; decodes the four codes and maps everything above 3 to black. */
  function FromBits(bits: bv8): (r: QuadColor)
    ensures bits <= 3 ==> Code(r) == bits
    ensures bits > 3 ==> r == Black
  {
    match bits
    case 0x1 => White
    case 0x2 => Yellow
    case 0x3 => Red
    case _ => Black
  }

  /** Decoding inverts encoding: every colour comes back from its code. */
  lemma FromBitsCode(c: QuadColor)
    ensures FromBits(Code(c)) == c
  {
    match c
    case Black =>
    case White =>
    case Yellow =>
    case Red =>
  }

  /** A 2-bit code of an `embedded-graphics` raw pixel value. */
  type RawU2 = b: bv8 | b <= 3

  /** `From<RawU2> for QuadColor`: agrees with `from_bits` on every raw value. */
  function FromRawU2(raw: RawU2): (r: QuadColor)
    ensures r == FromBits(raw)
    ensures Code(r) == raw
  {
    match raw
    case 0x0 => Black
    case 0x1 => White
    case 0x2 => Yellow
    case _ => Red
  }

  /** Bit `i` of a byte. */
  predicate Bit(b: bv8, i: bv8)
    requires i < 8
  {
    (b >> i) & 1 == 1
  }

  /** Bit `i` of a mask is zero: a write through the mask clears it. */
  predicate Cleared(mask: bv8, i: bv8)
    requires i < 8
  {
    (mask >> i) & 1 == 0
  }

  /** The 2-bit field of a byte at shift `s`. */
  function FieldAt(b: bv8, s: bv8): (r: bv8)
    requires s <= 6
    ensures r <= 3
  {
    (b >> s) & 3
  }

  /** `bitmask(pos)`: a mask that clears the field of pixel `pos` and the colour's code moved into
      that field (returned as `u16`). The mask has exactly two zero bits, the value lies inside them
      and fits in a byte. */
  function Bitmask(c: QuadColor, pos: u32, order: ShiftOrder): (r: (bv8, bv16))
    ensures r.1 <= 0xFF
    ensures r.0 & (r.1 as bv8) == 0
    ensures forall i: bv8 | i < 8 :: Cleared(r.0, i) <==> i == Shift(order, pos) || i == Shift(order, pos) + 1
    ensures FieldAt(r.1 as bv8, Shift(order, pos)) == Code(c)
  {
    var s := Shift(order, pos);
    (!((0x3 as bv8) << s), (Code(c) as bv16) << s)
  }

  /** The field at shift `s` overwritten with `code`. */
  function SetField(b: bv8, code: bv8, s: bv8): bv8
    requires s <= 6
  {
    (b & !((0x3 as bv8) << s)) | (code << s)
  }

  /** `byte & mask | value as u8`: paints pixel `pos` of a byte with a colour. The field then decodes
      to that colour and every bit outside it is unchanged. */
  function Paint(b: bv8, c: QuadColor, pos: u32, order: ShiftOrder): (r: bv8)
    ensures FromBits(FieldAt(r, Shift(order, pos))) == c
    ensures forall i: bv8 | i < 8 && i != Shift(order, pos) && i != Shift(order, pos) + 1 :: Bit(r, i) == Bit(b, i)
  {
    var (mask, value) := Bitmask(c, pos, order);
    var s := Shift(order, pos);
    PaintField(b, Code(c), s);
    FromBitsCode(c);
    assert (b & mask) | (value as bv8) == SetField(b, Code(c), s);
    (b & mask) | (value as bv8)
  }

  /** The field update at one of the four shifts, with the shift made concrete. */
  lemma PaintField(b: bv8, code: bv8, s: bv8)
    requires s <= 6 && s % 2 == 0 && code <= 3
    ensures ((code as bv16) << s) as bv8 == code << s
    ensures FieldAt(SetField(b, code, s), s) == code
    ensures forall i: bv8 | i < 8 && i != s && i != s + 1 :: Bit(SetField(b, code, s), i) == Bit(b, i)
  {
  }

  /** `default_color_byte()`: `0x55`, the default colour in all four fields. */
  function DefaultColorByte(): (r: bv8)
    ensures forall s: bv8 | s <= 6 && s % 2 == 0 :: FromBits(FieldAt(r, s)) == Default()
  {
    0x55
  }

  /** The shift depends only on `pos % 4`: positions congruent modulo 4 share mask and value. */
  lemma ShiftPeriodic(order: ShiftOrder, c: QuadColor, p: u32, q: u32)
    requires p % 4 == q % 4
    ensures Shift(order, p) == Shift(order, q)
    ensures Bitmask(c, p, order) == Bitmask(c, q, order)
  {
  }

  /** Different pixels of one byte have different fields. */
  lemma ShiftDistinct(order: ShiftOrder, p: u32, q: u32)
    requires p % 4 != q % 4
    ensures Shift(order, p) != Shift(order, q)
  {
  }

  /** Painting one pixel of a byte leaves the field of every other pixel of that byte as it was. */
  lemma PaintOtherField(b: bv8, c: QuadColor, p: u32, q: u32, order: ShiftOrder)
    requires p % 4 != q % 4
    ensures FieldAt(Paint(b, c, p, order), Shift(order, q)) == FieldAt(b, Shift(order, q))
  {
    var s, t, r := Shift(order, p), Shift(order, q), Paint(b, c, p, order);
    assert t != s && t != s + 1 && t + 1 != s && t + 1 != s + 1;
    assert Bit(r, t) == Bit(b, t) && Bit(r, t + 1) == Bit(b, t + 1);
    FieldOfBits(r, b, t);
  }

  /** A field is determined by its two bits. */
  lemma FieldOfBits(x: bv8, y: bv8, t: bv8)
    requires t <= 6
    requires Bit(x, t) == Bit(y, t) && Bit(x, t + 1) == Bit(y, t + 1)
    ensures FieldAt(x, t) == FieldAt(y, t)
  {
  }

  /** Painting the same pixel twice: the second colour wins, and repeating a colour changes nothing. */
  lemma PaintTwice(b: bv8, c1: QuadColor, c2: QuadColor, pos: u32, order: ShiftOrder)
    ensures Paint(Paint(b, c1, pos, order), c2, pos, order) == Paint(b, c2, pos, order)
  {
    var s, p1 := Shift(order, pos), Paint(b, c1, pos, order);
    PaintUnfold(b, c1, pos, order);
    PaintUnfold(b, c2, pos, order);
    PaintUnfold(p1, c2, pos, order);
    RepaintField(b, Code(c1), Code(c2), s);
  }

  /** `Paint` is the overwrite of the field at its shift. */
  lemma PaintUnfold(b: bv8, c: QuadColor, pos: u32, order: ShiftOrder)
    ensures Paint(b, c, pos, order) == SetField(b, Code(c), Shift(order, pos))
  {
    PaintField(b, Code(c), Shift(order, pos));
  }

  lemma RepaintField(b: bv8, k1: bv8, k2: bv8, s: bv8)
    requires s <= 6 && k1 <= 3 && k2 <= 3
    ensures SetField(SetField(b, k1, s), k2, s) == SetField(b, k2, s)
  {
  }
}
