/** Channel values, packed colours and the float-like ordered key shared by
    the quantizer and the ditherers. */
module Colors {

  /** One 8-bit channel (GDI+ BYTE). */
  type Byte = x: int | 0 <= x < 256

  /** A 16-bit slot index, as produced by GetARGBIndex and used to address the
      65536-entry bin array and the lookup tables. */
  type Slot = x: int | 0 <= x < 65536

  const BYTE_MAX: int := 255
  const USHRT_MAX: int := 65535
  const INT_MAX: int := 2147483647

  /** A GDI+ Color: the four bytes of one packed ARGB value. */
  datatype Color = Color(a: Byte, r: Byte, g: Byte, b: Byte)

  const Transparent: Color := Color(0, 255, 255, 255)
  const Black: Color := Color(255, 0, 0, 0)
  const White: Color := Color(255, 255, 255, 255)

  /** `static_cast<BYTE>(min(BYTE_MAX, max(v, 0)))` on a float: clamp to
      0..255, then drop the fraction. */
  function ClampByte(v: real): (r: Byte)
    ensures v <= 0.0 ==> r == 0
    ensures v >= 255.0 ==> r == 255
    ensures 0.0 <= v <= 255.0 ==> r as real <= v < r as real + 1.0
  {
    if v < 0.0 then 0 else if v > 255.0 then 255 else v.Floor
  }

  /** Narrowing of an int to BYTE: keeps the low eight bits. */
  function ToByte(v: int): (r: Byte)
    ensures 0 <= v < 256 ==> r == v
    ensures (r - v) % 256 == 0
  {
    v % 256
  }

  /** A float that is either finite or +infinity (what `float err = 1e100`
      becomes), ordered as floats are. */
  datatype Key = Fin(v: real) | Inf

  predicate KeyLe(x: Key, y: Key)
  {
    match (x, y)
    case (Fin(a), Fin(b)) => a <= b
    case (_, Inf) => true
    case (Inf, Fin(_)) => false
  }

  predicate KeyLt(x: Key, y: Key)
  {
    !KeyLe(y, x)
  }

  lemma {:induction false} KeyLeTransitive(x: Key, y: Key, z: Key)
    requires KeyLe(x, y) && KeyLe(y, z)
    ensures KeyLe(x, z)
  {
  }

  /** Round half to even, the default rounding of C's rint. */
  function Rint(v: real): (r: int)
    ensures v - 0.5 <= r as real <= v + 0.5
    ensures v == v.Floor as real ==> r == v.Floor
    ensures v >= 0.0 ==> r >= 0
  {
    var f := v.Floor;
    var frac := v - f as real;
    if frac < 0.5 then f
    else if frac > 0.5 then f + 1
    else if f % 2 == 0 then f else f + 1
  }

  /** `x + y * width`: the offset of pixel (x, y) in a row-major buffer. */
  function PixelIndex(width: int, x: int, y: int): int
  {
    x + y * width
  }

  /** Every pixel of a width x height image has its own offset in the buffer,
      and every offset belongs to a pixel. */
  lemma {:induction false} PixelIndexInRange(width: int, height: int, x: int, y: int)
    requires 0 <= x < width && 0 <= y < height
    ensures 0 <= PixelIndex(width, x, y) < width * height
  {
    assert y * width <= (height - 1) * width;
  }

  lemma {:induction false} PixelOfIndex(width: int, height: int, i: int)
    requires width >= 1 && 0 <= i < width * height
    ensures 0 <= i % width < width && 0 <= i / width < height
    ensures PixelIndex(width, i % width, i / width) == i
  {
    var q := i / width;
    assert q * width <= i;
    if q >= height {
      MulMono(height, q, width);
    }
  }

  /** The offset of pixel (x, y) divides back into its column and row. */
  lemma {:induction false} IndexOfPixel(width: int, x: int, y: int)
    requires 0 <= x < width && y >= 0
    ensures PixelIndex(width, x, y) % width == x && PixelIndex(width, x, y) / width == y
  {
    var i := PixelIndex(width, x, y);
    var q, r := i / width, i % width;
    assert i == q * width + r && 0 <= r < width;
    if q > y {
      MulMono(y + 1, q, width);
      assert false;
    } else if q < y {
      MulMono(q + 1, y, width);
      assert false;
    }
    assert q * width == y * width;
  }

  lemma {:induction false} MulMono(a: int, b: int, c: int)
    requires a <= b && c >= 0
    ensures a * c <= b * c
  {
  }
}
