/**
 * ColorUtils: packing four 8-bit channels into one ARGB int, and the channel extraction the
 * fluid renderer uses to take such an int apart. A Java int is modelled by its 32-bit
 * two's-complement pattern, on which `&`, `|` and `<<` act exactly as on bv32; the renderer's
 * arithmetic `>>` differs from bv32's logical `>>` only in the bits that the following
 * `& 0xFF` clears.
 */
module ColorUtils {

  /** A Java int, as its bit pattern. */
  type Int32 = bv32

  const FULL_CHANNEL: Int32 := 255
  const EMPTY_CHANNEL: Int32 := 0

  /** The four channels of a colour. */
  datatype Argb = Argb(a: Int32, r: Int32, g: Int32, b: Int32)

  predicate InRange(c: Argb) {
    c.a <= 0xFF && c.r <= 0xFF && c.g <= 0xFF && c.b <= 0xFF
  }

  /** The eight bits starting at bit `shift`: `color >> shift & 0xFF`. */
  function Channel(color: Int32, shift: bv32): (v: Int32)
    requires shift <= 24
    ensures v <= 0xFF
  {
    (color >> shift) & 0xFF
  }

  /** pack(r, g, b, a): alpha in bits 24-31, red in 16-23, green in 8-15, blue in 0-7, each input masked to 8 bits. */
  function Pack(r: Int32, g: Int32, b: Int32, a: Int32): (color: Int32)
    ensures Channel(color, 24) == a & FULL_CHANNEL
    ensures Channel(color, 16) == r & FULL_CHANNEL
    ensures Channel(color, 8) == g & FULL_CHANNEL
    ensures Channel(color, 0) == b & FULL_CHANNEL
  {
    var color: Int32 := 0;
    var color := color | ((a & FULL_CHANNEL) << 24);
    var color := color | ((r & FULL_CHANNEL) << 16);
    var color := color | ((g & FULL_CHANNEL) << 8);
    color | ((b & FULL_CHANNEL) << 0)
  }

  /** pack(r, g, b): an opaque colour. */
  function PackOpaque(r: Int32, g: Int32, b: Int32): (color: Int32)
    ensures Channel(color, 24) == FULL_CHANNEL
    ensures Channel(color, 16) == r & FULL_CHANNEL && Channel(color, 8) == g & FULL_CHANNEL
    ensures Channel(color, 0) == b & FULL_CHANNEL
  {
    Pack(r, g, b, FULL_CHANNEL)
  }

  /** pack(c): an opaque grey. */
  function PackGrey(c: Int32): (color: Int32)
    ensures Channel(color, 24) == FULL_CHANNEL
    ensures Channel(color, 16) == Channel(color, 8) == Channel(color, 0) == c & FULL_CHANNEL
  {
    PackOpaque(c, c, c)
  }

  /** The renderer's extraction of a colour into a, r, g and b. */
  function Unpack(color: Int32): (c: Argb)
    ensures InRange(c)
  {
    Argb(Channel(color, 24), Channel(color, 16), Channel(color, 8), Channel(color, 0))
  }

  /** Only the low eight bits of each input matter: out-of-range inputs wrap instead of bleeding into other channels. */
  lemma PackMasks(r: Int32, g: Int32, b: Int32, a: Int32)
    ensures Pack(r, g, b, a) == Pack(r & 0xFF, g & 0xFF, b & 0xFF, a & 0xFF)
    ensures Unpack(Pack(r, g, b, a)) == Argb(a & 0xFF, r & 0xFF, g & 0xFF, b & 0xFF)
  {
  }

  /** Unpacking a packed in-range colour gives back its channels. */
  lemma UnpackPack(c: Argb)
    requires InRange(c)
    ensures Unpack(Pack(c.r, c.g, c.b, c.a)) == c
  {
    LowByte(c.a);
    LowByte(c.r);
    LowByte(c.g);
    LowByte(c.b);
  }

  lemma LowByte(x: Int32)
    requires x <= 0xFF
    ensures x & 0xFF == x
  {
  }

  /** Packing the channels of any colour gives it back: the four channels cover all 32 bits. */
  lemma PackUnpack(color: Int32)
    ensures var c := Unpack(color); Pack(c.r, c.g, c.b, c.a) == color
  {
  }

  /** Distinct in-range channel tuples pack to distinct ints. */
  lemma {:induction false} PackInjective(c: Argb, d: Argb)
    requires InRange(c) && InRange(d)
    requires Pack(c.r, c.g, c.b, c.a) == Pack(d.r, d.g, d.b, d.a)
    ensures c == d
  {
    UnpackPack(c);
    UnpackPack(d);
  }

  /** The three overloads agree with one another. */
  lemma OverloadsAgree(c: Int32)
    ensures PackGrey(c) == Pack(c, c, c, 255)
    ensures Unpack(PackGrey(c)) == Argb(255, c & 0xFF, c & 0xFF, c & 0xFF)
  {
  }
}
