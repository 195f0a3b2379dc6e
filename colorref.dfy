/**
 * Win32 `COLORREF` packing: a 32-bit value 0x00BBGGRR built by the `RGB`
 * macro and taken apart by `GetRValue`, `GetGValue` and `GetBValue`.
 */
module ColorRef {

  type Colorref = bv32

  /** `(BYTE)x`: the low eight bits of an `int` (two's complement, so x mod 256). */
  function Byte(x: int): (b: bv8)
    ensures b as int == x % 256
  {
    (x % 256) as bv8
  }

  /** The packing itself: red in bits 0-7, green in 8-15, blue in 16-23. */
  function Pack(r: bv8, g: bv8, b: bv8): (c: Colorref)
    ensures c < 0x100_0000
  {
    (r as bv32) | ((g as bv32) << 8) | ((b as bv32) << 16)
  }

  /** `RGB(r, g, b)`: each argument cast to `BYTE`, then packed. */
  function RGB(r: int, g: int, b: int): Colorref {
    Pack(Byte(r), Byte(g), Byte(b))
  }

  /** `GetRValue(c)`: `LOBYTE(c)`. */
  function GetRValue(c: Colorref): bv8 {
    (c & 0xFF) as bv8
  }

  /** `GetGValue(c)`: `LOBYTE(c >> 8)`. */
  function GetGValue(c: Colorref): bv8 {
    ((c >> 8) & 0xFF) as bv8
  }

  /** `GetBValue(c)`: `LOBYTE(c >> 16)`. */
  function GetBValue(c: Colorref): bv8 {
    ((c >> 16) & 0xFF) as bv8
  }

  /** A colour `RGB` can produce: the top byte is zero. */
  predicate IsRgb(c: Colorref) {
    c < 0x100_0000
  }

  /** Unpacking a packed colour gives back its three channels. */
  lemma UnpackPack(r: bv8, g: bv8, b: bv8)
    ensures GetRValue(Pack(r, g, b)) == r
    ensures GetGValue(Pack(r, g, b)) == g
    ensures GetBValue(Pack(r, g, b)) == b
  {
  }

  /** Packing the unpacked channels restores exactly the colours `RGB` makes. */
  lemma PackUnpack(c: Colorref)
    ensures Pack(GetRValue(c), GetGValue(c), GetBValue(c)) == c <==> IsRgb(c)
  {
  }

  /** `GetRValue(RGB(r, g, b))` is r mod 256, and likewise for green and blue. */
  lemma ChannelsOfRGB(r: int, g: int, b: int)
    ensures GetRValue(RGB(r, g, b)) as int == r % 256
    ensures GetGValue(RGB(r, g, b)) as int == g % 256
    ensures GetBValue(RGB(r, g, b)) as int == b % 256
  {
    UnpackPack(Byte(r), Byte(g), Byte(b));
  }

  /** `RGB` of the printed channel values rebuilds a colour `RGB` made. */
  lemma RGBOfChannels(c: Colorref)
    requires IsRgb(c)
    ensures RGB(GetRValue(c) as int, GetGValue(c) as int, GetBValue(c) as int) == c
  {
    ByteOfByte(GetRValue(c));
    ByteOfByte(GetGValue(c));
    ByteOfByte(GetBValue(c));
    PackUnpack(c);
  }

  lemma ByteOfByte(x: bv8)
    ensures Byte(x as int) == x
  {
    assert 0 <= x as int < 256;
    assert (x as int) % 256 == x as int;
  }
}
