/** Engine and SDK colour values: 8-bit RGBA colours (`FColor`, and the
  * SDK's `InstaColorRGBA8`, which has the same channels) and the SDK's
  * 16-bit RGB colours (`InstaColorRGB16`).
  */
module UEColor {
  newtype byte = x: int | 0 <= x < 0x100
  newtype uint16 = x: int | 0 <= x < 0x1_0000

  datatype Color = Color(r: byte, g: byte, b: byte, a: byte)

  datatype ColorRGB16 = ColorRGB16(r: uint16, g: uint16, b: uint16)

  /** A texel as `FColor::DWColor` holds it: B in bits 0-7, G in 8-15, R in
    * 16-23 and A in 24-31. */
  type Texel = bv32

  /** Byte `k` of a texel: 0 is blue, 1 green, 2 red, 3 alpha. */
  function Channel(d: Texel, k: nat): (c: Texel)
    requires k < 4
    ensures c <= 0xFF
  {
    if k == 0 then d & 0xFF
    else if k == 1 then (d >> 8) & 0xFF
    else if k == 2 then (d >> 16) & 0xFF
    else (d >> 24) & 0xFF
  }

  /** `FColor::Red` with its alpha cleared: the red byte only. */
  const RedMask: Texel := 0x00FF_0000
  /** `FColor::Black`: alpha 0xFF, colour bytes 0. */
  const BlackDW: Texel := 0xFF00_0000

  /** What one packed property ORs into a texel: black plus the sample's red
    * byte shifted right by 0, 8 or 16 bits, so that Metallic stays in red,
    * Roughness goes to green and Specular to blue. */
  function PackedContribution(sample: Texel, k: nat): Texel
    requires k < 3
  {
    if k == 0 then BlackDW + ((sample & RedMask) >> 0)
    else if k == 1 then BlackDW + ((sample & RedMask) >> 8)
    else BlackDW + ((sample & RedMask) >> 16)
  }

  /** A texel of the packed texture: the contributions of the three
    * properties present (`b0`, `b1`, `b2`) ORed into a zeroed texel, in
    * order. */
  function PackedTexel(x0: Texel, x1: Texel, x2: Texel, b0: bool, b1: bool, b2: bool): Texel {
    ((0 | (if b0 then PackedContribution(x0, 0) else 0))
        | (if b1 then PackedContribution(x1, 1) else 0))
        | (if b2 then PackedContribution(x2, 2) else 0)
  }

  /** The bytes of a packed texel: alpha is 0xFF when any property is
    * present (0 otherwise); red, green and blue are the red bytes of the
    * first, second and third property, 0 for one not present. */
  lemma PackedTexelBytes(x0: Texel, x1: Texel, x2: Texel, b0: bool, b1: bool, b2: bool)
    ensures var t := PackedTexel(x0, x1, x2, b0, b1, b2);
      && Channel(t, 3) == (if b0 || b1 || b2 then 0xFF else 0)
      && Channel(t, 2) == (if b0 then Channel(x0, 2) else 0)
      && Channel(t, 1) == (if b1 then Channel(x1, 2) else 0)
      && Channel(t, 0) == (if b2 then Channel(x2, 2) else 0)
  {
  }
}
