/**
 * The public definitions of the ILI9488 driver: the C integer widths it
 * uses, the panel dimensions, the colour constants and the rotation values.
 */
module Ili9488Header {

  /** The C fixed-width unsigned integer types of the driver's interface. */
  newtype uint8 = x: int | 0 <= x < 0x100
  newtype uint16 = x: int | 0 <= x < 0x1_0000
  newtype uint32 = x: int | 0 <= x < 0x1_0000_0000

  // Panel dimensions, in pixels.
  const PORTRAIT_WIDTH: uint16 := 320
  const PORTRAIT_HEIGHT: uint16 := 480
  const LANDSCAPE_WIDTH: uint16 := 480
  const LANDSCAPE_HEIGHT: uint16 := 320

  /** The number of pixels on the panel. */
  const PANEL_PIXELS: nat := 153600

  // Colour constants as the header writes them: one byte per channel.
  const BLACK: uint32 := 0x000000
  const WHITE: uint32 := 0x3FFFFF
  const RED: uint32 := 0x3F0000
  const GREEN: uint32 := 0x003F00
  const BLUE: uint32 := 0x00003F
  const YELLOW: uint32 := 0x3F3F00
  const CYAN: uint32 := 0x003F3F
  const MAGENTA: uint32 := 0x3F003F

  /** The eight colour constants of the header. */
  const COLOURS: seq<uint32> := [BLACK, WHITE, RED, GREEN, BLUE, YELLOW, CYAN, MAGENTA]

  // The values of ILI9488_Rotation_t.
  const ROTATION_PORTRAIT: uint8 := 0
  const ROTATION_LANDSCAPE: uint8 := 1
  const ROTATION_PORTRAIT_INV: uint8 := 2
  const ROTATION_LANDSCAPE_INV: uint8 := 3

  /** r is one of the four enumerated rotations. */
  predicate IsRotation(r: uint8) {
    ROTATION_PORTRAIT <= r <= ROTATION_LANDSCAPE_INV
  }

  /** The rotations in which the panel is taller than it is wide. */
  predicate IsPortraitFamily(r: uint8) {
    r == ROTATION_PORTRAIT || r == ROTATION_PORTRAIT_INV
  }

  /** The rotations in which the panel is wider than it is tall. */
  predicate IsLandscapeFamily(r: uint8) {
    r == ROTATION_LANDSCAPE || r == ROTATION_LANDSCAPE_INV
  }

  /** The two families split the enumerated rotations between them and nothing else. */
  lemma RotationFamiliesPartition(r: uint8)
    ensures IsRotation(r) <==> IsPortraitFamily(r) || IsLandscapeFamily(r)
    ensures !(IsPortraitFamily(r) && IsLandscapeFamily(r))
  {
  }

  /** The landscape extent is the portrait extent turned by a quarter; both cover the panel. */
  lemma DimensionsSwap()
    ensures LANDSCAPE_WIDTH == PORTRAIT_HEIGHT && LANDSCAPE_HEIGHT == PORTRAIT_WIDTH
    ensures PORTRAIT_WIDTH as nat * PORTRAIT_HEIGHT as nat == PANEL_PIXELS
    ensures LANDSCAPE_WIDTH as nat * LANDSCAPE_HEIGHT as nat == PANEL_PIXELS
  {
  }

  /** Every colour constant lies in the range 0x000000..0x3FFFFF that the documentation states. */
  lemma ColoursInDocumentedRange()
    ensures forall k :: 0 <= k < |COLOURS| ==> COLOURS[k] <= 0x3FFFFF
  {
  }
}
