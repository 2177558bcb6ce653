/**
 * Colours as the driver transmits them. A primitive sends `color & 0x3FFFF`,
 * the eighteen bits DB0..DB17 can carry; the header's constants, however,
 * give each channel its own byte. This module states what the mask does to
 * the constants as written, and gives the 6-6-6 packing under which every
 * channel survives the mask.
 */
module Colour {
  import opened Ili9488Header
  import opened Bus

  /** A colour in the layout of the header's constants: red, green and blue each in its own byte. */
  function PackBytes(r: nat, g: nat, b: nat): (c: nat)
    requires r < 0x100 && g < 0x100 && b < 0x100
    ensures c < 0x100_0000
  {
    r * 0x1_0000 + g * 0x100 + b
  }

  /**
   * In the byte layout the 18-bit mask keeps green and blue and the two low
   * bits of red only: a colour survives the mask exactly when its red byte is
   * below 4.
   */
  lemma MaskOfBytePacked(r: nat, g: nat, b: nat)
    requires r < 0x100 && g < 0x100 && b < 0x100
    ensures Low18(PackBytes(r, g, b)) == PackBytes(r % 4, g, b)
    ensures Low18(PackBytes(r, g, b)) == PackBytes(r, g, b) <==> r < 4
  {
    var c := PackBytes(r, g, b);
    DivModUnique(c, WORD_SPAN, r / 4, PackBytes(r % 4, g, b));
  }

  /**
   * What the mask does to the header's constants: BLACK, GREEN, BLUE and CYAN
   * pass unchanged; RED, WHITE, YELLOW and MAGENTA lose the top four bits of
   * their red byte.
   */
  lemma MaskTruncatesRed()
    ensures Low18(BLACK as nat) == BLACK as nat && Low18(GREEN as nat) == GREEN as nat
    ensures Low18(BLUE as nat) == BLUE as nat && Low18(CYAN as nat) == CYAN as nat
    ensures Low18(RED as nat) == 0x03_0000 != RED as nat
    ensures Low18(WHITE as nat) == 0x03_FFFF != WHITE as nat
    ensures Low18(YELLOW as nat) == 0x03_3F00 != YELLOW as nat
    ensures Low18(MAGENTA as nat) == 0x03_003F != MAGENTA as nat
  {
  }

  // ---------------------------------------------------------------------
  // RGB666 as an 18-bit bus word: red on DB12..DB17, green on DB6..DB11,
  // blue on DB0..DB5.

  function Rgb666(r: nat, g: nat, b: nat): (c: nat)
    requires r < 64 && g < 64 && b < 64
    ensures c < WORD_SPAN
  {
    r * 0x1000 + g * 0x40 + b
  }

  function RedOf(c: nat): nat { (c / 0x1000) % 64 }
  function GreenOf(c: nat): nat { (c / 0x40) % 64 }
  function BlueOf(c: nat): nat { c % 64 }

  /** A 6-6-6 colour passes the 18-bit mask unchanged and its three channels read back. */
  lemma Rgb666MaskRoundTrip(r: nat, g: nat, b: nat)
    requires r < 64 && g < 64 && b < 64
    ensures Low18(Rgb666(r, g, b)) == Rgb666(r, g, b)
    ensures RedOf(Rgb666(r, g, b)) == r
    ensures GreenOf(Rgb666(r, g, b)) == g
    ensures BlueOf(Rgb666(r, g, b)) == b
  {
    var c := Rgb666(r, g, b);
    DivModUnique(c, 0x1000, r, g * 0x40 + b);
    DivModUnique(c, 0x40, r * 0x40 + g, b);
    DivModUnique(r * 0x40 + g, 64, r, g);
  }

  /**
   * The channels the controller reads from the header's constants once they
   * are masked: RED arrives as red 48 of 63; GREEN as green 60 with red 3;
   * CYAN as green 60, blue 63 and red 3; YELLOW as red 51 with green 60;
   * MAGENTA as red 48 with blue 63. Only BLACK, WHITE and BLUE arrive as the
   * colour they name.
   */
  lemma HeaderColoursOnBus()
    ensures RedOf(Low18(RED as nat)) == 48 && GreenOf(Low18(RED as nat)) == 0 && BlueOf(Low18(RED as nat)) == 0
    ensures RedOf(Low18(GREEN as nat)) == 3 && GreenOf(Low18(GREEN as nat)) == 60 && BlueOf(Low18(GREEN as nat)) == 0
    ensures RedOf(Low18(CYAN as nat)) == 3 && GreenOf(Low18(CYAN as nat)) == 60 && BlueOf(Low18(CYAN as nat)) == 63
    ensures RedOf(Low18(BLUE as nat)) == 0 && GreenOf(Low18(BLUE as nat)) == 0 && BlueOf(Low18(BLUE as nat)) == 63
    ensures RedOf(Low18(WHITE as nat)) == 63 && GreenOf(Low18(WHITE as nat)) == 63 && BlueOf(Low18(WHITE as nat)) == 63
    ensures RedOf(Low18(BLACK as nat)) == 0 && GreenOf(Low18(BLACK as nat)) == 0 && BlueOf(Low18(BLACK as nat)) == 0
    ensures RedOf(Low18(YELLOW as nat)) == 51 && GreenOf(Low18(YELLOW as nat)) == 60 && BlueOf(Low18(YELLOW as nat)) == 0
    ensures RedOf(Low18(MAGENTA as nat)) == 48 && GreenOf(Low18(MAGENTA as nat)) == 0 && BlueOf(Low18(MAGENTA as nat)) == 63
  {
  }

  // The header's colours re-packed as 6-6-6 words.
  const RGB666_BLACK: uint32 := 0x00000
  const RGB666_WHITE: uint32 := 0x3FFFF
  const RGB666_RED: uint32 := 0x3F000
  const RGB666_GREEN: uint32 := 0x00FC0
  const RGB666_BLUE: uint32 := 0x0003F
  const RGB666_YELLOW: uint32 := 0x3FFC0
  const RGB666_CYAN: uint32 := 0x00FFF
  const RGB666_MAGENTA: uint32 := 0x3F03F

  const RGB666_COLOURS: seq<uint32> :=
    [RGB666_BLACK, RGB666_WHITE, RGB666_RED, RGB666_GREEN, RGB666_BLUE, RGB666_YELLOW, RGB666_CYAN, RGB666_MAGENTA]

  /** Each re-packed constant carries the channels its name says, at full 6-bit intensity. */
  lemma Rgb666Constants()
    ensures RedOf(RGB666_BLACK as nat) == 0 && GreenOf(RGB666_BLACK as nat) == 0 && BlueOf(RGB666_BLACK as nat) == 0
    ensures RedOf(RGB666_WHITE as nat) == 63 && GreenOf(RGB666_WHITE as nat) == 63 && BlueOf(RGB666_WHITE as nat) == 63
    ensures RedOf(RGB666_RED as nat) == 63 && GreenOf(RGB666_RED as nat) == 0 && BlueOf(RGB666_RED as nat) == 0
    ensures RedOf(RGB666_GREEN as nat) == 0 && GreenOf(RGB666_GREEN as nat) == 63 && BlueOf(RGB666_GREEN as nat) == 0
    ensures RedOf(RGB666_BLUE as nat) == 0 && GreenOf(RGB666_BLUE as nat) == 0 && BlueOf(RGB666_BLUE as nat) == 63
    ensures RedOf(RGB666_YELLOW as nat) == 63 && GreenOf(RGB666_YELLOW as nat) == 63 && BlueOf(RGB666_YELLOW as nat) == 0
    ensures RedOf(RGB666_CYAN as nat) == 0 && GreenOf(RGB666_CYAN as nat) == 63 && BlueOf(RGB666_CYAN as nat) == 63
    ensures RedOf(RGB666_MAGENTA as nat) == 63 && GreenOf(RGB666_MAGENTA as nat) == 0 && BlueOf(RGB666_MAGENTA as nat) == 63
    ensures forall k :: 0 <= k < |RGB666_COLOURS| ==> Low18(RGB666_COLOURS[k] as nat) == RGB666_COLOURS[k] as nat
  {
  }
}
