/**
 * Addressing and orientation: how an address window is encoded as column
 * (0x2A), page (0x2B) and memory-write (0x2C) transactions, which pair of
 * coordinates goes to which axis in each rotation, and the MADCTL byte that
 * each rotation selects.
 */
module Addressing {
  import opened Ili9488Header
  import opened Bus

  /** A column range and a page range, in controller address terms. */
  datatype Window = Window(col0: uint16, col1: uint16, page0: uint16, page1: uint16)

  /** `v >> 8` */
  function HighByte(v: uint16): nat
  {
    v as nat / 0x100
  }

  /** `v & 0xFF` */
  function LowByte(v: uint16): nat
  {
    v as nat % 0x100
  }

  /**
   * One address range as the controller takes it: the command, then the
   * start and the end coordinate, each as its high byte and its low byte.
   */
  function RangeEvents(cmd: uint8, first: uint16, last: uint16): seq<Event>
  {
    [Cmd(cmd as nat), Data(HighByte(first)), Data(LowByte(first)), Data(HighByte(last)), Data(LowByte(last))]
  }

  /**
   * The eleven transactions that program window w: the column range, the page
   * range, then the memory-write command that starts the pixel stream.
   */
  function AddressEvents(w: Window): seq<Event>
  {
    RangeEvents(CMD_COLUMN_ADDR, w.col0, w.col1) + RangeEvents(CMD_PAGE_ADDR, w.page0, w.page1)
    + [Cmd(CMD_MEMORY_WRITE as nat)]
  }

  /**
   * The transactions of ILI9488_SetAddressWindow(x0, y0, x1, y1) under the
   * stored rotation: x on the column axis in the portrait family, y on it in
   * the landscape family, and nothing at all for a rotation outside 0..3.
   */
  function WindowEvents(rotation: uint8, x0: uint16, y0: uint16, x1: uint16, y1: uint16): seq<Event>
  {
    if IsPortraitFamily(rotation) then AddressEvents(Window(x0, x1, y0, y1))
    else if IsLandscapeFamily(rotation) then AddressEvents(Window(y0, y1, x0, x1))
    else []
  }

  /** The coordinate carried by a high-byte and a low-byte data transaction, if they are such. */
  function DecodeCoordinate(hi: Event, lo: Event): (v: Option<uint16>)
    ensures v.Some? ==> hi.Data? && lo.Data? && v.value as nat == hi.word * 0x100 + lo.word
  {
    if hi.Data? && lo.Data? && hi.word < 0x100 && lo.word < 0x100
    then Some((hi.word * 0x100 + lo.word) as uint16)
    else None
  }

  /** The window that a run of eleven transactions programs, if it is a well-formed window. */
  function DecodeAddress(t: seq<Event>): Option<Window>
  {
    if |t| != 11 || t[0] != Cmd(CMD_COLUMN_ADDR as nat) || t[5] != Cmd(CMD_PAGE_ADDR as nat)
       || t[10] != Cmd(CMD_MEMORY_WRITE as nat)
    then None
    else
      match (DecodeCoordinate(t[1], t[2]), DecodeCoordinate(t[3], t[4]),
             DecodeCoordinate(t[6], t[7]), DecodeCoordinate(t[8], t[9]))
      case (Some(c0), Some(c1), Some(p0), Some(p1)) => Some(Window(c0, c1, p0, p1))
      case _ => None
  }

  /** Each byte is at most 0xFF and high * 256 + low recovers the coordinate. */
  lemma ByteSplit(v: uint16)
    ensures HighByte(v) <= 0xFF && LowByte(v) <= 0xFF
    ensures HighByte(v) * 0x100 + LowByte(v) == v as nat
  {
  }

  /** The two data bytes of a coordinate decode back to that coordinate. */
  lemma CoordinateRoundTrip(v: uint16)
    ensures DecodeCoordinate(Data(HighByte(v)), Data(LowByte(v))) == Some(v)
  {
    ByteSplit(v);
  }

  /** The window encoding has eleven transactions and decodes back to the window it encodes. */
  lemma AddressRoundTrip(w: Window)
    ensures |AddressEvents(w)| == 11
    ensures DecodeAddress(AddressEvents(w)) == Some(w)
  {
    ByteSplit(w.col0);
    ByteSplit(w.col1);
    ByteSplit(w.page0);
    ByteSplit(w.page1);
  }

  /** Distinct windows are encoded by distinct transaction runs. */
  lemma AddressInjective(w: Window, w': Window)
    requires AddressEvents(w) == AddressEvents(w')
    ensures w == w'
  {
    AddressRoundTrip(w);
    AddressRoundTrip(w');
  }

  /**
   * In the encoding, transactions 0, 5 and 10 are the three commands and the
   * other eight are data bytes no larger than 0xFF.
   */
  lemma AddressEventsShape(w: Window)
    ensures |AddressEvents(w)| == 11
    ensures forall k :: 0 <= k < 11 ==>
      (AddressEvents(w)[k].Cmd? <==> k == 0 || k == 5 || k == 10) &&
      (AddressEvents(w)[k].Data? <==> !(k == 0 || k == 5 || k == 10)) &&
      (AddressEvents(w)[k].Data? ==> AddressEvents(w)[k].word <= 0xFF)
  {
    ByteSplit(w.col0);
    ByteSplit(w.col1);
    ByteSplit(w.page0);
    ByteSplit(w.page1);
  }

  /**
   * SetAddressWindow sends (x0, x1) as the column range in the portrait family
   * and as the page range in the landscape family; out of range it sends nothing.
   */
  lemma WindowEventsAxes(rotation: uint8, x0: uint16, y0: uint16, x1: uint16, y1: uint16)
    ensures IsPortraitFamily(rotation) ==>
      DecodeAddress(WindowEvents(rotation, x0, y0, x1, y1)) == Some(Window(x0, x1, y0, y1))
    ensures IsLandscapeFamily(rotation) ==>
      DecodeAddress(WindowEvents(rotation, x0, y0, x1, y1)) == Some(Window(y0, y1, x0, x1))
    ensures !IsRotation(rotation) <==> WindowEvents(rotation, x0, y0, x1, y1) == []
  {
    AddressRoundTrip(Window(x0, x1, y0, y1));
    AddressRoundTrip(Window(y0, y1, x0, x1));
  }

  /**
   * The primitives pass their coordinates swapped in the landscape family and
   * SetAddressWindow swaps them again, so in every rotation the column range
   * carries the x coordinates and the page range the y coordinates.
   */
  lemma SwapsCancel(rotation: uint8, x0: uint16, y0: uint16, x1: uint16, y1: uint16)
    requires IsRotation(rotation)
    ensures (if IsPortraitFamily(rotation) then WindowEvents(rotation, x0, y0, x1, y1)
             else WindowEvents(rotation, y0, x0, y1, x1))
            == AddressEvents(Window(x0, x1, y0, y1))
  {
  }

  /** A 16-bit parameter receiving the int value v: C's conversion keeps v modulo 2^16. */
  function Wrap16(v: int): (r: uint16)
    ensures 0 <= v < 0x1_0000 ==> r as int == v
    ensures (v - r as int) % 0x1_0000 == 0
  {
    (v % 0x1_0000) as uint16
  }

  // ---------------------------------------------------------------------
  // Rotation.

  /** ili9488_rotations: the MADCTL byte of each enumerated rotation. */
  const MADCTL_TABLE: seq<uint8> := [0x48, 0x28, 0x88, 0xE8]

  /** The rotation SetRotation uses: an input above 3 becomes portrait. */
  function ClampRotation(r: uint8): (c: uint8)
    ensures IsRotation(c)
    ensures IsRotation(r) ==> c == r
    ensures !IsRotation(r) ==> c == ROTATION_PORTRAIT
  {
    if r > ROTATION_LANDSCAPE_INV then ROTATION_PORTRAIT else r
  }

  /** The MADCTL byte SetRotation(r) sends. */
  function Madctl(r: uint8): uint8
  {
    MADCTL_TABLE[ClampRotation(r)]
  }

  /** The transactions of ILI9488_SetRotation(r). */
  function RotationEvents(r: uint8): seq<Event>
  {
    [Cmd(CMD_MEMORY_ACCESS as nat), Data(Madctl(r) as nat)]
  }

  /** The table entry of each rotation, and portrait's for every value above 3. */
  lemma MadctlValues(r: uint8)
    ensures r == ROTATION_PORTRAIT ==> Madctl(r) == 0x48
    ensures r == ROTATION_LANDSCAPE ==> Madctl(r) == 0x28
    ensures r == ROTATION_PORTRAIT_INV ==> Madctl(r) == 0x88
    ensures r == ROTATION_LANDSCAPE_INV ==> Madctl(r) == 0xE8
    ensures !IsRotation(r) ==> Madctl(r) == 0x48
  {
  }

  /** The four rotations select four distinct MADCTL bytes. */
  lemma MadctlDistinct(r: uint8, r': uint8)
    requires IsRotation(r) && IsRotation(r') && r != r'
    ensures Madctl(r) != Madctl(r')
  {
  }

  /**
   * The row/column exchange bit of MADCTL (bit 5) is set exactly for the
   * landscape family, the same split SetAddressWindow tests; the BGR bit
   * (bit 3) is set for every rotation.
   */
  lemma MadctlExchangeBit(r: uint8)
    ensures Bit(Madctl(r) as nat, 5) <==> IsLandscapeFamily(ClampRotation(r))
    ensures Bit(Madctl(r) as nat, 3)
  {
    var m := Madctl(r) as nat;
    assert m == 0x48 || m == 0x28 || m == 0x88 || m == 0xE8;
  }
}
