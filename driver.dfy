/**
 * The ILI9488 driver as a bus-transaction encoder. An Ili9488 object holds
 * the stored rotation, the levels of the control and data lines, and the
 * append-only trace of transactions, resets and delays the calls produce.
 */
module Driver {
  import opened Ili9488Header
  import opened Bus
  import opened Addressing

  /** n copies of e. */
  function Repeat(e: Event, n: nat): (t: seq<Event>)
    ensures |t| == n && forall k :: 0 <= k < n ==> t[k] == e
  {
    seq(n, _ => e)
  }

  /** The colour word a primitive sends for color: `color & 0x3FFFF`. */
  function ColourWord(color: uint32): (w: nat)
    ensures w < WORD_SPAN
  {
    Low18(color as nat)
  }

  /**
   * What a primitive sends when drawing into window w with count colour
   * words: the window, then count copies of the masked colour, or nothing at
   * all when the stored rotation is none of the four enumerated values.
   */
  function Primitive(rotation: uint8, w: Window, count: nat, color: uint32): seq<Event>
  {
    if IsRotation(rotation) then AddressEvents(w) + Repeat(Data(ColourWord(color)), count) else []
  }

  /** The window of a w by h rectangle at (x, y); its ends wrap modulo 2^16. */
  function RectWindow(x: uint16, y: uint16, w: uint16, h: uint16): Window
  {
    Window(x, Wrap16(x as int + w as int - 1), y, Wrap16(y as int + h as int - 1))
  }

  /** The window DrawCircle and FillCircle program: from the centre to centre + radius. */
  function CircleWindow(x0: uint16, y0: uint16, radius: uint16): Window
  {
    Window(x0, Wrap16(x0 as int + radius as int), y0, Wrap16(y0 as int + radius as int))
  }

  lemma ConcatAssoc(t: seq<Event>, a: seq<Event>, b: seq<Event>, c: seq<Event>)
    ensures t + a + b + c == t + (a + b + c)
  {
  }

  lemma InitAssoc(t: seq<Event>, a: seq<Event>, b: seq<Event>, c: seq<Event>, e: seq<Event>)
    ensures t + a + b + c + e == t + (a + b + c + e)
  {
  }

  /** The whole panel: columns 0..319, pages 0..479. */
  const PANEL_WINDOW: Window := Window(0, PORTRAIT_WIDTH - 1, 0, PORTRAIT_HEIGHT - 1)

  const DISPLAY_OFF_EVENTS: seq<Event> := [Cmd(CMD_DISPLAY_OFF as nat), Delay(20)]
  const DISPLAY_ON_EVENTS: seq<Event> := [Cmd(CMD_DISPLAY_ON as nat), Delay(20)]

  /** The hardware reset pulse: RESET low for 20 ms, then high and 120 ms to recover. */
  const HARD_RESET_EVENTS: seq<Event> := [Reset(false), Delay(20), Reset(true), Delay(120)]

  /** Sleep-out with its 120 ms wait, then the pixel format 0x66 (18 bits per pixel). */
  const CONFIGURE_EVENTS: seq<Event> :=
    [Cmd(CMD_SLEEP_OUT as nat), Delay(120), Cmd(CMD_PIXEL_FORMAT as nat), Data(0x66)]

  /** Everything ILI9488_Init(r) sends: reset, configuration, MADCTL, display on. */
  function InitEvents(r: uint8): seq<Event>
  {
    HARD_RESET_EVENTS + CONFIGURE_EVENTS + RotationEvents(r) + DISPLAY_ON_EVENTS
  }
  const SLEEP_EVENTS: seq<Event> := DISPLAY_OFF_EVENTS + [Cmd(CMD_SLEEP_IN as nat), Delay(120)]
  const WAKE_UP_EVENTS: seq<Event> := DISPLAY_ON_EVENTS + [Cmd(CMD_SLEEP_OUT as nat), Delay(20)]

  // ---------------------------------------------------------------------
  // Properties of the transaction scripts.

  /**
   * Under an enumerated rotation a primitive sends its window as eleven
   * transactions and then exactly count data words, each the masked colour
   * and so below 2^18; under any other stored rotation it sends nothing.
   */
  lemma PrimitiveShape(rotation: uint8, w: Window, count: nat, color: uint32)
    ensures IsRotation(rotation) ==>
      |Primitive(rotation, w, count, color)| == 11 + count &&
      DecodeAddress(Primitive(rotation, w, count, color)[..11]) == Some(w) &&
      forall k :: 11 <= k < 11 + count ==> Primitive(rotation, w, count, color)[k] == Data(ColourWord(color))
    ensures ColourWord(color) < WORD_SPAN
    ensures !IsRotation(rotation) <==> Primitive(rotation, w, count, color) == []
  {
    var p := Primitive(rotation, w, count, color);
    if IsRotation(rotation) {
      AddressRoundTrip(w);
      assert p[..11] == AddressEvents(w);
      forall k | 11 <= k < 11 + count
        ensures p[k] == Data(ColourWord(color))
      {
        assert p[k] == Repeat(Data(ColourWord(color)), count)[k - 11];
      }
    }
  }

  /**
   * The C loop bound `(uint32_t)w * h` never wraps: the product of two
   * 16-bit values fits in 32 bits, so DrawRect and FillRect send exactly w * h words.
   */
  lemma RectCountFits(w: uint16, h: uint16)
    ensures w as nat * h as nat < 0x1_0000_0000
  {
    MulAtMost(w as nat, 0xFFFF, h as nat);
    MulAtMost(h as nat, 0xFFFF, 0xFFFF);
  }

  lemma MulAtMost(a: nat, m: nat, b: nat)
    requires a <= m
    ensures a * b <= m * b
  {
    var d := m - a;
    assert m * b == a * b + d * b;
  }

  /**
   * The ends `x + w - 1` and `y + h - 1` of a rectangle's window: exact while
   * they fit in 16 bits (an empty rectangle included), reduced by 2^16 past the end of the coordinate
   * range, and 0xFFFF for an empty rectangle at 0.
   */
  lemma RectWindowEnds(x: uint16, y: uint16, w: uint16, h: uint16)
    ensures 1 <= x as nat + w as nat <= 0x1_0000 ==>
      RectWindow(x, y, w, h).col1 as nat == x as nat + w as nat - 1
    ensures 1 <= y as nat + h as nat <= 0x1_0000 ==>
      RectWindow(x, y, w, h).page1 as nat == y as nat + h as nat - 1
    ensures x as nat + w as nat > 0x1_0000 ==>
      RectWindow(x, y, w, h).col1 as nat == x as nat + w as nat - 1 - 0x1_0000
    ensures y as nat + h as nat > 0x1_0000 ==>
      RectWindow(x, y, w, h).page1 as nat == y as nat + h as nat - 1 - 0x1_0000
    ensures x == 0 && w == 0 ==> RectWindow(x, y, w, h).col1 == 0xFFFF
    ensures y == 0 && h == 0 ==> RectWindow(x, y, w, h).page1 == 0xFFFF
  {
  }

  /**
   * When a non-empty rectangle fits in the coordinate range, its window
   * holds exactly w * h pixels: one for every colour word the rectangle sends.
   */
  lemma RectWindowArea(x: uint16, y: uint16, w: uint16, h: uint16)
    requires 1 <= w && 1 <= h
    requires x as nat + w as nat <= 0x1_0000 && y as nat + h as nat <= 0x1_0000
    ensures var win := RectWindow(x, y, w, h);
      (win.col1 as nat - win.col0 as nat + 1) * (win.page1 as nat - win.page0 as nat + 1) == w as nat * h as nat
  {
    RectWindowEnds(x, y, w, h);
  }

  /**
   * A stored rotation outside 0..3 gets portrait's MADCTL byte, and so the
   * same Init script as portrait, yet every primitive afterwards sends
   * nothing, where under portrait it would send its window and colour words.
   */
  lemma RawRotationSilences(r: uint8, w: Window, count: nat, color: uint32)
    requires !IsRotation(r)
    ensures Madctl(r) == Madctl(ROTATION_PORTRAIT)
    ensures InitEvents(r) == InitEvents(ROTATION_PORTRAIT)
    ensures Primitive(r, w, count, color) == []
    ensures |Primitive(ROTATION_PORTRAIT, w, count, color)| == 11 + count
  {
    PrimitiveShape(ROTATION_PORTRAIT, w, count, color);
  }

  /**
   * Init's script: twelve events, the reset pulse before any bus
   * transaction, and the rotation visible only in the MADCTL byte at
   * position 9, so two Init calls send the same script exactly when their
   * rotations select the same MADCTL byte.
   */
  lemma InitScriptShape(r: uint8, r': uint8)
    ensures |InitEvents(r)| == 12
    ensures forall k :: 0 <= k < 4 ==> InitEvents(r)[k].Reset? || InitEvents(r)[k].Delay?
    ensures InitEvents(r)[0] == Reset(false) && InitEvents(r)[2] == Reset(true)
    ensures InitEvents(r)[8] == Cmd(CMD_MEMORY_ACCESS as nat) && InitEvents(r)[9] == Data(Madctl(r) as nat)
    ensures InitEvents(r) == InitEvents(r') <==> Madctl(r) == Madctl(r')
  {
    var prefix := HARD_RESET_EVENTS + CONFIGURE_EVENTS;
    assert |prefix| == 8;
    assert InitEvents(r) == prefix + RotationEvents(r) + DISPLAY_ON_EVENTS;
    assert InitEvents(r)[9] == RotationEvents(r)[1];
    if Madctl(r) == Madctl(r') {
      assert RotationEvents(r) == RotationEvents(r');
    }
  }

  class Ili9488 {
    /** ili9488_rotation, stored exactly as Init received it. */
    var rotation: uint8
    // Line levels; true is high.
    var cs: bool
    var dcx: bool
    var wr: bool
    var rst: bool
    /** DB0..DB17. */
    var db: seq<bool>
    /** Every transaction, reset level and delay so far, oldest first. */
    var trace: seq<Event>

    /** The control and data lines show transaction e: DCX says its kind and DB0..DB17 its word. */
    ghost predicate LinesShow(e: Event)
      reads this
    {
      (e.Cmd? || e.Data?) && dcx == e.Data? && db == LinesOf(e.word)
    }

    /** Between calls there are eighteen data lines, and chip-select and WR are released (high). */
    ghost predicate Valid()
      reads this
    {
      |db| == BUS_WIDTH && cs && wr
    }

    /** The driver before any call: portrait stored (as `ili9488_rotation`'s initialiser), lines idle, nothing sent. */
    constructor ()
      ensures Valid() && trace == [] && rotation == ROTATION_PORTRAIT && rst
      ensures dcx && db == seq(BUS_WIDTH, _ => false)
    {
      rotation := ROTATION_PORTRAIT;
      cs, dcx, wr, rst := true, true, true, true;
      db := seq(BUS_WIDTH, _ => false);
      trace := [];
    }

    // -------------------------------------------------------------------
    // Foreign capabilities: the RESET line and HAL_Delay.

    method SetResetLine(high: bool)
      requires Valid()
      modifies this
      ensures Valid() && rst == high
      ensures trace == old(trace) + [Reset(high)]
      ensures rotation == old(rotation) && db == old(db) && dcx == old(dcx)
    {
      rst := high;
      trace := trace + [Reset(high)];
    }

    method HalDelay(ms: nat)
      requires Valid()
      modifies this
      ensures Valid()
      ensures trace == old(trace) + [Delay(ms)]
      ensures rotation == old(rotation) && rst == old(rst) && db == old(db) && dcx == old(dcx)
    {
      trace := trace + [Delay(ms)];
    }

    // -------------------------------------------------------------------
    // Bus transport and transaction framing.

    /**
     * ILI9488_Write18: DB0..DB17 take bits 0..17 of data (higher bits are
     * ignored), then WR is pulsed low and released high; the controller
     * latches the lines, tagged by DCX, on the rising edge. Its callers hold
     * chip-select low.
     */
    method Write18(data: uint32)
      requires |db| == BUS_WIDTH && !cs
      modifies this
      ensures |db| == BUS_WIDTH && wr
      ensures db == LinesOf(data as nat)
      ensures trace == old(trace) + [Latched(dcx, Low18(data as nat))]
      ensures cs == old(cs) && dcx == old(dcx) && rst == old(rst) && rotation == old(rotation)
    {
      // Clear every data line, then raise those whose bit is set.
      var lines := seq(BUS_WIDTH, _ => false);
      for i := 0 to BUS_WIDTH
        invariant |lines| == BUS_WIDTH
        invariant forall k :: 0 <= k < i ==> lines[k] == Bit(data as nat, k)
        invariant forall k :: i <= k < BUS_WIDTH ==> !lines[k]
      {
        if Bit(data as nat, i) {
          lines := lines[i := true];
        }
      }
      assert lines == LinesOf(data as nat);
      db := lines;
      wr := false;
      wr := true;
      LinesValueOfBits(db, data as nat);
      Pow2Eighteen();
      trace := trace + [Latched(dcx, LinesValue(db))];
    }

    /** ILI9488_WriteCommand: one transaction with DCX low; DB8..DB17 carry zeros. */
    method WriteCommand(cmd: uint8)
      requires Valid()
      modifies this
      ensures Valid()
      ensures LinesShow(Cmd(cmd as nat))
      ensures forall i :: 8 <= i < BUS_WIDTH ==> !db[i]
      ensures trace == old(trace) + [Cmd(cmd as nat)]
      ensures rotation == old(rotation) && rst == old(rst)
    {
      cs := false;
      dcx := false;
      Write18(cmd as uint32);
      cs := true;
      assert Pow2(8) == 0x100;
      forall i | 8 <= i < BUS_WIDTH
        ensures !db[i]
      {
        HighBitsClear(cmd as nat, 8, i);
      }
    }

    /** ILI9488_WriteData: one transaction with DCX high carrying the low 18 bits of data. */
    method WriteData(data: uint32)
      requires Valid()
      modifies this
      ensures Valid()
      ensures LinesShow(Data(Low18(data as nat)))
      ensures trace == old(trace) + [Data(Low18(data as nat))]
      ensures rotation == old(rotation) && rst == old(rst)
    {
      cs := false;
      dcx := true;
      Write18(data);
      cs := true;
      LinesOfLow18(data as nat);
    }

    // -------------------------------------------------------------------
    // Address window.

    /**
     * One address range as ILI9488_SetAddressWindow sends it: the command,
     * then `first >> 8`, `first & 0xFF`, `last >> 8`, `last & 0xFF`.
     */
    method SendRange(cmd: uint8, first: uint16, last: uint16)
      requires Valid()
      modifies this
      ensures Valid() && LinesShow(Data(LowByte(last)))
      ensures trace == old(trace) + RangeEvents(cmd, first, last)
      ensures rotation == old(rotation) && rst == old(rst)
    {
      ByteSplit(first);
      ByteSplit(last);
      WriteCommand(cmd);
      WriteData(HighByte(first) as uint32);
      WriteData(LowByte(first) as uint32);
      WriteData(HighByte(last) as uint32);
      WriteData(LowByte(last) as uint32);
    }

    /**
     * ILI9488_SetAddressWindow: the window transactions for the stored
     * rotation, the column range carrying x in the portrait family and y in
     * the landscape family.
     */
    method SetAddressWindow(x0: uint16, y0: uint16, x1: uint16, y1: uint16)
      requires Valid()
      modifies this
      ensures Valid()
      ensures trace == old(trace) + WindowEvents(old(rotation), x0, y0, x1, y1)
      ensures rotation == old(rotation) && rst == old(rst)
      ensures IsRotation(old(rotation)) ==> LinesShow(Cmd(CMD_MEMORY_WRITE as nat))
      ensures !IsRotation(old(rotation)) ==> db == old(db) && dcx == old(dcx)
    {
      if IsPortraitFamily(rotation) {
        ghost var t0 := trace;
        SendRange(CMD_COLUMN_ADDR, x0, x1);
        SendRange(CMD_PAGE_ADDR, y0, y1);
        WriteCommand(CMD_MEMORY_WRITE);
        ConcatAssoc(t0, RangeEvents(CMD_COLUMN_ADDR, x0, x1),
          RangeEvents(CMD_PAGE_ADDR, y0, y1), [Cmd(CMD_MEMORY_WRITE as nat)]);
      } else if IsLandscapeFamily(rotation) {
        ghost var t0 := trace;
        SendRange(CMD_COLUMN_ADDR, y0, y1);
        SendRange(CMD_PAGE_ADDR, x0, x1);
        WriteCommand(CMD_MEMORY_WRITE);
        ConcatAssoc(t0, RangeEvents(CMD_COLUMN_ADDR, y0, y1),
          RangeEvents(CMD_PAGE_ADDR, x0, x1), [Cmd(CMD_MEMORY_WRITE as nat)]);
      }
    }

    // -------------------------------------------------------------------
    // Drawing primitives. In every rotation the column range carries x and
    // the page range y: the landscape branches swap their arguments and
    // SetAddressWindow swaps them back.

    /** ILI9488_DrawPixel: the one-pixel window at (x, y) and one colour word. */
    method DrawPixel(x: uint16, y: uint16, color: uint32)
      requires Valid()
      modifies this
      ensures Valid()
      ensures trace == old(trace) + Primitive(old(rotation), Window(x, x, y, y), 1, color)
      ensures rotation == old(rotation) && rst == old(rst)
      ensures IsRotation(old(rotation)) ==> LinesShow(Data(ColourWord(color)))
      ensures !IsRotation(old(rotation)) ==> db == old(db) && dcx == old(dcx)
    {
      if IsPortraitFamily(rotation) {
        SetAddressWindow(x, y, x, y);
        WriteData(ColourWord(color) as uint32);
      } else if IsLandscapeFamily(rotation) {
        SetAddressWindow(y, x, y, x);
        WriteData(ColourWord(color) as uint32);
      }
    }

    /** ILI9488_DrawLine: the window (x0, y0)..(x1, y1), then a whole panel's worth of colour words. */
    method DrawLine(x0: uint16, y0: uint16, x1: uint16, y1: uint16, color: uint32)
      requires Valid()
      modifies this
      ensures Valid()
      ensures trace == old(trace) + Primitive(old(rotation), Window(x0, x1, y0, y1), PANEL_PIXELS, color)
      ensures rotation == old(rotation) && rst == old(rst)
      ensures IsRotation(old(rotation)) ==> LinesShow(Data(ColourWord(color)))
      ensures !IsRotation(old(rotation)) ==> db == old(db) && dcx == old(dcx)
    {
      if IsPortraitFamily(rotation) {
        SetAddressWindow(x0, y0, x1, y1);
        ghost var start := trace;
        for i := 0 to PORTRAIT_WIDTH as nat * PORTRAIT_HEIGHT as nat
          invariant Valid() && rotation == old(rotation) && rst == old(rst)
          invariant trace == start + Repeat(Data(ColourWord(color)), i)
          invariant LinesShow(if i == 0 then Cmd(CMD_MEMORY_WRITE as nat) else Data(ColourWord(color)))
        {
          WriteData(ColourWord(color) as uint32);
        }
      } else if IsLandscapeFamily(rotation) {
        SetAddressWindow(y0, x0, y1, x1);
        ghost var start := trace;
        for i := 0 to LANDSCAPE_WIDTH as nat * LANDSCAPE_HEIGHT as nat
          invariant Valid() && rotation == old(rotation) && rst == old(rst)
          invariant trace == start + Repeat(Data(ColourWord(color)), i)
          invariant LinesShow(if i == 0 then Cmd(CMD_MEMORY_WRITE as nat) else Data(ColourWord(color)))
        {
          WriteData(ColourWord(color) as uint32);
        }
      }
    }

    /** ILI9488_DrawRect: the rectangle's window and w * h colour words, as FillRect. */
    method DrawRect(x: uint16, y: uint16, w: uint16, h: uint16, color: uint32)
      requires Valid()
      modifies this
      ensures Valid()
      ensures trace == old(trace) + Primitive(old(rotation), RectWindow(x, y, w, h), w as nat * h as nat, color)
      ensures rotation == old(rotation) && rst == old(rst)
      ensures IsRotation(old(rotation)) ==>
        LinesShow(if w as nat * h as nat == 0 then Cmd(CMD_MEMORY_WRITE as nat) else Data(ColourWord(color)))
      ensures !IsRotation(old(rotation)) ==> db == old(db) && dcx == old(dcx)
    {
      if IsPortraitFamily(rotation) {
        SetAddressWindow(x, y, Wrap16(x as int + w as int - 1), Wrap16(y as int + h as int - 1));
        ghost var start := trace;
        for i := 0 to w as nat * h as nat
          invariant Valid() && rotation == old(rotation) && rst == old(rst)
          invariant trace == start + Repeat(Data(ColourWord(color)), i)
          invariant LinesShow(if i == 0 then Cmd(CMD_MEMORY_WRITE as nat) else Data(ColourWord(color)))
        {
          WriteData(ColourWord(color) as uint32);
        }
      } else if IsLandscapeFamily(rotation) {
        SetAddressWindow(y, x, Wrap16(y as int + h as int - 1), Wrap16(x as int + w as int - 1));
        ghost var start := trace;
        for i := 0 to h as nat * w as nat
          invariant Valid() && rotation == old(rotation) && rst == old(rst)
          invariant trace == start + Repeat(Data(ColourWord(color)), i)
          invariant LinesShow(if i == 0 then Cmd(CMD_MEMORY_WRITE as nat) else Data(ColourWord(color)))
        {
          WriteData(ColourWord(color) as uint32);
        }
      }
    }

    /** ILI9488_FillRect: the rectangle's window and w * h colour words. */
    method FillRect(x: uint16, y: uint16, w: uint16, h: uint16, color: uint32)
      requires Valid()
      modifies this
      ensures Valid()
      ensures trace == old(trace) + Primitive(old(rotation), RectWindow(x, y, w, h), w as nat * h as nat, color)
      ensures rotation == old(rotation) && rst == old(rst)
      ensures IsRotation(old(rotation)) ==>
        LinesShow(if w as nat * h as nat == 0 then Cmd(CMD_MEMORY_WRITE as nat) else Data(ColourWord(color)))
      ensures !IsRotation(old(rotation)) ==> db == old(db) && dcx == old(dcx)
    {
      if IsPortraitFamily(rotation) {
        SetAddressWindow(x, y, Wrap16(x as int + w as int - 1), Wrap16(y as int + h as int - 1));
        ghost var start := trace;
        for i := 0 to w as nat * h as nat
          invariant Valid() && rotation == old(rotation) && rst == old(rst)
          invariant trace == start + Repeat(Data(ColourWord(color)), i)
          invariant LinesShow(if i == 0 then Cmd(CMD_MEMORY_WRITE as nat) else Data(ColourWord(color)))
        {
          WriteData(ColourWord(color) as uint32);
        }
      } else if IsLandscapeFamily(rotation) {
        SetAddressWindow(y, x, Wrap16(y as int + h as int - 1), Wrap16(x as int + w as int - 1));
        ghost var start := trace;
        for i := 0 to h as nat * w as nat
          invariant Valid() && rotation == old(rotation) && rst == old(rst)
          invariant trace == start + Repeat(Data(ColourWord(color)), i)
          invariant LinesShow(if i == 0 then Cmd(CMD_MEMORY_WRITE as nat) else Data(ColourWord(color)))
        {
          WriteData(ColourWord(color) as uint32);
        }
      }
    }

    /** ILI9488_DrawCircle: the window centre..centre + radius, then a whole panel's worth of colour words. */
    method DrawCircle(x0: uint16, y0: uint16, radius: uint16, color: uint32)
      requires Valid()
      modifies this
      ensures Valid()
      ensures trace == old(trace) + Primitive(old(rotation), CircleWindow(x0, y0, radius), PANEL_PIXELS, color)
      ensures rotation == old(rotation) && rst == old(rst)
      ensures IsRotation(old(rotation)) ==> LinesShow(Data(ColourWord(color)))
      ensures !IsRotation(old(rotation)) ==> db == old(db) && dcx == old(dcx)
    {
      if IsPortraitFamily(rotation) {
        SetAddressWindow(x0, y0, Wrap16(x0 as int + radius as int), Wrap16(y0 as int + radius as int));
        ghost var start := trace;
        for i := 0 to PORTRAIT_WIDTH as nat * PORTRAIT_HEIGHT as nat
          invariant Valid() && rotation == old(rotation) && rst == old(rst)
          invariant trace == start + Repeat(Data(ColourWord(color)), i)
          invariant LinesShow(if i == 0 then Cmd(CMD_MEMORY_WRITE as nat) else Data(ColourWord(color)))
        {
          WriteData(ColourWord(color) as uint32);
        }
      } else if IsLandscapeFamily(rotation) {
        SetAddressWindow(y0, x0, Wrap16(y0 as int + radius as int), Wrap16(x0 as int + radius as int));
        ghost var start := trace;
        for i := 0 to LANDSCAPE_WIDTH as nat * LANDSCAPE_HEIGHT as nat
          invariant Valid() && rotation == old(rotation) && rst == old(rst)
          invariant trace == start + Repeat(Data(ColourWord(color)), i)
          invariant LinesShow(if i == 0 then Cmd(CMD_MEMORY_WRITE as nat) else Data(ColourWord(color)))
        {
          WriteData(ColourWord(color) as uint32);
        }
      }
    }

    /** ILI9488_FillCircle: the same transactions as DrawCircle. */
    method FillCircle(x0: uint16, y0: uint16, radius: uint16, color: uint32)
      requires Valid()
      modifies this
      ensures Valid()
      ensures trace == old(trace) + Primitive(old(rotation), CircleWindow(x0, y0, radius), PANEL_PIXELS, color)
      ensures rotation == old(rotation) && rst == old(rst)
      ensures IsRotation(old(rotation)) ==> LinesShow(Data(ColourWord(color)))
      ensures !IsRotation(old(rotation)) ==> db == old(db) && dcx == old(dcx)
    {
      if IsPortraitFamily(rotation) {
        SetAddressWindow(x0, y0, Wrap16(x0 as int + radius as int), Wrap16(y0 as int + radius as int));
        ghost var start := trace;
        for i := 0 to PORTRAIT_WIDTH as nat * PORTRAIT_HEIGHT as nat
          invariant Valid() && rotation == old(rotation) && rst == old(rst)
          invariant trace == start + Repeat(Data(ColourWord(color)), i)
          invariant LinesShow(if i == 0 then Cmd(CMD_MEMORY_WRITE as nat) else Data(ColourWord(color)))
        {
          WriteData(ColourWord(color) as uint32);
        }
      } else if IsLandscapeFamily(rotation) {
        SetAddressWindow(y0, x0, Wrap16(y0 as int + radius as int), Wrap16(x0 as int + radius as int));
        ghost var start := trace;
        for i := 0 to LANDSCAPE_WIDTH as nat * LANDSCAPE_HEIGHT as nat
          invariant Valid() && rotation == old(rotation) && rst == old(rst)
          invariant trace == start + Repeat(Data(ColourWord(color)), i)
          invariant LinesShow(if i == 0 then Cmd(CMD_MEMORY_WRITE as nat) else Data(ColourWord(color)))
        {
          WriteData(ColourWord(color) as uint32);
        }
      }
    }

    /** ILI9488_FillBackground: the whole-panel window, the same in both families, and one word per pixel. */
    method FillBackground(color: uint32)
      requires Valid()
      modifies this
      ensures Valid()
      ensures trace == old(trace) + Primitive(old(rotation), PANEL_WINDOW, PANEL_PIXELS, color)
      ensures rotation == old(rotation) && rst == old(rst)
      ensures IsRotation(old(rotation)) ==> LinesShow(Data(ColourWord(color)))
      ensures !IsRotation(old(rotation)) ==> db == old(db) && dcx == old(dcx)
    {
      if IsPortraitFamily(rotation) {
        SetAddressWindow(0, 0, PORTRAIT_WIDTH - 1, PORTRAIT_HEIGHT - 1);
        ghost var start := trace;
        for i := 0 to PORTRAIT_WIDTH as nat * PORTRAIT_HEIGHT as nat
          invariant Valid() && rotation == old(rotation) && rst == old(rst)
          invariant trace == start + Repeat(Data(ColourWord(color)), i)
          invariant LinesShow(if i == 0 then Cmd(CMD_MEMORY_WRITE as nat) else Data(ColourWord(color)))
        {
          WriteData(ColourWord(color) as uint32);
        }
      } else if IsLandscapeFamily(rotation) {
        SetAddressWindow(0, 0, LANDSCAPE_WIDTH - 1, LANDSCAPE_HEIGHT - 1);
        ghost var start := trace;
        for i := 0 to LANDSCAPE_WIDTH as nat * LANDSCAPE_HEIGHT as nat
          invariant Valid() && rotation == old(rotation) && rst == old(rst)
          invariant trace == start + Repeat(Data(ColourWord(color)), i)
          invariant LinesShow(if i == 0 then Cmd(CMD_MEMORY_WRITE as nat) else Data(ColourWord(color)))
        {
          WriteData(ColourWord(color) as uint32);
        }
      }
    }

    // -------------------------------------------------------------------
    // Rotation and lifecycle.

    /** ILI9488_SetRotation: MADCTL with the table entry of the clamped rotation; the stored rotation is untouched. */
    method SetRotation(r: uint8)
      requires Valid()
      modifies this
      ensures Valid()
      ensures trace == old(trace) + RotationEvents(r)
      ensures rotation == old(rotation) && rst == old(rst)
      ensures LinesShow(Data(Madctl(r) as nat))
    {
      var clamped := r;
      if clamped > ROTATION_LANDSCAPE_INV {
        clamped := ROTATION_PORTRAIT;
      }
      WriteCommand(CMD_MEMORY_ACCESS);
      WriteData(MADCTL_TABLE[clamped] as uint32);
    }

    /** ILI9488_Init: the reset and configuration script; r is stored unclamped. */
    method Init(r: uint8)
      requires Valid()
      modifies this
      ensures Valid()
      ensures trace == old(trace) + InitEvents(r)
      ensures rotation == r && rst
      ensures LinesShow(Cmd(CMD_DISPLAY_ON as nat))
    {
      ghost var t0 := trace;
      SetResetLine(false);
      HalDelay(20);
      SetResetLine(true);
      HalDelay(120);
      assert trace == t0 + HARD_RESET_EVENTS;
      ghost var t1 := trace;
      WriteCommand(CMD_SLEEP_OUT);
      HalDelay(120);
      WriteCommand(CMD_PIXEL_FORMAT);
      WriteData(0x66);
      assert trace == t1 + CONFIGURE_EVENTS;
      ghost var t2 := trace;
      SetRotation(r);
      rotation := r;
      WriteCommand(CMD_DISPLAY_ON);
      HalDelay(20);
      assert trace == t2 + RotationEvents(r) + DISPLAY_ON_EVENTS;
      InitAssoc(t0, HARD_RESET_EVENTS, CONFIGURE_EVENTS, RotationEvents(r), DISPLAY_ON_EVENTS);
    }

    /** ILI9488_DisplayOff */
    method DisplayOff()
      requires Valid()
      modifies this
      ensures Valid()
      ensures trace == old(trace) + DISPLAY_OFF_EVENTS
      ensures rotation == old(rotation) && rst == old(rst)
      ensures LinesShow(Cmd(CMD_DISPLAY_OFF as nat))
    {
      WriteCommand(CMD_DISPLAY_OFF);
      HalDelay(20);
    }

    /** ILI9488_DisplayOn */
    method DisplayOn()
      requires Valid()
      modifies this
      ensures Valid()
      ensures trace == old(trace) + DISPLAY_ON_EVENTS
      ensures rotation == old(rotation) && rst == old(rst)
      ensures LinesShow(Cmd(CMD_DISPLAY_ON as nat))
    {
      WriteCommand(CMD_DISPLAY_ON);
      HalDelay(20);
    }

    /** ILI9488_Sleep: display off, then sleep-in. */
    method Sleep()
      requires Valid()
      modifies this
      ensures Valid()
      ensures trace == old(trace) + SLEEP_EVENTS
      ensures rotation == old(rotation) && rst == old(rst)
      ensures LinesShow(Cmd(CMD_SLEEP_IN as nat))
    {
      DisplayOff();
      WriteCommand(CMD_SLEEP_IN);
      HalDelay(120);
    }

    /** ILI9488_WakeUp: display on, then sleep-out. */
    method WakeUp()
      requires Valid()
      modifies this
      ensures Valid()
      ensures trace == old(trace) + WAKE_UP_EVENTS
      ensures rotation == old(rotation) && rst == old(rst)
      ensures LinesShow(Cmd(CMD_SLEEP_OUT as nat))
    {
      DisplayOn();
      WriteCommand(CMD_SLEEP_OUT);
      HalDelay(20);
    }
  }
}
