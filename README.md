# ILI9488 parallel-bus driver, modelled as a transaction encoder

This project models the ILI9488 TFT driver (`ili9488.c`, `ili9488.h`) in
Dafny and proves properties of the model. It treats every driver call as a
producer of observable bus events:

- `Cmd(word)`: a transaction with chip-select low and DCX low;
- `Data(word)`: a transaction with chip-select low and DCX high;
- `Reset(level)`: a level on the RESET line;
- `Delay(ms)`: a blocking wait.

The class `Driver.Ili9488` holds the state the C file keeps:

- the global `ili9488_rotation`, as a raw `uint8`;
- the levels of CS, DCX, WR, RESET and DB0..DB17;
- an append-only `trace` of events.

Every method is proved against a specification function of its arguments.
For example, it appends `InitEvents(r)`, `WindowEvents(...)` or
`Primitive(rotation, window, count, colour)`. Properties of those functions
are then proved as lemmas.

The model is built in layers:

- `ili9488_h.dfy` (`Ili9488Header`): integer widths, panel dimensions,
  colour constants and rotation values.
- `bus.dfy` (`Bus`): events, opcodes, bits of a word, the 18-bit mask, and
  the data-line levels that encode a word.
- `colour.dfy` (`Colour`): what the 18-bit mask does to the header's colour
  constants, and the 6-6-6 packing under which colours survive it.
- `addressing.dfy` (`Addressing`): the 11-transaction address-window
  encoding, its decoder, which pair of coordinates goes to which axis, and
  the MADCTL table.
- `driver.dfy` (`Driver`): the driver object with its transport, framing,
  window, primitives, rotation and lifecycle methods, plus lemmas about
  their scripts.
- `scenarios.dfy` (`Scenarios`): whole call sequences on a fresh driver and
  the complete trace each produces.

Three behaviours of the code differ from what a reader of its comments and
enum might expect. The model follows the code:

- **Stored rotation.**
  - One might expect the stored rotation to be always one of the four
    enumerated values, since SetRotation clamps out-of-range input.
  - In the code, `ILI9488_SetRotation` clamps only its own parameter
    (`ili9488.c:339`). `ILI9488_Init` then stores the unclamped argument
    (`ili9488.c:368`).
  - The model stores the raw value. `Driver.RawRotationSilences` proves the
    consequence: for r ≥ 4, MADCTL gets portrait's byte 0x48, and every
    primitive afterwards sends nothing.
- **Landscape pixel window.**
  - Since SetAddressWindow swaps axes in landscape, one might expect
    `DrawPixel(10, 20)` in landscape to program column 20 and page 10.
  - In the code, the landscape branch of each primitive passes its
    coordinates swapped (`ili9488.c:164`), and `ILI9488_SetAddressWindow`
    swaps them again (`ili9488.c:139-145`).
  - The column range therefore carries x in every rotation. The model proves
    that behaviour (`Scenarios.LandscapePixel`).
- **Rotation changes.** The comment on `ILI9488_SetRotation` says the
  rotation affects all later drawing. The function is `static`, is called
  only from `Init`, and never writes the global; only `Init` changes the
  stored rotation. There is no public rotation-change operation.

The five transactions of one address range, which `ILI9488_SetAddressWindow`
writes inline, are grouped in the method `Driver.Ili9488.SendRange`. The
events and their order are unchanged.

## Model

| member | source | states |
|---|---|---|
| Ili9488Header.DimensionsSwap | ili9488.h:25-28 | Landscape width and height are portrait height and width, and both products are 153600 pixels. |
| Ili9488Header.RotationFamiliesPartition | ili9488.h:41-46 | The enum values 0..3 split into the portrait family {0, 2} and the landscape family {1, 3}, the split that SetAddressWindow tests; no other value is in either. |
| Ili9488Header.ColoursInDocumentedRange | ili9488.h:31-38 | Every colour constant lies in 0x000000..0x3FFFFF. |
| Bus.LinesOf | ili9488.c:60-77 | The eighteen line levels read back, DB0 least significant, as the low 18 bits of the word (`d & 0x3FFFF`). |
| Bus.Low18 | ili9488.c:161 | `c & 0x3FFFF` is below 2^18, leaves a value below 2^18 unchanged, and differs from c by a multiple of 2^18. |
| Bus.Low18Bits | ili9488.c:60-77 | Masking with 0x3FFFF keeps bits 0..17 and clears every higher bit. |
| Bus.LinesOfLow18 | ili9488.c:38-83 | Bits 18 and above of the argument have no effect on the data lines. |
| Bus.LinesValueOfBits | ili9488.c:38-83 | Lines set from the bits of d read back as d modulo 2^(number of lines); for 18 lines that is the low 18 bits. |
| Bus.BitOfMod | ili9488.c:60-77 | Reducing d modulo 2^n keeps bits below n and clears the rest. |
| Bus.HighBitsClear | ili9488.c:97 | An 8-bit command has no bit set at position 8 or above, so DB8..DB17 stay low. |
| Colour.MaskOfBytePacked | ili9488.h:31-38 | In the header's one-byte-per-channel layout, the mask keeps green, blue and the low two bits of red; a colour survives exactly when its red byte is below 4. |
| Colour.MaskTruncatesRed | ili9488.c:161 | BLACK, GREEN, BLUE and CYAN pass the mask unchanged; RED, WHITE, YELLOW and MAGENTA become 0x030000, 0x03FFFF, 0x033F00 and 0x03003F. |
| Colour.HeaderColoursOnBus | ili9488.h:32-37 | On the bus, RED reads as red 48, GREEN as red 3 with green 60, and CYAN as red 3, green 60 and blue 63; YELLOW as red 51 with green 60, and MAGENTA as red 48 with blue 63; BLACK, BLUE and WHITE read as their names. |
| Colour.Rgb666MaskRoundTrip | ili9488.c:161 | A 6-6-6 packed colour passes the mask unchanged, and its red, green and blue channels read back. |
| Colour.Rgb666Constants | ili9488.h:31-38 | The re-packed constants carry exactly the channels their names say, at full 6-bit intensity, and all of them survive the mask. |
| Addressing.CoordinateRoundTrip | ili9488.c:131-132 | The two data bytes `v >> 8` and `v & 0xFF` decode back to v. |
| Addressing.ByteSplit | ili9488.c:131-132 | `v >> 8` and `v & 0xFF` are each at most 0xFF, and high * 256 + low gives back v. |
| Addressing.AddressRoundTrip | ili9488.c:130-136 | A window is encoded as exactly 11 transactions, and they decode back to that window. |
| Addressing.AddressInjective | ili9488.c:130-136 | Distinct windows produce distinct transaction runs. |
| Addressing.AddressEventsShape | ili9488.c:130-136 | Transactions 0, 5 and 10 are the commands, and exactly the other eight are Data transactions, each a byte no larger than 0xFF. |
| Addressing.WindowEventsAxes | ili9488.c:128-147 | SetAddressWindow programs column = (x0, x1) in the portrait family and column = (y0, y1) in the landscape family. It sends nothing exactly when the stored rotation is outside 0..3. |
| Addressing.SwapsCancel | ili9488.c:158-167 | The primitives' landscape pre-swap and SetAddressWindow's swap cancel, so in every rotation the column range carries x and the page range y. |
| Addressing.Wrap16 | ili9488.c:206 | A uint16 parameter receiving an int keeps it modulo 2^16, exactly when it is in range. |
| Addressing.ClampRotation | ili9488.c:339 | The clamped rotation is always one of the four values, is the input when that is valid, and portrait otherwise. |
| Addressing.MadctlValues | ili9488.c:323-328 | Rotations 0..3 select 0x48, 0x28, 0x88 and 0xE8; every value above 3 selects 0x48. |
| Addressing.MadctlDistinct | ili9488.c:323-328 | The four rotations select four distinct MADCTL bytes. |
| Addressing.MadctlExchangeBit | ili9488.c:323-328 | MADCTL bit 5 (row/column exchange) is set exactly for the landscape family; bit 3 is set for every rotation. |
| Driver.ColourWord | ili9488.c:161 | The colour word a primitive sends is below 2^18. |
| Driver.PrimitiveShape | ili9488.c:158-312 | Under rotations 0..3 a primitive sends 11 window transactions that decode to its window, then exactly count words, each `color & 0x3FFFF` (below 2^18). Under any other stored rotation it sends nothing. |
| Driver.RectCountFits | ili9488.c:233 | The loop bound `(uint32_t)w * h` never wraps, so exactly w * h words are sent. |
| Driver.RectWindowEnds | ili9488.c:232 | The ends x + w - 1 and y + h - 1 are exact whenever they lie in 0..0xFFFF, an empty rectangle at x ≥ 1 included (end x - 1). They are reduced by 2^16 beyond 0xFFFF, and an empty rectangle at 0 gets end 0xFFFF. |
| Driver.RectWindowArea | ili9488.c:231-234 | When a non-empty rectangle fits in the coordinate range, its window holds exactly w * h pixels, one per word sent. |
| Driver.RawRotationSilences | ili9488.c:357-371 | For an Init argument above 3, MADCTL and the whole Init script equal portrait's, yet every primitive then sends nothing, where under portrait it sends 11 + count events. |
| Driver.InitScriptShape | ili9488.c:357-371 | Init sends 12 events: the reset pulse precedes every bus transaction, and MADCTL sits at positions 8-9. Two Init scripts are equal exactly when their MADCTL bytes are. |
| Driver.Ili9488.constructor | ili9488.c:14 | The driver starts with portrait stored, CS, DCX, WR and RESET high, every data line low, and an empty trace. |
| Driver.Ili9488.SetResetLine | ili9488.c:359 | RESET takes the given level and one Reset event is recorded; nothing else changes. |
| Driver.Ili9488.HalDelay | ili9488.c:360 | One Delay event is recorded; nothing else changes. |
| Driver.Ili9488.Write18 | ili9488.c:38-83 | The data lines show the bits of data; WR ends high; the controller latches the low 18 bits, tagged by DCX. CS, DCX, RESET and the rotation are unchanged. |
| Driver.Ili9488.WriteCommand | ili9488.c:94-99 | Exactly one Cmd transaction is recorded, with DCX low, the lines showing the command, DB8..DB17 low and CS released high. |
| Driver.Ili9488.WriteData | ili9488.c:110-115 | Exactly one Data transaction carrying `data & 0x3FFFF` is recorded, with DCX high and CS released high. |
| Driver.Ili9488.SendRange | ili9488.c:130-132 | One address range: the command then `first >> 8`, `first & 0xFF`, `last >> 8`, `last & 0xFF`. |
| Driver.Ili9488.SetAddressWindow | ili9488.c:128-147 | Appends WindowEvents for the stored rotation; the rotation is unchanged. Under rotations 0..3 the lines end showing the memory-write command (DCX low, 0x2C); under any other stored rotation, DCX and the data lines are untouched. |
| Driver.Ili9488.DrawPixel | ili9488.c:158-167 | Appends the window (x..x, y..y) in every rotation, and one masked colour word. Under rotations 0..3 the lines end showing that word with DCX high. Under a stored rotation outside 0..3 it sends nothing and leaves DCX and the data lines as they were. |
| Driver.Ili9488.DrawLine | ili9488.c:179-192 | Appends the window (x0..x1, y0..y1) and 153600 masked colour words, whatever the arguments. Under rotations 0..3 the lines end showing that word with DCX high. Under a stored rotation outside 0..3 it sends nothing and leaves DCX and the data lines as they were. |
| Driver.Ili9488.DrawRect | ili9488.c:204-217 | Appends the rectangle's window and w * h masked colour words, as FillRect does. Under rotations 0..3 the lines end showing the last word sent: the colour word with DCX high, or the memory-write command when w * h is 0. Under a stored rotation outside 0..3 it sends nothing and leaves DCX and the data lines as they were. |
| Driver.Ili9488.FillRect | ili9488.c:230-243 | Appends the window (x..x+w-1, y..y+h-1), with uint16 wrap, and w * h masked colour words. Under rotations 0..3 the lines end showing the last word sent: the colour word with DCX high, or the memory-write command when w * h is 0. Under a stored rotation outside 0..3 it sends nothing and leaves DCX and the data lines as they were. |
| Driver.Ili9488.DrawCircle | ili9488.c:254-267 | Appends the window from the centre to centre + radius, and 153600 masked colour words. Under rotations 0..3 the lines end showing that word with DCX high. Under a stored rotation outside 0..3 it sends nothing and leaves DCX and the data lines as they were. |
| Driver.Ili9488.FillCircle | ili9488.c:278-291 | Appends the same transactions as DrawCircle. Under rotations 0..3 the lines end showing that word with DCX high. Under a stored rotation outside 0..3 it sends nothing and leaves DCX and the data lines as they were. |
| Driver.Ili9488.FillBackground | ili9488.c:299-312 | Appends the whole-panel window (column 0..319, page 0..479) in both families, and 153600 masked colour words. Under rotations 0..3 the lines end showing that word with DCX high. Under a stored rotation outside 0..3 it sends nothing and leaves DCX and the data lines as they were. |
| Driver.Ili9488.SetRotation | ili9488.c:338-342 | Appends MADCTL with the table entry of the clamped value; the stored rotation is untouched, and the lines end showing that byte with DCX high. |
| Driver.Ili9488.Init | ili9488.c:357-371 | Appends InitEvents(r) for any 8-bit r, and stores r unclamped; the lines end showing display-on (0x29) with DCX low. |
| Driver.Ili9488.DisplayOff | ili9488.c:378-381 | Appends display-off (0x28) and a 20 ms delay; the lines end showing 0x28 with DCX low. |
| Driver.Ili9488.DisplayOn | ili9488.c:389-392 | Appends display-on (0x29) and a 20 ms delay; the lines end showing 0x29 with DCX low. |
| Driver.Ili9488.Sleep | ili9488.c:400-404 | Appends display-off, delay 20, sleep-in (0x10), delay 120; the rotation is unchanged, and the lines end showing 0x10 with DCX low. |
| Driver.Ili9488.WakeUp | ili9488.c:412-416 | Appends display-on, delay 20, sleep-out (0x11), delay 20; the rotation is unchanged, and the lines end showing 0x11 with DCX low. |
| Scenarios.PortraitBackground | ili9488.c:299-305 | Init(portrait) then FillBackground gives the Init script, the panel window, and 153600 words, each a full-red 6-6-6 colour. |
| Scenarios.LandscapeBackground | ili9488.c:306-311 | In landscape, FillBackground programs the same panel window as in portrait, after MADCTL byte 0x28. |
| Scenarios.LandscapePixel | ili9488.c:164-165 | DrawPixel(10, 20) in landscape programs column 10..10 and page 20..20. |
| Scenarios.RawRotationScenario | ili9488.c:368 | After Init(r) with r > 3, the trace is portrait's Init script, and none of the seven primitives, each called once, extends it. |
| Scenarios.RectTwins | ili9488.c:204-243 | DrawRect and FillRect produce identical traces for identical arguments. |
| Scenarios.SleepThenWake | ili9488.c:400-416 | Sleep then WakeUp append their two scripts and leave the stored rotation as Init set it. |

## Left out

- GPIO register encoding is not modelled. That covers the BSRR set/reset halves, the port and pin identities from `main.h`, and the moment when all data lines are cleared before the set pass (`ili9488.c:40-57`). Each data line is modelled by its final level per word.
- The order of the CS and DCX edges inside a transaction is not recorded. Only the levels at the WR strobe and after the call are.
- Driver.Ili9488.Write18: states that WR ends high, not that it went low exactly once. The two-`__NOP()` strobe width is timing and is not modelled.
- `HAL_Delay` and the RESET pin are foreign capabilities. They appear only as `Delay(ms)` and `Reset(level)` events. Real time is not modelled.
- What the controller does with the trace is not modelled: GRAM contents, MADCTL mirroring, and writes past the end of a window wrapping inside it. There is no read-back.
- Bresenham rasterisation is not modelled. The doc comments promise it, but the code has none. The model gives the solid fills the code performs.
- No lifecycle state is modelled (uninitialised, active, asleep). The code has no guards, so any call order is allowed.
- `CMD_INTERFACE_MODE` (0xB0) is declared but never used.
- Concurrency is not modelled. The global is plain single-threaded state.
- The initial levels of the control lines are set by GPIO configuration outside this code. The constructor starts from CS, DCX, WR and RESET high and every data line low, and states those levels in its contract.

## Findings

| source | as written | input that shows it | evidently intended | confidence | as-written member | corrected member |
|---|---|---|---|---|---|---|
| ili9488.h:31-38 with ili9488.c:161 | The colour constants give each 6-bit channel its own byte (RED = 0x3F0000, GREEN = 0x003F00). The primitives send `color & 0x3FFFF` on the 18-bit bus, where red is DB12..17, green DB6..11 and blue DB0..5. | FillBackground(ILI9488_RED) sends 0x030000, which reads as red 48 of 63. FillBackground(ILI9488_GREEN) sends 0x003F00, which reads as green 60 with red 3. | Constants packed 6-6-6 (RED = 0x3F000, GREEN = 0x00FC0), which reach the bus unchanged with full channels. | medium; not executed | Colour.HeaderColoursOnBus | Colour.Rgb666Constants |
