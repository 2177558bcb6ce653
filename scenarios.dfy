/**
 * Whole-driver call sequences, as application code would issue them, and
 * the complete trace each one produces on a freshly powered driver.
 */
module Scenarios {
  import opened Ili9488Header
  import opened Bus
  import opened Addressing
  import opened Driver
  import opened Colour

  /**
   * Init in portrait, then a red background in the 6-6-6 packing: the
   * script, the panel window, and one full-red word per pixel.
   */
  method PortraitBackground() returns (t: seq<Event>)
    ensures t == InitEvents(ROTATION_PORTRAIT) + AddressEvents(Window(0, 319, 0, 479))
                 + Repeat(Data(RGB666_RED as nat), PANEL_PIXELS)
    ensures |t| == 12 + 11 + PANEL_PIXELS
    ensures RedOf(t[|t| - 1].word) == 63 && GreenOf(t[|t| - 1].word) == 0 && BlueOf(t[|t| - 1].word) == 0
  {
    var lcd := new Ili9488();
    lcd.Init(ROTATION_PORTRAIT);
    lcd.FillBackground(RGB666_RED);
    t := lcd.trace;
    Rgb666Constants();
    InitScriptShape(ROTATION_PORTRAIT, ROTATION_PORTRAIT);
    AddressEventsShape(Window(0, 319, 0, 479));
  }

  /**
   * Init in landscape, then FillBackground: the same window as in portrait
   * (columns 0..319, pages 0..479), behind the landscape MADCTL byte 0x28.
   */
  method LandscapeBackground(color: uint32) returns (t: seq<Event>)
    ensures t == InitEvents(ROTATION_LANDSCAPE) + AddressEvents(Window(0, 319, 0, 479))
                 + Repeat(Data(Low18(color as nat)), PANEL_PIXELS)
    ensures t[9] == Data(0x28)
  {
    var lcd := new Ili9488();
    lcd.Init(ROTATION_LANDSCAPE);
    lcd.FillBackground(color);
    t := lcd.trace;
    MadctlValues(ROTATION_LANDSCAPE);
    InitScriptShape(ROTATION_LANDSCAPE, ROTATION_LANDSCAPE);
  }

  /**
   * DrawPixel(10, 20) in landscape programs column range 10..10 and page
   * range 20..20: the caller's swap and SetAddressWindow's swap cancel.
   */
  method LandscapePixel(color: uint32) returns (t: seq<Event>)
    ensures t == InitEvents(ROTATION_LANDSCAPE) + AddressEvents(Window(10, 10, 20, 20))
                 + [Data(Low18(color as nat))]
    ensures DecodeAddress(t[12..23]) == Some(Window(10, 10, 20, 20))
  {
    var lcd := new Ili9488();
    lcd.Init(ROTATION_LANDSCAPE);
    lcd.DrawPixel(10, 20, color);
    t := lcd.trace;
    InitScriptShape(ROTATION_LANDSCAPE, ROTATION_LANDSCAPE);
    AddressRoundTrip(Window(10, 10, 20, 20));
    assert t[12..23] == AddressEvents(Window(10, 10, 20, 20));
  }

  /**
   * Init with a value above 3: the panel gets portrait's script, and then
   * none of the seven primitives sends anything at all.
   */
  method RawRotationScenario(r: uint8, color: uint32) returns (t: seq<Event>)
    requires r > ROTATION_LANDSCAPE_INV
    ensures t == InitEvents(ROTATION_PORTRAIT)
  {
    var lcd := new Ili9488();
    lcd.Init(r);
    lcd.FillBackground(color);
    lcd.DrawPixel(10, 20, color);
    lcd.FillRect(0, 0, 100, 100, color);
    lcd.DrawLine(0, 0, 319, 479, color);
    lcd.DrawRect(10, 10, 20, 20, color);
    lcd.DrawCircle(160, 240, 50, color);
    lcd.FillCircle(160, 240, 50, color);
    t := lcd.trace;
    RawRotationSilences(r, PANEL_WINDOW, PANEL_PIXELS, color);
  }

  /**
   * DrawRect and FillRect send the same transactions for the same arguments
   * under the same rotation.
   */
  method RectTwins(r: uint8, x: uint16, y: uint16, w: uint16, h: uint16, color: uint32)
    returns (drawn: seq<Event>, filled: seq<Event>)
    ensures drawn == filled
    ensures drawn == InitEvents(r) + Primitive(r, RectWindow(x, y, w, h), w as nat * h as nat, color)
  {
    var a := new Ili9488();
    a.Init(r);
    a.DrawRect(x, y, w, h, color);
    drawn := a.trace;
    var b := new Ili9488();
    b.Init(r);
    b.FillRect(x, y, w, h, color);
    filled := b.trace;
  }

  /** Sleep then WakeUp: eight events, and the stored rotation untouched. */
  method SleepThenWake(r: uint8) returns (t: seq<Event>, stored: uint8)
    ensures t == InitEvents(r) + SLEEP_EVENTS + WAKE_UP_EVENTS
    ensures stored == r
  {
    var lcd := new Ili9488();
    lcd.Init(r);
    lcd.Sleep();
    lcd.WakeUp();
    t := lcd.trace;
    stored := lcd.rotation;
  }
}
