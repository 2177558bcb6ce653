/**
 * The bus transport and transaction framing of the ILI9488 8080-style
 * parallel interface: what one strobe of the 18 data lines puts on the bus,
 * and the observable events a driver call produces.
 */
module Bus {
  import opened Ili9488Header

  datatype Option<T> = None | Some(value: T)

  /**
   * One observable step of the driver. Cmd and Data are whole transactions:
   * chip-select low, DCX low (Cmd) or high (Data), one 18-bit word strobed
   * on DB0..DB17, chip-select high. Reset is a level on the RESET line and
   * Delay a blocking wait of the given number of milliseconds.
   */
  datatype Event = Cmd(word: nat) | Data(word: nat) | Reset(high: bool) | Delay(ms: nat)

  /** The number of data lines DB0..DB17. */
  const BUS_WIDTH: nat := 18

  /** 2^18: one more than the largest word the bus carries. */
  const WORD_SPAN: nat := 0x40000

  // Controller opcodes.
  const CMD_SLEEP_IN: uint8 := 0x10
  const CMD_SLEEP_OUT: uint8 := 0x11
  const CMD_DISPLAY_OFF: uint8 := 0x28
  const CMD_DISPLAY_ON: uint8 := 0x29
  const CMD_MEMORY_WRITE: uint8 := 0x2C
  const CMD_COLUMN_ADDR: uint8 := 0x2A
  const CMD_PAGE_ADDR: uint8 := 0x2B
  const CMD_MEMORY_ACCESS: uint8 := 0x36
  const CMD_PIXEL_FORMAT: uint8 := 0x3A

  function Pow2(n: nat): (p: nat)
    ensures p >= 1
  {
    if n == 0 then 1 else 2 * Pow2(n - 1)
  }

  /** Bit i of d is set: the C test `d & (1 << i)`. */
  predicate Bit(d: nat, i: nat)
    decreases i
  {
    if i == 0 then d % 2 == 1 else Bit(d / 2, i - 1)
  }

  /**
   * The low 18 bits of d: the C expression `d & 0x3FFFF`, and the value that
   * 18 data lines can carry.
   */
  function Low18(d: nat): (w: nat)
    ensures w < WORD_SPAN
    ensures d < WORD_SPAN ==> w == d
    ensures (d - w) % WORD_SPAN == 0
  {
    d % WORD_SPAN
  }

  /**
   * The levels of DB0..DB17 that put word d on the bus: line i is high iff
   * bit i of d is set, and the lines read back as the low 18 bits of d.
   */
  function LinesOf(d: nat): (db: seq<bool>)
    ensures |db| == BUS_WIDTH
    ensures forall i :: 0 <= i < BUS_WIDTH ==> db[i] == Bit(d, i)
    ensures LinesValue(db) == Low18(d)
  {
    var lines := seq(BUS_WIDTH, i requires 0 <= i < BUS_WIDTH => Bit(d, i));
    LinesValueOfBits(lines, d);
    Pow2Eighteen();
    lines
  }

  /** The word that the levels of the data lines encode, DB0 being the least significant bit. */
  function LinesValue(db: seq<bool>): nat
  {
    if |db| == 0 then 0 else (if db[0] then 1 else 0) + 2 * LinesValue(db[1..])
  }

  /** The transaction the controller sees when it latches word w with DCX at the given level. */
  function Latched(dcxHigh: bool, w: nat): (e: Event)
    ensures e.Cmd? || e.Data?
    ensures e.word == w && e.Data? == dcxHigh
  {
    if dcxHigh then Data(w) else Cmd(w)
  }

  // ---------------------------------------------------------------------
  // Arithmetic facts about bits and remainders.

  lemma Pow2Eighteen()
    ensures Pow2(BUS_WIDTH) == WORD_SPAN
  {
    assert Pow2(6) == 64;
    assert Pow2(12) == 4096;
  }

  /** Euclidean division is unique: q and r are the quotient and remainder of d by k. */
  lemma DivModUnique(d: int, k: int, q: int, r: int)
    requires k > 0 && 0 <= r < k && d == q * k + r
    ensures d / k == q && d % k == r
  {
    var q', r' := d / k, d % k;
    assert (q' - q) * k == r - r';
    if q' > q {
      MulAtLeast(q' - q, k);
    } else if q' < q {
      MulAtLeast(q - q', k);
    }
  }

  lemma MulAtLeast(a: int, k: int)
    requires a >= 1 && k > 0
    ensures a * k >= k
  {
  }

  /** Splitting a remainder by 2m into its lowest bit and the remainder of the rest by m. */
  lemma DivModTwice(d: nat, m: nat)
    requires m > 0
    ensures d % (2 * m) == 2 * ((d / 2) % m) + d % 2
    ensures (d % (2 * m)) / 2 == (d / 2) % m
    ensures (d % (2 * m)) % 2 == d % 2
  {
    var q, r := d / 2, d % 2;
    var t, s := q / m, q % m;
    assert d == (2 * m) * t + (2 * s + r);
    DivModUnique(d, 2 * m, t, 2 * s + r);
    DivModUnique(2 * s + r, 2, s, r);
  }

  lemma {:induction false} NoBitsOfZero(i: nat)
    ensures !Bit(0, i)
  {
    if i > 0 {
      NoBitsOfZero(i - 1);
    }
  }

  /** Reducing d modulo 2^n keeps bits 0..n-1 and clears every bit from n upwards. */
  lemma {:induction false} BitOfMod(d: nat, n: nat, i: nat)
    ensures Bit(d % Pow2(n), i) <==> i < n && Bit(d, i)
  {
    if n == 0 {
      NoBitsOfZero(i);
    } else {
      DivModTwice(d, Pow2(n - 1));
      if i > 0 {
        BitOfMod(d / 2, n - 1, i - 1);
      }
    }
  }

  /** Masking with 0x3FFFF keeps DB0..DB17 and clears every higher bit. */
  lemma Low18Bits(d: nat, i: nat)
    ensures Bit(Low18(d), i) <==> i < BUS_WIDTH && Bit(d, i)
  {
    Pow2Eighteen();
    BitOfMod(d, BUS_WIDTH, i);
  }

  /** Bits 18 and above of a word have no effect on the data lines. */
  lemma LinesOfLow18(d: nat)
    ensures LinesOf(Low18(d)) == LinesOf(d)
  {
    forall i | 0 <= i < BUS_WIDTH
      ensures LinesOf(Low18(d))[i] == LinesOf(d)[i]
    {
      Low18Bits(d, i);
    }
  }

  /** A value below 2^n has no bit set at position n or above. */
  lemma HighBitsClear(d: nat, n: nat, i: nat)
    requires d < Pow2(n) && n <= i
    ensures !Bit(d, i)
  {
    BitOfMod(d, n, i);
  }

  /** Lines set from the bits of d read back as d reduced to the number of lines. */
  lemma {:induction false} LinesValueOfBits(db: seq<bool>, d: nat)
    requires forall k :: 0 <= k < |db| ==> db[k] == Bit(d, k)
    ensures LinesValue(db) == d % Pow2(|db|)
  {
    if |db| > 0 {
      forall k | 0 <= k < |db[1..]|
        ensures db[1..][k] == Bit(d / 2, k)
      {
        assert db[1..][k] == db[k + 1];
      }
      LinesValueOfBits(db[1..], d / 2);
      DivModTwice(d, Pow2(|db| - 1));
    }
  }
}
