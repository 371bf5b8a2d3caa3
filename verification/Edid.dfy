/** The EDID generator of scripts/kvm/make-edid.py: reduced-blanking timings, detailed timing descriptors
    (section 3.10.2 of the E-EDID standard, release A revision 2) and the checksummed block. Bytes are
    integers; Python's `&`, `>>`, `<<` and `|` act on integers of any size. */
module Edid {
  import opened Results
  import opened Rounding

  type Bytes = seq<int>

  predicate IsByte(n: int) {
    0 <= n <= 255
  }

  predicate AllBytes(bytes: Bytes) {
    forall i | 0 <= i < |bytes| :: IsByte(bytes[i])
  }

  // ----- bit operations

  /** `a | b`. */
  function Or(a: nat, b: nat): nat {
    if a == 0 then b
    else if b == 0 then a
    else 2 * Or(a / 2, b / 2) + if a % 2 == 1 || b % 2 == 1 then 1 else 0
  }

  function Pow2(k: nat): nat {
    if k == 0 then 1 else 2 * Pow2(k - 1)
  }

  /** `a << k`. */
  function Shl(a: nat, k: nat): nat {
    a * Pow2(k)
  }

  lemma Halved(a: nat, k: nat)
    requires 0 < k
    ensures Shl(a, k) == 2 * Shl(a, k - 1)
  {
  }

  lemma OrDoubled(x: nat, b: nat)
    ensures Or(2 * x, b) == 2 * Or(x, b / 2) + b % 2
  {
    if x == 0 {
      assert Or(0, b) == b && Or(0, b / 2) == b / 2;
    } else if b == 0 {
      assert Or(2 * x, 0) == 2 * x && Or(x, 0) == x;
    } else {
      OrHalves(2 * x, b);
      assert 2 * x / 2 == x && 2 * x % 2 == 0;
    }
  }

  lemma OrHalves(a: nat, b: nat)
    requires a != 0 && b != 0
    ensures Or(a, b) == 2 * Or(a / 2, b / 2) + if a % 2 == 1 || b % 2 == 1 then 1 else 0
  {
  }

  /** Bits side by side add up. */
  lemma {:induction false} OrBeside(a: nat, k: nat, b: nat)
    requires b < Pow2(k)
    ensures Or(Shl(a, k), b) == Shl(a, k) + b
  {
    if k == 0 {
    } else {
      Halved(a, k);
      OrDoubled(Shl(a, k - 1), b);
      OrBeside(a, k - 1, b / 2);
    }
  }

  /** Bits set in either number are never lost. */
  lemma {:induction false} OrAtLeast(a: nat, b: nat)
    ensures Or(a, b) >= a && Or(a, b) >= b
  {
    if a != 0 && b != 0 {
      OrAtLeast(a / 2, b / 2);
    }
  }

  // ----- a detailed timing

  datatype Timing = Timing(width: nat, height: nat, pixelClock: nat, hBlank: nat, vBlank: nat, hFront: nat, hSync: nat,
                           vFront: nat, vSync: nat)

  function Low(n: nat): nat {
    n % 256
  }

  /** The two high nibbles of a pair of twelve-bit fields in one byte. */
  function Nibbles(a: nat, b: nat): nat {
    Or(Shl(a / 256, 4), b / 256)
  }

  function SyncHighs(t: Timing): nat {
    Or(Or(Or(Shl(t.hFront / 256, 6), Shl(t.hSync / 256, 4)), Shl(t.vFront / 16, 2)), t.vSync / 16)
  }

  function Unchecked(t: Timing): Bytes {
    var clock := t.pixelClock / 10;
    [Low(clock), Low(clock / 256), Low(t.width), Low(t.hBlank), Nibbles(t.width, t.hBlank),
     Low(t.height), Low(t.vBlank), Nibbles(t.height, t.vBlank), Low(t.hFront), Low(t.hSync),
     Or(Shl(t.vFront % 16, 4), t.vSync % 16), SyncHighs(t), 0, 0, 0, 0, 0, 30]
  }

  /** `bytes([...])` raises for a number that is not a byte. */
  function DetailedTiming(t: Timing): Result<Bytes> {
    if AllBytes(Unchecked(t)) then Ok(Unchecked(t)) else Err("ValueError")
  }

  /** How a display reads the descriptor. */
  function Decode(d: Bytes): Timing
    requires |d| == 18 && AllBytes(d)
  {
    Timing(d[2] + 256 * (d[4] / 16), d[5] + 256 * (d[7] / 16), 10 * (d[0] + 256 * d[1]),
           d[3] + 256 * (d[4] % 16), d[6] + 256 * (d[7] % 16),
           d[8] + 256 * (d[11] / 64), d[9] + 256 * (d[11] / 16 % 4),
           d[10] / 16 + 16 * (d[11] / 4 % 4), d[10] % 16 + 16 * (d[11] % 4))
  }

  /** The field widths of the descriptor. */
  predicate InWidths(t: Timing) {
    && t.pixelClock % 10 == 0 && t.pixelClock / 10 < 65536
    && t.width < 4096 && t.height < 4096 && t.hBlank < 4096 && t.vBlank < 4096
    && t.hFront < 1024 && t.hSync < 1024 && t.vFront < 64 && t.vSync < 64
  }

  lemma PowersOfTwo()
    ensures Pow2(2) == 4 && Pow2(4) == 16 && Pow2(6) == 64
  {
    assert Pow2(1) == 2 && Pow2(3) == 8 && Pow2(5) == 32;
  }

  lemma Shifted(a: nat)
    ensures Shl(a, 2) == 4 * a && Shl(a, 4) == 16 * a && Shl(a, 6) == 64 * a
  {
    PowersOfTwo();
  }

  lemma OrSixtyFourths(x: nat, q: nat, b: nat)
    requires x == 64 * q && b < 64
    ensures Or(x, b) == x + b
  {
    Shifted(q);
    PowersOfTwo();
    OrBeside(q, 6, b);
  }

  lemma OrSixteenths(x: nat, q: nat, b: nat)
    requires x == 16 * q && b < 16
    ensures Or(x, b) == x + b
  {
    Shifted(q);
    PowersOfTwo();
    OrBeside(q, 4, b);
  }

  lemma OrQuarters(x: nat, q: nat, b: nat)
    requires x == 4 * q && b < 4
    ensures Or(x, b) == x + b
  {
    Shifted(q);
    PowersOfTwo();
    OrBeside(q, 2, b);
  }

  lemma TwoCrumbs(x: nat, q: nat, third: nat, c: nat, fourth: nat)
    requires x == 16 * q && third == 4 * c && c < 4 && fourth < 4
    ensures Or(Or(x, third), fourth) == x + third + fourth
  {
    OrSixteenths(x, q, third);
    OrQuarters(x + third, 4 * q + c, fourth);
  }

  lemma FourCrumbs(first: nat, a: nat, second: nat, b: nat, third: nat, c: nat, fourth: nat)
    requires first == 64 * a && second == 16 * b && b < 4 && third == 4 * c && c < 4 && fourth < 4
    ensures Or(Or(Or(first, second), third), fourth) == first + second + third + fourth
  {
    OrSixtyFourths(first, a, second);
    TwoCrumbs(first + second, 4 * a + b, third, c, fourth);
  }

  lemma NibblesBeside(a: nat, b: nat)
    requires b < 4096
    ensures Nibbles(a, b) == 16 * (a / 256) + b / 256
  {
    Shifted(a / 256);
    OrSixteenths(Shl(a / 256, 4), a / 256, b / 256);
  }

  lemma SyncHighsBeside(t: Timing)
    requires t.hSync < 1024 && t.vFront < 64 && t.vSync < 64
    ensures SyncHighs(t) == 64 * (t.hFront / 256) + 16 * (t.hSync / 256) + 4 * (t.vFront / 16) + t.vSync / 16
  {
    Shifted(t.hFront / 256);
    Shifted(t.hSync / 256);
    Shifted(t.vFront / 16);
    FourCrumbs(Shl(t.hFront / 256, 6), t.hFront / 256, Shl(t.hSync / 256, 4), t.hSync / 256,
               Shl(t.vFront / 16, 2), t.vFront / 16, t.vSync / 16);
  }

  lemma {:induction false} OrBelow(a: nat, b: nat, k: nat)
    requires a < Pow2(k) && b < Pow2(k)
    ensures Or(a, b) < Pow2(k)
  {
    if a != 0 && b != 0 && k > 0 {
      OrBelow(a / 2, b / 2, k - 1);
    }
  }

  lemma OrByte(a: nat, b: nat)
    ensures IsByte(Or(a, b)) <==> IsByte(a) && IsByte(b)
  {
    assert Pow2(8) == 256 by {
      PowersOfTwo();
      assert Pow2(7) == 128;
    }
    OrAtLeast(a, b);
    if IsByte(a) && IsByte(b) {
      OrBelow(a, b, 8);
    }
  }

  /** Where the generator raises instead of writing a descriptor: the fields that share a byte may overflow into
      each other long before that. */
  predicate Writable(t: Timing) {
    && t.width < 4096 && t.height < 4096 && t.hBlank < 65536 && t.vBlank < 65536
    && t.hFront < 1024 && t.hSync < 4096 && t.vFront < 1024 && t.vSync < 4096
  }

  lemma NibblesFit(a: nat, b: nat)
    ensures IsByte(Nibbles(a, b)) <==> a < 4096 && b < 65536
  {
    PowersOfTwo();
    OrByte(Shl(a / 256, 4), b / 256);
  }

  lemma SyncHighsFit(t: Timing)
    ensures IsByte(SyncHighs(t)) <==> t.hFront < 1024 && t.hSync < 4096 && t.vFront < 1024 && t.vSync < 4096
  {
    PowersOfTwo();
    var front, sync, lines := Shl(t.hFront / 256, 6), Shl(t.hSync / 256, 4), Shl(t.vFront / 16, 2);
    OrByte(front, sync);
    OrByte(Or(front, sync), lines);
    OrByte(Or(Or(front, sync), lines), t.vSync / 16);
  }

  lemma SharedBytes(t: Timing)
    ensures IsByte(Nibbles(t.width, t.hBlank)) <==> t.width < 4096 && t.hBlank < 65536
    ensures IsByte(Nibbles(t.height, t.vBlank)) <==> t.height < 4096 && t.vBlank < 65536
    ensures IsByte(SyncHighs(t)) <==> t.hFront < 1024 && t.hSync < 4096 && t.vFront < 1024 && t.vSync < 4096
    ensures IsByte(Or(Shl(t.vFront % 16, 4), t.vSync % 16))
  {
    NibblesFit(t.width, t.hBlank);
    NibblesFit(t.height, t.vBlank);
    SyncHighsFit(t);
    PowersOfTwo();
    OrByte(Shl(t.vFront % 16, 4), t.vSync % 16);
  }

  lemma RaisesExactly(t: Timing)
    ensures DetailedTiming(t).Ok? <==> Writable(t)
  {
    SharedBytes(t);
    OnlyShared(t);
  }

  lemma OnlyShared(t: Timing)
    ensures AllBytes(Unchecked(t)) <==>
      && IsByte(Nibbles(t.width, t.hBlank)) && IsByte(Nibbles(t.height, t.vBlank))
      && IsByte(Or(Shl(t.vFront % 16, 4), t.vSync % 16)) && IsByte(SyncHighs(t))
  {
    var d := Unchecked(t);
    assert AllBytes(d) ==> IsByte(d[4]) && IsByte(d[7]) && IsByte(d[10]) && IsByte(d[11]);
  }

  /** What the bytes of a timing within the widths come to, without bit operations. */
  lemma EncodedBytes(t: Timing)
    requires InWidths(t)
    ensures Unchecked(t)[12..] == [0, 0, 0, 0, 0, 30]
    ensures var d := Unchecked(t);
      && d[4] == 16 * (t.width / 256) + t.hBlank / 256 && d[7] == 16 * (t.height / 256) + t.vBlank / 256
      && d[10] == 16 * (t.vFront % 16) + t.vSync % 16
      && d[11] == 64 * (t.hFront / 256) + 16 * (t.hSync / 256) + 4 * (t.vFront / 16) + t.vSync / 16
  {
    NibblesBeside(t.width, t.hBlank);
    NibblesBeside(t.height, t.vBlank);
    SyncHighsBeside(t);
    Shifted(t.vFront % 16);
    OrSixteenths(Shl(t.vFront % 16, 4), t.vFront % 16, t.vSync % 16);
  }

  lemma TwelveBits(a: nat, b: nat)
    requires a < 4096 && b < 4096
    ensures var high := 16 * (a / 256) + b / 256;
      a % 256 + 256 * (high / 16) == a && b % 256 + 256 * (high % 16) == b
  {
  }

  lemma SyncBits(a: nat, b: nat, c: nat, d: nat)
    requires a < 4 && b < 4 && c < 4 && d < 4
    ensures var high := 64 * a + 16 * b + 4 * c + d;
      high / 64 == a && high / 16 % 4 == b && high / 4 % 4 == c && high % 4 == d
  {
    Digit(4 * (4 * (4 * a + b) + c) + d, 4 * (4 * a + b) + c, d);
    Digit(4 * (4 * a + b) + c, 4 * a + b, c);
    Digit(4 * a + b, a, b);
    var high := 64 * a + 16 * b + 4 * c + d;
    assert high / 4 / 4 == high / 16 && high / 16 / 4 == high / 64;
  }

  lemma Digit(n: nat, q: nat, r: nat)
    requires n == 4 * q + r && r < 4
    ensures n / 4 == q && n % 4 == r
  {
  }

  lemma ClockBits(clock: nat)
    requires clock < 65536
    ensures Low(clock) + 256 * Low(clock / 256) == clock
  {
  }

  /** Decoding gives back every field of a timing within the field widths. */
  lemma RoundTrip(t: Timing)
    requires InWidths(t)
    ensures DetailedTiming(t).Ok? && Decode(DetailedTiming(t).value) == t
  {
    RaisesExactly(t);
    var d := Unchecked(t);
    EncodedBytes(t);
    DecodedFields(t, d[4], d[7], d[10], d[11]);
    assert d[0] == Low(t.pixelClock / 10) && d[1] == Low(t.pixelClock / 10 / 256);
    assert d[2] == t.width % 256 && d[3] == t.hBlank % 256 && d[5] == t.height % 256 && d[6] == t.vBlank % 256;
    assert d[8] == t.hFront % 256 && d[9] == t.hSync % 256;
  }

  lemma DecodedFields(t: Timing, horizontal: nat, vertical: nat, vSyncs: nat, highs: nat)
    requires InWidths(t)
    requires horizontal == 16 * (t.width / 256) + t.hBlank / 256 && vertical == 16 * (t.height / 256) + t.vBlank / 256
    requires vSyncs == 16 * (t.vFront % 16) + t.vSync % 16
    requires highs == 64 * (t.hFront / 256) + 16 * (t.hSync / 256) + 4 * (t.vFront / 16) + t.vSync / 16
    ensures t.width % 256 + 256 * (horizontal / 16) == t.width && t.hBlank % 256 + 256 * (horizontal % 16) == t.hBlank
    ensures t.height % 256 + 256 * (vertical / 16) == t.height && t.vBlank % 256 + 256 * (vertical % 16) == t.vBlank
    ensures t.hFront % 256 + 256 * (highs / 64) == t.hFront && t.hSync % 256 + 256 * (highs / 16 % 4) == t.hSync
    ensures vSyncs / 16 + 16 * (highs / 4 % 4) == t.vFront && vSyncs % 16 + 16 * (highs % 4) == t.vSync
    ensures 10 * (Low(t.pixelClock / 10) + 256 * Low(t.pixelClock / 10 / 256)) == t.pixelClock
  {
    TwelveBits(t.width, t.hBlank);
    TwelveBits(t.height, t.vBlank);
    SyncBits(t.hFront / 256, t.hSync / 256, t.vFront / 16, t.vSync / 16);
    ClockBits(t.pixelClock / 10);
  }

  lemma DecodedInWidths(d: Bytes)
    requires |d| == 18 && AllBytes(d)
    ensures InWidths(Decode(d))
  {
  }

  /** A timing survives the descriptor exactly if it is within the field widths. */
  lemma RoundTripExactly(t: Timing)
    ensures (DetailedTiming(t).Ok? && Decode(DetailedTiming(t).value) == t) <==> InWidths(t)
  {
    if InWidths(t) {
      RoundTrip(t);
    } else if DetailedTiming(t).Ok? {
      DecodedInWidths(DetailedTiming(t).value);
    }
  }

  // ----- reduced blanking

  /** One mode: width, height and refresh rate. */
  datatype Mode = Mode(width: nat, height: nat, refresh: nat)

  const H_BLANK := 160
  const V_SYNC := 8

  function VBlank(m: Mode): nat {
    var lines := Round((460 * (m.refresh * (m.height + 1))) as real / 1000000.0) + 1;
    if lines < V_SYNC + 6 then V_SYNC + 6 else lines
  }

  /** Fourteen lines, or half a line to a line and a half more than 460 microseconds make by the line time of the
      picture and one line. */
  lemma BlankingLines(m: Mode)
    ensures 14 <= VBlank(m)
    ensures 460 * (m.refresh * (m.height + 1)) + 500_000 <= VBlank(m) * 1_000_000
    ensures 14 < VBlank(m) ==> VBlank(m) * 1_000_000 <= 460 * (m.refresh * (m.height + 1)) + 1_500_000
  {
    var x := (460 * (m.refresh * (m.height + 1))) as real / 1000000.0;
    assert x * 1000000.0 == (460 * (m.refresh * (m.height + 1))) as real;
  }

  /** How far the blanking lines exceed 460 microseconds of the picture and one line, in millionths of a line. */
  function Spare(m: Mode): int {
    VBlank(m) * 1_000_000 - 460 * (m.refresh * (m.height + 1))
  }

  /** The blanking of a whole frame, whose lines the blanking itself makes shorter, lasts 460 microseconds exactly if
      the lines it adds to the first, at this refresh rate, fit in the spare, which is half a million at least. */
  lemma FrameBlankingExactly(m: Mode)
    ensures 460 * (m.refresh * (m.height + VBlank(m))) <= VBlank(m) * 1_000_000
      <==> 460 * (m.refresh * (VBlank(m) - 1)) <= Spare(m)
    ensures 500_000 <= Spare(m)
  {
    BlankingLines(m);
    Parts(m.refresh, m.height + 1, VBlank(m) - 1);
  }

  lemma Parts(n: int, a: int, b: int)
    ensures n * (a + b) == n * a + n * b
  {
  }

  /** The sync pulses lie inside the blanking, with 80 pixels and three lines or more behind them. */
  lemma SyncInsideBlanking(m: Mode)
    ensures var t := CvtReduced(m);
      && t.hBlank == 160 && t.hFront == 48 && t.hSync == 32 && t.hBlank - t.hFront - t.hSync == 80
      && t.vFront == 3 && t.vSync == 8 && 3 <= t.vBlank - t.vFront - t.vSync
      && t.width == m.width && t.height == m.height
  {
    BlankingLines(m);
  }

  /** Whether the blanking of a timing lasts 460 microseconds by its own clock, in kHz. */
  predicate BlankingLasts(t: Timing) {
    460 * t.pixelClock <= t.vBlank * (t.width + t.hBlank) * 1000
  }

  /** Lines of the blanked frame are shorter, so the blanking can come out too short: it does for the first of the
      guests' modes, the one the connector drops, with 34 lines in a frame of 1234, and for no other. */
  lemma GuestBlankingLasts(m: Mode)
    requires m in MODES
    ensures BlankingLasts(CvtReduced(m)) <==> m != Mode(1600, 1200, 60)
  {
    assert m == MODES[0] || m == MODES[1] || m == MODES[2] || m == MODES[3];
    GuestClock(m);
  }

  lemma GuestClock(m: Mode)
    requires m in MODES
    ensures VBlank(m) == (if m.height == 1200 then 34 else if m.height == 720 then 21 else 31)
    ensures CvtReduced(m).pixelClock ==
      (if m.height == 1200 then 130310 else if m.height == 2160 then 262920 else if m.height == 1080 then 138650
        else 64020)
  {
    assert m == MODES[0] || m == MODES[1] || m == MODES[2] || m == MODES[3];
  }

  /** Pixels of a whole frame, blanking included. */
  function FramePixels(t: Timing): nat {
    (t.width + t.hBlank) * (t.height + t.vBlank)
  }

  lemma RoundNotNegative(x: real)
    requires 0.0 <= x
    ensures 0 <= Round(x)
  {
  }

  /** The pixel clock in kHz, to the nearest 10 kHz. */
  function ClockFor(pixelsPerSecond: nat): nat {
    RoundNotNegative(pixelsPerSecond as real / 10000.0);
    Round(pixelsPerSecond as real / 10000.0) * 10
  }

  function PixelsPerSecond(m: Mode): nat {
    var pixels: nat := (m.width + H_BLANK) * (m.height + VBlank(m));
    pixels * m.refresh
  }

  function CvtReduced(m: Mode): Timing {
    Timing(m.width, m.height, ClockFor(PixelsPerSecond(m)), H_BLANK, VBlank(m), 48, 32, 3, V_SYNC)
  }

  /** The refresh a display works out from a clock in kHz. */
  function RefreshOf(t: Timing): int
    requires FramePixels(t) > 0
  {
    Round((t.pixelClock * 1000) as real / FramePixels(t) as real)
  }

  lemma RoundTo(x: real, n: int)
    requires Abs(x - n as real) < 0.5
    ensures Round(x) == n
  {
  }

  /** The refresh survives the rounding of the clock in every frame of more than ten thousand pixels. */
  lemma RefreshRecovered(m: Mode)
    requires FramePixels(CvtReduced(m)) > 10000
    ensures RefreshOf(CvtReduced(m)) == m.refresh
  {
    RecoveredFrom(FramePixels(CvtReduced(m)), m.refresh);
  }

  lemma RecoveredFrom(pixels: nat, refresh: nat)
    requires pixels > 10000
    ensures Round((ClockFor(pixels * refresh) * 1000) as real / pixels as real) == refresh
  {
    var rate := pixels * refresh;
    ClockNear(rate);
    QuotientNear((ClockFor(rate) * 1000) as real, rate as real, pixels as real);
    Divided(pixels, refresh, rate);
    RoundTo((ClockFor(rate) * 1000) as real / pixels as real, refresh);
  }

  lemma Divided(pixels: nat, refresh: nat, rate: nat)
    requires pixels > 0 && rate == pixels * refresh
    ensures rate as real / pixels as real == refresh as real
  {
    assert rate as real == pixels as real * refresh as real;
  }

  lemma ClockNear(rate: nat)
    ensures Abs((ClockFor(rate) * 1000) as real - rate as real) <= 5000.0
  {
  }

  lemma QuotientNear(x: real, y: real, d: real)
    requires Abs(x - y) <= 5000.0 && 10000.0 < d
    ensures Abs(x / d - y / d) < 0.5
  {
    var e := (x - y) / d;
    assert e == x / d - y / d;
    assert e * d == x - y;
    assert e < 0.5 by {
      assert 0.5 * d > 5000.0;
    }
  }

  const MODES := [Mode(1600, 1200, 60), Mode(3840, 2160, 30), Mode(1920, 1080, 60), Mode(1280, 720, 60)]

  /** A timing fits its descriptor exactly if the picture, its blanking and its clock do. */
  lemma TimingFits(m: Mode)
    ensures InWidths(CvtReduced(m)) <==>
      m.width < 4096 && m.height < 4096 && VBlank(m) < 4096 && PixelsPerSecond(m) < 655_355_000
  {
    ClockFits(PixelsPerSecond(m));
  }

  lemma ClockFits(rate: nat)
    ensures ClockFor(rate) % 10 == 0
    ensures ClockFor(rate) / 10 < 65536 <==> rate < 655_355_000
  {
    assert ClockFor(rate) / 10 == Round(rate as real / 10000.0);
  }

  /** The modes of the guests all fit, and a display that reads the descriptors sees exactly them. */
  lemma ModesFit(m: Mode)
    requires m in MODES
    ensures InWidths(CvtReduced(m)) && FramePixels(CvtReduced(m)) > 10000
  {
    GuestClock(m);
    GuestSize(m);
    ManyPixels(m.width + H_BLANK, m.height + VBlank(m));
  }

  lemma GuestSize(m: Mode)
    requires m in MODES
    ensures 1280 <= m.width <= 3840 && 720 <= m.height <= 2160
  {
  }

  lemma ManyPixels(width: nat, height: nat)
    requires 1000 <= width && 100 <= height
    ensures width * height > 10000
  {
    assert width * height >= 1000 * height;
  }

  // ----- the block

  function Sum(bytes: Bytes): int {
    if bytes == [] then 0 else Sum(bytes[..|bytes| - 1]) + bytes[|bytes| - 1]
  }

  /** Four descriptor slots: the timings, then the monitor's name if a slot is free, then unused ones. */
  function Slots(timings: seq<Bytes>): seq<Bytes> {
    var named := if |timings| < 4 then timings + [MonitorName()] else timings;
    named + Unused(if |named| < 4 then 4 - |named| else 0)
  }

  function Unused(n: nat): seq<Bytes> {
    if n == 0 then [] else Unused(n - 1) + [[0, 0, 0, 16, 0] + Zeros(13)]
  }

  function Zeros(n: nat): (r: Bytes)
    ensures |r| == n && forall i | 0 <= i < n :: r[i] == 0
  {
    seq(n, i => 0)
  }

  /** `descriptor_text(0xFC, "wayland-vnc")`: the text in ASCII, cut or padded to thirteen bytes. */
  function MonitorName(): Bytes {
    DescriptorText(252, [119, 97, 121, 108, 97, 110, 100, 45, 118, 110, 99])
  }

  function DescriptorText(tag: int, text: Bytes): Bytes {
    [0, 0, 0, tag, 0] + if |text| < 13 then text + Padding(13 - |text|, 10) else text[..13]
  }

  function Padding(n: nat, byte: int): (r: Bytes)
    ensures |r| == n && forall i | 0 <= i < n :: r[i] == byte
  {
    seq(n, i => byte)
  }

  /** Each slot is eighteen bytes. */
  predicate Descriptor(d: Bytes) {
    |d| == 18 && AllBytes(d)
  }

  predicate Descriptors(slots: seq<Bytes>) {
    forall i | 0 <= i < |slots| :: Descriptor(slots[i])
  }

  lemma NameIsDescriptor()
    ensures Descriptor(MonitorName())
  {
  }

  lemma {:induction false} UnusedAreDescriptors(n: nat)
    ensures |Unused(n)| == n && Descriptors(Unused(n))
  {
    if n == 0 {
    } else {
      UnusedAreDescriptors(n - 1);
    }
  }

  lemma SlotsAreDescriptors(timings: seq<Bytes>)
    requires Descriptors(timings)
    ensures Descriptors(Slots(timings)) && timings <= Slots(timings)
    ensures |Slots(timings)| == if |timings| <= 4 then 4 else |timings|
  {
    NameIsDescriptor();
    UnusedAreDescriptors(4);
    UnusedAreDescriptors(3);
    UnusedAreDescriptors(2);
    UnusedAreDescriptors(1);
    UnusedAreDescriptors(0);
    var named := if |timings| < 4 then timings + [MonitorName()] else timings;
    UnusedAreDescriptors(if |named| < 4 then 4 - |named| else 0);
  }

  const MAGIC := [0, 255, 255, 255, 255, 255, 255, 0]

  /** Everything before the descriptors: the manufacturer, the product, the date, the version, the display's
      features, and no chromaticity, established or standard timings. */
  function Header(): Bytes {
    MAGIC + [94, 206] + [1, 0] + [1, 0, 0, 0] + [0, 36, 1, 4, 165, 60, 34, 120, 6] + Zeros(13) + Padding(16, 1)
  }

  function Joined(slots: seq<Bytes>): Bytes {
    if slots == [] then [] else Joined(slots[..|slots| - 1]) + slots[|slots| - 1]
  }

  lemma {:induction false} JoinedLength(slots: seq<Bytes>)
    requires Descriptors(slots)
    ensures |Joined(slots)| == 18 * |slots| && AllBytes(Joined(slots))
  {
    if slots == [] {
    } else {
      JoinedLength(slots[..|slots| - 1]);
      assert Descriptor(slots[|slots| - 1]);
    }
  }

  lemma {:induction false} JoinedSlot(slots: seq<Bytes>, i: nat)
    requires Descriptors(slots) && i < |slots|
    ensures |Joined(slots)| == 18 * |slots| && Joined(slots)[18 * i..18 * i + 18] == slots[i]
  {
    var n := |slots| - 1;
    JoinedLength(slots);
    JoinedLength(slots[..n]);
    assert Descriptor(slots[n]);
    if i < n {
      JoinedSlot(slots[..n], i);
      SliceOfFirst(Joined(slots[..n]), slots[n], 18 * i);
    } else {
      SliceOfLast(Joined(slots[..n]), slots[n]);
    }
  }

  lemma SliceOfFirst(first: Bytes, last: Bytes, at: nat)
    requires at + 18 <= |first|
    ensures (first + last)[at..at + 18] == first[at..at + 18]
  {
  }

  lemma SliceOfLast(first: Bytes, last: Bytes)
    requires |last| == 18
    ensures (first + last)[|first|..|first| + 18] == last
  {
  }

  /** A slice assignment. */
  method Put(edid: array<int>, at: nat, bytes: Bytes)
    requires at + |bytes| <= edid.Length
    modifies edid
    ensures edid[..at + |bytes|] == old(edid[..at]) + bytes
    ensures edid[at + |bytes|..] == old(edid[at + |bytes|..])
  {
    for i := 0 to |bytes|
      invariant edid[..at + i] == old(edid[..at]) + bytes[..i]
      invariant edid[at + i..] == old(edid[at + i..])
    {
      edid[at + i] := bytes[i];
    }
  }

  /** The timings of the modes, up to the first that no descriptor can hold. */
  method Timings(modes: seq<Mode>) returns (r: Result<seq<Bytes>>)
    ensures r.Ok? <==> forall i | 0 <= i < |modes| :: Writable(CvtReduced(modes[i]))
    ensures r.Ok? ==> |r.value| == |modes| && Descriptors(r.value)
    ensures r.Ok? ==> forall i | 0 <= i < |modes| :: DetailedTiming(CvtReduced(modes[i])) == Ok(r.value[i])
  {
    var timings: seq<Bytes> := [];
    for i := 0 to |modes|
      invariant |timings| == i && Descriptors(timings)
      invariant forall j | 0 <= j < i :: Writable(CvtReduced(modes[j]))
      invariant forall j | 0 <= j < i :: DetailedTiming(CvtReduced(modes[j])) == Ok(timings[j])
    {
      var timing := DetailedTiming(CvtReduced(modes[i]));
      RaisesExactly(CvtReduced(modes[i]));
      if timing.Err? {
        assert !Writable(CvtReduced(modes[i]));
        return Err("ValueError");
      }
      timings := timings + [timing.value];
    }
    r := Ok(timings);
  }

  method FillSlots(timings: seq<Bytes>) returns (blocks: seq<Bytes>)
    ensures blocks == Slots(timings)
  {
    blocks := timings;
    if |blocks| < 4 {
      blocks := blocks + [MonitorName()];
    }
    ghost var named := blocks;
    assert named + Unused(0) == named;
    while |blocks| < 4
      invariant |named| <= |blocks| && (|blocks| <= 4 || blocks == named)
      invariant blocks == named + Unused(|blocks| - |named|)
    {
      assert named + Unused(|blocks| - |named|) + [[0, 0, 0, 16, 0] + Zeros(13)] ==
        named + (Unused(|blocks| - |named|) + [[0, 0, 0, 16, 0] + Zeros(13)]);
      blocks := blocks + [[0, 0, 0, 16, 0] + Zeros(13)];
    }
  }

  /** The header, the descriptors and the number of extension blocks: all but the checksum. */
  function Unsummed(descriptors: Bytes): Bytes {
    Header() + descriptors + [0]
  }

  function Checksum(bytes: Bytes): int {
    -Sum(bytes) % 256
  }

  method WriteHeader(edid: array<int>)
    requires edid.Length == 128
    modifies edid
    ensures edid[..54] == Header()
  {
    Put(edid, 0, MAGIC);
    Put(edid, 8, [94, 206]);
    Put(edid, 10, [1, 0]);
    Put(edid, 12, [1, 0, 0, 0]);
    Put(edid, 16, [0, 36, 1, 4, 165, 60, 34, 120, 6]);
    Put(edid, 25, Zeros(10));
    Put(edid, 35, [0, 0, 0]);
    assert Zeros(10) + [0, 0, 0] == Zeros(13);
    ghost var first := edid[..38];
    assert first == MAGIC + [94, 206] + [1, 0] + [1, 0, 0, 0] + [0, 36, 1, 4, 165, 60, 34, 120, 6] + Zeros(13);
    for i := 38 to 54
      invariant edid[..38] == first && forall j | 38 <= j < i :: edid[j] == 1
    {
      edid[i] := 1;
    }
    assert edid[..54] == first + Padding(16, 1);
  }

  /** The whole block of up to four modes. Its bytes sum to zero modulo 256, and every slot reads as the
      descriptor that was put in it. */
  method BuildEdid(modes: seq<Mode>) returns (r: Result<Bytes>)
    ensures r.Ok? <==> |modes| <= 4 && forall i | 0 <= i < |modes| :: Writable(CvtReduced(modes[i]))
    ensures r.Ok? ==> Block(modes, r.value)
  {
    var timings := Timings(modes);
    if timings.Err? {
      return Err("ValueError");
    }
    var blocks := FillSlots(timings.value);
    SlotsAreDescriptors(timings.value);
    JoinedLength(blocks);
    var descriptors := Joined(blocks);
    if |descriptors| != 72 {
      return Err("AssertionError");
    }
    var edid := new int[128](_ => 0);
    WriteBlock(edid, descriptors);
    BlockFrom(modes, timings.value);
    r := Ok(edid[..]);
  }

  method WriteBlock(edid: array<int>, descriptors: Bytes)
    requires edid.Length == 128 && |descriptors| == 72
    modifies edid
    ensures edid[..] == Unsummed(descriptors) + [Checksum(Unsummed(descriptors))]
  {
    WriteHeader(edid);
    Put(edid, 54, descriptors);
    edid[126] := 0;
    assert edid[..127] == Unsummed(descriptors);
    edid[127] := Checksum(edid[..127]);
    assert edid[..127] == Unsummed(descriptors);
  }

  /** A block a display accepts and reads as the modes it was made from. */
  ghost predicate Block(modes: seq<Mode>, edid: Bytes) {
    && |edid| == 128 && AllBytes(edid) && Sum(edid) % 256 == 0
    && edid[..54] == Header() && edid[126] == 0
    && |modes| <= 4 && (forall i | 0 <= i < |modes| ::
         DetailedTiming(CvtReduced(modes[i])) == Ok(edid[54 + 18 * i..54 + 18 * i + 18]))
    && forall i | |modes| <= i < 4 :: edid[54 + 18 * i..54 + 18 * i + 18] == FreeSlot(i == |modes|)
  }

  /** What a slot without a timing holds: the monitor's name in the first of them, and nothing in the others. */
  function FreeSlot(first: bool): Bytes {
    if first then [0, 0, 0, 0xFC, 0, 'w' as int, 'a' as int, 'y' as int, 'l' as int, 'a' as int, 'n' as int, 'd' as int,
                   '-' as int, 'v' as int, 'n' as int, 'c' as int, 10, 10]
    else [0, 0, 0, 0x10, 0, 0, 0, 0, 0, 0, 0, 0, 0, 0, 0, 0, 0, 0]
  }

  lemma {:induction false} UnusedAt(n: nat, i: nat)
    requires i < n
    ensures |Unused(n)| == n && Unused(n)[i] == FreeSlot(false)
  {
    UnusedAreDescriptors(n);
    if i < n - 1 {
      UnusedAreDescriptors(n - 1);
      UnusedAt(n - 1, i);
    } else {
      UnusedAreDescriptors(n - 1);
      assert [0, 0, 0, 16, 0] + Zeros(13) == FreeSlot(false);
    }
  }

  lemma FreeSlots(timings: seq<Bytes>, i: nat)
    requires |timings| <= i < 4 && Descriptors(timings)
    ensures |Slots(timings)| == 4 && Slots(timings)[i] == FreeSlot(i == |timings|)
  {
    SlotsAreDescriptors(timings);
    var named := timings + [MonitorName()];
    if i == |timings| {
      assert MonitorName() == FreeSlot(true);
    } else {
      UnusedAt(4 - |named|, i - |named|);
    }
  }

  lemma BlockFrom(modes: seq<Mode>, timings: seq<Bytes>)
    requires |modes| <= 4 && |timings| == |modes| && Descriptors(timings)
    requires forall i | 0 <= i < |modes| :: DetailedTiming(CvtReduced(modes[i])) == Ok(timings[i])
    ensures var bytes := Unsummed(Joined(Slots(timings))); Block(modes, bytes + [Checksum(bytes)])
  {
    var slots := Slots(timings);
    SlotsAreDescriptors(timings);
    JoinedLength(slots);
    var bytes := Unsummed(Joined(slots));
    HeaderBytes();
    ChecksumZero(bytes);
    BlockShape(Header(), Joined(slots), Checksum(bytes));
    forall i | 0 <= i < |modes| ensures (bytes + [Checksum(bytes)])[54 + 18 * i..54 + 18 * i + 18] == timings[i] {
      JoinedSlot(slots, i);
      BlockSlot(Header(), Joined(slots), Checksum(bytes), 18 * i);
    }
    forall i | |modes| <= i < 4
      ensures (bytes + [Checksum(bytes)])[54 + 18 * i..54 + 18 * i + 18] == FreeSlot(i == |modes|)
    {
      FreeSlots(timings, i);
      JoinedSlot(slots, i);
      BlockSlot(Header(), Joined(slots), Checksum(bytes), 18 * i);
    }
  }

  lemma BlockShape(header: Bytes, descriptors: Bytes, checksum: int)
    requires |header| == 54 && AllBytes(header) && |descriptors| == 72 && AllBytes(descriptors) && IsByte(checksum)
    ensures var edid := header + descriptors + [0] + [checksum];
      |edid| == 128 && AllBytes(edid) && edid[..54] == header && edid[126] == 0
  {
  }

  lemma BlockSlot(header: Bytes, descriptors: Bytes, checksum: int, at: nat)
    requires |header| == 54 && |descriptors| == 72 && at + 18 <= 72
    ensures (header + descriptors + [0] + [checksum])[54 + at..54 + at + 18] == descriptors[at..at + 18]
  {
  }

  lemma HeaderBytes()
    ensures |Header()| == 54 && AllBytes(Header())
  {
  }

  /** The fixed part: the EDID signature, the manufacturer in three letters of five bits, week and
      year, version 1.4, and no established or standard timings. */
  lemma HeaderSays()
    ensures var h := Header();
      && h[..8] == [0, 255, 255, 255, 255, 255, 255, 0]
      && 256 * h[8] + h[9] == (23 * 32 + 22) * 32 + 14
      && h[10] + 256 * h[11] == 1 && h[12..16] == [1, 0, 0, 0] && h[16] == 0 && 1990 + h[17] == 2026
      && h[18] == 1 && h[19] == 4 && h[35..38] == [0, 0, 0] && h[38..54] == Padding(16, 1)
  {
    assert Header()[38..54] == Padding(16, 1);
  }

  lemma ChecksumZero(bytes: Bytes)
    ensures Sum(bytes + [Checksum(bytes)]) % 256 == 0 && IsByte(Checksum(bytes))
  {
    assert (bytes + [Checksum(bytes)])[..|bytes|] == bytes;
  }

  /** A display that decodes the descriptor, and works the refresh out of the clock, gets the mode. */
  predicate ReadsAs(d: Bytes, m: Mode) {
    && Descriptor(d) && Decode(d).width == m.width && Decode(d).height == m.height
    && FramePixels(Decode(d)) > 0 && RefreshOf(Decode(d)) == m.refresh
  }

  lemma ModeReads(m: Mode)
    requires InWidths(CvtReduced(m)) && FramePixels(CvtReduced(m)) > 10000
    ensures DetailedTiming(CvtReduced(m)).Ok? && ReadsAs(DetailedTiming(CvtReduced(m)).value, m)
  {
    RoundTrip(CvtReduced(m));
    RefreshRecovered(m);
    SameTiming(CvtReduced(m), m);
  }

  lemma SameTiming(t: Timing, m: Mode)
    requires t == CvtReduced(m)
    ensures t.width == m.width && t.height == m.height
  {
  }

  /** The guests' own modes are all written so that a display reads them back. */
  lemma GuestModesRead(m: Mode)
    requires m in MODES
    ensures DetailedTiming(CvtReduced(m)).Ok? && ReadsAs(DetailedTiming(CvtReduced(m)).value, m)
  {
    ModesFit(m);
    ModeReads(m);
  }
}
