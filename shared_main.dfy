/** The sizing arithmetic and LED record shapes of include/shared_main.h:
    the ROUND_UP macro, the one-bit-per-LED bitmaps it sizes for the STP
    LED variants, and the per-LED records `Led_t` and `Led_WS2812_t`.

    Which LED technology is compiled in, and how many LEDs it drives, are
    preprocessor choices; here they are parameters. */
module SharedMain {
  import opened Bytes

  // ---------------------------------------------------------------------
  // ROUND_UP(N, S)

  /** `((N + S - 1) / S) * S`; the operands are non-negative, so C's
      truncating division is floor division. */
  function RoundUp(n: nat, s: nat): (r: nat)
    requires s > 0
  {
    ((n + s - 1) / s) * s
  }

  /** The rounded value is a multiple of S, at least N, and less than N + S:
      it is the least multiple of S not below N. */
  lemma RoundUpBounds(n: nat, s: nat)
    requires s > 0
    ensures RoundUp(n, s) % s == 0
    ensures n <= RoundUp(n, s) < n + s
  {
    var q := (n + s - 1) / s;
    var m := (n + s - 1) % s;
    assert n + s - 1 == q * s + m;
    MultipleMod(q, s);
  }

  /** Multiples of S are exactly the values ROUND_UP leaves unchanged. */
  lemma RoundUpFixedPoints(n: nat, s: nat)
    requires s > 0
    ensures RoundUp(n, s) == n <==> n % s == 0
  {
    RoundUpBounds(n, s);
    if n % s == 0 {
      var k := n / s;
      assert n == k * s;
      assert n + s - 1 == k * s + (s - 1);
      DivOfMultiplePlus(k, s, s - 1);
    }
  }

  /** Rounding twice is rounding once. */
  lemma RoundUpIdempotent(n: nat, s: nat)
    requires s > 0
    ensures RoundUp(RoundUp(n, s), s) == RoundUp(n, s)
  {
    RoundUpBounds(n, s);
    RoundUpFixedPoints(RoundUp(n, s), s);
  }

  lemma MultipleMod(q: nat, s: nat)
    requires s > 0
    ensures (q * s) % s == 0
  {
    DivOfMultiplePlus(q, s, 0);
  }

  /** (k * s + r) / s == k and (k * s + r) % s == r for 0 <= r < s. */
  lemma {:induction false} DivOfMultiplePlus(k: nat, s: nat, r: nat)
    requires 0 <= r < s
    ensures (k * s + r) / s == k && (k * s + r) % s == r
  {
    var x := k * s + r;
    var q, m := x / s, x % s;
    assert x == q * s + m;
    if q < k {
      MulMono(q + 1, k, s);
      assert false;
    } else if q > k {
      MulMono(k + 1, q, s);
      assert false;
    }
  }

  lemma MulMono(a: nat, b: nat, s: nat)
    requires a <= b
    ensures a * s <= b * s
  {
  }

  // ---------------------------------------------------------------------
  // STP bitmaps: ROUND_UP(count, 8) / 8 bytes, one bit per LED

  function StpBitmapBytes(ledCount: nat): (bytes: nat)
  {
    RoundUp(ledCount, 8) / 8
  }

  /** The bitmap is ceil(count / 8) bytes: enough for one bit per LED, with
      at most 7 bits to spare, and one byte fewer would not do. */
  lemma StpBitmapIsCeiling(ledCount: nat)
    ensures StpBitmapBytes(ledCount) == (ledCount + 7) / 8
    ensures ledCount <= 8 * StpBitmapBytes(ledCount) <= ledCount + 7
    ensures StpBitmapBytes(ledCount) > 0 ==> 8 * (StpBitmapBytes(ledCount) - 1) < ledCount
  {
    RoundUpBounds(ledCount, 8);
    var q := (ledCount + 7) / 8;
    assert RoundUp(ledCount, 8) == q * 8;
    DivOfMultiplePlus(q, 8, 0);
  }

  /** The byte that holds LED `index`'s bit lies inside the bitmap. */
  lemma StpBitInBitmap(ledCount: nat, index: nat)
    requires index < ledCount
    ensures index / 8 < StpBitmapBytes(ledCount)
  {
    StpBitmapIsCeiling(ledCount);
  }

  // ---------------------------------------------------------------------
  // Led_t and Led_WS2812_t

  /** `Led_t`: five one-byte fields, `select` first. */
  datatype Led = Led(select: byte, brightness: byte, r: byte, g: byte, b: byte)

  const LedLength: nat := 5

  function SerializeLed(l: Led): seq<byte>
  {
    [l.select, l.brightness, l.r, l.g, l.b]
  }

  function ParseLed(bs: seq<byte>): (r: Option<Led>)
    ensures r.Some? <==> |bs| >= LedLength
    ensures r.Some? ==> SerializeLed(r.value) == bs[..LedLength]
  {
    if |bs| < LedLength then None else Some(Led(bs[0], bs[1], bs[2], bs[3], bs[4]))
  }

  lemma LedRoundTrip(l: Led, rest: seq<byte>)
    ensures |SerializeLed(l)| == LedLength && SerializeLed(l)[0] == l.select
    ensures ParseLed(SerializeLed(l) + rest) == Some(l)
  {
  }

  /** One colour channel of the four bit groups of a WS2812 LED. */
  type Quad = s: seq<byte> | |s| == 4 witness [0, 0, 0, 0]

  /** Packed `Led_WS2812_t`: a select byte, then four red, four green and
      four blue bytes. */
  datatype LedWs2812 = LedWs2812(select: byte, r: Quad, g: Quad, b: Quad)

  const LedWs2812Length: nat := 13

  function SerializeLedWs2812(l: LedWs2812): seq<byte>
  {
    [l.select] + l.r + l.g + l.b
  }

  function ParseLedWs2812(bs: seq<byte>): (r: Option<LedWs2812>)
    ensures r.Some? <==> |bs| >= LedWs2812Length
    ensures r.Some? ==> SerializeLedWs2812(r.value) == bs[..LedWs2812Length]
  {
    if |bs| < LedWs2812Length then None
    else Some(LedWs2812(bs[0], bs[1..5], bs[5..9], bs[9..13]))
  }

  lemma LedWs2812RoundTrip(l: LedWs2812, rest: seq<byte>)
    ensures |SerializeLedWs2812(l)| == LedWs2812Length && SerializeLedWs2812(l)[0] == l.select
    ensures ParseLedWs2812(SerializeLedWs2812(l) + rest) == Some(l)
  {
    var bs := SerializeLedWs2812(l) + rest;
    assert bs[1..5] == l.r && bs[5..9] == l.g && bs[9..13] == l.b;
  }

  // ---------------------------------------------------------------------
  // LED state buffers of one domain (onboard or peripheral)

  datatype LedTechnology = Ws2812 | Stp | Rgb

  /** The buffers one domain declares: the current state, for STP a
      separate select bitmap, and the state last sent to the hardware. */
  datatype LedBuffers =
    | Ws2812Buffers(ws2812State: seq<LedWs2812>, ws2812Last: seq<LedWs2812>)
    | StpBuffers(bits: seq<byte>, selectBits: seq<byte>, lastBits: seq<byte>)
    | RgbBuffers(ledState: seq<Led>, lastLedState: seq<Led>)

  /** The buffers as declared for `ledCount` LEDs, zero-filled as static
      storage is. */
  function DeclareBuffers(tech: LedTechnology, ledCount: nat): (d: LedBuffers)
    ensures d.Ws2812Buffers? <==> tech == Ws2812
    ensures d.StpBuffers? <==> tech == Stp
    ensures d.RgbBuffers? <==> tech == Rgb
    ensures IndexableFor(d, ledCount)
    ensures d.StpBuffers? ==>
      forall i | 0 <= i < |d.bits| :: d.bits[i] == 0 && d.selectBits[i] == 0 && d.lastBits[i] == 0
  {
    match tech
    case Ws2812 =>
      var zero := LedWs2812(0, [0, 0, 0, 0], [0, 0, 0, 0], [0, 0, 0, 0]);
      Ws2812Buffers(seq(ledCount, _ => zero), seq(ledCount, _ => zero))
    case Stp =>
      var bytes := StpBitmapBytes(ledCount);
      StpBuffers(seq(bytes, _ => 0), seq(bytes, _ => 0), seq(bytes, _ => 0))
    case Rgb =>
      RgbBuffers(seq(ledCount, _ => Led(0, 0, 0, 0, 0)), seq(ledCount, _ => Led(0, 0, 0, 0, 0)))
  }

  /** Every buffer of the domain has the length its declaration gives for
      `ledCount` LEDs. */
  predicate IndexableFor(d: LedBuffers, ledCount: nat)
  {
    match d
    case Ws2812Buffers(s, l) => |s| == ledCount && |l| == ledCount
    case StpBuffers(b, sel, l) =>
      |b| == StpBitmapBytes(ledCount) && |sel| == |b| && |l| == |b|
    case RgbBuffers(s, l) => |s| == ledCount && |l| == ledCount
  }

  /** Where LED `index` lives in a buffer: its record for WS2812 and RGB,
      the byte holding its bit for STP. */
  function SlotOf(d: LedBuffers, index: nat): nat
  {
    if d.StpBuffers? then index / 8 else index
  }

  /** Within a declared domain the current, select and last-sent buffers
      have equal lengths, so an LED index below the count addresses a slot
      that exists in every one of them. */
  lemma IndexValidInAllBuffers(d: LedBuffers, ledCount: nat, index: nat)
    requires IndexableFor(d, ledCount)
    requires index < ledCount
    ensures d.Ws2812Buffers? ==> SlotOf(d, index) < |d.ws2812State| && SlotOf(d, index) < |d.ws2812Last|
    ensures d.StpBuffers? ==>
      SlotOf(d, index) < |d.bits| && SlotOf(d, index) < |d.selectBits| && SlotOf(d, index) < |d.lastBits|
    ensures d.RgbBuffers? ==> SlotOf(d, index) < |d.ledState| && SlotOf(d, index) < |d.lastLedState|
  {
    if d.StpBuffers? {
      StpBitInBitmap(ledCount, index);
    }
  }
}
