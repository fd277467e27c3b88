/** Byte-level vocabulary shared by the descriptor and LED-record models:
    unsigned integer widths as the C code declares them, little-endian 16-bit
    words, and an Option for decoders that may run out of input. */
module Bytes {

  /** `uint8_t` */
  type byte = x: int | 0 <= x < 0x100

  /** `uint16_t` */
  type u16 = x: int | 0 <= x < 0x1_0000

  datatype Option<+T> = None | Some(value: T)

  /** A 16-bit descriptor field on the wire: low byte first. */
  function Le16(v: u16): (bs: seq<byte>)
  {
    [v % 0x100, v / 0x100]
  }

  /** Reassembles a little-endian 16-bit word from its two bytes. */
  function FromLe16(lo: byte, hi: byte): (v: u16)
  {
    lo + 0x100 * hi
  }

  /** Writing a word low byte first and reading it back gives the word, and
      only two bytes are used. */
  lemma Le16RoundTrip(v: u16)
    ensures |Le16(v)| == 2
    ensures FromLe16(Le16(v)[0], Le16(v)[1]) == v
  {
  }

  /** Reading two bytes as a word and writing the word back gives the bytes. */
  lemma FromLe16RoundTrip(lo: byte, hi: byte)
    ensures Le16(FromLe16(lo, hi)) == [lo, hi]
  {
  }

  /** UTF-16LE code units as they follow a string descriptor's header. */
  function Le16s(units: seq<u16>): (bs: seq<byte>)
    ensures |bs| == 2 * |units|
  {
    if |units| == 0 then [] else Le16(units[0]) + Le16s(units[1..])
  }

  /** Writing two runs of code units is writing their concatenation. */
  lemma {:induction false} Le16sAppend(a: seq<u16>, b: seq<u16>)
    ensures Le16s(a + b) == Le16s(a) + Le16s(b)
    decreases |a|
  {
    if |a| == 0 {
      assert a + b == b;
    } else {
      assert (a + b)[1..] == a[1..] + b;
      Le16sAppend(a[1..], b);
    }
  }

  /** Reads `n` little-endian words from the front of `bs`. */
  function FromLe16s(bs: seq<byte>, n: nat): (units: seq<u16>)
    requires 2 * n <= |bs|
    ensures |units| == n
  {
    if n == 0 then [] else [FromLe16(bs[0], bs[1])] + FromLe16s(bs[2..], n - 1)
  }

  /** Code units written with Le16s and read back with FromLe16s are the
      same code units, whatever bytes follow them. */
  lemma {:induction false} Le16sRoundTrip(units: seq<u16>, rest: seq<byte>)
    ensures FromLe16s(Le16s(units) + rest, |units|) == units
    decreases |units|
  {
    if |units| > 0 {
      var bs := Le16s(units) + rest;
      assert bs == Le16(units[0]) + (Le16s(units[1..]) + rest);
      assert bs[2..] == Le16s(units[1..]) + rest;
      Le16sRoundTrip(units[1..], rest);
    }
  }

  /** Conversely, bytes read as words and written back are the bytes read. */
  lemma {:induction false} FromLe16sRoundTrip(bs: seq<byte>, n: nat)
    requires 2 * n <= |bs|
    ensures Le16s(FromLe16s(bs, n)) == bs[..2 * n]
    decreases n
  {
    if n > 0 {
      FromLe16sRoundTrip(bs[2..], n - 1);
      var units := FromLe16s(bs, n);
      assert units[1..] == FromLe16s(bs[2..], n - 1);
      assert Le16(units[0]) == [bs[0], bs[1]];
    }
  }
}
