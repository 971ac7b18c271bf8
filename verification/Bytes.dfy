/** Machine integers, byte strings and the text encodings the daemon relies on:
    UTF-8, decimal numbers, lower-case hex and little-endian integers.  Every
    encoder comes with a decoder that undoes it in front of arbitrary further
    bytes, which is what makes the length-prefixed audit payload decodable. */
module Bytes {

  type byte = x: int | 0 <= x < 0x100
  type u32 = x: int | 0 <= x < 0x1_0000_0000
  type u64 = x: int | 0 <= x < 0x1_0000_0000_0000_0000
  type Bytes32 = s: seq<byte> | |s| == 32 witness seq(32, _ => 0)

  const U32_MAX: int := 0xFFFF_FFFF
  const U64_MAX: int := 0xFFFF_FFFF_FFFF_FFFF

  const NEWLINE: byte := 10
  const COLON: byte := 58

  datatype Option<+T> = None | Some(value: T)

  datatype Result<+T, +E> = Ok(value: T) | Err(error: E)

  /** `Instant::duration_since`, which saturates at zero. */
  function Elapsed(now: nat, since: nat): nat {
    if now >= since then now - since else 0
  }

  // ---------------------------------------------------------------- UTF-8

  /** The UTF-8 form of one Unicode scalar value. */
  function EncodeChar(c: char): (r: seq<byte>)
    ensures 1 <= |r| <= 4
  {
    var v := c as int;
    if v < 0x80 then [v]
    else if v < 0x800 then [0xC0 + v / 64, 0x80 + v % 64]
    else if v < 0x1_0000 then [0xE0 + v / 4096, 0x80 + v / 64 % 64, 0x80 + v % 64]
    else [0xF0 + v / 262144, 0x80 + v / 4096 % 64, 0x80 + v / 64 % 64, 0x80 + v % 64]
  }

  predicate Continuation(b: byte) {
    0x80 <= b < 0xC0
  }

  function Payload6(b: byte): int {
    b as int - 0x80
  }

  predicate Scalar(v: int) {
    0 <= v < 0xD800 || 0xE000 <= v < 0x11_0000
  }

  /** The scalar value at the head of `s` and the number of bytes it takes. */
  function DecodeHead(s: seq<byte>): (r: Option<(char, nat)>)
    ensures r.Some? ==> 1 <= r.value.1 <= |s|
  {
    if |s| >= 1 && s[0] < 0x80 then Some((s[0] as char, 1))
    else if |s| >= 2 && 0xC0 <= s[0] < 0xE0 && Continuation(s[1]) then
      Some((((s[0] as int - 0xC0) * 64 + Payload6(s[1])) as char, 2))
    else if |s| >= 3 && 0xE0 <= s[0] < 0xF0 && Continuation(s[1]) && Continuation(s[2]) then
      var v := (s[0] as int - 0xE0) * 4096 + Payload6(s[1]) * 64 + Payload6(s[2]);
      if Scalar(v) then Some((v as char, 3)) else None
    else if |s| >= 4 && 0xF0 <= s[0] < 0xF8 && Continuation(s[1]) && Continuation(s[2]) && Continuation(s[3]) then
      var v := (s[0] as int - 0xF0) * 262144 + Payload6(s[1]) * 4096 + Payload6(s[2]) * 64 + Payload6(s[3]);
      if Scalar(v) then Some((v as char, 4)) else None
    else None
  }

  /** The sixes of bits of a scalar value put it together again. */
  lemma SplitSixes(v: int)
    requires 0 <= v < 0x11_0000
    ensures v == v / 64 * 64 + v % 64
    ensures v == v / 4096 * 4096 + v / 64 % 64 * 64 + v % 64
    ensures v == v / 262144 * 262144 + v / 4096 % 64 * 4096 + v / 64 % 64 * 64 + v % 64
  {
    assert v / 64 == v / 4096 * 64 + v / 64 % 64;
    assert v / 4096 == v / 262144 * 64 + v / 4096 % 64;
  }

  lemma DecodeShort(c: char, rest: seq<byte>)
    requires c as int < 0x800
    ensures DecodeHead(EncodeChar(c) + rest) == Some((c, |EncodeChar(c)|))
  {
    SplitSixes(c as int);
  }

  lemma DecodeThree(c: char, rest: seq<byte>)
    requires 0x800 <= c as int < 0x1_0000
    ensures DecodeHead(EncodeChar(c) + rest) == Some((c, |EncodeChar(c)|))
  {
    SplitSixes(c as int);
  }

  lemma DecodeFour(c: char, rest: seq<byte>)
    requires 0x1_0000 <= c as int
    ensures DecodeHead(EncodeChar(c) + rest) == Some((c, |EncodeChar(c)|))
  {
    SplitSixes(c as int);
  }

  lemma DecodeHeadOfEncode(c: char, rest: seq<byte>)
    ensures DecodeHead(EncodeChar(c) + rest) == Some((c, |EncodeChar(c)|))
  {
    if c as int < 0x800 {
      DecodeShort(c, rest);
    } else if c as int < 0x1_0000 {
      DecodeThree(c, rest);
    } else {
      DecodeFour(c, rest);
    }
  }

  function Utf8(s: string): seq<byte> {
    if s == [] then [] else EncodeChar(s[0]) + Utf8(s[1..])
  }

  function FromUtf8(s: seq<byte>): Option<string>
    decreases |s|
  {
    if s == [] then Some([])
    else
      match DecodeHead(s)
      case None => None
      case Some((c, n)) =>
        match FromUtf8(s[n..])
        case None => None
        case Some(t) => Some([c] + t)
  }

  /** Decoding undoes encoding, so distinct texts have distinct bytes. */
  lemma {:induction false} Utf8RoundTrip(s: string)
    ensures FromUtf8(Utf8(s)) == Some(s)
  {
    if s != [] {
      var head, tail := EncodeChar(s[0]), Utf8(s[1..]);
      DecodeHeadOfEncode(s[0], tail);
      assert (head + tail)[|head|..] == tail;
      Utf8RoundTrip(s[1..]);
      assert s == [s[0]] + s[1..];
    }
  }

  /** The bytes of an ASCII literal, where UTF-8 is one byte for each character. */
  function Ascii(s: string): (r: seq<byte>)
    ensures |r| == |s|
  {
    seq(|s|, i requires 0 <= i < |s| => s[i] as int % 128)
  }

  // -------------------------------------------------------------- decimals

  predicate IsDigit(b: byte) {
    48 <= b < 58
  }

  /** What `to_string` prints for an unsigned integer. */
  function Decimal(n: nat): (r: seq<byte>)
    ensures |r| >= 1
    ensures forall i :: 0 <= i < |r| ==> IsDigit(r[i])
  {
    if n < 10 then [48 + n] else Decimal(n / 10) + [48 + n % 10]
  }

  function DigitsValue(s: seq<byte>): nat
    requires forall i :: 0 <= i < |s| ==> IsDigit(s[i])
  {
    if s == [] then 0
    else
      assert IsDigit(s[|s| - 1]);
      10 * DigitsValue(s[..|s| - 1]) + (s[|s| - 1] as int - 48)
  }

  lemma {:induction false} DecimalValue(n: nat)
    ensures DigitsValue(Decimal(n)) == n
  {
    if n >= 10 {
      DecimalValue(n / 10);
      var d := Decimal(n / 10);
      assert Decimal(n)[..|Decimal(n)| - 1] == d;
    } else {
      assert Decimal(n)[..0] == [];
    }
  }

  /** The length of the run of digits that starts `s`. */
  function DigitRun(s: seq<byte>): (k: nat)
    ensures k <= |s|
    ensures forall i :: 0 <= i < k ==> IsDigit(s[i])
    ensures k < |s| ==> !IsDigit(s[k])
  {
    if s == [] || !IsDigit(s[0]) then 0 else 1 + DigitRun(s[1..])
  }

  lemma DigitRunOf(d: seq<byte>, rest: seq<byte>)
    requires forall i :: 0 <= i < |d| ==> IsDigit(d[i])
    requires rest != [] && !IsDigit(rest[0])
    ensures DigitRun(d + rest) == |d|
  {
    assert (d + rest)[|d|] == rest[0];
    assert forall i :: 0 <= i < |d| ==> (d + rest)[i] == d[i];
  }

  // ------------------------------------------------------------------- hex

  const HEX: string := "0123456789abcdef"

  /** `encode_hex` as a function: two lower-case digits for each byte. */
  function Hex(s: seq<byte>): (r: string)
    ensures |r| == 2 * |s|
    ensures forall i :: 0 <= i < |r| ==> IsLowerHex(r[i])
  {
    if s == [] then [] else Hex(s[..|s| - 1]) + [HEX[s[|s| - 1] / 16], HEX[s[|s| - 1] % 16]]
  }

  predicate IsLowerHex(c: char) {
    '0' <= c <= '9' || 'a' <= c <= 'f'
  }

  /** `is_lower_hex_hash`.  Hex digits are ASCII, so counting characters and
      counting bytes is the same. */
  predicate IsLowerHexHash(s: string) {
    |s| == 64 && forall i :: 0 <= i < |s| ==> IsLowerHex(s[i])
  }

  /** A well-formed lower-case hash. */
  type HexHash = s: string | IsLowerHexHash(s) witness ZeroHash()

  /** `ZERO_HASH`: sixty-four zero digits. */
  function ZeroHash(): (h: string)
    ensures IsLowerHexHash(h)
  {
    seq(64, _ => '0')
  }

  lemma {:induction false} HexOfZeros(n: nat)
    ensures Hex(seq(n, _ => 0)) == seq(2 * n, _ => '0')
  {
    if n > 0 {
      HexOfZeros(n - 1);
      var s: seq<byte> := seq(n, _ => 0);
      assert s[..n - 1] == seq(n - 1, _ => 0);
    }
  }

  method EncodeHex(bytes: seq<byte>) returns (out: string)
    ensures out == Hex(bytes)
  {
    out := "";
    for i := 0 to |bytes|
      invariant out == Hex(bytes[..i])
    {
      assert bytes[..i + 1][..i] == bytes[..i];
      out := out + [HEX[bytes[i] / 16]];
      out := out + [HEX[bytes[i] % 16]];
    }
    assert bytes[..|bytes|] == bytes;
  }

  lemma HexDigitsDiffer(a: int, b: int)
    requires 0 <= a < 16 && 0 <= b < 16 && HEX[a] == HEX[b]
    ensures a == b
  {
    HexDigitIs(a);
    HexDigitIs(b);
  }

  lemma HexDigitIs(a: int)
    requires 0 <= a < 16
    ensures HEX[a] as int == if a < 10 then 48 + a else 87 + a
  {
  }

  lemma HexLast(s: seq<byte>)
    requires s != []
    ensures var m := |s| - 1;
            && Hex(s)[..2 * m] == Hex(s[..m])
            && Hex(s)[2 * m] == HEX[s[m] / 16] && Hex(s)[2 * m + 1] == HEX[s[m] % 16]
  {
  }

  lemma ByteOfDigits(a: byte, b: byte)
    requires HEX[a / 16] == HEX[b / 16] && HEX[a % 16] == HEX[b % 16]
    ensures a == b
  {
    HexDigitsDiffer(a / 16, b / 16);
    HexDigitsDiffer(a % 16, b % 16);
  }

  lemma {:induction false} HexInjective(s: seq<byte>, t: seq<byte>)
    requires Hex(s) == Hex(t)
    ensures s == t
    decreases |s|
  {
    if s != [] {
      var m := |s| - 1;
      assert |t| == |s|;
      HexLast(s);
      HexLast(t);
      HexInjective(s[..m], t[..m]);
      ByteOfDigits(s[m], t[m]);
      assert s == s[..m] + [s[m]] && t == t[..m] + [t[m]];
    }
  }

  // --------------------------------------------------------- little endian

  function Power256(n: nat): (p: int)
    ensures p >= 1
  {
    if n == 0 then 1 else 256 * Power256(n - 1)
  }

  /** `to_le_bytes` for an `n`-byte unsigned integer. */
  function LittleEndian(v: nat, n: nat): (r: seq<byte>)
    ensures |r| == n
    decreases n
  {
    if n == 0 then [] else [v % 256] + LittleEndian(v / 256, n - 1)
  }

  lemma {:induction false} LittleEndianInjective(v: nat, w: nat, n: nat)
    requires v < Power256(n) && w < Power256(n)
    requires LittleEndian(v, n) == LittleEndian(w, n)
    ensures v == w
    decreases n
  {
    if n > 0 {
      assert LittleEndian(v, n)[0] == v % 256 && LittleEndian(w, n)[0] == w % 256;
      assert LittleEndian(v, n)[1..] == LittleEndian(v / 256, n - 1);
      assert LittleEndian(w, n)[1..] == LittleEndian(w / 256, n - 1);
      LittleEndianInjective(v / 256, w / 256, n - 1);
    }
  }

  // --------------------------------------------------------------- floats

  /** An `f32` is its bit pattern.  IEEE 754 orders the non-NaN values as their
      sign-and-magnitude patterns do, with the two zeros equal, so comparisons
      are exact without any rounding. */
  type F32 = u32

  const INFINITY_BITS: int := 0x7F80_0000
  const ONE_BITS: F32 := 0x3F80_0000
  const ZERO_BITS: F32 := 0

  function Magnitude(x: F32): int {
    if x < 0x8000_0000 then x else x - 0x8000_0000
  }

  function OrderKey(x: F32): int {
    if x < 0x8000_0000 then x else 0x8000_0000 - x
  }

  predicate IsNan(x: F32) {
    Magnitude(x) > INFINITY_BITS
  }

  predicate IsFinite(x: F32) {
    Magnitude(x) < INFINITY_BITS
  }

  predicate Less(x: F32, y: F32) {
    !IsNan(x) && !IsNan(y) && OrderKey(x) < OrderKey(y)
  }

  predicate AtMost(x: F32, y: F32) {
    !IsNan(x) && !IsNan(y) && OrderKey(x) <= OrderKey(y)
  }

  /** `(0.0..=1.0).contains(&x)` */
  predicate InUnitInterval(x: F32) {
    AtMost(ZERO_BITS, x) && AtMost(x, ONE_BITS)
  }
}
