/** Bytes, the fixed-width integers of the program, and the big-endian fields of its file formats. */
module Bytes {
  type byte = x: int | 0 <= x < 256
  type bytes = seq<byte>
  type uint16 = x: int | 0 <= x < 0x1_0000
  type uint24 = x: int | 0 <= x < 0x100_0000
  type uint32 = x: int | 0 <= x < 0x1_0000_0000

  const QUOTE: byte := 34
  const BACKSLASH: byte := 92

  /** A byte of a NUL-terminated buffer. */
  function At0(s: bytes, i: nat): byte {
    if i < |s| then s[i] else 0
  }

  function Be16(n: uint16): (b: bytes)
    ensures |b| == 2
  {
    [n / 256, n % 256]
  }

  function Be24(n: uint24): (b: bytes)
    ensures |b| == 3
  {
    [n / 65536, n / 256 % 256, n % 256]
  }

  function Be32(n: uint32): (b: bytes)
    ensures |b| == 4
  {
    [n / 0x100_0000, n / 65536 % 256, n / 256 % 256, n % 256]
  }

  function U16(b: bytes): uint16
    requires |b| == 2
  {
    b[0] as int * 256 + b[1]
  }

  function U24(b: bytes): uint24
    requires |b| == 3
  {
    b[0] as int * 65536 + b[1] as int * 256 + b[2]
  }

  function U32(b: bytes): uint32
    requires |b| == 4
  {
    b[0] as int * 0x100_0000 + b[1] as int * 65536 + b[2] as int * 256 + b[3]
  }

  lemma Be16Inverse(n: uint16)
    ensures U16(Be16(n)) == n
  {
  }

  lemma Be24Inverse(n: uint24)
    ensures U24(Be24(n)) == n
  {
    assert n / 256 / 256 == n / 65536;
  }

  lemma Be32Inverse(n: uint32)
    ensures U32(Be32(n)) == n
  {
    Be32Digits(n);
  }

  /** A 32-bit number and its four base-256 digits. */
  lemma Be32Digits(n: uint32)
    ensures var b := Be32(n); n == ((b[0] as int * 256 + b[1]) * 256 + b[2]) * 256 + b[3]
  {
    var q, r := n / 256, n % 256;
    assert n == 256 * q + r;
    assert q / 256 == n / 65536 && q / 65536 == n / 0x100_0000;
  }

  lemma Be32FromDigits(a: byte, b: byte, c: byte, d: byte)
    ensures var n := ((a as int * 256 + b) * 256 + c) * 256 + d; n < 0x1_0000_0000 && Be32(n) == [a, b, c, d]
  {
    var p: int := a as int * 256 + b;
    var q: int := p * 256 + c;
    var n: int := q * 256 + d;
    assert n / 256 == q && q / 256 == p && p / 256 == a;
    assert n / 65536 == p && n / 0x100_0000 == a;
  }

  /** The bytes `part` stand in `whole` at position `p`. */
  ghost predicate At(whole: bytes, p: nat, part: bytes) {
    p + |part| <= |whole| && whole[p..p + |part|] == part
  }

  lemma AtAppend(whole: bytes, p: nat, a: bytes, b: bytes)
    ensures At(whole, p, a + b) <==> At(whole, p, a) && At(whole, p + |a|, b)
  {
    if At(whole, p, a + b) {
      assert whole[p..p + |a|] == (a + b)[..|a|] == a;
      assert whole[p + |a|..p + |a| + |b|] == (a + b)[|a|..] == b;
    }
    if At(whole, p, a) && At(whole, p + |a|, b) {
      assert whole[p..p + |a + b|] == whole[p..p + |a|] + whole[p + |a|..p + |a| + |b|];
    }
  }

  lemma AtByte(whole: bytes, p: nat, part: bytes, i: nat)
    requires At(whole, p, part) && i < |part|
    ensures whole[p + i] == part[i]
  {
    assert whole[p..p + |part|][i] == part[i];
  }

  lemma AtSlice(whole: bytes, p: nat, part: bytes, i: nat, j: nat)
    requires At(whole, p, part) && i <= j <= |part|
    ensures whole[p + i..p + j] == part[i..j]
  {
    forall k | 0 <= k < j - i ensures whole[p + i..p + j][k] == part[i..j][k] {
      AtByte(whole, p, part, i + k);
    }
  }
}
