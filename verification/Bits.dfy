/** The H.264 bit reader: a byte and bit cursor over a buffer, and the exponential Golomb codes read through it. */
module Bits {
  import opened Bytes

  type bit = b: int | 0 <= b < 2

  function Pow2(n: nat): (p: nat)
    ensures p >= 1
  {
    if n == 0 then 1 else 2 * Pow2(n - 1)
  }

  // ----- reading, by a flat bit index -----

  /** Bit k of a byte, the most significant one being bit 0. */
  function BitOf(b: byte, k: nat): bit
    requires k < 8
  {
    b / Pow2(7 - k) % 2
  }

  /** The bit at an index, or -1 behind the end of the buffer. */
  function BitAt(s: bytes, p: nat): (r: int)
    ensures r == -1 || r == 0 || r == 1
    ensures r == -1 <==> p >= 8 * |s|
  {
    if p / 8 >= |s| then -1 else BitOf(s[p / 8], p % 8)
  }

  /** A number and the index behind it; a short read gives no number but still moves on. */
  datatype Read = Read(ok: bool, value: uint32, next: nat)

  /** n bits as an unsigned 32-bit number. */
  function ReadBits(s: bytes, p: nat, n: nat): Read {
    if n == 0 then Read(true, 0, p) else
      var high := ReadBits(s, p, n - 1);
      if !high.ok || BitAt(s, high.next) == -1 then Read(false, high.value, high.next)
      else Read(true, (high.value * 2 + BitAt(s, high.next)) % 0x1_0000_0000, high.next + 1)
  }

  /** The number of zero bits before the next one bit; without one the end of the buffer is reached. */
  function Zeros(s: bytes, p: nat): nat
    decreases 8 * |s| - p
  {
    if BitAt(s, p) == 0 then 1 + Zeros(s, p + 1) else 0
  }

  datatype Code = Code(value: int, next: nat)

  /** exp_golomb_ue. The zeros are counted in 8 bits, and 1 is shifted as a 32-bit word. */
  function Ue(s: bytes, p: nat): Code {
    var zeros := Zeros(s, p);
    var q := p + zeros;
    if BitAt(s, q) == -1 then Code(0, q) else
      var n := zeros % 256;
      var r := ReadBits(s, q + 1, if n > 32 then 32 else n);
      if !r.ok then Code(0, r.next) else Code((Pow2(n % 32) + r.value - 1) % 0x1_0000_0000, r.next)
  }

  /** exp_golomb_se: the code number taken as a signed 32-bit number. */
  function SignedOf(value: int): int {
    var n := if value < 0x8000_0000 then value else value - 0x1_0000_0000;
    if n % 2 == 0 then -(n / 2) else (n + 1) / 2
  }

  function Se(s: bytes, p: nat): Code {
    var c := Ue(s, p);
    Code(SignedOf(c.value), c.next)
  }

  // ----- the codes of the standard -----

  /** The lowest n binary digits of a number, high ones first. */
  function Binary(v: nat, n: nat): (b: seq<bit>)
    ensures |b| == n
  {
    if n == 0 then [] else Binary(v / 2, n - 1) + [v % 2]
  }

  /** Section 9.1 of ITU-T H.264: as many zeros as there are digits behind the first one of k + 1, then k + 1 itself. */
  function UeBits(k: nat): seq<bit> {
    Zeroes(Log2(k + 1)) + ([1] + Binary(k + 1 - Pow2(Log2(k + 1)), Log2(k + 1)))
  }

  function Zeroes(n: nat): (b: seq<bit>)
    ensures |b| == n
  {
    if n == 0 then [] else [0] + Zeroes(n - 1)
  }

  /** The position of the highest binary digit. */
  function Log2(v: nat): (n: nat)
    requires v > 0
    ensures Pow2(n) <= v < 2 * Pow2(n)
  {
    if v == 1 then 0 else Log2(v / 2) + 1
  }

  /** Section 9.1.1: positive and negative values take the odd and the even code numbers. */
  function SeBits(v: int): seq<bit> {
    UeBits(if v > 0 then 2 * v - 1 else -2 * v)
  }

  /** The bits `part` stand in the buffer at index p. */
  ghost predicate Stands(s: bytes, p: nat, part: seq<bit>) {
    forall i: nat | i < |part| :: BitAt(s, p + i) == part[i]
  }

  lemma StandsAppend(s: bytes, p: nat, a: seq<bit>, b: seq<bit>)
    ensures Stands(s, p, a + b) <==> Stands(s, p, a) && Stands(s, p + |a|, b)
  {
    if Stands(s, p, a + b) {
      forall i: nat | i < |a| ensures BitAt(s, p + i) == a[i] {
        assert (a + b)[i] == a[i];
      }
      forall i: nat | i < |b| ensures BitAt(s, p + |a| + i) == b[i] {
        assert (a + b)[|a| + i] == b[i] && p + |a| + i == p + (|a| + i);
      }
    }
    if Stands(s, p, a) && Stands(s, p + |a|, b) {
      forall i: nat | i < |a + b| ensures BitAt(s, p + i) == (a + b)[i] {
        if i >= |a| {
          assert p + i == p + |a| + (i - |a|);
        }
      }
    }
  }

  lemma StandsOne(s: bytes, p: nat, b: bit)
    requires Stands(s, p, [b])
    ensures BitAt(s, p) == b
  {
    assert [b][0] == b;
    assert BitAt(s, p + 0) == [b][0];
  }

  // ----- decoding inverts encoding -----

  lemma {:induction false} BinaryReads(s: bytes, p: nat, v: nat, n: nat)
    requires Stands(s, p, Binary(v, n)) && v < Pow2(n) && v < 0x1_0000_0000 && n <= 32
    ensures ReadBits(s, p, n) == Read(true, v, p + n)
    decreases n
  {
    hide BitAt, Stands;
    if n > 0 {
      StandsAppend(s, p, Binary(v / 2, n - 1), [v % 2]);
      StandsOne(s, p + n - 1, v % 2);
      BinaryReads(s, p, v / 2, n - 1);
    }
  }

  lemma {:induction false} PowRises(m: nat, n: nat)
    requires m <= n
    ensures Pow2(m) <= Pow2(n)
  {
    if m < n {
      PowRises(m, n - 1);
    }
  }

  lemma PowersOfTwo()
    ensures Pow2(8) == 0x100 && Pow2(16) == 0x1_0000 && Pow2(24) == 0x100_0000 && Pow2(31) == 0x8000_0000
            && Pow2(32) == 0x1_0000_0000
  {
    assert Pow2(4) == 16 && Pow2(8) == 0x100;
    assert Pow2(12) == 0x1000 && Pow2(16) == 0x1_0000;
    assert Pow2(20) == 0x10_0000 && Pow2(24) == 0x100_0000;
    assert Pow2(28) == 0x1000_0000 && Pow2(31) == 0x8000_0000;
  }

  lemma {:induction false} ZerosRead(s: bytes, p: nat, n: nat)
    requires Stands(s, p, Zeroes(n) + [1])
    ensures Zeros(s, p) == n && BitAt(s, p + n) == 1
    decreases n
  {
    hide BitAt, Stands;
    if n == 0 {
      assert Zeroes(0) + [1] == [1];
      StandsOne(s, p, 1);
    } else {
      assert Zeroes(n) + [1] == [0] + (Zeroes(n - 1) + [1]);
      StandsAppend(s, p, [0], Zeroes(n - 1) + [1]);
      StandsOne(s, p, 0);
      ZerosRead(s, p + 1, n - 1);
    }
  }

  /** Unsigned codes: decoding gives back the code number, wherever the code stands. */
  lemma UeReads(s: bytes, p: nat, k: nat)
    requires Stands(s, p, UeBits(k)) && k < 0x7FFF_FFFF
    ensures Ue(s, p) == Code(k, p + |UeBits(k)|)
  {
    hide BitAt, Stands, Log2, ReadBits, Zeros, Ue, Zeroes, Binary, Pow2;
    var n := Log2(k + 1);
    var low := k + 1 - Pow2(n);
    LogBelow(k + 1, n);
    assert Zeroes(n) + ([1] + Binary(low, n)) == (Zeroes(n) + [1]) + Binary(low, n);
    StandsAppend(s, p, Zeroes(n) + [1], Binary(low, n));
    ZerosRead(s, p, n);
    BinaryReads(s, p + n + 1, low, n);
    UeValue(s, p, n, low);
  }

  lemma UeValue(s: bytes, p: nat, n: nat, low: uint32)
    requires n <= 30 && Zeros(s, p) == n && BitAt(s, p + n) == 1
            && ReadBits(s, p + n + 1, n) == Read(true, low, p + n + 1 + n)
    requires 0 < Pow2(n) + low < 0x8000_0000
    ensures Ue(s, p) == Code(Pow2(n) + low - 1, p + 2 * n + 1)
  {
    hide BitAt, ReadBits, Zeros, Pow2;
  }

  lemma LogBelow(v: nat, n: nat)
    requires 0 < v < 0x8000_0000 && Pow2(n) <= v
    ensures n <= 30
  {
    if n > 30 {
      PowRises(31, n);
      PowersOfTwo();
    }
  }

  /** Signed codes. */
  lemma SeReads(s: bytes, p: nat, v: int)
    requires Stands(s, p, SeBits(v)) && -0x4000_0000 < v < 0x4000_0000
    ensures Se(s, p) == Code(v, p + |SeBits(v)|)
  {
    hide Ue, UeBits, Stands;
    UeReads(s, p, if v > 0 then 2 * v - 1 else -2 * v);
  }

  // ----- the cursor -----

  class BitBuffer {
    const data: bytes
    var current: nat
    var readBits: nat

    constructor (data: bytes)
      ensures this.data == data && Valid() && Index() == 0
    {
      this.data, current, readBits := data, 0, 0;
    }

    ghost predicate Valid()
      reads this
    {
      readBits < 8
    }

    /** The flat bit index of the cursor. */
    ghost function Index(): nat
      reads this
    {
      8 * current + readBits
    }

    method SkipBits(n: nat)
      requires Valid()
      modifies this
      ensures Valid() && Index() == old(Index()) + n
    {
      current := current + (n + readBits) / 8;
      readBits := (readBits + n) % 8;
    }

    method GetBit() returns (r: int)
      requires Valid()
      modifies this
      ensures Valid() && r == BitAt(data, old(Index()))
      ensures Index() == if r == -1 then old(Index()) else old(Index()) + 1
    {
      if current >= |data| {
        return -1;
      }
      assert (8 * current + readBits) / 8 == current && (8 * current + readBits) % 8 == readBits;
      r := data[current] / Pow2(7 - readBits) % 2;
      if readBits == 7 {
        readBits, current := 0, current + 1;
      } else {
        readBits := readBits + 1;
      }
    }

    method GetBits(n: nat) returns (ok: bool, value: uint32)
      requires Valid()
      modifies this
      ensures Valid() && ReadBits(data, old(Index()), if n > 32 then 32 else n) == Read(ok, value, Index())
    {
      hide BitAt;
      var count := if n > 32 then 32 else n;
      value := 0;
      var i := 0;
      while i < count
        invariant Valid() && i <= count && ReadBits(data, old(Index()), i) == Read(true, value, Index())
      {
        var bit := GetBit();
        if bit == -1 {
          ShortRead(data, old(Index()), i + 1, count);
          return false, value;
        }
        value := (value * 2 + bit) % 0x1_0000_0000;
        i := i + 1;
      }
      ok := true;
    }

    method ExpGolombUe() returns (value: uint32)
      requires Valid()
      modifies this
      ensures Valid() && Ue(data, old(Index())) == Code(value, Index())
    {
      hide BitAt, ReadBits, Pow2, Zeros;
      ghost var p := Index();
      var significant, zeros := 0, 0;
      while true
        invariant Valid() && Index() == p + zeros && significant == zeros % 256
        invariant Zeros(data, p) == zeros + Zeros(data, p + zeros)
        decreases 8 * |data| - Index()
      {
        ghost var here := Index();
        var bit := GetBit();
        ZerosStep(data, here);
        if bit == -1 {
          return 0;
        }
        if bit == 1 {
          break;
        }
        CountStep(zeros);
        significant, zeros := (significant + 1) % 256, zeros + 1;
      }
      var ok, bits := GetBits(significant);
      if !ok {
        return 0;
      }
      value := (Pow2(significant % 32) + bits - 1) % 0x1_0000_0000;
    }

    method ExpGolombSe() returns (value: int)
      requires Valid()
      modifies this
      ensures Valid() && Se(data, old(Index())) == Code(value, Index())
    {
      hide Ue;
      var code := ExpGolombUe();
      var n: int := if code < 0x8000_0000 then code else code as int - 0x1_0000_0000;
      value := if n % 2 == 0 then -(n / 2) else (n + 1) / 2;
    }
  }

  lemma ZerosStep(s: bytes, p: nat)
    ensures Zeros(s, p) == if BitAt(s, p) == 0 then 1 + Zeros(s, p + 1) else 0
    ensures BitAt(s, p) != -1 ==> p < 8 * |s|
  {
  }

  lemma CountStep(n: nat)
    ensures (n % 256 + 1) % 256 == (n + 1) % 256
  {
  }

  lemma {:induction false} ShortRead(s: bytes, p: nat, m: nat, n: nat)
    requires m <= n && !ReadBits(s, p, m).ok
    ensures ReadBits(s, p, n) == ReadBits(s, p, m)
  {
    if m < n {
      ShortRead(s, p, m, n - 1);
    }
  }
}
