/** Characters of YAML text as the bundled YAML library sees them: UTF-8 widths, code points, breaks and escapes. */
module YamlText {
  import opened Bytes

  const SPACE: byte := 32
  const TAB: byte := 9
  const LF: byte := 10
  const CR: byte := 13

  predicate Continues(b: byte) {
    128 <= b < 192
  }

  /** utf8_width: the width of the well-formed UTF-8 character at i (surrogates count as well-formed), or 0. */
  function Width(v: bytes, i: nat): (w: nat)
    requires i < |v|
    ensures i + w <= |v| && w <= 4
  {
    var b, n := v[i], |v| - i;
    if b < 0x80 then 1
    else if b < 0xC2 then 0
    else if b < 0xE0 then if n < 2 || !Continues(v[i + 1]) then 0 else 2
    else if b < 0xF0 then
      if n < 3 || (b == 0xE0 && v[i + 1] < 0xA0) || !Continues(v[i + 1]) || !Continues(v[i + 2]) then 0 else 3
    else if b < 0xF5 then
      if n < 4 || (b == 0xF0 && v[i + 1] < 0x90) || (b == 0xF4 && v[i + 1] > 0x8F)
         || !Continues(v[i + 1]) || !Continues(v[i + 2]) || !Continues(v[i + 3]) then 0 else 4
    else 0
  }

  /** The code point of the character of width w at i. */
  function Code(v: bytes, i: nat): nat
    requires i < |v| && Width(v, i) > 0
  {
    match Width(v, i)
    case 1 => v[i]
    case 2 => Digits(0, 0, v[i] % 32, v[i + 1] % 64)
    case 3 => Digits(0, v[i] % 16, v[i + 1] % 64, v[i + 2] % 64)
    case _ => Digits(v[i] % 8, v[i + 1] % 64, v[i + 2] % 64, v[i + 3] % 64)
  }

  /** Four base-64 digits. */
  function Digits(a: nat, b: nat, c: nat, d: nat): nat {
    ((a * 64 + b) * 64 + c) * 64 + d
  }

  predicate Surrogate(code: nat) {
    0xD800 <= code <= 0xDFFF
  }

  /** The bytes the scanner appends for a code point. */
  function Utf8(code: nat): bytes
    requires code <= 0x10FFFF
  {
    if code <= 0x7F then [code]
    else if code <= 0x7FF then [0xC0 + code / 64, 0x80 + code % 64]
    else if code <= 0xFFFF then [0xE0 + code / 4096, 0x80 + code / 64 % 64, 0x80 + code % 64]
    else [0xF0 + code / 262144, 0x80 + code / 4096 % 64, 0x80 + code / 64 % 64, 0x80 + code % 64]
  }

  /** Decoding and encoding a character gives its bytes back. */
  lemma Utf8OfCode(v: bytes, i: nat)
    requires i < |v| && Width(v, i) > 0
    ensures Code(v, i) <= 0x10FFFF && Utf8(Code(v, i)) == v[i..i + Width(v, i)]
  {
    match Width(v, i)
    case 1 =>
    case 2 => TwoBytes(v[i], v[i + 1]);
    case 3 => ThreeBytes(v[i], v[i + 1], v[i + 2]);
    case _ => FourBytes(v[i], v[i + 1], v[i + 2], v[i + 3]);
  }

  lemma {:induction false} TwoBytes(a: byte, b: byte)
    requires 0xC2 <= a < 0xE0 && Continues(b)
    ensures var c := Digits(0, 0, a % 32, b % 64); 0x7F < c <= 0x7FF && Utf8(c) == [a, b]
  {
    assert a % 32 == a - 0xC0 && b % 64 == b - 0x80;
    DigitsApart(0, 0, a - 0xC0, b - 0x80);
  }

  lemma {:induction false} ThreeBytes(a: byte, b: byte, c: byte)
    requires 0xE0 <= a < 0xF0 && Continues(b) && Continues(c) && (a == 0xE0 ==> b >= 0xA0)
    ensures var n := Digits(0, a % 16, b % 64, c % 64); 0x7FF < n <= 0xFFFF && Utf8(n) == [a, b, c]
  {
    assert a % 16 == a - 0xE0 && b % 64 == b - 0x80 && c % 64 == c - 0x80;
    DigitsApart(0, a - 0xE0, b - 0x80, c - 0x80);
  }

  lemma {:induction false} FourBytes(a: byte, b: byte, c: byte, d: byte)
    requires 0xF0 <= a < 0xF5 && Continues(b) && Continues(c) && Continues(d)
    requires (a == 0xF0 ==> b >= 0x90) && (a == 0xF4 ==> b <= 0x8F)
    ensures var n := Digits(a % 8, b % 64, c % 64, d % 64); 0xFFFF < n <= 0x10FFFF && Utf8(n) == [a, b, c, d]
  {
    Low6(b);
    Low6(c);
    Low6(d);
    assert a % 8 == a - 0xF0;
    DigitsApart(a - 0xF0, b - 0x80, c - 0x80, d - 0x80);
  }

  lemma Low6(b: byte)
    requires Continues(b)
    ensures b % 64 == b - 0x80
  {
  }

  lemma {:induction false} DigitsApart(a: nat, b: nat, c: nat, d: nat)
    requires b < 64 && c < 64 && d < 64
    ensures var n := Digits(a, b, c, d);
            && n == a * 262144 + b * 4096 + c * 64 + d
            && n % 64 == d && n / 64 % 64 == c && n / 4096 % 64 == b && n / 262144 == a
            && n / 4096 == a * 64 + b && n / 64 == a * 4096 + b * 64 + c
  {
    var p := a * 64 + b;
    var q := p * 64 + c;
    var n := q * 64 + d;
    assert n / 64 == q && q / 64 == p && p / 64 == a;
    assert n / 4096 == p && n / 262144 == a;
  }

  // ----- breaks and blanks, at a byte of a NUL-terminated buffer -----

  predicate IsBlank(s: bytes, p: nat) {
    At0(s, p) == SPACE || At0(s, p) == TAB
  }

  /** The number of bytes of the line break at p, CR LF counting as one break, or 0. */
  function BreakWidth(s: bytes, p: nat): (w: nat)
    ensures w > 0 ==> p + w <= |s|
  {
    if At0(s, p) == CR && At0(s, p + 1) == LF then 2
    else if At0(s, p) == CR || At0(s, p) == LF then 1
    else if At0(s, p) == 0xC2 && At0(s, p + 1) == 0x85 then 2
    else if At0(s, p) == 0xE2 && At0(s, p + 1) == 0x80 && (At0(s, p + 2) == 0xA8 || At0(s, p + 2) == 0xA9) then 3
    else 0
  }

  predicate IsBreak(s: bytes, p: nat) {
    BreakWidth(s, p) > 0
  }

  /** What READ_LINE stores for the line break at p. */
  function Line(s: bytes, p: nat): bytes
    requires IsBreak(s, p)
  {
    if At0(s, p) == 0xE2 then s[p..p + 3] else [LF]
  }

  // ----- hexadecimal -----

  predicate IsHex(b: byte) {
    48 <= b <= 57 || 65 <= b <= 70 || 97 <= b <= 102
  }

  function AsHex(b: byte): nat
    requires IsHex(b)
  {
    if 65 <= b <= 70 then b - 55 else if 97 <= b <= 102 then b - 87 else b - 48
  }

  /** The upper-case digit of a value. */
  function HexDigit(n: nat): (b: byte)
    requires n < 16
    ensures IsHex(b) && AsHex(b) == n
  {
    if n < 10 then 48 + n else 55 + n
  }

  /** n as exactly k hexadecimal digits, high ones first. */
  function Hex(n: nat, k: nat): (b: bytes)
    ensures |b| == k
  {
    if k == 0 then [] else Hex(n / 16, k - 1) + [HexDigit(n % 16)]
  }

  /** The value of k hexadecimal digits at p, or -1. */
  function Unhex(s: bytes, p: nat, k: nat): (n: int)
    ensures n >= -1
  {
    if k == 0 then 0 else
      var high := Unhex(s, p, k - 1);
      if high < 0 || !IsHex(At0(s, p + k - 1)) then -1 else high * 16 + AsHex(At0(s, p + k - 1))
  }

  function Power16(k: nat): nat {
    if k == 0 then 1 else 16 * Power16(k - 1)
  }

  lemma {:induction false} HexRoundTrip(s: bytes, p: nat, n: nat, k: nat)
    requires At(s, p, Hex(n, k)) && n < Power16(k)
    ensures Unhex(s, p, k) == n
  {
    if k > 0 {
      var front := Hex(n / 16, k - 1);
      AtAppend(s, p, front, [HexDigit(n % 16)]);
      AtByte(s, p + k - 1, [HexDigit(n % 16)], 0);
      HexRoundTrip(s, p, n / 16, k - 1);
    }
  }
}
