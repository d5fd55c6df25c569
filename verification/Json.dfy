/** The JSON dump of AMF data: what the one-bit comma automaton prints, and what a JSON reader makes of it. */
module Json {
  import opened Bytes
  import Amf
  import YamlText

  const COMMA: byte := 44
  const COLON: byte := 58

  /** The texts of numbers (none for those that are not finite) and of dates are taken as they come. */
  datatype Texts = Texts(number: Amf.Bits64 -> seq<byte>, date: (Amf.Bits64, uint16) -> seq<byte>)

  // ----- strings -----

  predicate Control(b: byte) {
    b < 0x20 || b == 0x7F
  }

  /** A byte as three decimal digits behind a zero, as "%.4u" prints it. */
  function Decimal(b: byte): seq<byte> {
    [48, 48 + b / 100, 48 + b / 10 % 10, 48 + b % 10]
  }

  function EscapeLetter(b: byte): byte {
    match b
    case 34 => 34
    case 92 => 92
    case 47 => 47
    case 8 => 98
    case 12 => 102
    case 10 => 110
    case 13 => 114
    case 9 => 116
    case _ => 0
  }

  /** What json_print_string prints for a byte. */
  function Char(b: byte): (t: seq<byte>)
    ensures |t| >= 1
  {
    if EscapeLetter(b) != 0 then [BACKSLASH, EscapeLetter(b)]
    else if Control(b) then [BACKSLASH, 117] + Decimal(b)
    else [b]
  }

  function Chars(s: seq<byte>): seq<byte> {
    if s == [] then [] else Char(s[0]) + Chars(s[1..])
  }

  function Literal(s: seq<byte>): (t: seq<byte>)
    ensures |t| >= 1
  {
    [QUOTE] + (Chars(s) + [QUOTE])
  }

  // ----- the reference printer -----

  function PrintData(x: Texts, d: Amf.Data): seq<byte>
    decreases d, 1
  {
    match d
    case Number(bits) => if x.number(bits) == [] then NULL else x.number(bits)
    case Boolean(value) => if value != 0 then TRUE else FALSE
    case String(text) => Literal(text)
    case Object(members) => [123] + (PrintMembers(x, members) + [125])
    case EcmaArray(members) => [123] + (PrintMembers(x, members) + [125])
    case Array(elements) => [91] + (PrintElements(x, elements) + [93])
    case Date(ms, tz) => Literal(x.date(ms, tz))
    case _ => NULL
  }

  const NULL: seq<byte> := [110, 117, 108, 108]
  const TRUE: seq<byte> := [116, 114, 117, 101]
  const FALSE: seq<byte> := [102, 97, 108, 115, 101]

  function PrintMember(x: Texts, m: Amf.Member): seq<byte>
    decreases m, 2
  {
    Literal(m.name) + ([COLON] + PrintData(x, m.value))
  }

  /** Members with commas between them. */
  function PrintMembers(x: Texts, ms: seq<Amf.Member>): seq<byte>
    decreases ms, 0
  {
    if ms == [] then []
    else if |ms| == 1 then PrintMember(x, ms[0])
    else PrintMember(x, ms[0]) + ([COMMA] + PrintMembers(x, ms[1..]))
  }

  function PrintElements(x: Texts, es: seq<Amf.Data>): seq<byte>
    decreases es, 0
  {
    if es == [] then []
    else if |es| == 1 then PrintData(x, es[0])
    else PrintData(x, es[0]) + ([COMMA] + PrintElements(x, es[1..]))
  }

  // ----- a reader of JSON (RFC 8259), without the optional white space -----

  datatype Value =
    | Null | Bool(b: bool) | Num(text: seq<byte>) | Str(bytes: seq<byte>)
    | Arr(values: seq<Value>) | Obj(fields: seq<Field>)
  datatype Field = Field(name: seq<byte>, value: Value)

  datatype Result<+T> = Got(value: T, next: nat) | Malformed

  /** The escape sequences of section 7. */
  function Unescaped(c: byte): byte {
    match c
    case 34 => 34
    case 92 => 92
    case 47 => 47
    case 98 => 8
    case 102 => 12
    case 110 => 10
    case 114 => 13
    case 116 => 9
    case _ => 0
  }

  /** The characters of a string up to its closing quote. */
  function ReadChars(s: seq<byte>, p: nat): Result<seq<byte>>
    decreases |s| - p
  {
    if p >= |s| || s[p] < 0x20 then Malformed
    else if s[p] == QUOTE then Got([], p + 1)
    else if s[p] != BACKSLASH then Prepended([s[p]], ReadChars(s, p + 1))
    else if Unescaped(At0(s, p + 1)) != 0 then Prepended([Unescaped(At0(s, p + 1))], ReadChars(s, p + 2))
    else if At0(s, p + 1) == 117 && YamlText.Unhex(s, p + 2, 4) >= 0 && p + 6 <= |s| then
      var code := YamlText.Unhex(s, p + 2, 4);
      if code > 0xFFFF then Malformed else Prepended(YamlText.Utf8(code), ReadChars(s, p + 6))
    else Malformed
  }

  function Prepended<T>(x: seq<T>, r: Result<seq<T>>): Result<seq<T>> {
    if r.Got? then Got(x + r.value, r.next) else Malformed
  }

  predicate InNumber(b: byte) {
    48 <= b <= 57 || b == 43 || b == 45 || b == 46 || b == 69 || b == 101
  }

  predicate Holds(s: seq<byte>, p: nat, text: seq<byte>) {
    p + |text| <= |s| && s[p..p + |text|] == text
  }

  function ReadValue(s: seq<byte>, p: nat): (r: Result<Value>)
    ensures r.Got? ==> r.next > p
    decreases if p <= |s| then |s| - p else 0, 0
  {
    if p >= |s| then Malformed
    else if s[p] == QUOTE then
      var r := ReadChars(s, p + 1);
      if r.Got? && r.next > p then Got(Str(r.value), r.next) else Malformed
    else if Holds(s, p, NULL) then Got(Null, p + 4)
    else if Holds(s, p, TRUE) then Got(Bool(true), p + 4)
    else if Holds(s, p, FALSE) then Got(Bool(false), p + 5)
    else if s[p] == 123 then
      var r := if At0(s, p + 1) == 125 then Got([], p + 2) else ReadFields(s, p + 1);
      if r.Got? then Got(Obj(r.value), r.next) else Malformed
    else if s[p] == 91 then
      var r := if At0(s, p + 1) == 93 then Got([], p + 2) else ReadValues(s, p + 1);
      if r.Got? then Got(Arr(r.value), r.next) else Malformed
    else if InNumber(s[p]) then Got(Num(s[p..NumberEnd(s, p)]), NumberEnd(s, p))
    else Malformed
  }

  /** The end of the number characters from p on. */
  function NumberEnd(s: seq<byte>, p: nat): (q: nat)
    requires p < |s| && InNumber(s[p])
    ensures p < q <= |s|
    decreases |s| - p
  {
    if p + 1 < |s| && InNumber(s[p + 1]) then NumberEnd(s, p + 1) else p + 1
  }

  /** At least one field, and the closing brace. */
  function ReadFields(s: seq<byte>, p: nat): (r: Result<seq<Field>>)
    ensures r.Got? ==> r.next > p
    decreases if p <= |s| then |s| - p else 0, 1
  {
    if At0(s, p) != QUOTE then Malformed else
      var name := ReadChars(s, p + 1);
      if name.Malformed? || name.next <= p || At0(s, name.next) != COLON then Malformed else
        var value := ReadValue(s, name.next + 1);
        if value.Malformed? then Malformed
        else if At0(s, value.next) == 125 then Got([Field(name.value, value.value)], value.next + 1)
        else if At0(s, value.next) == COMMA
          then Prepended([Field(name.value, value.value)], ReadFields(s, value.next + 1))
        else Malformed
  }

  function ReadValues(s: seq<byte>, p: nat): (r: Result<seq<Value>>)
    ensures r.Got? ==> r.next > p
    decreases if p <= |s| then |s| - p else 0, 1
  {
    var value := ReadValue(s, p);
    if value.Malformed? then Malformed
    else if At0(s, value.next) == 93 then Got([value.value], value.next + 1)
    else if At0(s, value.next) == COMMA then Prepended([value.value], ReadValues(s, value.next + 1))
    else Malformed
  }

  // ----- what is read back -----

  /**
   * A byte after the round trip: control characters without an escape letter are printed in decimal but read in
   * hexadecimal.
   */
  function Reread(b: byte): seq<byte> {
    if EscapeLetter(b) == 0 && Control(b) then YamlText.Utf8(DecimalAsHex(b)) else [b]
  }

  function DecimalAsHex(b: byte): nat {
    b / 100 * 256 + b / 10 % 10 * 16 + b % 10
  }

  function RereadAll(s: seq<byte>): seq<byte> {
    if s == [] then [] else Reread(s[0]) + RereadAll(s[1..])
  }

  /** A byte that comes back as something else. */
  predicate Damaged(b: byte) {
    b == 0x0B || 0x0E <= b < 0x20 || b == 0x7F
  }

  function Meaning(x: Texts, d: Amf.Data): Value
    decreases d, 1
  {
    match d
    case Number(bits) => if x.number(bits) == [] then Null else Num(x.number(bits))
    case Boolean(value) => Bool(value != 0)
    case String(text) => Str(RereadAll(text))
    case Object(members) => Obj(Fields(x, members))
    case EcmaArray(members) => Obj(Fields(x, members))
    case Array(elements) => Arr(Values(x, elements))
    case Date(ms, tz) => Str(RereadAll(x.date(ms, tz)))
    case _ => Null
  }

  function Fields(x: Texts, ms: seq<Amf.Member>): seq<Field>
    decreases ms, 0
  {
    if ms == [] then [] else [Field(RereadAll(ms[0].name), Meaning(x, ms[0].value))] + Fields(x, ms[1..])
  }

  function Values(x: Texts, es: seq<Amf.Data>): seq<Value>
    decreases es, 0
  {
    if es == [] then [] else [Meaning(x, es[0])] + Values(x, es[1..])
  }

  // ----- reading what was printed -----

  lemma HoldsAppend(s: seq<byte>, p: nat, a: seq<byte>, b: seq<byte>)
    ensures Holds(s, p, a + b) <==> Holds(s, p, a) && Holds(s, p + |a|, b)
  {
    assert Holds(s, p, a + b) <==> Bytes.At(s, p, a + b);
    AtAppend(s, p, a, b);
  }

  lemma HoldsByte(s: seq<byte>, p: nat, a: seq<byte>, i: nat)
    requires Holds(s, p, a) && i < |a|
    ensures p + i < |s| && s[p + i] == a[i] == At0(s, p + i)
  {
    AtByte(s, p, a, i);
  }

  lemma DecimalReads(s: seq<byte>, p: nat, b: byte)
    requires Holds(s, p, Decimal(b))
    ensures YamlText.Unhex(s, p, 4) == DecimalAsHex(b) && DecimalAsHex(b) < 0x300
  {
    HoldsByte(s, p, Decimal(b), 0);
    HoldsByte(s, p, Decimal(b), 1);
    HoldsByte(s, p, Decimal(b), 2);
    HoldsByte(s, p, Decimal(b), 3);
    assert YamlText.Unhex(s, p, 0) == 0 && YamlText.Unhex(s, p, 1) == 0 && YamlText.Unhex(s, p, 2) == b / 100;
    assert YamlText.Unhex(s, p, 3) == b / 100 * 16 + b / 10 % 10;
  }

  lemma CharReads(s: seq<byte>, p: nat, b: byte)
    requires Holds(s, p, Char(b))
    ensures ReadChars(s, p) == Prepended(Reread(b), ReadChars(s, p + |Char(b)|))
  {
    hide Decimal, DecimalAsHex, Prepended;
    var t := Char(b);
    HoldsByte(s, p, t, 0);
    if |t| > 1 {
      HoldsByte(s, p, t, 1);
    }
    if EscapeLetter(b) == 0 && Control(b) {
      HoldsAppend(s, p, [BACKSLASH, 117], Decimal(b));
      DecimalReads(s, p + 2, b);
      assert |Decimal(b)| == 4 by {
        FourDigits(b);
      }
    }
  }

  lemma FourDigits(b: byte)
    ensures |Decimal(b)| == 4
  {
  }

  lemma {:induction false} CharsRead(s: seq<byte>, p: nat, t: seq<byte>)
    requires Holds(s, p, Chars(t) + [QUOTE])
    ensures ReadChars(s, p) == Got(RereadAll(t), p + |Chars(t)| + 1)
    decreases |t|
  {
    hide Char, Reread, Holds;
    if t == [] {
      assert Chars(t) + [QUOTE] == [QUOTE];
      HoldsByte(s, p, [QUOTE], 0);
    } else {
      var rest := Chars(t[1..]) + [QUOTE];
      assert Chars(t) + [QUOTE] == Char(t[0]) + rest;
      HoldsAppend(s, p, Char(t[0]), rest);
      CharReads(s, p, t[0]);
      CharsRead(s, p + |Char(t[0])|, t[1..]);
    }
  }

  lemma LiteralReads(s: seq<byte>, p: nat, t: seq<byte>)
    requires Holds(s, p, Literal(t))
    ensures At0(s, p) == QUOTE && ReadChars(s, p + 1) == Got(RereadAll(t), p + |Literal(t)|)
  {
    hide ReadChars, Chars, RereadAll, Holds;
    HoldsAppend(s, p, [QUOTE], Chars(t) + [QUOTE]);
    HoldsByte(s, p, [QUOTE], 0);
    CharsRead(s, p + 1, t);
  }

  ghost predicate NumberTexts(x: Texts) {
    forall bits: Amf.Bits64 :: AllInNumber(x.number(bits))
  }

  predicate AllInNumber(t: seq<byte>) {
    forall b | b in t :: InNumber(b)
  }

  lemma {:induction false} NumberReads(s: seq<byte>, p: nat, t: seq<byte>)
    requires t != [] && AllInNumber(t) && Holds(s, p, t) && !InNumber(At0(s, p + |t|))
    ensures p < |s| && InNumber(s[p]) && NumberEnd(s, p) == p + |t|
    decreases |t|
  {
    HoldsByte(s, p, t, 0);
    if |t| > 1 {
      HoldsAppend(s, p, [t[0]], t[1..]);
      assert t == [t[0]] + t[1..];
      NumberReads(s, p + 1, t[1..]);
    }
  }

  lemma StringValue(s: seq<byte>, p: nat, t: seq<byte>)
    requires Holds(s, p, Literal(t))
    ensures ReadValue(s, p) == Got(Str(RereadAll(t)), p + |Literal(t)|)
  {
    hide ReadChars, Chars, RereadAll;
    LiteralReads(s, p, t);
  }

  lemma NumberValue(s: seq<byte>, p: nat, t: seq<byte>)
    requires t != [] && AllInNumber(t) && Holds(s, p, t) && !InNumber(At0(s, p + |t|))
    ensures ReadValue(s, p) == Got(Num(t), p + |t|)
  {
    hide NumberEnd, AllInNumber;
    NumberReads(s, p, t);
    assert !Holds(s, p, NULL) && !Holds(s, p, TRUE) && !Holds(s, p, FALSE) by {
      NotAWord(s, p);
    }
  }

  lemma NotAWord(s: seq<byte>, p: nat)
    requires p < |s| && s[p] != 110 && s[p] != 116 && s[p] != 102
    ensures !Holds(s, p, NULL) && !Holds(s, p, TRUE) && !Holds(s, p, FALSE)
  {
    if Holds(s, p, NULL) {
      HoldsByte(s, p, NULL, 0);
    }
    if Holds(s, p, TRUE) {
      HoldsByte(s, p, TRUE, 0);
    }
    if Holds(s, p, FALSE) {
      HoldsByte(s, p, FALSE, 0);
    }
  }

  lemma WordValue(s: seq<byte>, p: nat, t: seq<byte>)
    requires Holds(s, p, t) && (t == NULL || t == TRUE || t == FALSE)
    ensures ReadValue(s, p) == Got(if t == NULL then Null else Bool(t == TRUE), p + |t|)
  {
    HoldsByte(s, p, t, 0);
    if t == TRUE || t == FALSE {
      if Holds(s, p, NULL) {
        HoldsByte(s, p, NULL, 0);
      }
    }
    if t == FALSE && Holds(s, p, TRUE) {
      HoldsByte(s, p, TRUE, 0);
    }
  }

  lemma FirstByte(x: Texts, d: Amf.Data)
    requires NumberTexts(x)
    ensures PrintData(x, d) != [] && PrintData(x, d)[0] != 93 && PrintData(x, d)[0] != 125
  {
    hide PrintMembers, PrintElements, Chars;
    if d.Number? && x.number(d.bits) != [] {
      assert AllInNumber(x.number(d.bits)) && x.number(d.bits)[0] in x.number(d.bits);
    }
  }

  /** A JSON reader finds in the dump of a tree the structure of the tree, each string as its bytes are reread. */
  lemma {:induction false} ValueReads(x: Texts, d: Amf.Data, s: seq<byte>, p: nat)
    requires NumberTexts(x) && Holds(s, p, PrintData(x, d)) && !InNumber(At0(s, p + |PrintData(x, d)|))
    ensures ReadValue(s, p) == Got(Meaning(x, d), p + |PrintData(x, d)|)
    decreases d, 1
  {
    hide ReadValue, Holds, Literal, PrintMembers, PrintElements, Fields, Values, RereadAll, NumberTexts;
    match d
    case Number(bits) =>
      if x.number(bits) == [] {
        WordValue(s, p, NULL);
      } else {
        TextsAre(x, bits);
        NumberValue(s, p, x.number(bits));
      }
    case Boolean(value) => WordValue(s, p, if value != 0 then TRUE else FALSE);
    case String(text) => StringValue(s, p, text);
    case Date(ms, tz) => StringValue(s, p, x.date(ms, tz));
    case Object(members) => ObjectReads(x, members, s, p);
    case EcmaArray(members) => ObjectReads(x, members, s, p);
    case Array(elements) => ArrayReads(x, elements, s, p);
    case _ => WordValue(s, p, NULL);
  }

  lemma TextsAre(x: Texts, bits: Amf.Bits64)
    requires NumberTexts(x)
    ensures AllInNumber(x.number(bits))
  {
    hide AllInNumber;
  }

  lemma {:induction false} ObjectReads(x: Texts, ms: seq<Amf.Member>, s: seq<byte>, p: nat)
    requires NumberTexts(x) && Holds(s, p, [123] + (PrintMembers(x, ms) + [125]))
    ensures ReadValue(s, p) == Got(Obj(Fields(x, ms)), p + |PrintMembers(x, ms)| + 2)
    decreases ms, 1
  {
    hide Holds, PrintData, Literal, ReadFields, RereadAll, NumberTexts, Meaning;
    HoldsAppend(s, p, [123], PrintMembers(x, ms) + [125]);
    HoldsByte(s, p, [123], 0);
    NotAWord(s, p);
    if ms == [] {
      assert PrintMembers(x, ms) + [125] == [125];
      HoldsByte(s, p + 1, [125], 0);
    } else {
      MembersRead(x, ms, s, p + 1);
    }
  }

  lemma {:induction false} ArrayReads(x: Texts, es: seq<Amf.Data>, s: seq<byte>, p: nat)
    requires NumberTexts(x) && Holds(s, p, [91] + (PrintElements(x, es) + [93]))
    ensures ReadValue(s, p) == Got(Arr(Values(x, es)), p + |PrintElements(x, es)| + 2)
    decreases es, 1
  {
    hide Holds, PrintData, Literal, ReadValues, RereadAll, NumberTexts, Meaning;
    HoldsAppend(s, p, [91], PrintElements(x, es) + [93]);
    HoldsByte(s, p, [91], 0);
    NotAWord(s, p);
    if es == [] {
      assert PrintElements(x, es) + [93] == [93];
      HoldsByte(s, p + 1, [93], 0);
    } else {
      ElementsRead(x, es, s, p + 1);
    }
  }

  /** A member, behind it a comma and more members or the closing brace. */
  lemma {:induction false} MembersRead(x: Texts, ms: seq<Amf.Member>, s: seq<byte>, p: nat)
    requires ms != [] && NumberTexts(x) && Holds(s, p, PrintMembers(x, ms) + [125])
    ensures At0(s, p) == QUOTE
    ensures ReadFields(s, p) == Got(Fields(x, ms), p + |PrintMembers(x, ms)| + 1)
    decreases ms, 0
  {
    hide Holds, PrintData, Literal, ReadChars, ReadValue, RereadAll, NumberTexts, Meaning;
    var m := ms[0];
    var name, value := Literal(m.name), PrintData(x, m.value);
    var more := if |ms| == 1 then [125] else [COMMA] + (PrintMembers(x, ms[1..]) + [125]);
    assert PrintMembers(x, ms) + [125] == name + ([COLON] + (value + more)) by {
      Pieces(x, ms, more);
    }
    HoldsAppend(s, p, name, [COLON] + (value + more));
    HoldsAppend(s, p + |name|, [COLON], value + more);
    HoldsAppend(s, p + |name| + 1, value, more);
    LiteralReads(s, p, m.name);
    HoldsByte(s, p + |name|, [COLON], 0);
    var q := p + |name| + 1 + |value|;
    HoldsByte(s, q, more, 0);
    ValueReads(x, m.value, s, p + |name| + 1);
    if |ms| > 1 {
      HoldsAppend(s, q, [COMMA], PrintMembers(x, ms[1..]) + [125]);
      MembersRead(x, ms[1..], s, q + 1);
    } else {
      assert ms[1..] == [] && Fields(x, ms[1..]) == [];
      assert Fields(x, ms) == [Field(RereadAll(m.name), Meaning(x, m.value))];
    }
  }

  lemma Pieces(x: Texts, ms: seq<Amf.Member>, more: seq<byte>)
    requires ms != [] && more == if |ms| == 1 then [125] else [COMMA] + (PrintMembers(x, ms[1..]) + [125])
    ensures PrintMembers(x, ms) + [125] == Literal(ms[0].name) + ([COLON] + (PrintData(x, ms[0].value) + more))
  {
    hide PrintData, Literal;
    var a, b := Literal(ms[0].name), PrintData(x, ms[0].value);
    if |ms| > 1 {
      var c := PrintMembers(x, ms[1..]);
      Regroup([COMMA], c, [125]);
      Regroup(PrintMember(x, ms[0]), [COMMA] + c, [125]);
    }
    Regroup(a, [COLON] + b, more);
    Regroup([COLON], b, more);
  }

  lemma Regroup(a: seq<byte>, b: seq<byte>, c: seq<byte>)
    ensures (a + b) + c == a + (b + c)
  {
  }

  lemma {:induction false} ElementsRead(x: Texts, es: seq<Amf.Data>, s: seq<byte>, p: nat)
    requires es != [] && NumberTexts(x) && Holds(s, p, PrintElements(x, es) + [93])
    ensures At0(s, p) != 93
    ensures ReadValues(s, p) == Got(Values(x, es), p + |PrintElements(x, es)| + 1)
    decreases es, 0
  {
    hide Holds, PrintData, Literal, ReadValue, RereadAll, NumberTexts, Meaning;
    var value := PrintData(x, es[0]);
    var more := if |es| == 1 then [93] else [COMMA] + (PrintElements(x, es[1..]) + [93]);
    assert PrintElements(x, es) + [93] == value + more;
    FirstByte(x, es[0]);
    HoldsAppend(s, p, value, more);
    HoldsByte(s, p, value, 0);
    HoldsByte(s, p + |value|, more, 0);
    ValueReads(x, es[0], s, p);
    if |es| > 1 {
      HoldsAppend(s, p + |value|, [COMMA], PrintElements(x, es[1..]) + [93]);
      ElementsRead(x, es[1..], s, p + |value| + 1);
    } else {
      assert es[1..] == [] && Values(x, es[1..]) == [];
      assert Values(x, es) == [Meaning(x, es[0])];
    }
  }

  // ----- which strings come back unchanged -----

  lemma RereadByte(b: byte)
    ensures Reread(b) == [b] <==> !Damaged(b)
    ensures |Reread(b)| >= 1
  {
    hide DecimalAsHex;
    if b < 100 {
      LowDecimal(b);
    } else {
      HighDecimal(b);
    }
  }

  lemma LowDecimal(b: byte)
    requires b < 100
    ensures DecimalAsHex(b) == b + 6 * (b / 10) < 0x100
  {
    var tens, ones := b / 10, b % 10;
    assert b == 10 * tens + ones && tens % 10 == tens && b / 100 == 0;
  }

  lemma HighDecimal(b: byte)
    requires b >= 100
    ensures 0x100 <= DecimalAsHex(b) < 0x300
  {
  }

  /** A string comes back as it was exactly if it holds no control character that JSON has no letter for. */
  lemma {:induction false} StringsUnchanged(s: seq<byte>)
    ensures |RereadAll(s)| >= |s|
    ensures RereadAll(s) == s <==> forall b | b in s :: !Damaged(b)
    decreases |s|
  {
    hide Reread, Damaged;
    if s != [] {
      var r, t := Reread(s[0]), RereadAll(s[1..]);
      RereadByte(s[0]);
      StringsUnchanged(s[1..]);
      assert s == [s[0]] + s[1..];
      if RereadAll(s) == s {
        assert |r + t| == |s| && |r| == 1;
        assert (r + t)[0] == s[0] && (r + t)[1..] == t;
      }
      assert forall b | b in s :: b == s[0] || b in s[1..];
    }
  }
}
