/** The JSON emitter with its one comma bit, and the dump of an AMF tree through it. */
module JsonDump {
  import opened Bytes
  import Amf
  import opened Json

  class Emitter {
    var out: bytes
    var printComma: bool

    constructor ()
      ensures out == [] && !printComma
    {
      out, printComma := [], false;
    }

    /** json_print_string, byte by byte. */
    method PrintString(s: bytes)
      modifies `out
      ensures out == old(out) + Literal(s)
    {
      hide Char;
      out := out + [QUOTE];
      ghost var start := out;
      for i := 0 to |s|
        invariant out + Chars(s[i..]) == start + Chars(s)
      {
        assert s[i..][1..] == s[i + 1..];
        assert (out + Char(s[i])) + Chars(s[i + 1..]) == out + (Char(s[i]) + Chars(s[i + 1..]));
        out := out + PrintByte(s[i]);
      }
      assert s[|s|..] == [] && out + [] == out;
      out := out + [QUOTE];
    }

    /** The switch over a byte. */
    static function PrintByte(b: byte): (t: bytes)
      ensures t == Char(b)
    {
      match b
      case 34 => [92, 34]
      case 92 => [92, 92]
      case 47 => [92, 47]
      case 8 => [92, 98]
      case 12 => [92, 102]
      case 10 => [92, 110]
      case 13 => [92, 114]
      case 9 => [92, 116]
      case _ => if Control(b) then [92, 117] + Decimal(b) else [b]
    }

    method PrintComma()
      modifies this
      ensures !printComma && out == old(out) + if old(printComma) then [COMMA] else []
    {
      if printComma {
        out := out + [COMMA];
        printComma := false;
      } else {
        assert out == out + [];
      }
    }

    method ObjectKey(name: bytes)
      modifies this
      ensures !printComma && out == old(out) + (if old(printComma) then [COMMA] else []) + (Literal(name) + [COLON])
    {
      hide Literal;
      PrintComma();
      PrintString(name);
      out := out + [COLON];
      printComma := false;
    }

    /** json_emit_object_start and json_emit_array_start. */
    method Start(bracket: byte)
      modifies this
      ensures !printComma && out == old(out) + (if old(printComma) then [COMMA] else []) + [bracket]
    {
      PrintComma();
      out := out + [bracket];
    }

    method End(bracket: byte)
      modifies this
      ensures printComma && out == old(out) + [bracket]
    {
      out := out + [bracket];
      printComma := true;
    }

    /** json_emit_boolean, _null and _number. */
    method Plain(text: bytes)
      modifies this
      ensures printComma && out == old(out) + (if old(printComma) then [COMMA] else []) + text
    {
      PrintComma();
      out := out + text;
      printComma := true;
    }

    method Text(s: bytes)
      modifies this
      ensures printComma && out == old(out) + (if old(printComma) then [COMMA] else []) + Literal(s)
    {
      hide Literal;
      PrintComma();
      PrintString(s);
      printComma := true;
    }

    /**
     * json_amf_data_dump: whatever came before, one bit is enough to print exactly the commas of the reference printer.
     */
    method Dump(x: Texts, d: Amf.Data)
      modifies this
      ensures printComma && out == old(out) + (if old(printComma) then [COMMA] else []) + PrintData(x, d)
      decreases d, 1
    {
      hide Literal, PrintMembers, PrintElements;
      ghost var before := out + if printComma then [COMMA] else [];
      match d {
        case Number(bits) => Plain(if x.number(bits) == [] then NULL else x.number(bits));
        case Boolean(value) => Plain(if value != 0 then TRUE else FALSE);
        case String(text) => Text(text);
        case Date(ms, tz) => Text(x.date(ms, tz));
        case Object(members) =>
          DumpMembers(x, members);
          assert out == before + PrintData(x, d);
        case EcmaArray(members) =>
          DumpMembers(x, members);
          assert out == before + PrintData(x, d);
        case Array(elements) =>
          DumpElements(x, elements);
          assert out == before + PrintData(x, d);
        case _ => Plain(NULL);
      }
    }

    method DumpMembers(x: Texts, ms: seq<Amf.Member>)
      modifies this
      ensures printComma && out
              == old(out) + (if old(printComma) then [COMMA] else []) + ([123] + (PrintMembers(x, ms) + [125]))
      decreases ms, 0
    {
      hide Literal, PrintData, PrintMembers;
      ghost var before := out + if printComma then [COMMA] else [];
      Start(123);
      ghost var start := out;
      NoMembers(x);
      for i := 0 to |ms|
        invariant printComma == (i > 0) && out == start + PrintMembers(x, ms[..i])
      {
        ghost var sofar := out;
        ObjectKey(ms[i].name);
        Dump(x, ms[i].value);
        OneMoreMember(x, ms, i);
        assert out == sofar + ((if i > 0 then [COMMA] else []) + PrintMember(x, ms[i])) by {
          MemberPieces(x, ms[i], sofar, if i > 0 then [COMMA] else []);
        }
        assert ms[..i + 1][..i] == ms[..i];
        assert out == start + PrintMembers(x, ms[..i + 1]);
      }
      assert ms[..|ms|] == ms;
      End(125);
      assert out == before + ([123] + (PrintMembers(x, ms) + [125]));
    }

    method DumpElements(x: Texts, es: seq<Amf.Data>)
      modifies this
      ensures printComma && out
              == old(out) + (if old(printComma) then [COMMA] else []) + ([91] + (PrintElements(x, es) + [93]))
      decreases es, 0
    {
      hide PrintData, PrintElements;
      ghost var before := out + if printComma then [COMMA] else [];
      Start(91);
      ghost var start := out;
      NoElements(x);
      for i := 0 to |es|
        invariant printComma == (i > 0) && out == start + PrintElements(x, es[..i])
      {
        ghost var sofar := out;
        Dump(x, es[i]);
        OneMoreElement(x, es, i);
        assert out == start + PrintElements(x, es[..i + 1]);
      }
      assert es[..|es|] == es;
      End(93);
      assert out == before + ([91] + (PrintElements(x, es) + [93]));
    }
  }

  lemma NoMembers(x: Texts)
    ensures PrintMembers(x, []) == []
  {
  }

  lemma NoElements(x: Texts)
    ensures PrintElements(x, []) == []
  {
  }

  lemma MemberPieces(x: Texts, m: Amf.Member, sofar: bytes, comma: bytes)
    ensures sofar + comma + (Literal(m.name) + [COLON]) + [] + PrintData(x, m.value)
            == sofar + (comma + PrintMember(x, m))
  {
    hide Literal, PrintData;
  }

  /** Printing one more member at the end: a comma, unless it is the first. */
  lemma {:induction false} OneMoreMember(x: Texts, ms: seq<Amf.Member>, i: nat)
    requires i < |ms|
    ensures PrintMembers(x, ms[..i + 1])
            == PrintMembers(x, ms[..i]) + ((if i > 0 then [COMMA] else []) + PrintMember(x, ms[i]))
    decreases i
  {
    hide PrintMember;
    if i == 0 {
      assert ms[..1] == [ms[0]] && ms[..0] == [];
    } else {
      assert ms[..i + 1][1..] == ms[1..][..i] && ms[..i][1..] == ms[1..][..i - 1];
      OneMoreMember(x, ms[1..], i - 1);
      if i == 1 {
        assert ms[..1] == [ms[0]] && ms[1..][..0] == [];
      }
    }
  }

  lemma {:induction false} OneMoreElement(x: Texts, es: seq<Amf.Data>, i: nat)
    requires i < |es|
    ensures PrintElements(x, es[..i + 1])
            == PrintElements(x, es[..i]) + ((if i > 0 then [COMMA] else []) + PrintData(x, es[i]))
    decreases i
  {
    hide PrintData;
    if i == 0 {
      assert es[..1] == [es[0]] && es[..0] == [];
    } else {
      assert es[..i + 1][1..] == es[1..][..i] && es[..i][1..] == es[1..][..i - 1];
      OneMoreElement(x, es[1..], i - 1);
      if i == 1 {
        assert es[..1] == [es[0]] && es[1..][..0] == [];
      }
    }
  }

  /** A whole dump: a JSON reader finds the tree in it. */
  method DumpAll(x: Texts, d: Amf.Data) returns (text: bytes)
    requires NumberTexts(x)
    ensures ReadValue(text, 0) == Got(Meaning(x, d), |text|)
  {
    hide PrintData, ReadValue, Meaning;
    var je := new Emitter();
    je.Dump(x, d);
    text := je.out;
    assert text == PrintData(x, d);
    ValueReads(x, d, text, 0);
  }
}
