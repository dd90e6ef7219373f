/** Hexadecimal (section 8 of RFC 4648); both cases are read, lower case is written. */
module Hex {
  import opened Wrappers
  import opened Base64

  function ToDigit(v: int): char
    requires 0 <= v < 16
  {
    if v < 10 then ('0' as int + v) as char else ('a' as int + v - 10) as char
  }

  function FromDigit(c: char): (v: Option<int>)
    ensures v.Some? ==> 0 <= v.value < 16
  {
    if '0' <= c <= '9' then Some(c as int - '0' as int)
    else if 'a' <= c <= 'f' then Some(c as int - 'a' as int + 10)
    else if 'A' <= c <= 'F' then Some(c as int - 'A' as int + 10)
    else None
  }

  function Encode(bytes: seq<Byte>): string {
    if |bytes| == 0 then ""
    else [ToDigit(bytes[0] / 16), ToDigit(bytes[0] % 16)] + Encode(bytes[1..])
  }

  function Decode(text: string): Option<seq<Byte>> {
    if |text| == 0 then Some([])
    else if |text| == 1 then None
    else
      var hi, lo, rest := FromDigit(text[0]), FromDigit(text[1]), Decode(text[2..]);
      if hi.None? || lo.None? || rest.None? then None
      else Some([hi.value * 16 + lo.value] + rest.value)
  }

  lemma {:induction false} DecodeEncode(bytes: seq<Byte>)
    ensures Decode(Encode(bytes)) == Some(bytes)
  {
    if |bytes| > 0 {
      DecodeEncode(bytes[1..]);
      assert Encode(bytes)[2..] == Encode(bytes[1..]);
      assert FromDigit(ToDigit(bytes[0] / 16)) == Some(bytes[0] / 16);
      assert FromDigit(ToDigit(bytes[0] % 16)) == Some(bytes[0] % 16);
      assert bytes == [bytes[0]] + bytes[1..];
    }
  }

  lemma {:induction false} DecodedLength(text: string)
    requires Decode(text).Some?
    ensures |text| == 2 * |Decode(text).value|
  {
    if |text| > 0 {
      DecodedLength(text[2..]);
    }
  }

  const LOWER: string := "0123456789abcdef"
  const UPPER: string := "0123456789ABCDEF"

  /** A digit is written in lower case, and read in either. */
  lemma DigitValue(v: nat, c: char)
    requires v < 16
    ensures ToDigit(v) == LOWER[v]
    ensures FromDigit(c) == Some(v) <==> c == LOWER[v] || c == UPPER[v]
  {
  }

  lemma DigitIsRead(c: char)
    ensures FromDigit(c).Some? <==> c in LOWER || c in UPPER
  {
    if FromDigit(c).Some? {
      DigitValue(FromDigit(c).value, c);
    } else if c in LOWER {
      var i :| 0 <= i < |LOWER| && LOWER[i] == c;
      DigitValue(i, c);
    } else if c in UPPER {
      var i :| 0 <= i < |UPPER| && UPPER[i] == c;
      DigitValue(i, c);
    }
  }

  /** A text is read exactly if it has an even number of characters, all of them digits. */
  lemma {:induction false} DecodableText(text: string)
    ensures Decode(text).Some? <==> |text| % 2 == 0 && forall c :: c in text ==> c in LOWER || c in UPPER
    decreases |text|
  {
    if |text| >= 2 {
      DigitIsRead(text[0]);
      DigitIsRead(text[1]);
      DecodableText(text[2..]);
      assert text == [text[0], text[1]] + text[2..];
    }
  }

  /** Byte `i` is written as digits `2 * i` and `2 * i + 1`, the high one first. */
  lemma {:induction false} EncodedText(bytes: seq<Byte>, i: nat)
    requires i < |bytes|
    ensures |Encode(bytes)| == 2 * |bytes|
    ensures Encode(bytes)[2 * i] == LOWER[bytes[i] / 16] && Encode(bytes)[2 * i + 1] == LOWER[bytes[i] % 16]
  {
    DigitValue(bytes[0] / 16, '0');
    DigitValue(bytes[0] % 16, '0');
    if |bytes| > 1 {
      EncodedText(bytes[1..], if i > 0 then i - 1 else 0);
    }
  }
}
