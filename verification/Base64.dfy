/** Base64url without padding (section 5 of RFC 4648), decoded the way Go's raw decoder does. */
module Base64 {
  import opened Wrappers

  type Byte = b: int | 0 <= b < 256 witness 0

  type Sextet = v: int | 0 <= v < 64 witness 0

  function ToChar(v: Sextet): char {
    if v < 26 then ('A' as int + v) as char
    else if v < 52 then ('a' as int + v - 26) as char
    else if v < 62 then ('0' as int + v - 52) as char
    else if v == 62 then '-' else '_'
  }

  function FromChar(c: char): Option<Sextet> {
    if 'A' <= c <= 'Z' then Some(c as int - 'A' as int)
    else if 'a' <= c <= 'z' then Some(c as int - 'a' as int + 26)
    else if '0' <= c <= '9' then Some(c as int - '0' as int + 52)
    else if c == '-' then Some(62)
    else if c == '_' then Some(63)
    else None
  }

  predicate IsBreak(c: char) {
    c == '\r' || c == '\n'
  }

  /** Three bytes become four sextets; one or two left over become two or three. */
  function ToSextets(bytes: seq<Byte>): seq<Sextet> {
    if |bytes| == 0 then []
    else if |bytes| == 1 then [bytes[0] / 4, bytes[0] % 4 * 16]
    else if |bytes| == 2 then [bytes[0] / 4, bytes[0] % 4 * 16 + bytes[1] / 16, bytes[1] % 16 * 4]
    else [bytes[0] / 4, bytes[0] % 4 * 16 + bytes[1] / 16, bytes[1] % 16 * 4 + bytes[2] / 64, bytes[2] % 64]
         + ToSextets(bytes[3..])
  }

  predicate InRange(v: int) {
    0 <= v < 64
  }

  function First(a: int, b: int): Byte
    requires InRange(a) && InRange(b)
  {
    a * 4 + b / 16
  }

  function Second(b: int, c: int): Byte
    requires InRange(b) && InRange(c)
  {
    b % 16 * 16 + c / 4
  }

  function Third(c: int, d: int): Byte
    requires InRange(c) && InRange(d)
  {
    c % 4 * 64 + d
  }

  /** Bits left over in the last sextet are ignored; a lone last sextet is an error. */
  function FromSextets(vs: seq<Sextet>): Option<seq<Byte>> {
    if |vs| == 0 then Some([])
    else if |vs| == 1 then None
    else if |vs| == 2 then Some([First(vs[0], vs[1])])
    else if |vs| == 3 then Some([First(vs[0], vs[1]), Second(vs[1], vs[2])])
    else
      var rest := FromSextets(vs[4..]);
      if rest.None? then None
      else Some([First(vs[0], vs[1]), Second(vs[1], vs[2]), Third(vs[2], vs[3])] + rest.value)
  }

  function ToText(vs: seq<Sextet>): string {
    if vs == [] then "" else [ToChar(vs[0])] + ToText(vs[1..])
  }

  /** Line breaks are skipped wherever they stand; any other foreign character is an error. */
  function FromText(text: string): Option<seq<Sextet>> {
    if text == "" then Some([])
    else
      var rest := FromText(text[1..]);
      if IsBreak(text[0]) then rest
      else if FromChar(text[0]).None? || rest.None? then None
      else Some([FromChar(text[0]).value] + rest.value)
  }

  function Encode(bytes: seq<Byte>): string {
    ToText(ToSextets(bytes))
  }

  function Decode(text: string): Option<seq<Byte>> {
    var vs := FromText(text);
    if vs.None? then None else FromSextets(vs.value)
  }

  lemma CharRoundTrip(v: Sextet)
    ensures FromChar(ToChar(v)) == Some(v) && !IsBreak(ToChar(v))
  {
  }

  lemma {:induction false} TextRoundTrip(vs: seq<Sextet>)
    ensures FromText(ToText(vs)) == Some(vs) && |ToText(vs)| == |vs|
  {
    if vs != [] {
      CharRoundTrip(vs[0]);
      TextRoundTrip(vs[1..]);
      assert ToText(vs)[1..] == ToText(vs[1..]);
      assert vs == [vs[0]] + vs[1..];
    }
  }

  lemma GroupRoundTrip(a: Byte, b: Byte, c: Byte)
    ensures First(a / 4, a % 4 * 16 + b / 16) == a
    ensures Second(a % 4 * 16 + b / 16, b % 16 * 4 + c / 64) == b
    ensures Third(b % 16 * 4 + c / 64, c % 64) == c
  {
  }

  lemma {:induction false} SextetRoundTrip(bytes: seq<Byte>)
    ensures FromSextets(ToSextets(bytes)) == Some(bytes)
    ensures bytes != [] ==> ToSextets(bytes) != []
  {
    if |bytes| == 0 {
    } else if |bytes| == 1 {
      GroupRoundTrip(bytes[0], 0, 0);
      assert bytes == [bytes[0]];
    } else if |bytes| == 2 {
      GroupRoundTrip(bytes[0], bytes[1], 0);
      assert bytes == [bytes[0], bytes[1]];
    } else {
      GroupRoundTrip(bytes[0], bytes[1], bytes[2]);
      SextetRoundTrip(bytes[3..]);
      assert ToSextets(bytes)[4..] == ToSextets(bytes[3..]);
      assert bytes == [bytes[0], bytes[1], bytes[2]] + bytes[3..];
    }
  }

  /** Decoding undoes encoding for every byte string, and only the empty one is written as nothing. */
  lemma DecodeEncode(bytes: seq<Byte>)
    ensures Decode(Encode(bytes)) == Some(bytes)
    ensures bytes != [] ==> Encode(bytes) != ""
  {
    SextetRoundTrip(bytes);
    TextRoundTrip(ToSextets(bytes));
  }

  // ---- What the text looks like, and which texts are read ----

  const CAPITALS: string := "ABCDEFGHIJKLMNOPQRSTUVWXYZ"
  const SMALLS: string := "abcdefghijklmnopqrstuvwxyz"
  const DIGITS: string := "0123456789"

  /** The table of section 5 of RFC 4648. */
  const ALPHABET: string := CAPITALS + SMALLS + DIGITS + "-_"

  lemma LettersInOrder(i: nat)
    requires i < 26
    ensures |CAPITALS| == 26 && CAPITALS[i] as int == 'A' as int + i
    ensures |SMALLS| == 26 && SMALLS[i] as int == 'a' as int + i
  {
  }

  lemma DigitsInOrder(i: nat)
    requires i < 10
    ensures |DIGITS| == 10 && DIGITS[i] as int == '0' as int + i
  {
  }

  /** Each sextet is written as the character at its place in the alphabet, and only that one is read as it. */
  lemma CharIsInAlphabet(v: Sextet, c: char)
    ensures |ALPHABET| == 64 && ToChar(v) == ALPHABET[v]
    ensures FromChar(c) == Some(v) <==> c == ALPHABET[v]
  {
    LettersInOrder(if v < 26 then v else if v < 52 then v - 26 else 0);
    DigitsInOrder(if 52 <= v < 62 then v - 52 else 0);
    if v < 26 {
      assert ALPHABET[v] == CAPITALS[v];
    } else if v < 52 {
      assert ALPHABET[v] == SMALLS[v - 26];
    } else if v < 62 {
      assert ALPHABET[v] == DIGITS[v - 52];
    } else {
      assert ALPHABET[v] == "-_"[v - 62];
    }
  }

  lemma {:induction false} SextetLength(bytes: seq<Byte>)
    ensures |ToSextets(bytes)| == (|bytes| * 4 + 2) / 3
  {
    if |bytes| >= 3 {
      SextetLength(bytes[3..]);
    }
  }

  /** Three bytes and four sextets are the same 24 bits, the high ones first; what is left over is filled with zeros. */
  lemma GroupValue(a: int, b: int, c: int, rest: seq<Byte>)
    requires 0 <= a < 256 && 0 <= b < 256 && 0 <= c < 256
    ensures var vs: seq<int> := ToSextets([a, b, c]);
            |vs| == 4 && vs[0] * 262144 + vs[1] * 4096 + vs[2] * 64 + vs[3] == a * 65536 + b * 256 + c
    ensures var vs: seq<int> := ToSextets([a, b]);
            |vs| == 3 && vs[0] * 4096 + vs[1] * 64 + vs[2] == (a * 256 + b) * 4
    ensures var vs: seq<int> := ToSextets([a]);
            |vs| == 2 && vs[0] * 64 + vs[1] == a * 16
    ensures ToSextets([a, b, c] + rest) == ToSextets([a, b, c]) + ToSextets(rest)
  {
    assert ([a, b, c] + rest)[3..] == rest;
    assert [a, b, c][3..] == [];
  }

  lemma {:induction false} TextChars(vs: seq<Sextet>)
    ensures |ToText(vs)| == |vs| && forall i :: 0 <= i < |vs| ==> ToText(vs)[i] == ToChar(vs[i])
  {
    if vs != [] {
      TextChars(vs[1..]);
      forall i | 0 <= i < |vs| ensures ToText(vs)[i] == ToChar(vs[i]) {
        if i > 0 {
          assert ToText(vs)[i] == ToText(vs[1..])[i - 1];
        }
      }
    }
  }

  /** Unpadded length, and each sextet as its character. */
  lemma EncodedText(bytes: seq<Byte>)
    ensures |Encode(bytes)| == (|bytes| * 4 + 2) / 3 == |ToSextets(bytes)|
    ensures |ALPHABET| == 64
    ensures forall i :: 0 <= i < |Encode(bytes)| ==> Encode(bytes)[i] == ALPHABET[ToSextets(bytes)[i]]
  {
    var vs := ToSextets(bytes);
    SextetLength(bytes);
    TextChars(vs);
    CharIsInAlphabet(0, 'A');
    forall i | 0 <= i < |vs| ensures ToText(vs)[i] == ALPHABET[vs[i]] {
      CharIsInAlphabet(vs[i], 'A');
    }
  }

  /** The characters of a text that are not line breaks. */
  function Unbroken(text: string): string {
    if text == "" then ""
    else if text[0] == '\r' || text[0] == '\n' then Unbroken(text[1..])
    else [text[0]] + Unbroken(text[1..])
  }

  lemma {:induction false} TextIsRead(text: string)
    ensures FromText(text).Some? <==> forall c :: c in Unbroken(text) ==> c in ALPHABET
    ensures FromText(text).Some? ==> |FromText(text).value| == |Unbroken(text)|
  {
    if text != "" {
      TextIsRead(text[1..]);
      CharIsRead(text[0]);
      if !IsBreak(text[0]) {
        assert Unbroken(text)[0] == text[0] && Unbroken(text)[1..] == Unbroken(text[1..]);
      }
    }
  }

  lemma CharIsRead(c: char)
    ensures FromChar(c).Some? <==> c in ALPHABET
  {
    if FromChar(c).Some? {
      CharIsInAlphabet(FromChar(c).value, c);
    } else if c in ALPHABET {
      var i :| 0 <= i < |ALPHABET| && ALPHABET[i] == c;
      CharIsInAlphabet(i, c);
    }
  }

  lemma {:induction false} SextetsAreRead(vs: seq<Sextet>)
    ensures FromSextets(vs).Some? <==> |vs| % 4 != 1
  {
    if |vs| >= 4 {
      SextetsAreRead(vs[4..]);
    }
  }

  /** A text is read exactly if, line breaks aside, it is of the alphabet and no character is left alone at the end. */
  lemma DecodableText(text: string)
    ensures Decode(text).Some? <==>
            (forall c :: c in Unbroken(text) ==> c in ALPHABET) && |Unbroken(text)| % 4 != 1
  {
    TextIsRead(text);
    if FromText(text).Some? {
      SextetsAreRead(FromText(text).value);
    }
  }
}
