/**
 * base64url (section 5 of RFC 4648): Python's padded encoder with its padding stripped, and the
 * unpadded decoder of Go, which skips line breaks and ignores unused trailing bits.
 */
module Base64Url {
  import opened Common

  type Byte = x: int | 0 <= x < 256

  type Sextet = x: int | 0 <= x < 64

  function Digit(v: Sextet): (c: char) {
    if v < 26 then 'A' + v as char
    else if v < 52 then 'a' + (v - 26) as char
    else if v < 62 then '0' + (v - 52) as char
    else if v == 62 then '-' else '_'
  }

  function Value(c: char): (v: Option<Sextet>)
    ensures v.Some? ==> Digit(v.value) == c
  {
    if 'A' <= c <= 'Z' then Some(c as int - 'A' as int)
    else if 'a' <= c <= 'z' then Some(c as int - 'a' as int + 26)
    else if '0' <= c <= '9' then Some(c as int - '0' as int + 52)
    else if c == '-' then Some(62)
    else if c == '_' then Some(63)
    else None
  }

  lemma {:induction false} ValueOfDigit(v: Sextet)
    ensures Value(Digit(v)) == Some(v)
  {
  }

  /** Three bytes as four six-bit values, and back. */
  function Six0(b0: Byte): (v: Sextet) { b0 / 4 }

  function Six1(b0: Byte, b1: Byte): (v: Sextet) { b0 % 4 * 16 + b1 / 16 }

  function Six2(b1: Byte, b2: Byte): (v: Sextet) { b1 % 16 * 4 + b2 / 64 }

  function Six3(b2: Byte): (v: Sextet) { b2 % 64 }

  function Byte0(v0: Sextet, v1: Sextet): (b: Byte) { v0 * 4 + v1 / 16 }

  function Byte1(v1: Sextet, v2: Sextet): (b: Byte) { v1 % 16 * 16 + v2 / 4 }

  function Byte2(v2: Sextet, v3: Sextet): (b: Byte) { v2 % 4 * 64 + v3 }

  /** The alphabet of section 5 of RFC 4648, by character codes: letters, digits, '-' and '_'. */
  lemma {:induction false} AlphabetCodes(v: Sextet)
    ensures v < 26 ==> Digit(v) as int == 65 + v
    ensures 26 <= v < 52 ==> Digit(v) as int == 97 + (v - 26)
    ensures 52 <= v < 62 ==> Digit(v) as int == 48 + (v - 52)
    ensures v == 62 ==> Digit(v) as int == 45
    ensures v == 63 ==> Digit(v) as int == 95
  {
  }

  /** Three bytes and their four sextets are one number, most significant first. */
  lemma {:induction false} GroupIsNumber(b0: Byte, b1: Byte, b2: Byte)
    ensures Six0(b0) * 262_144 + Six1(b0, b1) * 4_096 + Six2(b1, b2) * 64 + Six3(b2) == b0 * 65_536 + b1 * 256 + b2
  {
  }

  /** Test vectors of section 10 of RFC 4648: "f", "fo", "foo" and "foob". */
  lemma {:induction false} Vectors()
    ensures Encode([102]) == "Zg==" && Encode([102, 111]) == "Zm8="
    ensures Encode([102, 111, 111]) == "Zm9v" && Encode([102, 111, 111, 98]) == "Zm9vYg=="
  {
    var foo, foob: seq<Byte> := [102, 111, 111], [102, 111, 111, 98];
    assert foo[3..] == [] && foob[3..] == [98];
    assert Encode([98]) == "Yg==";
  }

  /** Python's base64.urlsafe_b64encode. */
  function Encode(b: seq<Byte>): (s: string) {
    if |b| == 0 then ""
    else if |b| == 1 then [Digit(Six0(b[0])), Digit(Six1(b[0], 0)), '=', '=']
    else if |b| == 2 then [Digit(Six0(b[0])), Digit(Six1(b[0], b[1])), Digit(Six2(b[1], 0)), '=']
    else [Digit(Six0(b[0])), Digit(Six1(b[0], b[1])), Digit(Six2(b[1], b[2])), Digit(Six3(b[2]))]
         + Encode(b[3..])
  }

  /** rstrip("=") */
  function Strip(s: string): (r: string) {
    if s != "" && s[|s| - 1] == '=' then Strip(s[..|s| - 1]) else s
  }

  /** s + "=" * (-len(s) % 4) */
  function Pad(s: string): (r: string) {
    s + seq((4 - |s| % 4) % 4, _ => '=')
  }

  /** The client's _b64. */
  function Unpadded(b: seq<Byte>): (s: string) {
    Strip(Encode(b))
  }

  /** A run of base64url digits to bytes, four digits to three bytes. */
  function FromDigits(s: string): (b: Option<seq<Byte>>) {
    if |s| == 0 then Some([])
    else if |s| == 1 || Value(s[0]).None? || Value(s[1]).None? then None
    else
      var v0, v1 := Value(s[0]).value, Value(s[1]).value;
      if |s| == 2 then Some([Byte0(v0, v1)])
      else if Value(s[2]).None? then None
      else
        var v2 := Value(s[2]).value;
        if |s| == 3 then Some([Byte0(v0, v1), Byte1(v1, v2)])
        else if Value(s[3]).None? then None
        else
          var v3 := Value(s[3]).value;
          var rest := FromDigits(s[4..]);
          if rest.None? then None
          else Some([Byte0(v0, v1), Byte1(v1, v2), Byte2(v2, v3)] + rest.value)
  }

  function DropLineBreaks(s: string): (r: string) {
    if s == "" then ""
    else (if s[0] == '\r' || s[0] == '\n' then "" else [s[0]]) + DropLineBreaks(s[1..])
  }

  /** Go's base64.RawURLEncoding.DecodeString. */
  function DecodeRaw(s: string): (b: Option<seq<Byte>>) {
    FromDigits(DropLineBreaks(s))
  }

  /** Python's base64.urlsafe_b64decode, on text over the alphabet and '='. */
  function DecodePadded(s: string): (b: Option<seq<Byte>>) {
    var t := Strip(s);
    if |s| % 4 == 0 && |s| - |t| <= 2 then FromDigits(t) else None
  }

  /** Only digits of the alphabet: no '.', no '=', no line break. */
  predicate AllDigits(s: string) {
    forall i | 0 <= i < |s| :: Value(s[i]).Some?
  }

  /** The digits of the encoding, without the padding. */
  function Digits(b: seq<Byte>): (s: string) {
    if |b| == 0 then ""
    else if |b| == 1 then [Digit(Six0(b[0])), Digit(Six1(b[0], 0))]
    else if |b| == 2 then [Digit(Six0(b[0])), Digit(Six1(b[0], b[1])), Digit(Six2(b[1], 0))]
    else [Digit(Six0(b[0])), Digit(Six1(b[0], b[1])), Digit(Six2(b[1], b[2])), Digit(Six3(b[2]))]
         + Digits(b[3..])
  }

  lemma {:induction false} GroupLengths(bytes: int, digits: int)
    ensures (bytes - 3) % 3 == bytes % 3 && (digits + 4) % 4 == digits % 4
  {
  }

  lemma {:induction false} DigitsLength(b: seq<Byte>)
    ensures |Digits(b)| % 4 == if |b| % 3 == 0 then 0 else |b| % 3 + 1
  {
    if |b| >= 3 {
      var rest := b[3..];
      DigitsLength(rest);
      GroupLengths(|b|, |Digits(rest)|);
      assert |Digits(b)| == |Digits(rest)| + 4 && |rest| == |b| - 3;
    } else {
      assert |b| % 3 == |b|;
    }
  }

  lemma {:induction false} DigitsAreDigits(b: seq<Byte>)
    ensures AllDigits(Digits(b))
  {
    forall v: Sextet
      ensures Value(Digit(v)).Some?
    {
      ValueOfDigit(v);
    }
    if |b| >= 3 {
      DigitsAreDigits(b[3..]);
      var head := Digits(b)[..4];
      assert AllDigits(head);
      assert Digits(b) == head + Digits(b[3..]);
    }
  }

  lemma {:induction false} PadAfterFour(head: string, s: string)
    requires |head| == 4
    ensures Pad(head + s) == head + Pad(s)
  {
    assert |head + s| % 4 == |s| % 4;
  }

  lemma {:induction false} EncodeIsPaddedDigits(b: seq<Byte>)
    ensures Encode(b) == Pad(Digits(b))
  {
    if |b| >= 3 {
      EncodeIsPaddedDigits(b[3..]);
      PadAfterFour(Digits(b)[..4], Digits(b[3..]));
      assert Digits(b) == Digits(b)[..4] + Digits(b[3..]);
    }
  }

  lemma {:induction false} StripUndoesPad(s: string, n: nat)
    requires s == "" || s[|s| - 1] != '='
    ensures Strip(s + seq(n, _ => '=')) == s
  {
    if n == 0 {
      assert s + seq(n, _ => '=') == s;
    } else {
      assert (s + seq(n, _ => '='))[..|s| + n - 1] == s + seq(n - 1, _ => '=');
      StripUndoesPad(s, n - 1);
    }
  }

  /** Stripping and re-padding undo each other, for every byte string and every stripped text. */
  lemma {:induction false} StripPadRoundTrip(b: seq<Byte>, s: string)
    ensures Pad(Unpadded(b)) == Encode(b)
    ensures (s == "" || s[|s| - 1] != '=') ==> Strip(Pad(s)) == s
    ensures Unpadded(b) == Digits(b) && AllDigits(Unpadded(b))
  {
    EncodeIsPaddedDigits(b);
    DigitsAreDigits(b);
    var d := Digits(b);
    StripUndoesPad(d, (4 - |d| % 4) % 4);
    if s == "" || s[|s| - 1] != '=' {
      StripUndoesPad(s, (4 - |s| % 4) % 4);
    }
  }

  lemma {:induction false} BytesOfSextets(b0: Byte, b1: Byte, b2: Byte)
    ensures Byte0(Six0(b0), Six1(b0, b1)) == b0
    ensures Byte1(Six1(b0, b1), Six2(b1, b2)) == b1
    ensures Byte2(Six2(b1, b2), Six3(b2)) == b2
  {
  }

  lemma {:induction false} FromQuad(v0: Sextet, v1: Sextet, v2: Sextet, v3: Sextet, rest: string)
    requires FromDigits(rest).Some?
    ensures FromDigits([Digit(v0), Digit(v1), Digit(v2), Digit(v3)] + rest)
            == Some([Byte0(v0, v1), Byte1(v1, v2), Byte2(v2, v3)] + FromDigits(rest).value)
  {
    ValueOfDigit(v0);
    ValueOfDigit(v1);
    ValueOfDigit(v2);
    ValueOfDigit(v3);
    var s := [Digit(v0), Digit(v1), Digit(v2), Digit(v3)] + rest;
    assert s[4..] == rest;
  }

  /** A group of three bytes in front of text that decodes. */
  lemma {:induction false} FromGroup(b0: Byte, b1: Byte, b2: Byte, rest: string)
    requires FromDigits(rest).Some?
    ensures FromDigits([Digit(Six0(b0)), Digit(Six1(b0, b1)), Digit(Six2(b1, b2)), Digit(Six3(b2))] + rest)
            == Some([b0, b1, b2] + FromDigits(rest).value)
  {
    BytesOfSextets(b0, b1, b2);
    FromQuad(Six0(b0), Six1(b0, b1), Six2(b1, b2), Six3(b2), rest);
  }

  lemma {:induction false} FromTriple(v0: Sextet, v1: Sextet, v2: Sextet)
    ensures FromDigits([Digit(v0), Digit(v1), Digit(v2)]) == Some([Byte0(v0, v1), Byte1(v1, v2)])
  {
    ValueOfDigit(v0);
    ValueOfDigit(v1);
    ValueOfDigit(v2);
  }

  lemma {:induction false} FromPair(v0: Sextet, v1: Sextet)
    ensures FromDigits([Digit(v0), Digit(v1)]) == Some([Byte0(v0, v1)])
  {
    ValueOfDigit(v0);
    ValueOfDigit(v1);
  }

  /** A last group of two bytes, then of one: the decoder ignores the bits that come after, whatever they are. */
  lemma {:induction false} FromTwo(b0: Byte, b1: Byte, after: Byte)
    ensures FromDigits([Digit(Six0(b0)), Digit(Six1(b0, b1)), Digit(Six2(b1, after))]) == Some([b0, b1])
  {
    BytesOfSextets(b0, b1, after);
    FromTriple(Six0(b0), Six1(b0, b1), Six2(b1, after));
  }

  lemma {:induction false} FromOne(b0: Byte, after: Byte)
    ensures FromDigits([Digit(Six0(b0)), Digit(Six1(b0, after))]) == Some([b0])
  {
    BytesOfSextets(b0, after, after);
    FromPair(Six0(b0), Six1(b0, after));
  }

  lemma {:induction false} FromLastOne(b: seq<Byte>)
    requires |b| == 1
    ensures FromDigits(Digits(b)) == Some(b)
  {
    var b0, zero: Byte := b[0], 0;
    FromOne(b0, zero);
    assert Digits(b) == [Digit(Six0(b0)), Digit(Six1(b0, zero))];
    assert b == [b0];
  }

  lemma {:induction false} FromLastTwo(b: seq<Byte>)
    requires |b| == 2
    ensures FromDigits(Digits(b)) == Some(b)
  {
    var b0, b1, zero: Byte := b[0], b[1], 0;
    FromTwo(b0, b1, zero);
    assert Digits(b) == [Digit(Six0(b0)), Digit(Six1(b0, b1)), Digit(Six2(b1, zero))];
    assert b == [b0, b1];
  }

  lemma {:induction false} DigitsOfGroup(b: seq<Byte>, b0: Byte, b1: Byte, b2: Byte)
    requires |b| >= 3 && b0 == b[0] && b1 == b[1] && b2 == b[2]
    ensures Digits(b) == [Digit(Six0(b0)), Digit(Six1(b0, b1)), Digit(Six2(b1, b2)), Digit(Six3(b2))] + Digits(b[3..])
    ensures b == [b0, b1, b2] + b[3..]
  {
  }

  lemma {:induction false} FromFirstGroup(b: seq<Byte>)
    requires |b| >= 3 && FromDigits(Digits(b[3..])) == Some(b[3..])
    ensures FromDigits(Digits(b)) == Some(b)
  {
    var b0, b1, b2 := b[0], b[1], b[2];
    FromGroup(b0, b1, b2, Digits(b[3..]));
    DigitsOfGroup(b, b0, b1, b2);
  }

  lemma {:induction false} FromDigitsOfDigits(b: seq<Byte>)
    ensures FromDigits(Digits(b)) == Some(b)
  {
    if |b| == 1 {
      FromLastOne(b);
    } else if |b| == 2 {
      FromLastTwo(b);
    } else if |b| >= 3 {
      FromDigitsOfDigits(b[3..]);
      FromFirstGroup(b);
    }
  }

  lemma {:induction false} NoLineBreaks(s: string)
    requires AllDigits(s)
    ensures DropLineBreaks(s) == s
  {
    if s != "" {
      NoLineBreaks(s[1..]);
    }
  }

  lemma {:induction false} PaddedLength(n: nat)
    ensures (n + (4 - n % 4) % 4) % 4 == 0 && (n % 4 != 1 ==> (4 - n % 4) % 4 <= 2)
  {
    assert n == n / 4 * 4 + n % 4;
  }

  /** Exactly what the unpadded decoder takes: digits of the alphabet, and not one left over after groups of four. */
  lemma {:induction false} DecodesIff(s: string)
    ensures FromDigits(s).Some? <==> AllDigits(s) && |s| % 4 != 1
  {
    if |s| >= 4 {
      var rest := s[4..];
      DecodesIff(rest);
      LessFour(|s|);
      assert AllDigits(s) <==> AllDigits(s[..4]) && AllDigits(rest) by {
        assert forall i | 0 <= i < 4 :: s[..4][i] == s[i];
        assert forall i | 0 <= i < |rest| :: rest[i] == s[i + 4];
        assert s == s[..4] + rest;
      }
      var four := s[..4];
      assert AllDigits(four) <==> Value(s[0]).Some? && Value(s[1]).Some? && Value(s[2]).Some? && Value(s[3]).Some?;
    }
  }

  lemma {:induction false} LessFour(n: int)
    ensures (n - 4) % 4 == n % 4
  {
  }

  /** Line breaks anywhere in the text make no difference to the decoder. */
  lemma {:induction false} LineBreaksIgnored(a: string, b: string, c: char)
    requires c == '\r' || c == '\n'
    ensures DecodeRaw(a + [c] + b) == DecodeRaw(a + b)
  {
    DropsBreak(a, b, c);
  }

  lemma {:induction false} DropsBreak(a: string, b: string, c: char)
    requires c == '\r' || c == '\n'
    ensures DropLineBreaks(a + [c] + b) == DropLineBreaks(a + b)
  {
    if a == "" {
      assert (a + [c] + b)[1..] == b && a + b == b;
    } else {
      DropsBreak(a[1..], b, c);
      assert (a + [c] + b)[1..] == a[1..] + [c] + b && (a + b)[1..] == a[1..] + b;
    }
  }

  /** The padding of an encoding is at most two signs. */
  lemma {:induction false} PaddingIsShort(b: seq<Byte>)
    ensures |Pad(Digits(b))| - |Digits(b)| <= 2 && |Pad(Digits(b))| % 4 == 0
  {
    DigitsLength(b);
    PaddedLength(|Digits(b)|);
  }

  lemma {:induction false} DecodePaddedRoundTrip(b: seq<Byte>)
    ensures DecodePadded(Pad(Unpadded(b))) == Some(b)
  {
    StripPadRoundTrip(b, Digits(b));
    FromDigitsOfDigits(b);
    PaddingIsShort(b);
  }

  /** Both decoders give back every byte string the client encodes. */
  lemma {:induction false} DecodeRoundTrip(b: seq<Byte>)
    ensures DecodeRaw(Unpadded(b)) == Some(b)
    ensures DecodePadded(Pad(Unpadded(b))) == Some(b)
  {
    StripPadRoundTrip(b, "");
    FromDigitsOfDigits(b);
    NoLineBreaks(Digits(b));
    DecodePaddedRoundTrip(b);
  }
}
