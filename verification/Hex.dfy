/** The lower-case hexadecimal payload codec of draft synchronisation. */
module Hex {
  import opened Basics

  type byte = x: nat | x < 256

  function DigitChar(d: nat): char
    requires d < 16
  {
    if d < 10 then ('0' as int + d) as char else ('a' as int + d - 10) as char
  }

  /** A digit in base 16; upper case is accepted. */
  function DigitValue(ch: char): Option<nat> {
    if '0' <= ch <= '9' then Some(ch as int - '0' as int)
    else if 'a' <= ch <= 'f' then Some(ch as int - 'a' as int + 10)
    else if 'A' <= ch <= 'F' then Some(ch as int - 'A' as int + 10)
    else None
  }

  /** `u8::from_str_radix` on two characters, which allows a leading plus sign. */
  function ByteOf(hi: char, lo: char): Option<byte> {
    if DigitValue(lo).None? then None
    else if hi == '+' then Some(DigitValue(lo).value)
    else if DigitValue(hi).None? then None
    else Some(16 * DigitValue(hi).value + DigitValue(lo).value)
  }

  function HexOf(bytes: seq<byte>): string {
    if |bytes| == 0 then ""
    else [DigitChar(bytes[0] / 16), DigitChar(bytes[0] % 16)] + HexOf(bytes[1..])
  }

  lemma DigitIs(d: nat)
    requires d < 16
    ensures DigitChar(d) == "0123456789abcdef"[d]
  {
  }

  /** Two lower-case digits per byte, the high one first. */
  lemma {:induction false} HexDigits(bytes: seq<byte>)
    ensures |HexOf(bytes)| == 2 * |bytes|
    ensures forall i :: 0 <= i < |bytes| ==>
              && HexOf(bytes)[2 * i] == "0123456789abcdef"[bytes[i] / 16]
              && HexOf(bytes)[2 * i + 1] == "0123456789abcdef"[bytes[i] % 16]
  {
    if |bytes| == 0 {
    } else {
      var rest := bytes[1..];
      HexDigits(rest);
      DigitIs(bytes[0] / 16);
      DigitIs(bytes[0] % 16);
      forall i | 1 <= i < |bytes|
        ensures HexOf(bytes)[2 * i] == "0123456789abcdef"[bytes[i] / 16]
        ensures HexOf(bytes)[2 * i + 1] == "0123456789abcdef"[bytes[i] % 16]
      {
        assert bytes[i] == rest[i - 1];
        assert HexOf(bytes)[2 * i] == HexOf(rest)[2 * (i - 1)] && HexOf(bytes)[2 * i + 1] == HexOf(rest)[2 * (i - 1) + 1];
      }
    }
  }

  /** `encode_hex`: append two digits per byte. */
  method EncodeHex(bytes: seq<byte>) returns (encoded: string)
    ensures encoded == HexOf(bytes)
    ensures |encoded| == 2 * |bytes|
    ensures forall i :: 0 <= i < |bytes| ==>
              && encoded[2 * i] == "0123456789abcdef"[bytes[i] / 16]
              && encoded[2 * i + 1] == "0123456789abcdef"[bytes[i] % 16]
  {
    HexDigits(bytes);
    encoded := "";
    for i := 0 to |bytes|
      invariant encoded + HexOf(bytes[i..]) == HexOf(bytes)
    {
      var digits := [DigitChar(bytes[i] / 16), DigitChar(bytes[i] % 16)];
      assert bytes[i..][1..] == bytes[i + 1..];
      assert encoded + (digits + HexOf(bytes[i + 1..])) == (encoded + digits) + HexOf(bytes[i + 1..]);
      encoded := encoded + digits;
    }
  }

  function DecodePairs(s: string): Option<seq<byte>> {
    if |s| < 2 then Some([])
    else match ByteOf(s[0], s[1])
         case None => None
         case Some(b) => match DecodePairs(s[2..])
                         case None => None
                         case Some(rest) => Some([b] + rest)
  }

  predicate Ascii(s: string) { forall i :: 0 <= i < |s| ==> s[i] < 128 as char }

  /** `decode_hex` */
  function DecodeHex(s: string): Option<seq<byte>> {
    if |s| % 2 != 0 || !Ascii(s) then None else DecodePairs(s)
  }

  lemma DigitRoundTrip(d: nat)
    requires d < 16
    ensures DigitValue(DigitChar(d)) == Some(d) && DigitChar(d) < 128 as char && DigitChar(d) != '+'
  {
  }

  /** Decoding undoes encoding, for all bytes. */
  lemma {:induction false} DecodeAfterEncode(bytes: seq<byte>)
    ensures DecodeHex(HexOf(bytes)) == Some(bytes)
  {
    if |bytes| == 0 {
    } else {
      DecodeAfterEncode(bytes[1..]);
      DigitRoundTrip(bytes[0] / 16);
      DigitRoundTrip(bytes[0] % 16);
      var s := HexOf(bytes);
      assert s[2..] == HexOf(bytes[1..]);
      assert forall i :: 2 <= i < |s| ==> s[i] == s[2..][i - 2];
      assert 16 * (bytes[0] / 16) + bytes[0] % 16 == bytes[0];
      assert bytes == [bytes[0]] + bytes[1..];
    }
  }

  /** Lower-case digits only. */
  predicate Canonical(s: string) {
    forall i :: 0 <= i < |s| ==> '0' <= s[i] <= '9' || 'a' <= s[i] <= 'f'
  }

  lemma DigitBack(ch: char)
    requires DigitValue(ch).Some?
    ensures DigitValue(ch).value < 16
    ensures DigitChar(DigitValue(ch).value) == ch <==> Canonical([ch])
  {
    assert [ch][0] == ch;
  }

  lemma PlusIsNoDigit(d: nat)
    requires d < 16
    ensures DigitChar(d) != '+' && !Canonical(['+'])
  {
    assert ['+'][0] == '+';
  }

  lemma ByteBack(hi: char, lo: char)
    requires ByteOf(hi, lo).Some?
    ensures var b := ByteOf(hi, lo).value;
            [DigitChar(b / 16), DigitChar(b % 16)] == [hi, lo] <==> Canonical([hi]) && Canonical([lo])
  {
    hide DigitValue, DigitChar, Canonical;
    var b := ByteOf(hi, lo).value;
    DigitBack(lo);
    if hi == '+' {
      PlusIsNoDigit(b / 16);
    } else {
      DigitBack(hi);
      assert b / 16 == DigitValue(hi).value && b % 16 == DigitValue(lo).value;
    }
    assert [DigitChar(b / 16), DigitChar(b % 16)] == [hi, lo] <==> DigitChar(b / 16) == hi && DigitChar(b % 16) == lo by {
      assert [hi, lo][0] == hi && [hi, lo][1] == lo;
      assert [DigitChar(b / 16), DigitChar(b % 16)][0] == DigitChar(b / 16);
      assert [DigitChar(b / 16), DigitChar(b % 16)][1] == DigitChar(b % 16);
    }
  }

  lemma HexOfCons(b: byte, tail: seq<byte>)
    ensures HexOf([b] + tail) == [DigitChar(b / 16), DigitChar(b % 16)] + HexOf(tail)
  {
    assert ([b] + tail)[1..] == tail;
  }

  lemma CanonicalSplit(s: string)
    requires |s| >= 2
    ensures Canonical(s) <==> Canonical([s[0]]) && Canonical([s[1]]) && Canonical(s[2..])
  {
    assert [s[0]][0] == s[0] && [s[1]][0] == s[1];
    assert forall i :: 2 <= i < |s| ==> s[i] == s[2..][i - 2];
  }

  lemma NothingIsCanonical()
    ensures Canonical("") && HexOf([]) == ""
  {
  }

  /** Encoding undoes decoding exactly on the texts without upper-case digits and plus signs. */
  lemma {:induction false} EncodeAfterDecode(s: string)
    requires DecodeHex(s).Some?
    ensures HexOf(DecodeHex(s).value) == s <==> Canonical(s)
  {
    hide DigitChar, DigitValue, ByteOf, Canonical;
    if |s| < 2 {
      NothingIsCanonical();
    } else {
      var rest := s[2..];
      assert forall i :: 2 <= i < |s| ==> s[i] == rest[i - 2];
      EncodeAfterDecode(rest);
      ByteBack(s[0], s[1]);
      CanonicalSplit(s);
      var b, tail := ByteOf(s[0], s[1]).value, DecodePairs(rest).value;
      HexOfCons(b, tail);
      var h := [DigitChar(b / 16), DigitChar(b % 16)] + HexOf(tail);
      assert h[..2] == [DigitChar(b / 16), DigitChar(b % 16)] && h[2..] == HexOf(tail);
      assert s == [s[0], s[1]] + rest && s[..2] == [s[0], s[1]];
    }
  }

  /** A text that decodes but does not come back: "+A" is read as 10. */
  lemma PlusAndUpperCaseAreLost()
    ensures DecodeHex("+A").Some? && DecodeHex("+A").value == [10]
    ensures HexOf(DecodeHex("+A").value) != "+A"
  {
    var s := "+A";
    assert s[0] == '+' && s[1] == 'A' && s[2..] == "";
    assert ByteOf('+', 'A') == Some(10);
    assert DecodePairs(s[2..]) == Some([]);
    EncodeAfterDecode(s);
  }

  // ----- What the decoder takes

  /** The value of a digit of either case. */
  lemma DigitMeans(ch: char, d: nat)
    ensures DigitValue(ch) == Some(d) <==> d < 16 && (ch == "0123456789abcdef"[d] || ch == "0123456789ABCDEF"[d])
  {
  }

  /** Two characters are a byte when the second is a digit and the first a digit or a plus sign. */
  lemma ByteMeans(hi: char, lo: char, b: byte)
    ensures ByteOf(hi, lo) == Some(b) <==>
            && DigitValue(lo) == Some(b % 16)
            && (DigitValue(hi) == Some(b / 16) || (hi == '+' && b < 16))
  {
  }

  lemma DigitsAreAscii(hi: char, lo: char)
    ensures ByteOf(hi, lo).Some? ==> hi < 128 as char && lo < 128 as char
  {
  }

  lemma DecodeStep(s: string, bytes: seq<byte>)
    requires |s| >= 2 && |s| % 2 == 0 && |bytes| > 0
    ensures DecodeHex(s) == Some(bytes) <==> ByteOf(s[0], s[1]) == Some(bytes[0]) && DecodeHex(s[2..]) == Some(bytes[1..])
    ensures (|s| == 2 * |bytes| && forall i :: 0 <= i < |bytes| ==> ByteOf(s[2 * i], s[2 * i + 1]) == Some(bytes[i])) <==>
            && ByteOf(s[0], s[1]) == Some(bytes[0])
            && |s[2..]| == 2 * |bytes[1..]|
            && forall i :: 0 <= i < |bytes[1..]| ==> ByteOf(s[2..][2 * i], s[2..][2 * i + 1]) == Some(bytes[1..][i])
  {
    hide ByteOf;
    DigitsAreAscii(s[0], s[1]);
    assert forall i :: 2 <= i < |s| ==> s[i] == s[2..][i - 2];
    assert bytes == [bytes[0]] + bytes[1..];
    forall i | 1 <= i < |bytes| && |s| == 2 * |bytes|
      ensures ByteOf(s[2 * i], s[2 * i + 1]) == ByteOf(s[2..][2 * (i - 1)], s[2..][2 * (i - 1) + 1]) && bytes[i] == bytes[1..][i - 1]
    {
    }
  }

  /** A text decodes to these bytes exactly when it is two ASCII characters for each of them. */
  lemma {:induction false} DecodesTo(s: string, bytes: seq<byte>)
    ensures DecodeHex(s) == Some(bytes) <==>
            |s| == 2 * |bytes| && forall i :: 0 <= i < |bytes| ==> ByteOf(s[2 * i], s[2 * i + 1]) == Some(bytes[i])
  {
    hide ByteOf;
    if |s| < 2 {
    } else if |s| % 2 == 0 && |bytes| > 0 {
      DecodesTo(s[2..], bytes[1..]);
      DecodeStep(s, bytes);
    }
  }
}
