/** Base64 as defined in section 4 of RFC 4648: the standard alphabet, `=`
    padding, and no line breaks. It stands in for `android.util.Base64.encode`
    with the `NO_WRAP` flag, whose own code is not part of this model. The
    decoder exists only to state what the encoder preserves. */
module Base64 {
  import opened Wrappers
  import opened Java

  /** The character for a 6-bit value (Table 1 of RFC 4648). */
  function Digit(v: int): char
    requires 0 <= v < 64
  {
    if v < 26 then ('A' as int + v) as char
    else if v < 52 then ('a' as int + (v - 26)) as char
    else if v < 62 then ('0' as int + (v - 52)) as char
    else if v == 62 then '+'
    else '/'
  }

  predicate IsDigit(c: char)
  {
    'A' <= c <= 'Z' || 'a' <= c <= 'z' || '0' <= c <= '9' || c == '+' || c == '/'
  }

  /** The 6-bit value of an alphabet character. */
  function DigitValue(c: char): (v: int)
    requires IsDigit(c)
    ensures 0 <= v < 64
  {
    if 'A' <= c <= 'Z' then c as int - 'A' as int
    else if 'a' <= c <= 'z' then c as int - 'a' as int + 26
    else if '0' <= c <= '9' then c as int - '0' as int + 52
    else if c == '+' then 62
    else 63
  }

  /** Each 6-bit value has an alphabet character, which decodes back. */
  lemma DigitRoundTrip(v: int)
    requires 0 <= v < 64
    ensures IsDigit(Digit(v)) && DigitValue(Digit(v)) == v
  {
  }

  /** Every character the encoder may emit: the alphabet and the pad. */
  predicate IsOutputChar(c: char)
  {
    IsDigit(c) || c == '='
  }

  /** Three octets, 24 bits, as four characters. */
  function EncodeTriple(a: byte, b: byte, c: byte): string
  {
    [Digit(a as int / 4),
     Digit((a as int % 4) * 16 + b as int / 16),
     Digit((b as int % 16) * 4 + c as int / 64),
     Digit(c as int % 64)]
  }

  /** A final group of one octet: two characters and two pads. */
  function EncodeOne(a: byte): string
  {
    [Digit(a as int / 4), Digit((a as int % 4) * 16), '=', '=']
  }

  /** A final group of two octets: three characters and one pad. */
  function EncodeTwo(a: byte, b: byte): string
  {
    [Digit(a as int / 4), Digit((a as int % 4) * 16 + b as int / 16), Digit((b as int % 16) * 4), '=']
  }

  /** The encoding of a whole byte sequence. */
  function Encode(data: seq<byte>): string
  {
    if |data| == 0 then []
    else if |data| == 1 then EncodeOne(data[0])
    else if |data| == 2 then EncodeTwo(data[0], data[1])
    else EncodeTriple(data[0], data[1], data[2]) + Encode(data[3..])
  }

  /** One group of four characters; pads are accepted only in the last group. */
  function DecodeQuad(q: string, last: bool): (r: Option<seq<byte>>)
    requires |q| == 4
  {
    if q[2] == '=' && q[3] == '=' then
      if last && IsDigit(q[0]) && IsDigit(q[1]) then
        var v0, v1 := DigitValue(q[0]), DigitValue(q[1]);
        Some([(v0 * 4 + v1 / 16) as byte])
      else None
    else if q[3] == '=' then
      if last && IsDigit(q[0]) && IsDigit(q[1]) && IsDigit(q[2]) then
        var v0, v1, v2 := DigitValue(q[0]), DigitValue(q[1]), DigitValue(q[2]);
        Some([(v0 * 4 + v1 / 16) as byte, ((v1 % 16) * 16 + v2 / 4) as byte])
      else None
    else if IsDigit(q[0]) && IsDigit(q[1]) && IsDigit(q[2]) && IsDigit(q[3]) then
      var v0, v1, v2, v3 := DigitValue(q[0]), DigitValue(q[1]), DigitValue(q[2]), DigitValue(q[3]);
      Some([(v0 * 4 + v1 / 16) as byte, ((v1 % 16) * 16 + v2 / 4) as byte, ((v2 % 4) * 64 + v3) as byte])
    else None
  }

  /** The decoder of section 4 of RFC 4648, without line breaks. */
  function Decode(s: string): (r: Option<seq<byte>>)
    decreases |s|
  {
    if |s| == 0 then Some([])
    else if |s| < 4 then None
    else
      match DecodeQuad(s[..4], |s| == 4)
      case None => None
      case Some(head) =>
        match Decode(s[4..])
        case None => None
        case Some(tail) => Some(head + tail)
  }

  lemma TripleRoundTrip(a: byte, b: byte, c: byte, last: bool)
    ensures DecodeQuad(EncodeTriple(a, b, c), last) == Some([a, b, c])
  {
    var x, y, z := a as int, b as int, c as int;
    var v0, v1, v2, v3 := x / 4, (x % 4) * 16 + y / 16, (y % 16) * 4 + z / 64, z % 64;
    assert v0 * 4 + v1 / 16 == x;
    assert (v1 % 16) * 16 + v2 / 4 == y;
    assert (v2 % 4) * 64 + v3 == z;
    DigitRoundTrip(v0);
    DigitRoundTrip(v1);
    DigitRoundTrip(v2);
    DigitRoundTrip(v3);
  }

  lemma OneRoundTrip(a: byte)
    ensures DecodeQuad(EncodeOne(a), true) == Some([a])
  {
    var x := a as int;
    var v0, v1 := x / 4, (x % 4) * 16;
    assert v0 * 4 + v1 / 16 == x;
    DigitRoundTrip(v0);
    DigitRoundTrip(v1);
  }

  lemma TwoRoundTrip(a: byte, b: byte)
    ensures DecodeQuad(EncodeTwo(a, b), true) == Some([a, b])
  {
    var x, y := a as int, b as int;
    var v0, v1, v2 := x / 4, (x % 4) * 16 + y / 16, (y % 16) * 4;
    assert v0 * 4 + v1 / 16 == x;
    assert (v1 % 16) * 16 + v2 / 4 == y;
    DigitRoundTrip(v0);
    DigitRoundTrip(v1);
    DigitRoundTrip(v2);
  }

  /** A string of one group decodes as that group, in last position. */
  lemma DecodeLastQuad(q: string)
    requires |q| == 4
    ensures Decode(q) == DecodeQuad(q, true)
  {
    assert q[..4] == q && q[4..] == [];
    match DecodeQuad(q, true)
    case None =>
    case Some(head) => assert head + [] == head;
  }

  /** A complete group followed by more input decodes group by group. */
  lemma DecodeFirstQuad(head: string, rest: string)
    requires |head| == 4
    requires DecodeQuad(head, rest == []).Some? && Decode(rest).Some?
    ensures Decode(head + rest) == Some(DecodeQuad(head, rest == []).value + Decode(rest).value)
  {
    var s := head + rest;
    assert s[..4] == head && s[4..] == rest;
  }

  /** A final group of one or two octets decodes back. */
  lemma DecodeEncodeShort(data: seq<byte>)
    requires 1 <= |data| <= 2
    ensures Decode(Encode(data)) == Some(data)
  {
    if |data| == 1 {
      assert Encode(data) == EncodeOne(data[0]);
      DecodeLastQuad(Encode(data));
      OneRoundTrip(data[0]);
      assert [data[0]] == data;
    } else {
      assert Encode(data) == EncodeTwo(data[0], data[1]);
      DecodeLastQuad(Encode(data));
      TwoRoundTrip(data[0], data[1]);
      assert [data[0], data[1]] == data;
    }
  }

  /** Decoding undoes encoding, for every byte sequence, the empty one and
      binary content included. */
  lemma {:induction false} DecodeEncode(data: seq<byte>)
    ensures Decode(Encode(data)) == Some(data)
  {
    if 1 <= |data| <= 2 {
      DecodeEncodeShort(data);
    } else if |data| >= 3 {
      var head, rest := EncodeTriple(data[0], data[1], data[2]), Encode(data[3..]);
      TripleRoundTrip(data[0], data[1], data[2], rest == []);
      DecodeEncode(data[3..]);
      DecodeFirstQuad(head, rest);
      assert [data[0], data[1], data[2]] + data[3..] == data;
    }
  }

  /** Four characters for every started group of three octets. */
  lemma {:induction false} EncodeLength(data: seq<byte>)
    ensures |Encode(data)| == 4 * ((|data| + 2) / 3)
  {
    if |data| >= 3 {
      EncodeLength(data[3..]);
      var n := |data|;
      assert (n + 2) / 3 == (n - 1) / 3 + 1;
      assert |Encode(data)| == 4 + |Encode(data[3..])|;
    }
  }

  predicate AllOutputChars(s: string)
  {
    forall i :: 0 <= i < |s| ==> IsOutputChar(s[i])
  }

  lemma AllOutputCharsConcat(s: string, t: string)
    requires AllOutputChars(s) && AllOutputChars(t)
    ensures AllOutputChars(s + t)
  {
    assert forall i :: |s| <= i < |s + t| ==> (s + t)[i] == t[i - |s|];
  }

  lemma GroupAlphabet(a: byte, b: byte, c: byte)
    ensures AllOutputChars(EncodeTriple(a, b, c))
    ensures AllOutputChars(EncodeTwo(a, b))
    ensures AllOutputChars(EncodeOne(a))
  {
    var x, y, z := a as int, b as int, c as int;
    DigitRoundTrip(x / 4);
    DigitRoundTrip((x % 4) * 16);
    DigitRoundTrip((x % 4) * 16 + y / 16);
    DigitRoundTrip((y % 16) * 4);
    DigitRoundTrip((y % 16) * 4 + z / 64);
    DigitRoundTrip(z % 64);
  }

  /** A string of output characters holds no line break. */
  lemma NoLineBreaks(s: string)
    requires AllOutputChars(s)
    ensures '\n' !in s && '\r' !in s
  {
  }

  /** The encoding is one unbroken token: nothing but alphabet characters
      and pads, so no line feed or carriage return. */
  lemma {:induction false} EncodeAlphabet(data: seq<byte>)
    ensures AllOutputChars(Encode(data))
    ensures '\n' !in Encode(data) && '\r' !in Encode(data)
  {
    if |data| == 1 {
      GroupAlphabet(data[0], 0, 0);
    } else if |data| == 2 {
      GroupAlphabet(data[0], data[1], 0);
    } else if |data| >= 3 {
      GroupAlphabet(data[0], data[1], data[2]);
      EncodeAlphabet(data[3..]);
      AllOutputCharsConcat(EncodeTriple(data[0], data[1], data[2]), Encode(data[3..]));
    }
    NoLineBreaks(Encode(data));
  }

  /** Two different byte sequences never share an encoding. */
  lemma EncodeInjective(x: seq<byte>, y: seq<byte>)
    requires Encode(x) == Encode(y)
    ensures x == y
  {
    DecodeEncode(x);
    DecodeEncode(y);
  }
}
