/** The byte encodings of binary messages: Base64 for the message body and
  * lower-case hexadecimal for the user data header (`binascii.b2a_base64`,
  * `binascii.a2b_base64`, `binascii.hexlify`, `binascii.unhexlify`). The
  * alphabets and padding follow sections 4 and 8 of RFC 4648. */
module Encoding {

  import opened Wrappers

  newtype byte = b: int | 0 <= b < 256

  // ---------------------------------------------------------------- Base64

  predicate IsBase64Char(c: char)
  {
    ('A' <= c <= 'Z') || ('a' <= c <= 'z') || ('0' <= c <= '9') || c == '+' || c == '/'
  }

  function EncodeSextet(v: int): (c: char)
    requires 0 <= v < 64
    ensures IsBase64Char(c)
  {
    if v < 26 then ('A' as int + v) as char
    else if v < 52 then ('a' as int + (v - 26)) as char
    else if v < 62 then ('0' as int + (v - 52)) as char
    else if v == 62 then '+'
    else '/'
  }

  /** The value of an alphabet character; only those reach it, as the pad
    * is handled by the caller and everything else is skipped before. */
  function DecodeSextet(c: char): (v: int)
    ensures 0 <= v < 64
  {
    if 'A' <= c <= 'Z' then c as int - 'A' as int
    else if 'a' <= c <= 'z' then c as int - 'a' as int + 26
    else if '0' <= c <= '9' then c as int - '0' as int + 52
    else if c == '+' then 62
    else 63
  }

  lemma SextetRoundTrip(v: int)
    requires 0 <= v < 64
    ensures DecodeSextet(EncodeSextet(v)) == v
  {
  }

  // An encoded group: the three bytes' 24 bits cut into four sextets.
  function Split0(b0: byte): int { b0 as int / 4 }
  function Split1(b0: byte, b1: byte): int { (b0 as int % 4) * 16 + b1 as int / 16 }
  function Split2(b1: byte, b2: byte): int { (b1 as int % 16) * 4 + b2 as int / 64 }
  function Split3(b2: byte): int { b2 as int % 64 }

  // A decoded group: the four sextets' 24 bits cut into three bytes.
  function Join0(c0: int, c1: int): byte
    requires 0 <= c0 < 64 && 0 <= c1 < 64
  {
    (c0 * 4 + c1 / 16) as byte
  }

  function Join1(c1: int, c2: int): byte
    requires 0 <= c1 < 64 && 0 <= c2 < 64
  {
    ((c1 % 16) * 16 + c2 / 4) as byte
  }

  function Join2(c2: int, c3: int): byte
    requires 0 <= c2 < 64 && 0 <= c3 < 64
  {
    ((c2 % 4) * 64 + c3) as byte
  }

  lemma JoinSplit(b0: byte, b1: byte, b2: byte)
    ensures 0 <= Split0(b0) < 64 && 0 <= Split1(b0, b1) < 64
    ensures 0 <= Split2(b1, b2) < 64 && 0 <= Split3(b2) < 64
    ensures Join0(Split0(b0), Split1(b0, b1)) == b0
    ensures Join1(Split1(b0, b1), Split2(b1, b2)) == b1
    ensures Join2(Split2(b1, b2), Split3(b2)) == b2
  {
  }

  /** Three bytes as four characters. */
  function EncodeTriple(b0: byte, b1: byte, b2: byte): string
  {
    [EncodeSextet(Split0(b0)), EncodeSextet(Split1(b0, b1)), EncodeSextet(Split2(b1, b2)), EncodeSextet(Split3(b2))]
  }

  /** The last one or two bytes, padded with `=` to four characters. */
  function EncodeTail(b: seq<byte>): (s: string)
    requires |b| < 3
    ensures forall i :: 0 <= i < |s| ==> IsBase64Char(s[i]) || s[i] == '='
  {
    if |b| == 0 then ""
    else if |b| == 1 then [EncodeSextet(Split0(b[0])), EncodeSextet(Split1(b[0], 0)), '=', '=']
    else [EncodeSextet(Split0(b[0])), EncodeSextet(Split1(b[0], b[1])), EncodeSextet(Split2(b[1], 0)), '=']
  }

  /** Base64 of `b` with `=` padding and no line breaks (section 4 of RFC 4648). */
  function Base64(b: seq<byte>): (s: string)
    ensures forall i :: 0 <= i < |s| ==> IsBase64Char(s[i]) || s[i] == '='
    decreases |b|
  {
    if |b| < 3 then EncodeTail(b)
    else EncodeTriple(b[0], b[1], b[2]) + Base64(b[3..])
  }

  /** `binascii.b2a_base64(b)`: the Base64 text followed by a newline. */
  function B2aBase64(b: seq<byte>): (s: string)
    ensures |s| == 4 * ((|b| + 2) / 3) + 1 && s[|s| - 1] == '\n'
    ensures forall i :: 0 <= i < |s| - 1 ==> IsBase64Char(s[i]) || s[i] == '='
  {
    Base64Length(b);
    Base64(b) + "\n"
  }

  /** Four characters for every started group of three bytes. */
  lemma {:induction false} Base64Length(b: seq<byte>)
    ensures |Base64(b)| == 4 * ((|b| + 2) / 3)
    decreases |b|
  {
    if |b| >= 3 {
      Base64Length(b[3..]);
      assert (|b[3..]| + 2) / 3 == (|b| + 2) / 3 - 1;
    }
  }

  predicate IsAscii(s: string)
  {
    forall i :: 0 <= i < |s| ==> s[i] as int < 128
  }

  /** The characters `a2b_base64` looks at: the alphabet and the pad. */
  function Base64Data(s: string): (t: string)
    ensures forall i :: 0 <= i < |t| ==> IsBase64Char(t[i]) || t[i] == '='
    ensures |t| <= |s|
  {
    if |s| == 0 then ""
    else if IsBase64Char(s[0]) || s[0] == '=' then [s[0]] + Base64Data(s[1..])
    else Base64Data(s[1..])
  }

  const INCORRECT_PADDING := "Incorrect padding"
  const NOT_ASCII := "string argument should contain only ASCII characters"

  /** Decodes groups of four characters; a group that ends in padding ends
    * the data. */
  function DecodeGroups(t: string): (r: Result<seq<byte>, string>)
    ensures r.Failure? ==> r.error == INCORRECT_PADDING
    decreases |t|
  {
    if |t| == 0 then Success([])
    else if |t| < 4 || t[0] == '=' || t[1] == '=' then Failure(INCORRECT_PADDING)
    else
      var c0, c1 := DecodeSextet(t[0]), DecodeSextet(t[1]);
      if t[2] == '=' then
        if t[3] == '=' then Success([Join0(c0, c1)]) else Failure(INCORRECT_PADDING)
      else
        var c2 := DecodeSextet(t[2]);
        if t[3] == '=' then Success([Join0(c0, c1), Join1(c1, c2)])
        else
          var c3 := DecodeSextet(t[3]);
          match DecodeGroups(t[4..])
          case Success(rest) => Success([Join0(c0, c1), Join1(c1, c2), Join2(c2, c3)] + rest)
          case Failure(e) => Failure(e)
  }

  /** `binascii.a2b_base64(s)` on a `str`: non-ASCII text is refused, every
    * character outside the alphabet and the pad is skipped (the newline that
    * `b2a_base64` appends among them), and the rest decodes group by group. */
  function A2bBase64(s: string): (r: Result<seq<byte>, string>)
    ensures !IsAscii(s) ==> r == Failure(NOT_ASCII)
    ensures r.Failure? ==> r.error == NOT_ASCII || r.error == INCORRECT_PADDING
    ensures r.Success? ==> 4 * |r.value| <= 3 * |s|
  {
    if !IsAscii(s) then Failure(NOT_ASCII)
    else
      DecodeGroupsLength(Base64Data(s));
      DecodeGroups(Base64Data(s))
  }

  /** Decoding gives at most three bytes for every four characters. */
  lemma {:induction false} DecodeGroupsLength(t: string)
    ensures DecodeGroups(t).Success? ==> 4 * |DecodeGroups(t).value| <= 3 * |t|
    decreases |t|
  {
    if 4 <= |t| && t[0] != '=' && t[1] != '=' && t[2] != '=' && t[3] != '=' {
      DecodeGroupsLength(t[4..]);
    }
  }

  lemma {:induction false} Base64DataKeeps(s: string)
    requires forall i :: 0 <= i < |s| ==> IsBase64Char(s[i]) || s[i] == '='
    ensures Base64Data(s) == s
    decreases |s|
  {
    if |s| > 0 {
      Base64DataKeeps(s[1..]);
      assert s == [s[0]] + s[1..];
    }
  }

  lemma Base64DataDropsNewline(s: string)
    ensures Base64Data(s + "\n") == Base64Data(s)
    decreases |s|
  {
    if |s| == 0 {
    } else {
      assert (s + "\n")[1..] == s[1..] + "\n";
      Base64DataDropsNewline(s[1..]);
    }
  }

  lemma Base64IsAscii(b: seq<byte>)
    ensures IsAscii(Base64(b))
  {
  }

  lemma DecodePaddedPair(c0: int, c1: int)
    requires 0 <= c0 < 64 && 0 <= c1 < 64
    ensures DecodeGroups([EncodeSextet(c0), EncodeSextet(c1), '=', '=']) == Success([Join0(c0, c1)])
  {
    SextetRoundTrip(c0);
    SextetRoundTrip(c1);
  }

  lemma DecodePaddedTriple(c0: int, c1: int, c2: int)
    requires 0 <= c0 < 64 && 0 <= c1 < 64 && 0 <= c2 < 64
    ensures DecodeGroups([EncodeSextet(c0), EncodeSextet(c1), EncodeSextet(c2), '='])
         == Success([Join0(c0, c1), Join1(c1, c2)])
  {
    SextetRoundTrip(c0);
    SextetRoundTrip(c1);
    SextetRoundTrip(c2);
  }

  lemma DecodeQuad(x0: char, x1: char, x2: char, x3: char, rest: string)
    requires IsBase64Char(x0) && IsBase64Char(x1) && IsBase64Char(x2) && IsBase64Char(x3)
    requires DecodeGroups(rest).Success?
    ensures var c0, c1, c2, c3 := DecodeSextet(x0), DecodeSextet(x1), DecodeSextet(x2), DecodeSextet(x3);
      DecodeGroups([x0, x1, x2, x3] + rest)
         == Success([Join0(c0, c1), Join1(c1, c2), Join2(c2, c3)] + DecodeGroups(rest).value)
  {
    var t := [x0, x1, x2, x3] + rest;
    assert t[4..] == rest;
    assert t[0] == x0 && t[1] == x1 && t[2] == x2 && t[3] == x3;
  }

  lemma JoinSplitLast(b0: byte)
    ensures 0 <= Split0(b0) < 64 && 0 <= Split1(b0, 0) < 64
    ensures Join0(Split0(b0), Split1(b0, 0)) == b0
  {
    JoinSplit(b0, 0, 0);
  }

  lemma Base64OneByte(b0: byte)
    ensures EncodeTail([b0]) == [EncodeSextet(Split0(b0)), EncodeSextet(Split1(b0, 0)), '=', '=']
  {
  }

  lemma DecodeOneByte(b0: byte)
    ensures DecodeGroups(EncodeTail([b0])) == Success([b0])
  {
    JoinSplitLast(b0);
    Base64OneByte(b0);
    DecodePaddedPair(Split0(b0), Split1(b0, 0));
  }

  lemma DecodeTwoBytes(b0: byte, b1: byte)
    ensures DecodeGroups(EncodeTail([b0, b1])) == Success([b0, b1])
  {
    JoinSplit(b0, b1, 0);
    DecodePaddedTriple(Split0(b0), Split1(b0, b1), Split2(b1, 0));
  }

  lemma DecodeTriple(b0: byte, b1: byte, b2: byte, rest: string)
    requires DecodeGroups(rest).Success?
    ensures DecodeGroups(EncodeTriple(b0, b1, b2) + rest) == Success([b0, b1, b2] + DecodeGroups(rest).value)
  {
    var c0, c1, c2, c3 := Split0(b0), Split1(b0, b1), Split2(b1, b2), Split3(b2);
    JoinSplit(b0, b1, b2);
    SextetRoundTrip(c0);
    SextetRoundTrip(c1);
    SextetRoundTrip(c2);
    SextetRoundTrip(c3);
    DecodeQuad(EncodeSextet(c0), EncodeSextet(c1), EncodeSextet(c2), EncodeSextet(c3), rest);
  }

  lemma {:induction false} DecodeGroupsOfBase64(b: seq<byte>)
    ensures DecodeGroups(Base64(b)) == Success(b)
    decreases |b|
  {
    if |b| == 0 {
    } else if |b| == 1 {
      assert b == [b[0]];
      DecodeOneByte(b[0]);
    } else if |b| == 2 {
      assert b == [b[0], b[1]];
      DecodeTwoBytes(b[0], b[1]);
    } else {
      var rest := b[3..];
      assert b == [b[0], b[1], b[2]] + rest;
      DecodeGroupsOfBase64(rest);
      DecodeTriple(b[0], b[1], b[2], Base64(rest));
    }
  }

  /** Decoding what `b2a_base64` wrote gives back the bytes. */
  lemma {:induction false} Base64RoundTrip(b: seq<byte>)
    ensures A2bBase64(B2aBase64(b)) == Success(b)
  {
    Base64IsAscii(b);
    assert IsAscii(B2aBase64(b));
    Base64DataDropsNewline(Base64(b));
    Base64DataKeeps(Base64(b));
    DecodeGroupsOfBase64(b);
  }

  // ------------------------------------------------------------------- Hex

  predicate IsLowerHexDigit(c: char)
  {
    ('0' <= c <= '9') || ('a' <= c <= 'f')
  }

  function HexDigit(v: int): (c: char)
    requires 0 <= v < 16
    ensures IsLowerHexDigit(c)
  {
    if v < 10 then ('0' as int + v) as char else ('a' as int + (v - 10)) as char
  }

  /** `binascii.hexlify(b)`: two lower-case hexadecimal digits per byte,
    * high nibble first. */
  function Hexlify(b: seq<byte>): (s: string)
    ensures |s| == 2 * |b|
    ensures forall i :: 0 <= i < |s| ==> IsLowerHexDigit(s[i])
  {
    if |b| == 0 then "" else [HexDigit(b[0] as int / 16), HexDigit(b[0] as int % 16)] + Hexlify(b[1..])
  }

  /** The value of a hexadecimal digit of either case. */
  function HexValue(c: char): Option<int>
  {
    if '0' <= c <= '9' then Some(c as int - '0' as int)
    else if 'a' <= c <= 'f' then Some(c as int - 'a' as int + 10)
    else if 'A' <= c <= 'F' then Some(c as int - 'A' as int + 10)
    else None
  }

  const ODD_LENGTH := "Odd-length string"
  const NON_HEX_DIGIT := "Non-hexadecimal digit found"

  function HexPairs(s: string): Result<seq<byte>, string>
    requires |s| % 2 == 0
  {
    if |s| == 0 then Success([])
    else
      match (HexValue(s[0]), HexValue(s[1]))
      case (Some(hi), Some(lo)) =>
        (match HexPairs(s[2..])
         case Success(rest) => Success([(hi * 16 + lo) as byte] + rest)
         case Failure(e) => Failure(e))
      case _ => Failure(NON_HEX_DIGIT)
  }

  /** `binascii.unhexlify(s)` on a `str`: non-ASCII text, then an odd length,
    * then a character that is no hexadecimal digit, are refused in that order. */
  function Unhexlify(s: string): (r: Result<seq<byte>, string>)
    ensures r.Success? ==> |r.value| * 2 == |s|
  {
    if !IsAscii(s) then Failure(NOT_ASCII)
    else if |s| % 2 == 1 then Failure(ODD_LENGTH)
    else HexPairsLength(s); HexPairs(s)
  }

  lemma {:induction false} HexPairsLength(s: string)
    requires |s| % 2 == 0
    ensures HexPairs(s).Success? ==> |HexPairs(s).value| * 2 == |s|
    decreases |s|
  {
    if |s| > 0 {
      HexPairsLength(s[2..]);
    }
  }

  lemma {:induction false} HexPairsOfHexlify(b: seq<byte>)
    ensures HexPairs(Hexlify(b)) == Success(b)
    decreases |b|
  {
    if |b| > 0 {
      var s := Hexlify(b);
      assert s[2..] == Hexlify(b[1..]);
      HexPairsOfHexlify(b[1..]);
      assert b == [b[0]] + b[1..];
    }
  }

  /** Decoding what `hexlify` wrote gives back the bytes. */
  lemma {:induction false} HexRoundTrip(b: seq<byte>)
    ensures Unhexlify(Hexlify(b)) == Success(b)
  {
    HexPairsOfHexlify(b);
  }
}
