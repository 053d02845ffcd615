/** URL-safe base64 as Python's `base64` module computes it; section 5 of RFC 4648. */
module Base64 {
  import opened Common

  type Byte = n: int | 0 <= n < 256 witness 0

  /** Table 2 of section 5 of RFC 4648. */
  function Digit(value: int): char
    requires 0 <= value < 64
  {
    if value < 26 then ('A' as int + value) as char
    else if value < 52 then ('a' as int + value - 26) as char
    else if value < 62 then ('0' as int + value - 52) as char
    else if value == 62 then '-' else '_'
  }

  /** The value of a digit; `+` and `/` of the plain alphabet are read too. */
  function Value(c: char): (v: Option<int>)
    ensures v.Some? ==> 0 <= v.value < 64
  {
    if 'A' <= c <= 'Z' then Some(c as int - 'A' as int)
    else if 'a' <= c <= 'z' then Some(c as int - 'a' as int + 26)
    else if '0' <= c <= '9' then Some(c as int - '0' as int + 52)
    else if c == '-' || c == '+' then Some(62)
    else if c == '_' || c == '/' then Some(63)
    else None
  }

  function Quad(a: Byte, b: Byte, c: Byte): (digits: string)
    ensures |digits| == 4
  {
    [Digit(a / 4), Digit(a % 4 * 16 + b / 16), Digit(b % 16 * 4 + c / 64), Digit(c % 64)]
  }

  /** `urlsafe_b64encode`. */
  function Encode(bytes: seq<Byte>): string {
    if |bytes| == 0 then ""
    else if |bytes| == 1 then Quad(bytes[0], 0, 0)[..2] + "=="
    else if |bytes| == 2 then Quad(bytes[0], bytes[1], 0)[..3] + "="
    else Quad(bytes[0], bytes[1], bytes[2]) + Encode(bytes[3..])
  }

  /** The three bytes four digits stand for. */
  function Triple(s: string): Option<seq<Byte>>
    requires |s| == 4
  {
    var a, b, c, d := Value(s[0]), Value(s[1]), Value(s[2]), Value(s[3]);
    if a.None? || b.None? || c.None? || d.None? then None
    else Some([a.value * 4 + b.value / 16, b.value % 16 * 16 + c.value / 4, c.value % 4 * 64 + d.value])
  }

  /** `b64decode` with validation: only digits, whole groups, and padding only at the end of the last group. */
  function Decode(s: string): Option<seq<Byte>> {
    if s == "" then Some([])
    else if |s| < 4 then None
    else if |s| == 4 && s[3] == '=' then
      var last := Triple(s[..if s[2] == '=' then 2 else 3] + if s[2] == '=' then "AA" else "A");
      if last.None? then None else Some(last.value[..if s[2] == '=' then 1 else 2])
    else
      var first, rest := Triple(s[..4]), Decode(s[4..]);
      if first.None? || rest.None? then None else Some(first.value + rest.value)
  }

  function Repeat(c: char, n: nat): string {
    seq(n, _ => c)
  }

  /** `s.rstrip("=")`. */
  function StripPadding(s: string): string {
    if s != "" && s[|s| - 1] == '=' then StripPadding(s[..|s| - 1]) else s
  }

  /** `s + "=" * (-len(s) % 4)`. */
  function Pad(s: string): string {
    s + Repeat('=', (-|s|) % 4)
  }

  /** The two spellings of the digits 62 and 63. */
  function UrlSafe(s: string): (r: string)
    ensures |r| == |s|
  {
    seq(|s|, i requires 0 <= i < |s| => if s[i] == '+' then '-' else if s[i] == '/' then '_' else s[i])
  }

  lemma EitherSpelling(s: string)
    requires |s| == 4
    ensures Triple(UrlSafe(s)) == Triple(s)
  {
    assert forall i | 0 <= i < 4 :: Value(UrlSafe(s)[i]) == Value(s[i]);
  }

  /** Decoding takes `+` for `-` and `/` for `_`. */
  lemma {:induction false} BothSpellingsDecode(s: string)
    ensures Decode(UrlSafe(s)) == Decode(s)
  {
    hide Triple;
    if |s| == 4 && s[3] == '=' {
      var last := s[..if s[2] == '=' then 2 else 3] + if s[2] == '=' then "AA" else "A";
      EitherSpelling(last);
      assert UrlSafe(last) == UrlSafe(s)[..if s[2] == '=' then 2 else 3] + if s[2] == '=' then "AA" else "A";
    } else if |s| >= 4 {
      EitherSpelling(s[..4]);
      BothSpellingsDecode(s[4..]);
      assert UrlSafe(s)[..4] == UrlSafe(s[..4]) && UrlSafe(s)[4..] == UrlSafe(s[4..]);
    }
  }

  lemma DigitValue(v: int)
    requires 0 <= v < 64
    ensures Value(Digit(v)) == Some(v) && Digit(v) != '='
  {
  }

  lemma Sextets(a: Byte, b: Byte, c: Byte)
    ensures a / 4 * 4 + (a % 4 * 16 + b / 16) / 16 == a
    ensures (a % 4 * 16 + b / 16) % 16 * 16 + (b % 16 * 4 + c / 64) / 4 == b
    ensures (b % 16 * 4 + c / 64) % 4 * 64 + c % 64 == c
  {
  }

  lemma QuadIsTriple(a: Byte, b: Byte, c: Byte)
    ensures Triple(Quad(a, b, c)) == Some([a, b, c])
    ensures '=' !in Quad(a, b, c)
  {
    hide Digit, Value;
    Sextets(a, b, c);
    DigitValue(a / 4);
    DigitValue(a % 4 * 16 + b / 16);
    DigitValue(b % 16 * 4 + c / 64);
    DigitValue(c % 64);
  }

  lemma ZeroDigits(a: Byte, b: Byte)
    ensures Quad(a, 0, 0) == Quad(a, 0, 0)[..2] + "AA" && Quad(a, b, 0) == Quad(a, b, 0)[..3] + "A"
  {
  }

  lemma DecodeStep(first: string, rest: string)
    requires |first| == 4 && (rest != "" || first[3] != '=') && Triple(first).Some? && Decode(rest).Some?
    ensures Decode(first + rest) == Some(Triple(first).value + Decode(rest).value)
  {
    hide Triple, Value;
    assert (first + rest)[..4] == first && (first + rest)[4..] == rest;
  }

  lemma DecodeOne(a: Byte)
    ensures Decode(Quad(a, 0, 0)[..2] + "==") == Some([a])
  {
    hide Digit, Value, Triple, Quad;
    var s := Quad(a, 0, 0)[..2] + "==";
    QuadIsTriple(a, 0, 0);
    ZeroDigits(a, 0);
    assert |s| == 4 && s[3] == '=' && s[2] == '=' && s[..2] == Quad(a, 0, 0)[..2];
    assert Decode(s) == Some([a, 0, 0][..1]) && [a, 0, 0][..1] == [a];
  }

  lemma DecodeTwo(a: Byte, b: Byte)
    ensures Decode(Quad(a, b, 0)[..3] + "=") == Some([a, b])
  {
    hide Digit, Value, Triple, Quad;
    var s := Quad(a, b, 0)[..3] + "=";
    QuadIsTriple(a, b, 0);
    ZeroDigits(a, b);
    assert |s| == 4 && s[3] == '=' && s[2] == Quad(a, b, 0)[2] && s[..3] == Quad(a, b, 0)[..3];
    assert Decode(s) == Some([a, b, 0][..2]) && [a, b, 0][..2] == [a, b];
  }

  /** Decoding undoes encoding. */
  lemma {:induction false} DecodeEncoded(bytes: seq<Byte>)
    ensures Decode(Encode(bytes)) == Some(bytes)
  {
    hide Digit, Value, Triple, Quad, Decode;
    if |bytes| == 0 {
      NothingDecodes();
    } else if |bytes| == 1 {
      DecodeOne(bytes[0]);
      assert bytes == [bytes[0]];
    } else if |bytes| == 2 {
      DecodeTwo(bytes[0], bytes[1]);
      assert bytes == [bytes[0], bytes[1]];
    } else {
      QuadIsTriple(bytes[0], bytes[1], bytes[2]);
      DecodeEncoded(bytes[3..]);
      hide Encode;
      EncodeStep(bytes);
      DecodeStep(Quad(bytes[0], bytes[1], bytes[2]), Encode(bytes[3..]));
      assert bytes == [bytes[0], bytes[1], bytes[2]] + bytes[3..];
    }
  }

  lemma EncodeStep(bytes: seq<Byte>)
    requires |bytes| >= 3
    ensures |Quad(bytes[0], bytes[1], bytes[2])| == 4
    ensures Encode(bytes) == Quad(bytes[0], bytes[1], bytes[2]) + Encode(bytes[3..])
  {
  }

  lemma PadAfterGroup(first: string, rest: string)
    requires |first| == 4
    ensures Pad(first + rest) == first + Pad(rest)
  {
    assert (-|first + rest|) % 4 == (-|rest|) % 4;
  }

  /** Encoded text is digits and then just enough padding to fill the last group. */
  lemma {:induction false} EncodedShape(bytes: seq<Byte>) returns (digits: string)
    ensures Encode(bytes) == Pad(digits) && '=' !in digits && |digits| <= 4 * ((|bytes| + 2) / 3)
  {
    hide Digit, Quad;
    if |bytes| == 0 {
      digits := "";
    } else if |bytes| == 1 {
      QuadIsTriple(bytes[0], 0, 0);
      digits := Quad(bytes[0], 0, 0)[..2];
      assert Repeat('=', 2) == "==";
    } else if |bytes| == 2 {
      QuadIsTriple(bytes[0], bytes[1], 0);
      digits := Quad(bytes[0], bytes[1], 0)[..3];
      assert Repeat('=', 1) == "=";
    } else {
      QuadIsTriple(bytes[0], bytes[1], bytes[2]);
      hide Encode, Pad;
      EncodeStep(bytes);
      var rest := EncodedShape(bytes[3..]);
      digits := Quad(bytes[0], bytes[1], bytes[2]) + rest;
      PadAfterGroup(Quad(bytes[0], bytes[1], bytes[2]), rest);
    }
  }

  lemma {:induction false} StripsPadding(digits: string, n: nat)
    requires '=' !in digits
    ensures StripPadding(digits + Repeat('=', n)) == digits
  {
    if n == 0 {
      assert digits + Repeat('=', 0) == digits;
    } else {
      var s := digits + Repeat('=', n);
      assert s[..|s| - 1] == digits + Repeat('=', n - 1);
      StripsPadding(digits, n - 1);
    }
  }

  /** Dropping the padding loses nothing: padding again and decoding gives the bytes back. */
  lemma UnpaddedRoundTrip(bytes: seq<Byte>)
    ensures Decode(Pad(StripPadding(Encode(bytes)))) == Some(bytes)
    ensures |StripPadding(Encode(bytes))| <= 4 * ((|bytes| + 2) / 3)
    ensures bytes != [] ==> StripPadding(Encode(bytes)) != ""
  {
    hide Decode, Encode, StripPadding;
    var digits := EncodedShape(bytes);
    StripsPadding(digits, (-|digits|) % 4);
    DecodeEncoded(bytes);
    NothingDecodes();
  }

  lemma NothingDecodes()
    ensures Decode("") == Some([]) && Pad("") == ""
  {
  }
}
