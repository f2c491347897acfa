/** `btoa` and `atob` over binary strings: Base64 as in section 4 of
    RFC 4648 (alphabet A-Z a-z 0-9 + /, `=` padding) for encoding, and the
    forgiving-base64 decode of the HTML standard (ASCII whitespace ignored,
    padding optional, leftover bits discarded) for decoding. */
module Base64 {
  import opened Common

  type Byte = x: int | 0 <= x < 256
  type Sextet = x: int | 0 <= x < 64

  /** The character of the Base64 alphabet for a 6-bit value. */
  function EncodeSextet(v: Sextet): char
  {
    if v < 26 then ('A' as int + v) as char
    else if v < 52 then ('a' as int + (v - 26)) as char
    else if v < 62 then ('0' as int + (v - 52)) as char
    else if v == 62 then '+'
    else '/'
  }

  /** Membership in the Base64 alphabet. */
  predicate IsAlphabet(c: char)
  {
    ('A' <= c <= 'Z') || ('a' <= c <= 'z') || ('0' <= c <= '9') || c == '+' || c == '/'
  }

  /** The 6-bit value of an alphabet character. */
  function DecodeSextet(c: char): Sextet
    requires IsAlphabet(c)
  {
    if 'A' <= c <= 'Z' then c as int - 'A' as int
    else if 'a' <= c <= 'z' then c as int - 'a' as int + 26
    else if '0' <= c <= '9' then c as int - '0' as int + 52
    else if c == '+' then 62
    else 63
  }

  /** The alphabet maps 6-bit values one to one onto characters. */
  lemma SextetRoundTrip(v: Sextet)
    ensures IsAlphabet(EncodeSextet(v)) && DecodeSextet(EncodeSextet(v)) == v
  {
  }

  /** Three bytes cut into four 6-bit groups, most significant bits first. */
  function Quad(b0: Byte, b1: Byte, b2: Byte): (q: seq<Sextet>)
    ensures |q| == 4
  {
    [b0 / 4, (b0 % 4) * 16 + b1 / 16, (b1 % 16) * 4 + b2 / 64, b2 % 64]
  }

  /** Four 6-bit groups put back together into three bytes. */
  function Triple(s0: Sextet, s1: Sextet, s2: Sextet, s3: Sextet): (t: seq<Byte>)
    ensures |t| == 3
  {
    var x0: Byte := s0 * 4 + s1 / 16;
    var x1: Byte := (s1 % 16) * 16 + s2 / 4;
    var x2: Byte := (s2 % 4) * 64 + s3;
    [x0, x1, x2]
  }

  /** The bytes cut into 6-bit groups, three bytes to four groups; a final
      one or two bytes give two or three groups, zero-filled. */
  function ToSextets(b: seq<Byte>): (v: seq<Sextet>)
    ensures |v| == (|b| / 3) * 4 + (if |b| % 3 == 0 then 0 else |b| % 3 + 1)
  {
    if |b| == 0 then []
    else if |b| == 1 then Quad(b[0], 0, 0)[..2]
    else if |b| == 2 then Quad(b[0], b[1], 0)[..3]
    else Quad(b[0], b[1], b[2]) + ToSextets(b[3..])
  }

  /** The 6-bit groups put back together into bytes; a final two or three
      groups give one or two bytes, the leftover bits discarded. */
  function FromSextets(v: seq<Sextet>): seq<Byte>
    requires |v| % 4 != 1
  {
    if |v| == 0 then []
    else if |v| == 2 then Triple(v[0], v[1], 0, 0)[..1]
    else if |v| == 3 then Triple(v[0], v[1], v[2], 0)[..2]
    else Triple(v[0], v[1], v[2], v[3]) + FromSextets(v[4..])
  }

  /** A number split by a divisor and put back together is unchanged. */
  lemma SplitJoin(x: int, lo: int)
    requires 0 <= x && 0 < lo
    ensures (x / lo) * lo + x % lo == x
  {
  }

  /** The first byte comes back from the first two groups alone. */
  lemma FirstByte(b0: Byte, b1: Byte, b2: Byte, s2: Sextet, s3: Sextet)
    ensures Triple(Quad(b0, b1, b2)[0], Quad(b0, b1, b2)[1], s2, s3)[0] == b0
  {
    var q1 := (b0 % 4) * 16 + b1 / 16;
    assert q1 / 16 == b0 % 4;
    SplitJoin(b0, 4);
  }

  /** The second byte comes back from the first three groups alone. */
  lemma SecondByte(b0: Byte, b1: Byte, b2: Byte, s3: Sextet)
    ensures Triple(Quad(b0, b1, b2)[0], Quad(b0, b1, b2)[1], Quad(b0, b1, b2)[2], s3)[1] == b1
  {
    var q1 := (b0 % 4) * 16 + b1 / 16;
    var q2 := (b1 % 16) * 4 + b2 / 64;
    assert q1 % 16 == b1 / 16;
    assert q2 / 4 == b1 % 16;
    SplitJoin(b1, 16);
  }

  /** The third byte comes back from the last two groups. */
  lemma ThirdByte(b0: Byte, b1: Byte, b2: Byte)
    ensures Triple(Quad(b0, b1, b2)[0], Quad(b0, b1, b2)[1], Quad(b0, b1, b2)[2], Quad(b0, b1, b2)[3])[2] == b2
  {
    var q2 := (b1 % 16) * 4 + b2 / 64;
    assert q2 % 4 == b2 / 64;
    SplitJoin(b2, 64);
  }

  /** Three bytes survive the trip through four 6-bit groups; the first
      byte does not depend on the last two groups, nor the second on the
      last one. */
  lemma QuadTriple(b0: Byte, b1: Byte, b2: Byte)
    ensures Triple(Quad(b0, b1, b2)[0], Quad(b0, b1, b2)[1], Quad(b0, b1, b2)[2], Quad(b0, b1, b2)[3]) == [b0, b1, b2]
    ensures forall s2: Sextet, s3: Sextet :: Triple(Quad(b0, b1, b2)[0], Quad(b0, b1, b2)[1], s2, s3)[0] == b0
    ensures forall s3: Sextet :: Triple(Quad(b0, b1, b2)[0], Quad(b0, b1, b2)[1], Quad(b0, b1, b2)[2], s3)[1] == b1
  {
    var q := Quad(b0, b1, b2);
    FirstByte(b0, b1, b2, q[2], q[3]);
    SecondByte(b0, b1, b2, q[3]);
    ThirdByte(b0, b1, b2);
    forall s2: Sextet, s3: Sextet ensures Triple(q[0], q[1], s2, s3)[0] == b0 {
      FirstByte(b0, b1, b2, s2, s3);
    }
    forall s3: Sextet ensures Triple(q[0], q[1], q[2], s3)[1] == b1 {
      SecondByte(b0, b1, b2, s3);
    }
  }

  /** One byte survives the trip through two groups. */
  lemma RoundTripOne(b: seq<Byte>)
    requires |b| == 1
    ensures |ToSextets(b)| == 2 && FromSextets(ToSextets(b)) == b
  {
    var q := Quad(b[0], 0, 0);
    FirstByte(b[0], 0, 0, 0, 0);
    assert ToSextets(b) == q[..2];
    assert FromSextets(q[..2]) == Triple(q[0], q[1], 0, 0)[..1];
  }

  /** Two bytes survive the trip through three groups. */
  lemma RoundTripTwo(b: seq<Byte>)
    requires |b| == 2
    ensures |ToSextets(b)| == 3 && FromSextets(ToSextets(b)) == b
  {
    var q := Quad(b[0], b[1], 0);
    FirstByte(b[0], b[1], 0, q[2], 0);
    SecondByte(b[0], b[1], 0, 0);
    assert ToSextets(b) == q[..3];
    assert FromSextets(q[..3]) == Triple(q[0], q[1], q[2], 0)[..2];
  }

  /** Three leading bytes survive the trip when the rest does. */
  lemma RoundTripStep(b: seq<Byte>)
    requires |b| >= 3
    requires |ToSextets(b[3..])| % 4 != 1 && FromSextets(ToSextets(b[3..])) == b[3..]
    ensures |ToSextets(b)| % 4 != 1 && FromSextets(ToSextets(b)) == b
  {
    var q := Quad(b[0], b[1], b[2]);
    QuadTriple(b[0], b[1], b[2]);
    var rest := ToSextets(b[3..]);
    var v := ToSextets(b);
    assert v == q + rest;
    AddFour(|rest|);
    assert |v| % 4 != 1;
    assert v[..4] == q && v[4..] == rest;
    assert FromSextets(v) == Triple(q[0], q[1], q[2], q[3]) + FromSextets(rest);
    assert b == [b[0], b[1], b[2]] + b[3..];
  }

  lemma AddFour(x: nat)
    ensures (x + 4) % 4 == x % 4
  {
  }

  /** Regrouping undoes the cut into 6-bit groups. */
  lemma {:induction false} SextetsRoundTrip(b: seq<Byte>)
    ensures |ToSextets(b)| % 4 != 1
    ensures FromSextets(ToSextets(b)) == b
  {
    if |b| == 1 {
      RoundTripOne(b);
    } else if |b| == 2 {
      RoundTripTwo(b);
    } else if |b| >= 3 {
      SextetsRoundTrip(b[3..]);
      RoundTripStep(b);
    }
  }

  /** Each 6-bit group written as its alphabet character. */
  function EncodeChars(v: seq<Sextet>): (s: string)
    ensures |s| == |v|
    ensures forall i :: 0 <= i < |s| ==> s[i] == EncodeSextet(v[i])
  {
    if v == [] then "" else [EncodeSextet(v[0])] + EncodeChars(v[1..])
  }

  /** Each alphabet character read as its 6-bit group. */
  function DecodeChars(s: string): (v: seq<Sextet>)
    requires forall i :: 0 <= i < |s| ==> IsAlphabet(s[i])
    ensures |v| == |s|
    ensures forall i :: 0 <= i < |s| ==> v[i] == DecodeSextet(s[i])
  {
    if s == "" then [] else [DecodeSextet(s[0])] + DecodeChars(s[1..])
  }

  /** The `=` characters that pad an encoding of `n` bytes to a multiple of
      four characters. */
  function Padding(n: nat): string
  {
    if n % 3 == 1 then "==" else if n % 3 == 2 then "=" else ""
  }

  /** `btoa`: section 4 of RFC 4648 over a binary string given as bytes. */
  function Btoa(b: seq<Byte>): string
  {
    EncodeChars(ToSextets(b)) + Padding(|b|)
  }

  /** The ASCII whitespace the forgiving decoder ignores. */
  predicate IsAsciiWhitespace(c: char)
  {
    c == '\t' || c == '\n' || c == '\U{000C}' || c == '\r' || c == ' '
  }

  /** The input with its ASCII whitespace removed. */
  function RemoveAsciiWhitespace(s: string): string
  {
    if s == "" then ""
    else if IsAsciiWhitespace(s[0]) then RemoveAsciiWhitespace(s[1..])
    else [s[0]] + RemoveAsciiWhitespace(s[1..])
  }

  /** One or two final `=` dropped, when the length is a multiple of four. */
  function StripPadding(s: string): string
  {
    if |s| % 4 != 0 then s
    else if |s| >= 2 && s[|s| - 2] == '=' && s[|s| - 1] == '=' then s[..|s| - 2]
    else if |s| >= 1 && s[|s| - 1] == '=' then s[..|s| - 1]
    else s
  }

  /** `atob`: the forgiving-base64 decode; `None` is the exception `atob`
      throws on input it cannot decode. */
  function Atob(s: string): Option<seq<Byte>>
  {
    var d := StripPadding(RemoveAsciiWhitespace(s));
    if |d| % 4 == 1 then None
    else if exists i :: 0 <= i < |d| && !IsAlphabet(d[i]) then None
    else Some(FromSextets(DecodeChars(d)))
  }

  /** A string without ASCII whitespace is left as it is. */
  lemma {:induction false} RemoveAsciiWhitespaceNoOp(s: string)
    requires forall i :: 0 <= i < |s| ==> !IsAsciiWhitespace(s[i])
    ensures RemoveAsciiWhitespace(s) == s
  {
    if s != "" {
      RemoveAsciiWhitespaceNoOp(s[1..]);
    }
  }

  /** `btoa` pads its output to a whole number of four-character groups. */
  lemma BtoaLength(b: seq<Byte>)
    ensures |Btoa(b)| == |ToSextets(b)| + |Padding(|b|)|
    ensures |Btoa(b)| % 4 == 0
  {
    var n, r := |b| / 3, |b| % 3;
    assert |ToSextets(b)| == n * 4 + (if r == 0 then 0 else r + 1);
    assert |Btoa(b)| == |ToSextets(b)| + |Padding(|b|)|;
    var m := if r == 0 then n else n + 1;
    assert |Btoa(b)| == 4 * m;
    MultipleOfFour(|Btoa(b)|, m);
  }

  lemma MultipleOfFour(x: int, m: int)
    requires x == 4 * m
    ensures x % 4 == 0
  {
  }

  /** Stripping removes exactly the `=` padding of a padded group of
      alphabet characters. */
  lemma StripPaddingAppend(body: string, pad: string)
    requires forall i :: 0 <= i < |body| ==> IsAlphabet(body[i])
    requires pad == "" || pad == "=" || pad == "=="
    requires (|body| + |pad|) % 4 == 0
    ensures StripPadding(body + pad) == body
  {
    var s := body + pad;
    if pad == "==" {
      assert s[..|s| - 2] == body;
    } else if pad == "=" {
      assert s[|s| - 2] == body[|body| - 1];
      assert s[..|s| - 1] == body;
    } else {
      assert s == body;
      if |s| >= 1 {
        assert IsAlphabet(s[|s| - 1]);
      }
    }
  }

  /** The padding `btoa` adds is exactly what the decoder strips. */
  lemma StripPaddingOfBtoa(b: seq<Byte>)
    ensures StripPadding(Btoa(b)) == EncodeChars(ToSextets(b))
  {
    var body, pad := EncodeChars(ToSextets(b)), Padding(|b|);
    BtoaLength(b);
    assert Btoa(b) == body + pad;
    assert (|body| + |pad|) % 4 == 0;
    assert pad == "" || pad == "=" || pad == "==";
    DecodeCharsOfEncode(ToSextets(b));
    StripPaddingAppend(body, pad);
  }

  /** `btoa` writes no ASCII whitespace. */
  lemma BtoaNoWhitespace(b: seq<Byte>)
    ensures RemoveAsciiWhitespace(Btoa(b)) == Btoa(b)
  {
    var body := EncodeChars(ToSextets(b));
    var s := Btoa(b);
    DecodeCharsOfEncode(ToSextets(b));
    forall i | 0 <= i < |s| ensures !IsAsciiWhitespace(s[i]) {
      if i < |body| {
        assert s[i] == body[i];
      }
    }
    RemoveAsciiWhitespaceNoOp(s);
  }

  /** Decoding inverts encoding: `atob(btoa(b)) == b` for every byte string. */
  lemma BtoaAtobRoundTrip(b: seq<Byte>)
    ensures Atob(Btoa(b)) == Some(b)
  {
    var v := ToSextets(b);
    BtoaNoWhitespace(b);
    StripPaddingOfBtoa(b);
    DecodeCharsOfEncode(v);
    SextetsRoundTrip(b);
  }

  /** Reading the characters back gives the 6-bit groups. */
  lemma DecodeCharsOfEncode(v: seq<Sextet>)
    ensures forall i :: 0 <= i < |v| ==> IsAlphabet(EncodeChars(v)[i])
    ensures DecodeChars(EncodeChars(v)) == v
  {
    var s := EncodeChars(v);
    forall i | 0 <= i < |v| ensures IsAlphabet(s[i]) && DecodeSextet(s[i]) == v[i] {
      SextetRoundTrip(v[i]);
    }
  }

  /** Whether every character is a Latin-1 code point, as `btoa` demands. */
  predicate IsLatin1(s: string)
  {
    forall i :: 0 <= i < |s| ==> s[i] as int < 256
  }

  /** A Latin-1 string read as bytes, one per character. */
  function Latin1Bytes(s: string): (b: seq<Byte>)
    requires IsLatin1(s)
    ensures |b| == |s| && forall i :: 0 <= i < |s| ==> b[i] == s[i] as int
  {
    if s == "" then [] else [s[0] as int] + Latin1Bytes(s[1..])
  }

  /** A binary string: one character per byte, as `atob` returns it. */
  function BinaryString(b: seq<Byte>): (s: string)
    ensures |s| == |b| && forall i :: 0 <= i < |b| ==> s[i] as int == b[i]
  {
    if b == [] then "" else [b[0] as char] + BinaryString(b[1..])
  }

  /** Bytes of a Latin-1 string read back give the string. */
  lemma Latin1RoundTrip(s: string)
    requires IsLatin1(s)
    ensures BinaryString(Latin1Bytes(s)) == s
  {
    var r := BinaryString(Latin1Bytes(s));
    assert forall i :: 0 <= i < |s| ==> r[i] == s[i];
  }
}
