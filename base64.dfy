/** UTF-8 encoding of strings and the base 64 encoding of section 4 of RFC 4648
    (alphabet A-Z a-z 0-9 + /, "=" padding), as used for an HTTP Basic
    credential (section 2 of RFC 7617). */
module Base64 {
  import opened Wrappers

  type Byte = b: int | 0 <= b < 256

  // ---------------------------------------------------------------------------
  // UTF-8 (what Python's str.encode() does by default)
  // ---------------------------------------------------------------------------

  /** The UTF-8 bytes of one Unicode scalar value. */
  function Utf8Char(c: char): (r: seq<Byte>)
    ensures 1 <= |r| <= 4
    ensures c as int < 0x80 ==> r == [c as int]
  {
    var n := c as int;
    if n < 0x80 then [n]
    else if n < 0x800 then [0xC0 + n / 64, 0x80 + n % 64]
    else if n < 0x10000 then [0xE0 + n / 4096, 0x80 + (n / 64) % 64, 0x80 + n % 64]
    else [0xF0 + n / 262144, 0x80 + (n / 4096) % 64, 0x80 + (n / 64) % 64, 0x80 + n % 64]
  }

  /** `s.encode()`. */
  function Utf8(s: string): seq<Byte>
    decreases |s|
  {
    if s == [] then [] else Utf8Char(s[0]) + Utf8(s[1..])
  }

  /** On ASCII text UTF-8 is the identity on code points. */
  lemma {:induction false} Utf8Ascii(s: string)
    requires forall i :: 0 <= i < |s| ==> s[i] as int < 0x80
    ensures |Utf8(s)| == |s|
    ensures forall i :: 0 <= i < |s| ==> Utf8(s)[i] == s[i] as int
  {
    if s != [] {
      Utf8Ascii(s[1..]);
      assert Utf8(s) == [s[0] as int] + Utf8(s[1..]);
    }
  }

  // ---------------------------------------------------------------------------
  // The alphabet of Table 1 of RFC 4648
  // ---------------------------------------------------------------------------

  function AlphabetChar(i: nat): char
    requires i < 64
  {
    if i < 26 then ('A' as int + i) as char
    else if i < 52 then ('a' as int + (i - 26)) as char
    else if i < 62 then ('0' as int + (i - 52)) as char
    else if i == 62 then '+'
    else '/'
  }

  function AlphabetIndex(c: char): (r: Option<nat>)
    ensures r.Some? ==> r.value < 64
  {
    if 'A' <= c <= 'Z' then Some(c as int - 'A' as int)
    else if 'a' <= c <= 'z' then Some(c as int - 'a' as int + 26)
    else if '0' <= c <= '9' then Some(c as int - '0' as int + 52)
    else if c == '+' then Some(62)
    else if c == '/' then Some(63)
    else None
  }

  lemma AlphabetRoundTrip(i: nat)
    requires i < 64
    ensures AlphabetIndex(AlphabetChar(i)) == Some(i)
  {
  }

  // ---------------------------------------------------------------------------
  // Encoding (section 4 of RFC 4648)
  // ---------------------------------------------------------------------------

  /** Three bytes, 24 bits, as four 6-bit digits. */
  function EncodeGroup(a: Byte, b: Byte, c: Byte): string {
    [AlphabetChar(a / 4), AlphabetChar((a % 4) * 16 + b / 16),
     AlphabetChar((b % 16) * 4 + c / 64), AlphabetChar(c % 64)]
  }

  /** Base 64 of a byte string; a final group of one or two bytes is padded
      with "==" or "=". */
  function Encode(b: seq<Byte>): (r: string)
    ensures |b| > 0 ==> |r| >= 4
    decreases |b|
  {
    if |b| == 0 then []
    else if |b| == 1 then [AlphabetChar(b[0] / 4), AlphabetChar((b[0] % 4) * 16), '=', '=']
    else if |b| == 2 then
      [AlphabetChar(b[0] / 4), AlphabetChar((b[0] % 4) * 16 + b[1] / 16),
       AlphabetChar((b[1] % 16) * 4), '=']
    else EncodeGroup(b[0], b[1], b[2]) + Encode(b[3..])
  }

  /** Four digits for every started group of three bytes. */
  lemma {:induction false} EncodeLength(b: seq<Byte>)
    ensures |Encode(b)| == (|b| + 2) / 3 * 4
    decreases |b|
  {
    if |b| > 2 {
      EncodeLength(b[3..]);
      assert (|b| + 2) / 3 == (|b[3..]| + 2) / 3 + 1;
    }
  }

  // ---------------------------------------------------------------------------
  // Decoding, the partner that shows the encoding loses nothing
  // ---------------------------------------------------------------------------

  /** Four digits without padding back to three bytes. */
  function DecodeGroup(s: string): Option<seq<Byte>>
    requires |s| == 4
  {
    match (AlphabetIndex(s[0]), AlphabetIndex(s[1]), AlphabetIndex(s[2]), AlphabetIndex(s[3]))
    case (Some(i0), Some(i1), Some(i2), Some(i3)) =>
      Some([i0 * 4 + i1 / 16, (i1 % 16) * 16 + i2 / 4, (i2 % 4) * 64 + i3])
    case _ => None
  }

  /** The last four digits, which may carry padding. */
  function DecodeFinal(s: string): Option<seq<Byte>>
    requires |s| == 4
  {
    if s[2] == '=' && s[3] == '=' then
      match (AlphabetIndex(s[0]), AlphabetIndex(s[1]))
      case (Some(i0), Some(i1)) => Some([i0 * 4 + i1 / 16])
      case _ => None
    else if s[3] == '=' then
      match (AlphabetIndex(s[0]), AlphabetIndex(s[1]), AlphabetIndex(s[2]))
      case (Some(i0), Some(i1), Some(i2)) => Some([i0 * 4 + i1 / 16, (i1 % 16) * 16 + i2 / 4])
      case _ => None
    else DecodeGroup(s)
  }

  function Decode(s: string): Option<seq<Byte>>
    decreases |s|
  {
    if s == [] then Some([])
    else if |s| < 4 then None
    else if |s| == 4 then DecodeFinal(s)
    else
      match (DecodeGroup(s[..4]), Decode(s[4..]))
      case (Some(g), Some(rest)) => Some(g + rest)
      case _ => None
  }

  lemma GroupRoundTrip(a: Byte, b: Byte, c: Byte)
    ensures DecodeGroup(EncodeGroup(a, b, c)) == Some([a, b, c])
  {
    var i0, i1, i2, i3 := a / 4, (a % 4) * 16 + b / 16, (b % 16) * 4 + c / 64, c % 64;
    AlphabetRoundTrip(i0);
    AlphabetRoundTrip(i1);
    AlphabetRoundTrip(i2);
    AlphabetRoundTrip(i3);
    assert i1 / 16 == a % 4 && i1 % 16 == b / 16;
    assert i2 / 4 == b % 16 && i2 % 4 == c / 64;
  }

  lemma OneByteRoundTrip(a: Byte)
    ensures Decode(Encode([a])) == Some([a])
  {
    AlphabetRoundTrip(a / 4);
    AlphabetRoundTrip((a % 4) * 16);
    var s := Encode([a]);
    assert s[2] == '=' && s[3] == '=';
    assert (a / 4) * 4 + ((a % 4) * 16) / 16 == a;
  }

  lemma TwoByteRoundTrip(a: Byte, b: Byte)
    ensures Decode(Encode([a, b])) == Some([a, b])
  {
    var i1 := (a % 4) * 16 + b / 16;
    var i2 := (b % 16) * 4;
    AlphabetRoundTrip(a / 4);
    AlphabetRoundTrip(i1);
    AlphabetRoundTrip(i2);
    var s := Encode([a, b]);
    assert s == [AlphabetChar(a / 4), AlphabetChar(i1), AlphabetChar(i2), '='];
    assert s[2] != '=';
    assert i1 / 16 == a % 4 && i1 % 16 == b / 16 && i2 / 4 == b % 16;
    assert (a / 4) * 4 + i1 / 16 == a;
    assert (i1 % 16) * 16 + i2 / 4 == b;
  }

  /** A full group followed by more digits decodes group by group. */
  lemma DecodeCons(g: string, rest: string, x: seq<Byte>, y: seq<Byte>)
    requires |g| == 4 && |rest| >= 4
    requires DecodeGroup(g) == Some(x) && Decode(rest) == Some(y)
    ensures Decode(g + rest) == Some(x + y)
  {
    var s := g + rest;
    assert s[..4] == g && s[4..] == rest;
  }

  lemma ThreeByteRoundTrip(a: Byte, b: Byte, c: Byte)
    ensures Decode(Encode([a, b, c])) == Some([a, b, c])
  {
    GroupRoundTrip(a, b, c);
    var s := Encode([a, b, c]);
    assert [a, b, c][3..] == [];
    assert Encode([a, b, c][3..]) == [];
    assert s == EncodeGroup(a, b, c) + [];
    assert s[2] != '=' && s[3] != '=';
  }

  /** The round trip of one to three bytes, through the fixed-size lemmas. */
  lemma RoundTrip1(b: seq<Byte>)
    requires |b| == 1
    ensures Decode(Encode(b)) == Some(b)
  {
    var x := b[0];
    assert b == [x];
    OneByteRoundTrip(x);
  }

  lemma RoundTrip2(b: seq<Byte>)
    requires |b| == 2
    ensures Decode(Encode(b)) == Some(b)
  {
    var x, y := b[0], b[1];
    assert b == [x, y];
    TwoByteRoundTrip(x, y);
  }

  lemma RoundTrip3(b: seq<Byte>)
    requires |b| == 3
    ensures Decode(Encode(b)) == Some(b)
  {
    var x, y, z := b[0], b[1], b[2];
    assert b == [x, y, z];
    ThreeByteRoundTrip(x, y, z);
    assert Decode(Encode([x, y, z])) == Some([x, y, z]);
  }

  /** Decoding undoes encoding, for every byte string. */
  lemma {:induction false} RoundTrip(b: seq<Byte>)
    ensures Decode(Encode(b)) == Some(b)
    decreases |b|
  {
    if |b| == 1 {
      RoundTrip1(b);
    } else if |b| == 2 {
      RoundTrip2(b);
    } else if |b| == 3 {
      RoundTrip3(b);
    } else if |b| > 3 {
      var g, rest := EncodeGroup(b[0], b[1], b[2]), Encode(b[3..]);
      EncodeCons(b);
      GroupRoundTrip(b[0], b[1], b[2]);
      RoundTrip(b[3..]);
      DecodeCons(g, rest, [b[0], b[1], b[2]], b[3..]);
      assert b == [b[0], b[1], b[2]] + b[3..];
    }
  }

  lemma EncodeCons(b: seq<Byte>)
    requires |b| > 3
    ensures Encode(b) == EncodeGroup(b[0], b[1], b[2]) + Encode(b[3..])
    ensures |EncodeGroup(b[0], b[1], b[2])| == 4 && |Encode(b[3..])| >= 4
  {
  }
}
