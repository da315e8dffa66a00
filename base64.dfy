/**
 * Base64 with the standard alphabet and '=' padding (section 4 of RFC 4648),
 * as Python's `base64.b64encode` produces it. The signature header carries the
 * signing primitive's bytes in this form; the decoder shows nothing is lost.
 */
module Base64 {
  import opened Wrappers
  import Utf8

  type byte = Utf8.byte

  type sextet = x: int | 0 <= x < 64

  /** The alphabet of section 4 of RFC 4648: A-Z, a-z, 0-9, '+', '/'. */
  function Char(v: sextet): (c: char)
    ensures c != '='
  {
    if v < 26 then ('A' as int + v) as char
    else if v < 52 then ('a' as int + (v - 26)) as char
    else if v < 62 then ('0' as int + (v - 52)) as char
    else if v == 62 then '+'
    else '/'
  }

  /** The value of an alphabet character, `None` for any other character (the pad included). */
  function Value(c: char): (r: Option<sextet>)
  {
    if 'A' <= c <= 'Z' then Some(c as int - 'A' as int)
    else if 'a' <= c <= 'z' then Some(c as int - 'a' as int + 26)
    else if '0' <= c <= '9' then Some(c as int - '0' as int + 52)
    else if c == '+' then Some(62)
    else if c == '/' then Some(63)
    else None
  }

  lemma ValueChar(v: sextet)
    ensures Value(Char(v)) == Some(v)
  {
  }

  // The four sextets of a group of three bytes x0 x1 x2, high bits first.
  function S0(x0: byte): sextet { x0 / 4 }
  function S1(x0: byte, x1: byte): sextet { (x0 % 4) * 16 + x1 / 16 }
  function S2(x1: byte, x2: byte): sextet { (x1 % 16) * 4 + x2 / 64 }
  function S3(x2: byte): sextet { x2 % 64 }

  // The three bytes of a group of four sextets v0 v1 v2 v3.
  function B0(v0: sextet, v1: sextet): byte { v0 * 4 + v1 / 16 }
  function B1(v1: sextet, v2: sextet): byte { (v1 % 16) * 16 + v2 / 4 }
  function B2(v2: sextet, v3: sextet): byte { (v2 % 4) * 64 + v3 }

  /** Packing three bytes into sextets and unpacking them again is the identity. */
  lemma UnpackGroup(x0: byte, x1: byte, x2: byte)
    ensures B0(S0(x0), S1(x0, x1)) == x0
    ensures B1(S1(x0, x1), S2(x1, x2)) == x1
    ensures B2(S2(x1, x2), S3(x2)) == x2
    ensures S1(x0, x1) % 16 == x1 / 16 && S2(x1, x2) % 4 == x2 / 64
  {
    var a := S1(x0, x1);
    assert a / 16 == x0 % 4 && a % 16 == x1 / 16;
    var c := S2(x1, x2);
    assert c / 4 == x1 % 16 && c % 4 == x2 / 64;
  }

  /** `base64.b64encode(b)`: four characters per three bytes, the last group padded with '='. */
  function Encode(b: seq<byte>): (s: string)
    ensures |s| == 4 * ((|b| + 2) / 3)
    decreases |b|
  {
    if |b| == 0 then ""
    else if |b| == 1 then
      [Char(S0(b[0])), Char(S1(b[0], 0)), '=', '=']
    else if |b| == 2 then
      [Char(S0(b[0])), Char(S1(b[0], b[1])), Char(S2(b[1], 0)), '=']
    else Group(b[0], b[1], b[2]) + Encode(b[3..])
  }

  /** The four characters of a full group of three bytes. */
  function Group(x0: byte, x1: byte, x2: byte): (q: string)
    ensures |q| == 4
  {
    [Char(S0(x0)), Char(S1(x0, x1)), Char(S2(x1, x2)), Char(S3(x2))]
  }

  /** The bytes of one group of four characters; `last` says whether padding may end it. */
  function DecodeQuad(q: string, last: bool): Option<seq<byte>>
    requires |q| == 4
  {
    var v0, v1, v2, v3 := Value(q[0]), Value(q[1]), Value(q[2]), Value(q[3]);
    if v0.None? || v1.None? then None
    else if last && q[2] == '=' && q[3] == '=' then
      if v1.value % 16 == 0 then Some([B0(v0.value, v1.value)]) else None
    else if v2.None? then None
    else if last && q[3] == '=' then
      if v2.value % 4 == 0 then Some([B0(v0.value, v1.value), B1(v1.value, v2.value)]) else None
    else if v3.None? then None
    else Some([B0(v0.value, v1.value), B1(v1.value, v2.value), B2(v2.value, v3.value)])
  }

  /** Strict decoding of padded Base64; `None` when `s` is not the encoding of any bytes. */
  function Decode(s: string): Option<seq<byte>>
    decreases |s|
  {
    if |s| == 0 then Some([])
    else if |s| < 4 then None
    else
      match DecodeQuad(s[..4], |s| == 4)
      case None => None
      case Some(group) =>
        match Decode(s[4..])
        case None => None
        case Some(rest) => Some(group + rest)
  }

  // The three shapes of a group, stated over characters whose values are known.

  lemma DecodeQuadOne(c0: char, c1: char, v0: sextet, v1: sextet)
    requires Value(c0) == Some(v0) && Value(c1) == Some(v1) && v1 % 16 == 0
    ensures DecodeQuad([c0, c1, '=', '='], true) == Some([B0(v0, v1)])
  {
    assert Value('=') == None;
  }

  lemma DecodeQuadTwo(c0: char, c1: char, c2: char, v0: sextet, v1: sextet, v2: sextet)
    requires Value(c0) == Some(v0) && Value(c1) == Some(v1) && Value(c2) == Some(v2) && v2 % 4 == 0
    ensures DecodeQuad([c0, c1, c2, '='], true) == Some([B0(v0, v1), B1(v1, v2)])
  {
    assert Value('=') == None;
  }

  lemma DecodeQuadFull(c0: char, c1: char, c2: char, c3: char, v0: sextet, v1: sextet, v2: sextet, v3: sextet, last: bool)
    requires Value(c0) == Some(v0) && Value(c1) == Some(v1) && Value(c2) == Some(v2) && Value(c3) == Some(v3)
    ensures DecodeQuad([c0, c1, c2, c3], last) == Some([B0(v0, v1), B1(v1, v2), B2(v2, v3)])
  {
    assert Value('=') == None;
  }

  lemma UnpackOne(x0: byte)
    ensures S1(x0, 0) % 16 == 0
    ensures B0(S0(x0), S1(x0, 0)) == x0
  {
    var a := S1(x0, 0);
    assert a == (x0 % 4) * 16;
    assert a / 16 == x0 % 4;
  }

  lemma FirstQuadOne(b: seq<byte>)
    requires |b| == 1
    ensures |Encode(b)| == 4 && DecodeQuad(Encode(b), true) == Some(b)
  {
    var v0, v1 := S0(b[0]), S1(b[0], 0);
    UnpackOne(b[0]);
    ValueChar(v0);
    ValueChar(v1);
    assert Encode(b) == [Char(v0), Char(v1), '=', '='];
    DecodeQuadOne(Char(v0), Char(v1), v0, v1);
    assert b == [B0(v0, v1)];
  }

  lemma FirstQuadTwo(b: seq<byte>)
    requires |b| == 2
    ensures |Encode(b)| == 4 && DecodeQuad(Encode(b), true) == Some(b)
  {
    var v0, v1, v2 := S0(b[0]), S1(b[0], b[1]), S2(b[1], 0);
    UnpackGroup(b[0], b[1], 0);
    ValueChar(v0);
    ValueChar(v1);
    ValueChar(v2);
    DecodeQuadTwo(Char(v0), Char(v1), Char(v2), v0, v1, v2);
    assert b == [b[0], b[1]];
  }

  lemma DecodeGroup(x0: byte, x1: byte, x2: byte, last: bool)
    ensures DecodeQuad(Group(x0, x1, x2), last) == Some([x0, x1, x2])
  {
    var v0, v1, v2, v3 := S0(x0), S1(x0, x1), S2(x1, x2), S3(x2);
    UnpackGroup(x0, x1, x2);
    ValueChar(v0);
    ValueChar(v1);
    ValueChar(v2);
    ValueChar(v3);
    DecodeQuadFull(Char(v0), Char(v1), Char(v2), Char(v3), v0, v1, v2, v3, last);
  }

  lemma EncodeFull(b: seq<byte>)
    requires |b| >= 3
    ensures Encode(b) == Group(b[0], b[1], b[2]) + Encode(b[3..])
  {
  }

  lemma SplitAtFour(q: string, r: string)
    requires |q| == 4
    ensures (q + r)[..4] == q && (q + r)[4..] == r
  {
  }

  /** `Decode` takes the first group off and decodes the rest. */
  lemma DecodeCons(s: string, g: seq<byte>, r: seq<byte>)
    requires |s| >= 4
    requires DecodeQuad(s[..4], |s| == 4) == Some(g)
    requires Decode(s[4..]) == Some(r)
    ensures Decode(s) == Some(g + r)
  {
  }

  /** A group of four characters in front of a decodable rest. */
  lemma DecodeConsGroup(q: string, r: string, g: seq<byte>, rest: seq<byte>)
    requires |q| == 4
    requires DecodeQuad(q, |r| == 0) == Some(g)
    requires Decode(r) == Some(rest)
    ensures Decode(q + r) == Some(g + rest)
  {
    SplitAtFour(q, r);
    DecodeCons(q + r, g, rest);
  }

  /** The first group of a long input, as an opaque block of four characters that decodes to its three bytes. */
  lemma FirstGroup(b: seq<byte>)
    requires |b| >= 3
    ensures exists q: string ::
      |q| == 4 && Encode(b) == q + Encode(b[3..]) && DecodeQuad(q, |Encode(b[3..])| == 0) == Some(b[..3])
  {
    var q := Group(b[0], b[1], b[2]);
    var last := |Encode(b[3..])| == 0;
    assert Encode(b) == q + Encode(b[3..]) by {
      EncodeFull(b);
    }
    assert DecodeQuad(q, last) == Some(b[..3]) by {
      DecodeGroup(b[0], b[1], b[2], last);
      assert b[..3] == [b[0], b[1], b[2]];
    }
    assert |q| == 4 && Encode(b) == q + Encode(b[3..]) && DecodeQuad(q, last) == Some(b[..3]);
  }

  /** One or two bytes make a single padded group. */
  lemma DecodeEncodeShort(b: seq<byte>)
    requires |b| == 1 || |b| == 2
    ensures Decode(Encode(b)) == Some(b)
  {
    if |b| == 1 { FirstQuadOne(b); } else { FirstQuadTwo(b); }
    var s := Encode(b);
    assert s[..4] == s && s[4..] == [];
    DecodeCons(s, b, []);
    assert b + [] == b;
  }

  /** Decoding inverts encoding, so the encoded signature determines the signature bytes. */
  lemma {:induction false} DecodeEncode(b: seq<byte>)
    ensures Decode(Encode(b)) == Some(b)
    decreases |b|
  {
    if |b| == 1 || |b| == 2 {
      DecodeEncodeShort(b);
    } else if |b| >= 3 {
      FirstGroup(b);
      var q: string :| |q| == 4 && Encode(b) == q + Encode(b[3..])
        && DecodeQuad(q, |Encode(b[3..])| == 0) == Some(b[..3]);
      DecodeEncode(b[3..]);
      DecodeConsGroup(q, Encode(b[3..]), b[..3], b[3..]);
      assert b == b[..3] + b[3..];
    }
  }

  /** Distinct byte strings have distinct encodings. */
  lemma EncodeInjective(a: seq<byte>, b: seq<byte>)
    requires a != b
    ensures Encode(a) != Encode(b)
  {
    DecodeEncode(a);
    DecodeEncode(b);
  }
}
