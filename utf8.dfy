/**
 * UTF-8 (RFC 3629) encoding of text, as Python's `str.encode("utf-8")`
 * does it: the private key PEM is encoded before parsing and the canonical
 * request before hashing. The decoder exists to prove that the encoding loses
 * nothing, so the hashed bytes determine the canonical request.
 */
module Utf8 {
  import opened Wrappers

  type byte = x: int | 0 <= x < 256

  predicate IsScalar(n: int)
  {
    0 <= n < 0xD800 || 0xE000 <= n < 0x11_0000
  }

  lemma CharIsScalar(c: char)
    ensures IsScalar(c as int)
  {
  }

  /** The one to four bytes of one code point. */
  function EncodeChar(c: char): (b: seq<byte>)
    ensures 1 <= |b| <= 4
  {
    CharIsScalar(c);
    var n := c as int;
    if n < 0x80 then [n]
    else if n < 0x800 then [0xC0 + n / 64, 0x80 + n % 64]
    else if n < 0x1_0000 then [0xE0 + n / 4096, 0x80 + (n / 64) % 64, 0x80 + n % 64]
    else [0xF0 + n / 262144, 0x80 + (n / 4096) % 64, 0x80 + (n / 64) % 64, 0x80 + n % 64]
  }

  /** `s.encode("utf-8")`. */
  function Encode(s: string): (b: seq<byte>)
    ensures |s| <= |b| <= 4 * |s|
  {
    if |s| == 0 then [] else EncodeChar(s[0]) + Encode(s[1..])
  }

  predicate IsContinuation(x: byte) { 0x80 <= x < 0xC0 }

  /** The code point that starts `b` and the number of bytes it takes, or `None` when `b` does not start with one. */
  function DecodeChar(b: seq<byte>): (r: Option<(char, nat)>)
    requires |b| > 0
    ensures r.Some? ==> 1 <= r.value.1 <= |b|
  {
    var lead: int := b[0];
    if lead < 0x80 then Some((lead as char, 1))
    else if 0xC0 <= lead < 0xE0 && |b| >= 2 && IsContinuation(b[1]) then
      var n := (lead - 0xC0) * 64 + (b[1] as int - 0x80);
      if 0x80 <= n then Some((n as char, 2)) else None
    else if 0xE0 <= lead < 0xF0 && |b| >= 3 && IsContinuation(b[1]) && IsContinuation(b[2]) then
      var n := (lead - 0xE0) * 4096 + (b[1] as int - 0x80) * 64 + (b[2] as int - 0x80);
      if 0x800 <= n && IsScalar(n) then Some((n as char, 3)) else None
    else if 0xF0 <= lead < 0xF8 && |b| >= 4 && IsContinuation(b[1]) && IsContinuation(b[2]) && IsContinuation(b[3]) then
      var n := (lead - 0xF0) * 262144 + (b[1] as int - 0x80) * 4096 + (b[2] as int - 0x80) * 64 + (b[3] as int - 0x80);
      if 0x1_0000 <= n && IsScalar(n) then Some((n as char, 4)) else None
    else None
  }

  /** `b.decode("utf-8")`, `None` on malformed input. */
  function Decode(b: seq<byte>): Option<string>
    decreases |b|
  {
    if |b| == 0 then Some("")
    else match DecodeChar(b)
      case None => None
      case Some((c, len)) =>
        match Decode(b[len..])
        case None => None
        case Some(rest) => Some([c] + rest)
  }

  lemma Split64(n: int)
    requires n >= 0
    ensures n == (n / 64) * 64 + n % 64
  {
  }

  lemma Split4096(n: int)
    requires n >= 0
    ensures n % 4096 == ((n / 64) % 64) * 64 + n % 64
    ensures n / 4096 == (n / 64) / 64
  {
    var q, r := n / 64, n % 64;
    Split64(n);
    Split64(q);
    assert n == ((q / 64) * 64 + q % 64) * 64 + r;
    assert n == (q / 64) * 4096 + ((q % 64) * 64 + r);
    Unique4096(n, q / 64, (q % 64) * 64 + r);
  }

  lemma Unique4096(n: int, a: int, b: int)
    requires 0 <= b < 4096 && n == a * 4096 + b
    ensures n / 4096 == a && n % 4096 == b
  {
  }

  lemma Unique262144(n: int, a: int, b: int)
    requires 0 <= b < 262144 && n == a * 262144 + b
    ensures n / 262144 == a && n % 262144 == b
  {
  }

  lemma Split262144(n: int)
    requires n >= 0
    ensures n % 262144 == ((n / 4096) % 64) * 4096 + ((n / 64) % 64) * 64 + n % 64
    ensures n / 262144 == (n / 4096) / 64
  {
    var q, r := n / 4096, n % 4096;
    Split4096(n);
    Split64(q);
    assert n == q * 4096 + r;
    assert n == ((q / 64) * 64 + q % 64) * 4096 + r;
    assert n == (q / 64) * 262144 + ((q % 64) * 4096 + r);
    Unique262144(n, q / 64, (q % 64) * 4096 + r);
  }

  /** The bytes of one code point decode back to it, whatever follows. */
  lemma DecodeEncodeChar(c: char, rest: seq<byte>)
    ensures DecodeChar(EncodeChar(c) + rest) == Some((c, |EncodeChar(c)|))
  {
    CharIsScalar(c);
    var n := c as int;
    var b := EncodeChar(c) + rest;
    if n < 0x80 {
    } else if n < 0x800 {
      Split64(n);
      assert (b[0] as int - 0xC0) * 64 + (b[1] as int - 0x80) == n;
    } else if n < 0x1_0000 {
      Split4096(n);
      assert n == (n / 4096) * 4096 + n % 4096;
      assert (b[0] as int - 0xE0) * 4096 + (b[1] as int - 0x80) * 64 + (b[2] as int - 0x80) == n;
    } else {
      Split262144(n);
      assert n == (n / 262144) * 262144 + n % 262144;
      assert (b[0] as int - 0xF0) * 262144 + (b[1] as int - 0x80) * 4096 + (b[2] as int - 0x80) * 64 + (b[3] as int - 0x80) == n;
    }
  }

  /** Decoding inverts encoding. */
  lemma {:induction false} DecodeEncode(s: string)
    ensures Decode(Encode(s)) == Some(s)
  {
    if |s| > 0 {
      var head := EncodeChar(s[0]);
      var b := Encode(s);
      DecodeEncodeChar(s[0], Encode(s[1..]));
      assert b[|head|..] == Encode(s[1..]);
      DecodeEncode(s[1..]);
      assert [s[0]] + s[1..] == s;
    }
  }

  /** Distinct texts have distinct UTF-8 encodings. */
  lemma EncodeInjective(s: string, t: string)
    requires s != t
    ensures Encode(s) != Encode(t)
  {
    DecodeEncode(s);
    DecodeEncode(t);
  }
}
