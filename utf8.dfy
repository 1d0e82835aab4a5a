/** UTF-8, the encoding the canonical signing string is hashed in
    (`s.encode('utf-8')`) and response bodies are read in
    (`content.decode('utf-8')`). The decoder is strict: it refuses
    overlong forms, surrogates and code points above U+10FFFF. */
module Utf8 {
  import opened JsonValues

  newtype byte = x: int | 0 <= x < 0x100

  predicate IsContinuation(b: byte) { 0x80 <= b < 0xC0 }

  /** The one to four bytes of a single scalar value. */
  function EncodeChar(c: char): (r: seq<byte>)
    ensures 1 <= |r| <= 4
    ensures (|r| == 1) == (c as int < 0x80)
  {
    var cp := c as int;
    if cp < 0x80 then [cp as byte]
    else if cp < 0x800 then
      [(0xC0 + cp / 0x40) as byte, (0x80 + cp % 0x40) as byte]
    else if cp < 0x10000 then
      [(0xE0 + cp / 0x1000) as byte, (0x80 + (cp / 0x40) % 0x40) as byte,
       (0x80 + cp % 0x40) as byte]
    else
      [(0xF0 + cp / 0x40000) as byte, (0x80 + (cp / 0x1000) % 0x40) as byte,
       (0x80 + (cp / 0x40) % 0x40) as byte, (0x80 + cp % 0x40) as byte]
  }

  function Encode(s: string): (r: seq<byte>)
    ensures |s| <= |r| <= 4 * |s|
  {
    if s == [] then [] else EncodeChar(s[0]) + Encode(s[1..])
  }

  predicate IsScalar(cp: int) { 0 <= cp < 0xD800 || 0xE000 <= cp < 0x110000 }

  /** The first scalar value of `b` and the number of bytes it takes, or
      None when `b` does not start with a well-formed sequence. */
  function DecodeChar(b: seq<byte>): (r: Option<(char, nat)>)
    ensures r.Some? ==> 1 <= r.value.1 <= |b|
  {
    if |b| == 0 then None
    else if b[0] < 0x80 then Some((b[0] as int as char, 1))
    else if b[0] < 0xC2 then None
    else if b[0] < 0xE0 then
      if |b| < 2 || !IsContinuation(b[1]) then None
      else Some((((b[0] as int - 0xC0) * 0x40 + (b[1] as int - 0x80)) as char, 2))
    else if b[0] < 0xF0 then
      if |b| < 3 || !IsContinuation(b[1]) || !IsContinuation(b[2]) then None
      else
        var cp := (b[0] as int - 0xE0) * 0x1000 + (b[1] as int - 0x80) * 0x40 + (b[2] as int - 0x80);
        if cp < 0x800 || !IsScalar(cp) then None else Some((cp as char, 3))
    else if b[0] < 0xF5 then
      if |b| < 4 || !IsContinuation(b[1]) || !IsContinuation(b[2]) || !IsContinuation(b[3]) then None
      else
        var cp := (b[0] as int - 0xF0) * 0x40000 + (b[1] as int - 0x80) * 0x1000
                  + (b[2] as int - 0x80) * 0x40 + (b[3] as int - 0x80);
        if cp < 0x10000 || !IsScalar(cp) then None else Some((cp as char, 4))
    else None
  }

  function Decode(b: seq<byte>): Option<string>
    decreases |b|
  {
    if b == [] then Some([])
    else match DecodeChar(b)
      case None => None
      case Some((c, n)) =>
        match Decode(b[n..])
        case None => None
        case Some(rest) => Some([c] + rest)
  }

  lemma DecodeEncodeTwo(c: char, rest: seq<byte>)
    requires 0x80 <= c as int < 0x800
    ensures DecodeChar(EncodeChar(c) + rest) == Some((c, 2))
  {
    var cp := c as int;
    var hi, lo := cp / 0x40, cp % 0x40;
    assert cp == hi * 0x40 + lo && 2 <= hi < 0x20 && 0 <= lo < 0x40;
    var b := EncodeChar(c) + rest;
    assert b[0] as int == 0xC0 + hi && b[1] as int == 0x80 + lo;
  }

  lemma DecodeEncodeThree(c: char, rest: seq<byte>)
    requires 0x800 <= c as int < 0x10000
    ensures DecodeChar(EncodeChar(c) + rest) == Some((c, 3))
  {
    var cp := c as int;
    var q, lo := cp / 0x40, cp % 0x40;
    var hi, mid := q / 0x40, q % 0x40;
    assert cp == q * 0x40 + lo && 0 <= lo < 0x40;
    assert q == hi * 0x40 + mid && 0 <= mid < 0x40 && hi < 0x10;
    assert cp / 0x1000 == hi;
    var b := EncodeChar(c) + rest;
    assert b[0] as int == 0xE0 + hi && b[1] as int == 0x80 + mid && b[2] as int == 0x80 + lo;
    assert IsScalar(cp);
  }

  lemma DecodeEncodeFour(c: char, rest: seq<byte>)
    requires 0x10000 <= c as int
    ensures DecodeChar(EncodeChar(c) + rest) == Some((c, 4))
  {
    var cp := c as int;
    assert IsScalar(cp);
    var q1, b3 := cp / 0x40, cp % 0x40;
    var q2, b2 := q1 / 0x40, q1 % 0x40;
    var hi, b1 := q2 / 0x40, q2 % 0x40;
    assert cp == q1 * 0x40 + b3 && 0 <= b3 < 0x40;
    assert q1 == q2 * 0x40 + b2 && 0 <= b2 < 0x40;
    assert q2 == hi * 0x40 + b1 && 0 <= b1 < 0x40 && hi < 5;
    assert cp / 0x1000 == q2 && cp / 0x40000 == hi;
    var b := EncodeChar(c) + rest;
    assert b[0] as int == 0xF0 + hi && b[1] as int == 0x80 + b1;
    assert b[2] as int == 0x80 + b2 && b[3] as int == 0x80 + b3;
  }

  /** Decoding the bytes of one scalar value, followed by anything, gives
      that value back and consumes exactly its bytes. */
  lemma DecodeEncodeChar(c: char, rest: seq<byte>)
    ensures DecodeChar(EncodeChar(c) + rest) == Some((c, |EncodeChar(c)|))
  {
    var cp := c as int;
    if cp < 0x80 {
    } else if cp < 0x800 {
      DecodeEncodeTwo(c, rest);
    } else if cp < 0x10000 {
      DecodeEncodeThree(c, rest);
    } else {
      DecodeEncodeFour(c, rest);
    }
  }

  /** Decoding inverts encoding. */
  lemma {:induction false} DecodeEncode(s: string)
    ensures Decode(Encode(s)) == Some(s)
  {
    if s != [] {
      var e := EncodeChar(s[0]);
      var rest := Encode(s[1..]);
      DecodeEncodeChar(s[0], rest);
      assert (e + rest)[|e|..] == rest;
      DecodeEncode(s[1..]);
      assert [s[0]] + s[1..] == s;
    }
  }

  /** Distinct strings are hashed as distinct byte strings. */
  lemma EncodeInjective(s: string, t: string)
    requires s != t
    ensures Encode(s) != Encode(t)
  {
    DecodeEncode(s);
    DecodeEncode(t);
  }
}
