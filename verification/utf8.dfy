/** UTF-8 as RFC 3629 section 3 defines it: every Unicode scalar value becomes
    one to four bytes; a strict decoder accepts exactly the well-formed byte
    sequences (no overlong forms, no surrogates, nothing above U+10FFFF). */
module Utf8 {
  import opened Wrappers

  type Byte = b: int | 0 <= b < 256

  predicate IsContinuation(b: Byte) {
    0x80 <= b < 0xC0
  }

  /** The encoding of one scalar value. Only U+0000 produces a zero byte: a
      one-byte form is the scalar itself, every other byte is at least 0x80. */
  function EncodeScalar(c: char): (r: seq<Byte>)
    ensures 1 <= |r| <= 4
    ensures c != '\0' ==> forall k | 0 <= k < |r| :: r[k] != 0
  {
    var cp := c as int;
    if cp < 0x80 then [cp]
    else if cp < 0x800 then [0xC0 + cp / 64, 0x80 + cp % 64]
    else if cp < 0x10000 then [0xE0 + cp / 4096, 0x80 + (cp / 64) % 64, 0x80 + cp % 64]
    else [0xF0 + cp / 262144, 0x80 + (cp / 4096) % 64, 0x80 + (cp / 64) % 64, 0x80 + cp % 64]
  }

  /** `Encoding.UTF8.GetBytes` for a string of scalar values. */
  function Encode(s: string): (r: seq<Byte>)
    ensures |r| >= |s|
    ensures '\0' !in s ==> 0 !in r
  {
    if |s| == 0 then [] else EncodeScalar(s[0]) + Encode(s[1..])
  }

  /** The first well-formed character at the start of `b` and how many bytes it
      takes, or None when `b` does not start with a well-formed sequence. */
  function DecodeFirst(b: seq<Byte>): (r: Option<(char, nat)>)
    requires |b| > 0
    ensures r.Some? ==> 1 <= r.value.1 <= |b|
  {
    var b0: int := b[0];
    if b0 < 0x80 then Some((b0 as char, 1))
    else if 0xC2 <= b0 <= 0xDF then
      if |b| >= 2 && IsContinuation(b[1]) then
        Some((Scalar2(b0, b[1]) as char, 2))
      else None
    else if 0xE0 <= b0 <= 0xEF then
      if |b| >= 3 && IsContinuation(b[1]) && IsContinuation(b[2]) then
        var cp := Scalar3(b0, b[1], b[2]);
        if cp < 0x800 || (0xD800 <= cp <= 0xDFFF) then None else Some((cp as char, 3))
      else None
    else if 0xF0 <= b0 <= 0xF4 then
      if |b| >= 4 && IsContinuation(b[1]) && IsContinuation(b[2]) && IsContinuation(b[3]) then
        var cp := Scalar4(b0, b[1], b[2], b[3]);
        if cp < 0x10000 || cp > 0x10FFFF then None else Some((cp as char, 4))
      else None
    else None
  }

  /** The value bits of a two-, three- and four-byte sequence. */
  function Scalar2(b0: int, b1: int): int {
    (b0 - 0xC0) * 64 + (b1 - 0x80)
  }

  function Scalar3(b0: int, b1: int, b2: int): int {
    (b0 - 0xE0) * 4096 + (b1 - 0x80) * 64 + (b2 - 0x80)
  }

  function Scalar4(b0: int, b1: int, b2: int, b3: int): int {
    (b0 - 0xF0) * 262144 + (b1 - 0x80) * 4096 + (b2 - 0x80) * 64 + (b3 - 0x80)
  }

  /** Strict decoding of a whole byte sequence. */
  function Decode(b: seq<Byte>): Option<string>
    decreases |b|
  {
    if |b| == 0 then Some("")
    else match DecodeFirst(b)
      case None => None
      case Some((c, n)) =>
        match Decode(b[n..])
        case None => None
        case Some(rest) => Some([c] + rest)
  }

  /** Division by the UTF-8 group sizes recovers quotient and remainder. */
  lemma DivMod(q: int, r: int, d: int)
    requires d == 64 || d == 4096 || d == 262144
    requires 0 <= r < d
    ensures (q * d + r) / d == q && (q * d + r) % d == r
  {
    if d == 64 {
      assert (q * 64 + r) / 64 == q;
    } else if d == 4096 {
      assert (q * 4096 + r) / 4096 == q;
    } else {
      assert (q * 262144 + r) / 262144 == q;
    }
  }

  /** Dividing by 64 twice is dividing by 4096, and so on up the groups. */
  lemma NestedDiv(n: nat)
    ensures n / 64 / 64 == n / 4096
    ensures n / 4096 / 64 == n / 262144
  {
    var a := n / 64;
    assert n == a * 64 + n % 64;
    assert a == (a / 64) * 64 + a % 64;
    assert n == (a / 64) * 4096 + ((a % 64) * 64 + n % 64);
    DivMod(a / 64, (a % 64) * 64 + n % 64, 4096);
    var b := n / 4096;
    assert n == b * 4096 + n % 4096;
    assert b == (b / 64) * 64 + b % 64;
    assert n == (b / 64) * 262144 + ((b % 64) * 4096 + n % 4096);
    DivMod(b / 64, (b % 64) * 4096 + n % 4096, 262144);
  }

  /** Decoding the encoding of a scalar gives back that scalar, whatever follows. */
  lemma DecodeEncodeScalar(c: char, rest: seq<Byte>)
    ensures DecodeFirst(EncodeScalar(c) + rest) == Some((c, |EncodeScalar(c)|))
  {
    var cp := c as int;
    if cp < 0x80 {
    } else if cp < 0x800 {
      DecodeTwo(c, rest);
    } else if cp < 0x10000 {
      DecodeThree(c, rest);
    } else {
      DecodeFour(c, rest);
    }
  }

  lemma DecodeTwo(c: char, rest: seq<Byte>)
    requires 0x80 <= c as int < 0x800
    ensures DecodeFirst(EncodeScalar(c) + rest) == Some((c, 2))
  {
    var cp := c as int;
    var e := EncodeScalar(c) + rest;
    assert e[0] == 0xC0 + cp / 64 && e[1] == 0x80 + cp % 64;
    assert Scalar2(e[0], e[1]) == cp;
  }

  lemma DecodeThree(c: char, rest: seq<Byte>)
    requires 0x800 <= c as int < 0x10000
    ensures DecodeFirst(EncodeScalar(c) + rest) == Some((c, 3))
  {
    var cp := c as int;
    var e := EncodeScalar(c) + rest;
    NestedDiv(cp);
    var a := cp / 64;
    assert e[0] == 0xE0 + a / 64 && e[1] == 0x80 + a % 64 && e[2] == 0x80 + cp % 64;
    assert Scalar3(e[0], e[1], e[2]) == (a / 64 * 64 + a % 64) * 64 + cp % 64 == cp;
  }

  lemma DecodeFour(c: char, rest: seq<Byte>)
    requires 0x10000 <= c as int
    ensures DecodeFirst(EncodeScalar(c) + rest) == Some((c, 4))
  {
    var cp := c as int;
    var e := EncodeScalar(c) + rest;
    NestedDiv(cp);
    var a := cp / 64;
    var b := cp / 4096;
    assert b == a / 64;
    assert e[0] == 0xF0 + b / 64 && e[1] == 0x80 + b % 64 && e[2] == 0x80 + a % 64 && e[3] == 0x80 + cp % 64;
    assert Scalar4(e[0], e[1], e[2], e[3]) == ((b / 64 * 64 + b % 64) * 64 + a % 64) * 64 + cp % 64;
    assert (b / 64 * 64 + b % 64) == a / 64;
    assert (a / 64 * 64 + a % 64) == a;
    assert Scalar4(e[0], e[1], e[2], e[3]) == cp;
  }

  /** Encoding distributes over prepending one character. */
  lemma EncodeCons(c: char, rest: string)
    ensures Encode([c] + rest) == EncodeScalar(c) + Encode(rest)
  {
    assert ([c] + rest)[0] == c && ([c] + rest)[1..] == rest;
  }

  /** Encoding a well-formed first character reproduces exactly the bytes it
      was decoded from. */
  lemma EncodeDecodeFirst(b: seq<Byte>)
    requires |b| > 0 && DecodeFirst(b).Some?
    ensures EncodeScalar(DecodeFirst(b).value.0) == b[..DecodeFirst(b).value.1]
  {
    if 0xC2 <= b[0] <= 0xDF {
      EncodeDecodeTwo(b);
    } else if 0xE0 <= b[0] <= 0xEF {
      EncodeDecodeThree(b);
    } else if 0xF0 <= b[0] {
      EncodeDecodeFour(b);
    }
  }

  lemma EncodeDecodeTwo(b: seq<Byte>)
    requires |b| > 0 && DecodeFirst(b).Some? && 0xC2 <= b[0] <= 0xDF
    ensures EncodeScalar(DecodeFirst(b).value.0) == b[..2]
  {
    DivMod(b[0] - 0xC0, b[1] - 0x80, 64);
  }

  lemma EncodeDecodeThree(b: seq<Byte>)
    requires |b| > 0 && DecodeFirst(b).Some? && 0xE0 <= b[0] <= 0xEF
    ensures EncodeScalar(DecodeFirst(b).value.0) == b[..3]
  {
    var cp := DecodeFirst(b).value.0 as int;
    var x, y, z: int := b[0] - 0xE0, b[1] - 0x80, b[2] - 0x80;
    assert cp == (x * 64 + y) * 64 + z;
    DivMod(x * 64 + y, z, 64);
    DivMod(x, y, 64);
    DivMod(x, y * 64 + z, 4096);
  }

  lemma EncodeDecodeFour(b: seq<Byte>)
    requires |b| > 0 && DecodeFirst(b).Some? && 0xF0 <= b[0]
    ensures EncodeScalar(DecodeFirst(b).value.0) == b[..4]
  {
    var cp := DecodeFirst(b).value.0 as int;
    var x, y, z, w: int := b[0] - 0xF0, b[1] - 0x80, b[2] - 0x80, b[3] - 0x80;
    assert cp == ((x * 64 + y) * 64 + z) * 64 + w;
    DivMod((x * 64 + y) * 64 + z, w, 64);
    DivMod(x * 64 + y, z, 64);
    DivMod(x, y, 64);
    assert cp == (x * 64 + y) * 4096 + (z * 64 + w);
    DivMod(x * 64 + y, z * 64 + w, 4096);
    DivMod(x, y * 4096 + z * 64 + w, 262144);
  }

  /** Decoding inverts encoding on every string. */
  lemma {:induction false} DecodeEncode(s: string)
    ensures Decode(Encode(s)) == Some(s)
  {
    if |s| > 0 {
      var e := EncodeScalar(s[0]);
      DecodeEncodeScalar(s[0], Encode(s[1..]));
      assert (e + Encode(s[1..]))[|e|..] == Encode(s[1..]);
      DecodeEncode(s[1..]);
      assert [s[0]] + s[1..] == s;
    }
  }

  /** Encoding inverts decoding on every well-formed byte sequence. */
  lemma {:induction false} EncodeDecode(b: seq<Byte>)
    requires Decode(b).Some?
    ensures Encode(Decode(b).value) == b
    decreases |b|
  {
    if |b| > 0 {
      var (c, n) := DecodeFirst(b).value;
      var tail := Decode(b[n..]).value;
      assert Decode(b).value == [c] + tail;
      assert EncodeScalar(c) == b[..n] by {
        EncodeDecodeFirst(b);
      }
      assert Encode(tail) == b[n..] by {
        EncodeDecode(b[n..]);
      }
      EncodeCons(c, tail);
      assert b == b[..n] + b[n..];
    }
  }
}
