/** The Node.js pieces the callback verifier uses on bytes: the UTF-8
    encoding performed by `Buffer.from(s, 'utf-8')`, the lower-case
    hexadecimal rendering of `digest('hex')`, and the result of
    `crypto.timingSafeEqual`. The HMAC-SHA256 function itself (RFC 2104
    over SHA-256) is not defined here: it is a parameter of the callback. */
module NodeBuffer {
  import opened JsRuntime

  newtype byte = b: int | 0 <= b < 0x100

  /** What HMAC-SHA256 returns: 32 raw bytes. */
  type Digest = d: seq<byte> | |d| == 32 witness seq(32, _ => 0 as byte)

  predicate IsAscii(s: string)
  {
    forall i :: 0 <= i < |s| ==> s[i] as int < 0x80
  }

  /** The UTF-8 encoding of one Unicode scalar value (RFC 3629 section 3):
      one byte below 0x80, otherwise a lead byte of at least 0xC0 followed
      by continuation bytes. */
  function CharToUtf8(c: char): (bytes: seq<byte>)
    ensures 1 <= |bytes| <= 4
    ensures c as int >= 0x80 ==> bytes[0] >= 0xC0
  {
    var n := c as int;
    if n < 0x80 then
      [n as byte]
    else if n < 0x800 then
      [(0xC0 + n / 0x40) as byte, (0x80 + n % 0x40) as byte]
    else if n < 0x10000 then
      [(0xE0 + n / 0x1000) as byte, (0x80 + (n / 0x40) % 0x40) as byte, (0x80 + n % 0x40) as byte]
    else
      [(0xF0 + n / 0x40000) as byte, (0x80 + (n / 0x1000) % 0x40) as byte,
       (0x80 + (n / 0x40) % 0x40) as byte, (0x80 + n % 0x40) as byte]
  }

  /** The bytes of `Buffer.from(s, 'utf-8')`. */
  function Utf8(s: string): (bytes: seq<byte>)
    ensures |bytes| >= |s|
  {
    if s == [] then [] else CharToUtf8(s[0]) + Utf8(s[1..])
  }

  /** A string whose UTF-8 bytes equal those of an ASCII string is that string. */
  lemma {:induction false} Utf8MatchesAscii(s: string, h: string)
    requires IsAscii(h)
    requires Utf8(s) == Utf8(h)
    ensures s == h
    decreases |h|
  {
    if h != [] {
      assert Utf8(h)[0] == h[0] as int as byte;
      assert s != [];
      var first := CharToUtf8(s[0]);
      assert Utf8(s)[0] == first[0];
      assert s[0] as int < 0x80;
      assert s[0] == h[0];
      assert Utf8(s[1..]) == Utf8(s)[1..] == Utf8(h)[1..] == Utf8(h[1..]);
      assert IsAscii(h[1..]) by {
        forall i | 0 <= i < |h[1..]| ensures h[1..][i] as int < 0x80 {
          assert h[1..][i] == h[i + 1];
        }
      }
      Utf8MatchesAscii(s[1..], h[1..]);
      assert s == [s[0]] + s[1..] && h == [h[0]] + h[1..];
    }
  }

  /** `Buffer.from(v, 'utf-8')`, which throws a TypeError when `v` is `undefined`. */
  function BufferFrom(v: Option<string>): (r: Completion<seq<byte>>)
    ensures r.Abrupt? <==> v.None?
    ensures r.Abrupt? ==> r.error == TypeError
  {
    match v
    case None => Abrupt(TypeError)
    case Some(s) => Normal(Utf8(s))
  }

  predicate IsLowerHexDigit(c: char)
  {
    '0' <= c <= '9' || 'a' <= c <= 'f'
  }

  function HexDigit(v: int): (c: char)
    requires 0 <= v < 16
    ensures IsLowerHexDigit(c)
  {
    if v < 10 then ('0' as int + v) as char else ('a' as int + (v - 10)) as char
  }

  function HexValue(c: char): (v: int)
    requires IsLowerHexDigit(c)
    ensures 0 <= v < 16 && HexDigit(v) == c
  {
    if c <= '9' then c as int - '0' as int else c as int - 'a' as int + 10
  }

  /** `digest('hex')`: two lower-case hexadecimal digits per byte, high nibble first. */
  function Hex(bytes: seq<byte>): (s: string)
    ensures |s| == 2 * |bytes|
    ensures forall i :: 0 <= i < |s| ==> IsLowerHexDigit(s[i])
  {
    if bytes == [] then ""
    else [HexDigit(bytes[0] as int / 16), HexDigit(bytes[0] as int % 16)] + Hex(bytes[1..])
  }

  lemma HexIsAscii(bytes: seq<byte>)
    ensures IsAscii(Hex(bytes))
  {
    var s := Hex(bytes);
    forall i | 0 <= i < |s| ensures s[i] as int < 0x80 {
      assert IsLowerHexDigit(s[i]);
    }
  }

  /** Reads a lower-case hexadecimal string back into bytes; None when its
      length is odd or a character is not a lower-case hexadecimal digit. */
  function Unhex(s: string): Option<seq<byte>>
    decreases |s|
  {
    if s == [] then Some([])
    else if |s| == 1 || !IsLowerHexDigit(s[0]) || !IsLowerHexDigit(s[1]) then None
    else
      match Unhex(s[2..])
      case None => None
      case Some(rest) => Some([(16 * HexValue(s[0]) + HexValue(s[1])) as byte] + rest)
  }

  /** Hex round trip: the digest's hexadecimal form reads back as the digest. */
  lemma {:induction false} UnhexHex(bytes: seq<byte>)
    ensures Unhex(Hex(bytes)) == Some(bytes)
  {
    if bytes != [] {
      var s := Hex(bytes);
      var b := bytes[0] as int;
      assert s[2..] == Hex(bytes[1..]);
      UnhexHex(bytes[1..]);
      assert HexValue(s[0]) == b / 16 && HexValue(s[1]) == b % 16 by {
        assert s[0] == HexDigit(b / 16) && s[1] == HexDigit(b % 16);
        HexDigitInjective(HexValue(s[0]), b / 16);
        HexDigitInjective(HexValue(s[1]), b % 16);
      }
      assert [bytes[0]] + bytes[1..] == bytes;
    }
  }

  lemma HexDigitInjective(v: int, w: int)
    requires 0 <= v < 16 && 0 <= w < 16
    requires HexDigit(v) == HexDigit(w)
    ensures v == w
  {
  }

  /** Only the canonical form reads back: a string that reads as some bytes
      is exactly their lower-case hexadecimal form. */
  lemma {:induction false} HexUnhex(s: string, bytes: seq<byte>)
    requires Unhex(s) == Some(bytes)
    ensures Hex(bytes) == s
    decreases |s|
  {
    if s != [] {
      var rest := Unhex(s[2..]).value;
      HexUnhex(s[2..], rest);
      var b := 16 * HexValue(s[0]) + HexValue(s[1]);
      assert bytes == [b as byte] + rest;
      assert b / 16 == HexValue(s[0]) && b % 16 == HexValue(s[1]);
      assert bytes[1..] == rest;
      assert s == [s[0], s[1]] + s[2..];
    }
  }

  /** Bitwise exclusive or of two naturals, bit by bit from the lowest. */
  function Xor(x: nat, y: nat): nat
    decreases x + y
  {
    if x == 0 && y == 0 then 0 else 2 * Xor(x / 2, y / 2) + (if x % 2 == y % 2 then 0 else 1)
  }

  /** Bitwise or of two naturals, bit by bit from the lowest. */
  function Or(x: nat, y: nat): nat
    decreases x + y
  {
    if x == 0 && y == 0 then 0 else 2 * Or(x / 2, y / 2) + (if x % 2 == 1 || y % 2 == 1 then 1 else 0)
  }

  lemma {:induction false} XorZero(x: nat, y: nat)
    ensures Xor(x, y) == 0 <==> x == y
    decreases x + y
  {
    if !(x == 0 && y == 0) {
      XorZero(x / 2, y / 2);
    }
  }

  lemma OrZero(x: nat, y: nat)
    ensures Or(x, y) == 0 <==> x == 0 && y == 0
  {
  }

  /** The bitwise OR of `a[i] XOR b[i]` over the first `n` positions. Every
      position is visited: the accumulation does not stop at the first
      difference, which is what keeps its running time independent of where
      the inputs differ. */
  function DiffBits(a: seq<byte>, b: seq<byte>, n: nat): nat
    requires n <= |a| && n <= |b|
  {
    if n == 0 then 0 else Or(DiffBits(a, b, n - 1), Xor(a[n - 1] as nat, b[n - 1] as nat))
  }

  lemma {:induction false} DiffBitsZero(a: seq<byte>, b: seq<byte>, n: nat)
    requires n <= |a| && n <= |b|
    ensures DiffBits(a, b, n) == 0 <==> a[..n] == b[..n]
  {
    if n > 0 {
      DiffBitsZero(a, b, n - 1);
      OrZero(DiffBits(a, b, n - 1), Xor(a[n - 1] as nat, b[n - 1] as nat));
      XorZero(a[n - 1] as nat, b[n - 1] as nat);
      SamePrefix(a, b, n);
    }
  }

  lemma SamePrefix(a: seq<byte>, b: seq<byte>, n: nat)
    requires 0 < n <= |a| && n <= |b|
    ensures a[..n] == b[..n] <==> a[..n - 1] == b[..n - 1] && a[n - 1] == b[n - 1]
  {
    assert a[..n] == a[..n - 1] + [a[n - 1]] && b[..n] == b[..n - 1] + [b[n - 1]];
    if a[..n] == b[..n] {
      assert a[..n - 1] == a[..n][..n - 1] && b[..n - 1] == b[..n][..n - 1];
      assert a[n - 1] == a[..n][n - 1] && b[n - 1] == b[..n][n - 1];
    }
  }

  /** `crypto.timingSafeEqual(a, b)`: throws a RangeError when the lengths
      differ; otherwise says whether every byte is the same. */
  function TimingSafeEqual(a: seq<byte>, b: seq<byte>): (r: Completion<bool>)
    ensures r.Abrupt? <==> |a| != |b|
    ensures r.Abrupt? ==> r.error == RangeError
    ensures r.Normal? ==> (r.value <==> a == b)
  {
    if |a| != |b| then Abrupt(RangeError)
    else
      DiffBitsZero(a, b, |a|);
      assert a[..|a|] == a && b[..|b|] == b;
      Normal(DiffBits(a, b, |a|) == 0)
  }
}
