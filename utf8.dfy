/** UTF-8, the encoding of Go's `string`: its `len` and slice expressions count the bytes of
    this encoding, not characters. A Dafny `char` is a Unicode scalar value, so every string
    here is valid UTF-8. */
module Utf8 {

  type byte = x: int | 0 <= x < 256

  /** The number of bytes of an encoded character, read off its first byte. */
  function LeadLength(b: byte): nat {
    if b < 0x80 then 1 else if b < 0xE0 then 2 else if b < 0xF0 then 3 else 4
  }

  /** The UTF-8 bytes of one character: one byte below U+0080, then two, three or four bytes,
      each continuation byte carrying six bits. */
  function EncodeChar(c: char): (b: seq<byte>)
    ensures 1 <= |b| <= 4 && |b| == LeadLength(b[0])
    ensures c as int < 0x80 <==> b == [c as int]
  {
    var n := c as int;
    if n < 0x80 then [n]
    else if n < 0x800 then
      DivBelow(n, 64, 32);
      [0xC0 + n / 64, 0x80 + n % 64]
    else if n < 0x10000 then
      DivBelow(n, 4096, 16);
      [0xE0 + n / 4096, 0x80 + (n / 64) % 64, 0x80 + n % 64]
    else
      DivBelow(n, 262144, 5);
      [0xF0 + n / 262144, 0x80 + (n / 4096) % 64, 0x80 + (n / 64) % 64, 0x80 + n % 64]
  }

  lemma DivBelow(n: nat, d: nat, k: nat)
    requires 0 < d && n < d * k
    ensures n / d < k
  {
  }

  /** The code point an encoded character's bytes carry. */
  function DecodeChar(b: seq<byte>): int
    requires 1 <= |b| <= 4
  {
    var b0: int := b[0];
    if |b| == 1 then b0
    else
      var b1: int := b[1];
      if |b| == 2 then (b0 - 0xC0) * 64 + (b1 - 0x80)
      else
        var b2: int := b[2];
        if |b| == 3 then ((b0 - 0xE0) * 64 + (b1 - 0x80)) * 64 + (b2 - 0x80)
        else
          var b3: int := b[3];
          (((b0 - 0xF0) * 64 + (b1 - 0x80)) * 64 + (b2 - 0x80)) * 64 + (b3 - 0x80)
  }

  lemma SixBits(n: int, q: int, r: int)
    requires n >= 0 && q == n / 64 && r == n % 64
    ensures n == q * 64 + r && 0 <= r < 64
  {
  }

  /** Decoding an encoded character gives it back. */
  lemma DecodeEncodeChar(c: char)
    ensures DecodeChar(EncodeChar(c)) == c as int
  {
    var n := c as int;
    var q1, r1 := n / 64, n % 64;
    SixBits(n, q1, r1);
    var q2, r2 := q1 / 64, q1 % 64;
    SixBits(q1, q2, r2);
    var q3, r3 := q2 / 64, q2 % 64;
    SixBits(q2, q3, r3);
    if n >= 0x10000 {
      assert n / 262144 == q3 && (n / 4096) % 64 == r3 by {
        assert n == (q3 * 64 + r3) * 4096 + r2 * 64 + r1;
      }
    } else if n >= 0x800 {
      assert n / 4096 == q2 by {
        assert n == q2 * 4096 + r2 * 64 + r1;
      }
    }
  }

  /** Different characters have different encodings. */
  lemma EncodeCharInjective(c: char, d: char)
    requires EncodeChar(c) == EncodeChar(d)
    ensures c == d
  {
    DecodeEncodeChar(c);
    DecodeEncodeChar(d);
  }

  /** The UTF-8 bytes of a string. */
  function Encode(s: string): (b: seq<byte>)
    ensures |b| >= |s|
    ensures |b| == 0 <==> s == []
  {
    if s == [] then [] else EncodeChar(s[0]) + Encode(s[1..])
  }

  /** Encoding distributes over concatenation. */
  lemma {:induction false} EncodeAppend(a: string, b: string)
    ensures Encode(a + b) == Encode(a) + Encode(b)
  {
    if a != [] {
      assert (a + b)[0] == a[0] && (a + b)[1..] == a[1..] + b;
      EncodeAppend(a[1..], b);
    } else {
      assert a + b == b;
    }
  }

  /** A string of characters below U+0080 has one byte per character. */
  lemma {:induction false} AsciiLength(s: string)
    requires forall i :: 0 <= i < |s| ==> s[i] as int < 0x80
    ensures |Encode(s)| == |s|
  {
    if s != [] {
      AsciiLength(s[1..]);
    }
  }

  /** Two ways of splitting the start of a byte sequence into parts agree when the first
      parts have the same length. */
  lemma SplitPrefix(x: seq<byte>, a: seq<byte>, b: seq<byte>, c: seq<byte>, d: seq<byte>)
    requires x == a + b && |c + d| <= |x| && x[..|c + d|] == c + d && |a| == |c|
    ensures a == c && |d| <= |b| && b[..|d|] == d
  {
    assert a == x[..|a|] == (c + d)[..|c|] == c;
    assert b[..|d|] == x[|a|..|c + d|] == d;
  }

  /** When the bytes of `p` begin those of `s`, both start with the same character, and the
      bytes of the rest of `p` begin those of the rest of `s`. */
  lemma FirstCharsAgree(p: string, s: string)
    requires p != [] && |Encode(p)| <= |Encode(s)| && Encode(s)[..|Encode(p)|] == Encode(p)
    ensures s != [] && p[0] == s[0]
    ensures |Encode(p[1..])| <= |Encode(s[1..])| && Encode(s[1..])[..|Encode(p[1..])|] == Encode(p[1..])
  {
    var ep, es := EncodeChar(p[0]), EncodeChar(s[0]);
    var rp, rs := Encode(p[1..]), Encode(s[1..]);
    assert Encode(p) == ep + rp;
    assert Encode(s) == es + rs;
    assert Encode(s)[..|Encode(p)|][0] == Encode(s)[0];
    assert ep[0] == es[0];
    SplitPrefix(Encode(s), es, rs, ep, rp);
    EncodeCharInjective(p[0], s[0]);
  }

  /** UTF-8 is a prefix code: the bytes of `p` begin the bytes of `s` exactly when the
      characters of `p` begin `s`. */
  lemma {:induction false} EncodePrefix(p: string, s: string)
    ensures (|Encode(p)| <= |Encode(s)| && Encode(s)[..|Encode(p)|] == Encode(p)) <==>
            (|p| <= |s| && s[..|p|] == p)
  {
    if |p| <= |s| && s[..|p|] == p {
      assert s == p + s[|p|..];
      EncodeAppend(p, s[|p|..]);
    }
    if p != [] && |Encode(p)| <= |Encode(s)| && Encode(s)[..|Encode(p)|] == Encode(p) {
      FirstCharsAgree(p, s);
      EncodePrefix(p[1..], s[1..]);
      assert s[..|p|] == [s[0]] + s[1..][..|p| - 1];
    }
  }
}
