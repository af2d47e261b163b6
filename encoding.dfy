/**
 * Byte-level encodings the signer relies on: UTF-8 (`str.encode('utf-8')`), base64 (RFC 4648 section 4),
 * hexadecimal text (`codecs.encode(.., 'hex_codec')`, `int(.., 16)`, `format(.., 'x')`, `str.zfill`) and
 * the big-endian reading of a byte string as an integer (OS2IP, section 4.2 of RFC 8017).
 */
module Encoding {
  import opened Text

  type byte = b: int | 0 <= b < 256

  // ---------------------------------------------------------------------------------------------
  // UTF-8
  // ---------------------------------------------------------------------------------------------

  function Utf8Char(c: char): (r: seq<byte>)
    ensures 1 <= |r| <= 4
    ensures IsAsciiChar(c) <==> r == [c as int]
  {
    var n := c as int;
    if n < 0x80 then [n]
    else if n < 0x800 then [0xC0 + n / 64, 0x80 + n % 64]
    else if n < 0x10000 then [0xE0 + n / 4096, 0x80 + n / 64 % 64, 0x80 + n % 64]
    else [0xF0 + n / 262144, 0x80 + n / 4096 % 64, 0x80 + n / 64 % 64, 0x80 + n % 64]
  }

  /** `s.encode('utf-8')` */
  function Utf8(s: string): (r: seq<byte>)
    ensures |r| >= |s|
  {
    if s == [] then [] else Utf8Char(s[0]) + Utf8(s[1..])
  }

  /** On ASCII text UTF-8 is the identity: one byte per character, equal to its code. */
  lemma {:induction false} Utf8OfAscii(s: string)
    requires IsAscii(s)
    ensures |Utf8(s)| == |s|
    ensures forall i :: 0 <= i < |s| ==> Utf8(s)[i] == s[i] as int
  {
    if s != [] {
      Utf8OfAscii(s[1..]);
      assert Utf8(s) == [s[0] as int] + Utf8(s[1..]);
    }
  }

  /** Decoding of ASCII bytes back to text (the inverse of `Utf8` on ASCII). */
  function AsciiText(b: seq<byte>): (r: string)
    requires forall i :: 0 <= i < |b| ==> b[i] < 128
    ensures |r| == |b| && IsAscii(r)
    ensures forall i :: 0 <= i < |b| ==> r[i] as int == b[i]
  {
    if b == [] then "" else [b[0] as char] + AsciiText(b[1..])
  }

  lemma {:induction false} AsciiTextOfUtf8(s: string)
    requires IsAscii(s)
    ensures forall i :: 0 <= i < |Utf8(s)| ==> Utf8(s)[i] < 128
    ensures AsciiText(Utf8(s)) == s
  {
    Utf8OfAscii(s);
    var b := Utf8(s);
    assert forall i :: 0 <= i < |b| ==> b[i] < 128;
    var t := AsciiText(b);
    assert |t| == |s|;
    assert forall i :: 0 <= i < |s| ==> t[i] == s[i] by {
      forall i | 0 <= i < |s| ensures t[i] == s[i] {
        assert t[i] as int == s[i] as int;
      }
    }
  }

  // ---------------------------------------------------------------------------------------------
  // Base64, RFC 4648 section 4 (standard alphabet, '=' padding)
  // ---------------------------------------------------------------------------------------------

  /** The base64 alphabet: `A`-`Z`, `a`-`z`, `0`-`9`, `+`, `/`. */
  function B64Char(d: nat): (c: char)
    requires d < 64
    ensures IsAsciiChar(c) && c != '='
  {
    if d < 26 then ('A' as int + d) as char
    else if d < 52 then ('a' as int + d - 26) as char
    else if d < 62 then ('0' as int + d - 52) as char
    else if d == 62 then '+'
    else '/'
  }

  /** The six-bit value of a base64 alphabet character (an inverse of `B64Char`). */
  function B64Value(c: char): (d: nat)
    ensures d < 64
  {
    if 'A' <= c <= 'Z' then c as int - 'A' as int
    else if 'a' <= c <= 'z' then c as int - 'a' as int + 26
    else if '0' <= c <= '9' then c as int - '0' as int + 52
    else if c == '+' then 62
    else if c == '/' then 63
    else 0
  }

  lemma B64ValueOfChar(d: nat)
    requires d < 64
    ensures B64Value(B64Char(d)) == d
  {
  }

  /** The four characters that encode a 24-bit group, most significant six bits first. */
  function Quad(n: nat): (r: string)
    requires n < 0x1000000
    ensures |r| == 4 && IsAscii(r)
    ensures forall i :: 0 <= i < 4 ==> r[i] != '='
  {
    [B64Char(n / 0x40000), B64Char(n / 0x1000 % 64), B64Char(n / 64 % 64), B64Char(n % 64)]
  }

  /** The 24-bit group four characters stand for. */
  function QuadValue(s: string): nat
    requires |s| >= 4
  {
    B64Value(s[0]) * 0x40000 + B64Value(s[1]) * 0x1000 + B64Value(s[2]) * 64 + B64Value(s[3])
  }

  lemma QuadRoundTrip(n: nat)
    requires n < 0x1000000
    ensures QuadValue(Quad(n)) == n
  {
    var q := Quad(n);
    B64ValueOfChar(n / 0x40000);
    B64ValueOfChar(n / 0x1000 % 64);
    B64ValueOfChar(n / 64 % 64);
    B64ValueOfChar(n % 64);
    SixBitDigits(n);
  }

  /** The four characters for a group of one to three bytes, padded with '=' when the group is short. */
  function EncodeGroup(g: seq<byte>): (r: string)
    requires 1 <= |g| <= 3
    ensures |r| == 4 && IsAscii(r)
    ensures r[0] != '=' && r[1] != '='
    ensures (r[2] == '=' <==> |g| == 1) && (r[3] == '=' <==> |g| < 3)
  {
    if |g| == 1 then Quad((g[0] as int) * 0x10000)[..2] + "=="
    else if |g| == 2 then Quad((g[0] as int) * 0x10000 + (g[1] as int) * 0x100)[..3] + "="
    else Quad((g[0] as int) * 0x10000 + (g[1] as int) * 0x100 + g[2])
  }

  /** `base64.b64encode(b).decode()` */
  function Base64(b: seq<byte>): (r: string)
    ensures IsAscii(r)
    decreases |b|
  {
    if b == [] then ""
    else if |b| <= 3 then EncodeGroup(b)
    else EncodeGroup(b[..3]) + Base64(b[3..])
  }

  /** Every started group of three bytes becomes four characters. */
  lemma {:induction false} Base64Length(b: seq<byte>)
    ensures |Base64(b)| == 4 * ((|b| + 2) / 3)
    decreases |b|
  {
    if |b| > 3 {
      Base64Length(b[3..]);
      assert |Base64(b)| == 4 + |Base64(b[3..])|;
      assert (|b| + 2) / 3 == (|b[3..]| + 2) / 3 + 1;
    } else if b != [] {
      assert (|b| + 2) / 3 == 1;
    }
  }

  /** The bytes one four-character group decodes to: one, two or three, depending on its '=' padding. */
  function GroupBytes(s: string): (r: seq<byte>)
    requires |s| == 4
  {
    var n := QuadValue(s);
    if s[2] == '=' then [n / 0x10000]
    else if s[3] == '=' then [n / 0x10000, n / 0x100 % 0x100]
    else [n / 0x10000, n / 0x100 % 0x100, n % 0x100]
  }

  /** Decoding of well-formed base64 text, group by group; a trailing fragment shorter than a group is dropped. */
  function Unbase64(s: string): (r: seq<byte>)
    decreases |s|
  {
    if |s| < 4 then []
    else if s[2] == '=' || s[3] == '=' then GroupBytes(s[..4])
    else GroupBytes(s[..4]) + Unbase64(s[4..])
  }

  /** The four six-bit digits of a 24-bit group put back together. */
  lemma SixBitDigits(n: nat)
    requires n < 0x1000000
    ensures n == n / 0x40000 * 0x40000 + n / 0x1000 % 64 * 0x1000 + n / 64 % 64 * 64 + n % 64
  {
    var q1, q2, q3 := n / 64, n / 0x1000, n / 0x40000;
    assert n == q1 * 64 + n % 64;
    assert q1 / 64 == q2;
    assert q1 == q2 * 64 + q1 % 64;
    assert q2 / 64 == q3;
    assert q2 == q3 * 64 + q2 % 64;
  }

  lemma ByteDigits(x: byte, y: byte, z: byte)
    ensures var n := (x as int) * 0x10000 + (y as int) * 0x100 + z;
      n / 0x10000 == x && n / 0x100 % 0x100 == y && n % 0x100 == z
  {
  }

  lemma OneByteLowDigits(x: byte)
    ensures var n := (x as int) * 0x10000; n / 64 % 64 == 0 && n % 64 == 0
  {
  }

  lemma TwoByteLowDigit(x: byte, y: byte)
    ensures ((x as int) * 0x10000 + (y as int) * 0x100) % 64 == 0
  {
  }

  /** The value of a group whose characters are the leading digits of `Quad(n)` followed by padding. */
  lemma PaddedQuadValue(n: nat, s: string, k: nat)
    requires n < 0x1000000 && 2 <= k <= 4 && |s| == 4
    requires forall i :: 0 <= i < k ==> s[i] == Quad(n)[i]
    requires forall i :: k <= i < 4 ==> s[i] == '='
    ensures QuadValue(s) == n / 0x40000 * 0x40000 + n / 0x1000 % 64 * 0x1000
                            + (if k >= 3 then n / 64 % 64 * 64 else 0) + (if k == 4 then n % 64 else 0)
  {
    B64ValueOfChar(n / 0x40000);
    B64ValueOfChar(n / 0x1000 % 64);
    B64ValueOfChar(n / 64 % 64);
    B64ValueOfChar(n % 64);
  }

  /** The value of the padded characters for one byte is the byte's 24-bit group. */
  lemma OneByteValue(n: nat)
    requires n < 0x1000000 && n / 64 % 64 == 0 && n % 64 == 0
    ensures QuadValue(Quad(n)[..2] + "==") == n
  {
    PaddedQuadValue(n, Quad(n)[..2] + "==", 2);
    SixBitDigits(n);
  }

  /** The value of the padded characters for two bytes is their 24-bit group. */
  lemma TwoByteValue(n: nat)
    requires n < 0x1000000 && n % 64 == 0
    ensures QuadValue(Quad(n)[..3] + "=") == n
  {
    PaddedQuadValue(n, Quad(n)[..3] + "=", 3);
    SixBitDigits(n);
  }

  lemma OneByteGroup(g: seq<byte>)
    requires |g| == 1
    ensures GroupBytes(EncodeGroup(g)) == g
  {
    var n := (g[0] as int) * 0x10000;
    var s := Quad(n)[..2] + "==";
    assert EncodeGroup(g) == s;
    ByteDigits(g[0], 0, 0);
    OneByteLowDigits(g[0]);
    OneByteValue(n);
    assert s[2] == '=';
    assert g == [g[0]];
  }

  lemma TwoByteGroup(g: seq<byte>)
    requires |g| == 2
    ensures GroupBytes(EncodeGroup(g)) == g
  {
    var n := (g[0] as int) * 0x10000 + (g[1] as int) * 0x100;
    var s := Quad(n)[..3] + "=";
    assert EncodeGroup(g) == s;
    ByteDigits(g[0], g[1], 0);
    TwoByteLowDigit(g[0], g[1]);
    TwoByteValue(n);
    assert s[2] != '=' && s[3] == '=';
    assert g == [g[0], g[1]];
  }

  lemma ThreeByteGroup(g: seq<byte>)
    requires |g| == 3
    ensures GroupBytes(EncodeGroup(g)) == g
  {
    var n := (g[0] as int) * 0x10000 + (g[1] as int) * 0x100 + g[2];
    var s := Quad(n);
    assert EncodeGroup(g) == s;
    ByteDigits(g[0], g[1], g[2]);
    QuadRoundTrip(n);
    assert g == [g[0], g[1], g[2]];
  }

  /** Each group of one to three bytes decodes back to itself. */
  lemma GroupRoundTrip(g: seq<byte>)
    requires 1 <= |g| <= 3
    ensures GroupBytes(EncodeGroup(g)) == g
  {
    if |g| == 1 {
      OneByteGroup(g);
    } else if |g| == 2 {
      TwoByteGroup(g);
    } else {
      ThreeByteGroup(g);
    }
  }

  /** Decoding inverts encoding, so a base64 pass of the signer loses nothing. */
  lemma {:induction false} Base64RoundTrip(b: seq<byte>)
    ensures Unbase64(Base64(b)) == b
    decreases |b|
  {
    if 1 <= |b| <= 3 {
      var s := EncodeGroup(b);
      GroupRoundTrip(b);
      assert s[..4] == s;
      if |b| == 3 {
        assert Unbase64(s) == GroupBytes(s) + Unbase64(s[4..]);
        assert s[4..] == [];
      }
    } else if |b| > 3 {
      var q, t := EncodeGroup(b[..3]), Base64(b[3..]);
      UnbaseCons(q, t);
      GroupRoundTrip(b[..3]);
      Base64RoundTrip(b[3..]);
      assert b == b[..3] + b[3..];
    }
  }

  /** An unpadded group followed by more text decodes group by group. */
  lemma UnbaseCons(q: string, t: string)
    requires |q| == 4 && q[2] != '=' && q[3] != '='
    ensures Unbase64(q + t) == GroupBytes(q) + Unbase64(t)
  {
    var s := q + t;
    assert s[..4] == q && s[4..] == t;
  }

  // ---------------------------------------------------------------------------------------------
  // Hexadecimal text and big-endian integers
  // ---------------------------------------------------------------------------------------------

  predicate IsLowerHexDigit(c: char) {
    ('0' <= c <= '9') || ('a' <= c <= 'f')
  }

  predicate IsLowerHex(s: string) {
    forall i :: 0 <= i < |s| ==> IsLowerHexDigit(s[i])
  }

  function HexDigitValue(c: char): (d: nat)
    requires IsLowerHexDigit(c)
    ensures d < 16
  {
    if '0' <= c <= '9' then c as int - '0' as int else c as int - 'a' as int + 10
  }

  lemma HexDigitValueOf(d: nat)
    requires d < 16
    ensures IsLowerHexDigit(HexDigit(d)) && HexDigitValue(HexDigit(d)) == d
  {
  }

  /** `int(s, 16)` for a non-empty string of lower-case hex digits. */
  function HexValue(s: string): nat
    requires IsLowerHex(s)
  {
    if s == [] then 0 else HexValue(s[..|s| - 1]) * 16 + HexDigitValue(s[|s| - 1])
  }

  function Pow(b: nat, k: nat): (r: nat)
    ensures b > 0 ==> r > 0
  {
    if k == 0 then 1 else b * Pow(b, k - 1)
  }

  /** `format(n, 'x')`: lower-case hex without leading zeros ("0" for zero). */
  function ToHex(n: nat): (r: string)
    ensures |r| > 0 && IsLowerHex(r)
    decreases n
  {
    HexDigitValueOf(n % 16);
    if n < 16 then [HexDigit(n)] else ToHex(n / 16) + [HexDigit(n % 16)]
  }

  lemma {:induction false} HexValueOfToHex(n: nat)
    ensures HexValue(ToHex(n)) == n
    decreases n
  {
    HexDigitValueOf(n % 16);
    if n >= 16 {
      HexValueOfToHex(n / 16);
      var s := ToHex(n);
      assert s[..|s| - 1] == ToHex(n / 16);
    }
  }

  /** A number below 16^k needs at most k hex digits. */
  lemma {:induction false} ToHexShort(n: nat, k: nat)
    requires k >= 1 && n < Pow(16, k)
    ensures |ToHex(n)| <= k
    decreases k
  {
    if n >= 16 {
      assert Pow(16, 1) == 16;
      assert n / 16 < Pow(16, k - 1);
      ToHexShort(n / 16, k - 1);
    }
  }

  /** `s.zfill(width)` for a string without a sign. */
  function ZFill(s: string, width: nat): (r: string)
    ensures |r| == if |s| >= width then |s| else width
    ensures |s| <= |r| && r[|r| - |s|..] == s
    ensures forall i :: 0 <= i < |r| - |s| ==> r[i] == '0'
  {
    if |s| >= width then s else seq(width - |s|, _ => '0') + s
  }

  /** Leading zeros do not change a hex value. */
  lemma {:induction false} HexValueOfZeros(z: nat, s: string)
    requires IsLowerHex(s)
    ensures IsLowerHex(seq(z, _ => '0') + s)
    ensures HexValue(seq(z, _ => '0') + s) == HexValue(s)
    decreases |s|
  {
    var t := seq(z, _ => '0') + s;
    if s == [] {
      assert t == seq(z, _ => '0');
      ZerosValue(z);
    } else {
      assert t[..|t| - 1] == seq(z, _ => '0') + s[..|s| - 1];
      HexValueOfZeros(z, s[..|s| - 1]);
    }
  }

  lemma {:induction false} ZerosValue(z: nat)
    ensures IsLowerHex(seq(z, _ => '0'))
    ensures HexValue(seq(z, _ => '0')) == 0
  {
    if z > 0 {
      var t := seq(z, _ => '0');
      assert t[..z - 1] == seq(z - 1, _ => '0');
      ZerosValue(z - 1);
    }
  }

  /** Two lower-case hex digits per byte, as `codecs.encode(b, 'hex_codec')` writes them. */
  function HexOfBytes(b: seq<byte>): (r: string)
    ensures |r| == 2 * |b| && IsLowerHex(r)
  {
    HexDigitValueOf(if b == [] then 0 else b[|b| - 1] / 16);
    HexDigitValueOf(if b == [] then 0 else b[|b| - 1] % 16);
    if b == [] then "" else HexOfBytes(b[..|b| - 1]) + [HexDigit(b[|b| - 1] / 16), HexDigit(b[|b| - 1] % 16)]
  }

  /** OS2IP: the octets read as a base-256 number, most significant first. */
  function Os2ip(b: seq<byte>): (r: nat)
    ensures r < Pow(256, |b|)
  {
    if b == [] then 0 else Os2ip(b[..|b| - 1]) * 256 + b[|b| - 1]
  }

  /** Reading the hex text back with `int(.., 16)` gives exactly OS2IP of the bytes. */
  lemma {:induction false} HexOfBytesValue(b: seq<byte>)
    ensures HexValue(HexOfBytes(b)) == Os2ip(b)
  {
    if b != [] {
      var h := HexOfBytes(b);
      var last := b[|b| - 1];
      HexDigitValueOf(last / 16);
      HexDigitValueOf(last % 16);
      assert h[..|h| - 1] == HexOfBytes(b[..|b| - 1]) + [HexDigit(last / 16)];
      assert h[..|h| - 1][..|h| - 2] == HexOfBytes(b[..|b| - 1]);
      HexOfBytesValue(b[..|b| - 1]);
    }
  }
}
