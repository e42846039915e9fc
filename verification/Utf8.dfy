/** UTF-8 as the parser uses it: the decoder of Go's unicode/utf8 package
    (RFC 3629, section 3), with its three outcomes for the head of a buffer:
    a decoded rune, a genuinely invalid byte, or an incomplete sequence. */
module Utf8 {

  type byte = b: int | 0 <= b < 256

  /** A Unicode scalar value. */
  type Rune = r: int | 0 <= r < 0xD800 || 0xE000 <= r < 0x110000

  const RUNE_ERROR: Rune := 0xFFFD
  const UTF_MAX := 4

  /** How many bytes the sequence led by `b` has; 1 for ASCII and for a byte
      that can never lead a sequence. */
  function Need(b: byte): (n: nat)
    ensures 1 <= n <= UTF_MAX
  {
    if 0xC2 <= b < 0xE0 then 2
    else if 0xE0 <= b < 0xF0 then 3
    else if 0xF0 <= b < 0xF5 then 4
    else 1
  }

  predicate Cont(b: byte) { 0x80 <= b < 0xC0 }

  /** The range of the second byte, narrower than Cont after E0, ED, F0, F4. */
  predicate Second(lead: byte, b: byte) {
    if lead == 0xE0 then 0xA0 <= b < 0xC0
    else if lead == 0xED then 0x80 <= b < 0xA0
    else if lead == 0xF0 then 0x90 <= b < 0xC0
    else if lead == 0xF4 then 0x80 <= b < 0x90
    else Cont(b)
  }

  /** The bytes of `s` that belong to its first sequence are the right ones, as
      far as `s` goes. */
  predicate PrefixOk(s: seq<byte>) {
    |s| > 0 ==>
      var n := Need(s[0]);
      && (n > 1 && |s| > 1 ==> Second(s[0], s[1]))
      && (n > 2 && |s| > 2 ==> Cont(s[2]))
      && (n > 3 && |s| > 3 ==> Cont(s[3]))
  }

  /** utf8.FullRune: `s` begins with a rune or with bytes that cannot become one. */
  predicate FullRune(s: seq<byte>) {
    |s| > 0 && (|s| >= Need(s[0]) || !PrefixOk(s))
  }

  /** utf8.DecodeRune: the rune and its size, or RUNE_ERROR and 1 (0 when empty). */
  function Decode(s: seq<byte>): (d: (Rune, nat))
    ensures s != [] ==> 1 <= d.1 <= |s|
    ensures d.1 > 1 ==> s != [] && d.1 == Need(s[0]) && PrefixOk(s)
  {
    if s == [] then (RUNE_ERROR, 0)
    else if s[0] < 0x80 then (s[0], 1)
    else if Need(s[0]) == 1 || |s| < Need(s[0]) || !PrefixOk(s) then (RUNE_ERROR, 1)
    else
      var a: int := s[0];
      var b: int := s[1];
      if Need(s[0]) == 2 then ((a - 0xC0) * 0x40 + (b - 0x80), 2)
      else
        var c: int := s[2];
        if Need(s[0]) == 3 then
          ((a - 0xE0) * 0x1000 + (b - 0x80) * 0x40 + (c - 0x80), 3)
        else
          var d: int := s[3];
          ((a - 0xF0) * 0x40000 + (b - 0x80) * 0x1000 + (c - 0x80) * 0x40 + (d - 0x80), 4)
  }

  /** utf8.AppendRune onto an empty buffer. */
  function Encode(r: Rune): (s: seq<byte>)
    ensures 1 <= |s| <= UTF_MAX
    ensures r >= 0x80 ==> |s| >= 2 && forall i :: 0 <= i < |s| ==> s[i] >= 0x80
    ensures r < 0x80 ==> s == [r]
  {
    if r < 0x80 then [r]
    else if r < 0x800 then [0xC0 + r / 0x40, 0x80 + r % 0x40]
    else if r < 0x10000 then
      assert r / 0x1000 < 16;
      [0xE0 + r / 0x1000, 0x80 + r / 0x40 % 0x40, 0x80 + r % 0x40]
    else [0xF0 + r / 0x40000, 0x80 + r / 0x1000 % 0x40, 0x80 + r / 0x40 % 0x40, 0x80 + r % 0x40]
  }

  function EncodeAll(rs: seq<Rune>): seq<byte> {
    if rs == [] then [] else Encode(rs[0]) + EncodeAll(rs[1..])
  }

  /** No sequence begun in `s` is cut short by a byte that does not continue it.
      Bytes that can never lead a sequence may stand anywhere, and the last
      sequence may still be incomplete. */
  predicate NoTorn(s: seq<byte>) {
    forall i :: 0 <= i < |s| ==> PrefixOk(s[i..])
  }

  lemma NoTornHead(s: seq<byte>)
    requires NoTorn(s)
    ensures PrefixOk(s)
  {
    if s != [] {
      assert s[0..] == s;
    }
  }

  lemma NoTornSuffix(s: seq<byte>, k: nat)
    requires NoTorn(s) && k <= |s|
    ensures NoTorn(s[k..])
  {
    forall i | 0 <= i < |s[k..]| ensures PrefixOk(s[k..][i..]) {
      assert s[k..][i..] == s[k + i..];
    }
  }

  lemma NoTornPrefix(s: seq<byte>, k: nat)
    requires NoTorn(s) && k <= |s|
    ensures NoTorn(s[..k])
  {
    forall i | 0 <= i < k ensures PrefixOk(s[..k][i..]) {
      assert s[..k][i..] == s[i..][..k - i];
      assert PrefixOk(s[i..]);
    }
  }

  /** The digits of a rune to base 64, as the encoding of each length uses them. */
  lemma Base64Digits(r: nat)
    ensures r == 0x40 * (r / 0x40) + r % 0x40 && 0 <= r % 0x40 < 0x40
    ensures r / 0x40 == 0x40 * (r / 0x1000) + r / 0x40 % 0x40 && 0 <= r / 0x40 % 0x40 < 0x40
    ensures r / 0x1000 == 0x40 * (r / 0x40000) + r / 0x1000 % 0x40 && 0 <= r / 0x1000 % 0x40 < 0x40
  {
    assert r / 0x1000 == r / 0x40 / 0x40;
    assert r / 0x40000 == r / 0x1000 / 0x40;
  }

  /** Decoding inverts encoding, whatever follows. */
  lemma EncodeDecode(r: Rune, rest: seq<byte>)
    ensures Decode(Encode(r) + rest) == (r, |Encode(r)|)
    ensures r >= 0x80 ==> Need(Encode(r)[0]) == |Encode(r)| && PrefixOk(Encode(r) + rest)
  {
    var e := Encode(r);
    var s := e + rest;
    assert forall i :: 0 <= i < |e| ==> s[i] == e[i];
    Base64Digits(r);
  }

  lemma Undigits(a: nat, b: nat, c: nat, d: nat)
    requires b < 0x40 && c < 0x40 && d < 0x40
    ensures var r := a * 0x40000 + b * 0x1000 + c * 0x40 + d;
      && r % 0x40 == d && r / 0x40 % 0x40 == c && r / 0x1000 % 0x40 == b && r / 0x40000 == a
      && r / 0x1000 == a * 0x40 + b && r / 0x40 == a * 0x1000 + b * 0x40 + c
  {
    var r := a * 0x40000 + b * 0x1000 + c * 0x40 + d;
    assert r / 0x40 == a * 0x1000 + b * 0x40 + c;
    assert r / 0x1000 == a * 0x40 + b;
    assert r / 0x40000 == a;
  }

  /** Only one byte string encodes a rune: what decodes to more than one byte
      is the encoding of the result. */
  lemma DecodeEncode(s: seq<byte>)
    requires s != [] && (s[0] < 0x80 || Decode(s).1 > 1)
    ensures Encode(Decode(s).0) == s[..Decode(s).1]
    ensures s[0] >= 0x80 ==> Decode(s).0 >= 0x80
  {
    var n := Decode(s).1;
    if n == 2 {
      Undigits(0, 0, s[0] - 0xC0, s[1] - 0x80);
    } else if n == 3 {
      Undigits(0, s[0] - 0xE0, s[1] - 0x80, s[2] - 0x80);
    } else if n == 4 {
      Undigits(s[0] - 0xF0, s[1] - 0x80, s[2] - 0x80, s[3] - 0x80);
    }
  }

  /** The head of a buffer decides its decoding: more bytes after a full rune
      change nothing. */
  lemma DecodeExtend(s: seq<byte>, more: seq<byte>)
    requires FullRune(s)
    ensures Decode(s + more) == Decode(s)
  {
  }
}
