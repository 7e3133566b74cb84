/**
 * The base 64 encoding of section 4 of RFC 4648 (the alphabet of Table 1,
 * `=` padding of the final quantum), which `btoa` produces, and a strict
 * decoder for it.
 */
module Base64 {
  import opened Wrappers

  type Byte = x: int | 0 <= x < 256
  type Sextet = x: int | 0 <= x < 64

  /** Table 1 of RFC 4648: A-Z, a-z, 0-9, '+', '/'. */
  function Char(v: Sextet): (c: char)
    ensures c != '='
  {
    if v < 26 then ('A' as int + v) as char
    else if v < 52 then ('a' as int + (v - 26)) as char
    else if v < 62 then ('0' as int + (v - 52)) as char
    else if v == 62 then '+'
    else '/'
  }

  /** The inverse of Table 1; `None` for a character outside the alphabet. */
  function Index(c: char): (r: Option<Sextet>)
    ensures r.Some? ==> Char(r.value) == c
  {
    if 'A' <= c <= 'Z' then Some(c as int - 'A' as int)
    else if 'a' <= c <= 'z' then Some(c as int - 'a' as int + 26)
    else if '0' <= c <= '9' then Some(c as int - '0' as int + 52)
    else if c == '+' then Some(62)
    else if c == '/' then Some(63)
    else None
  }

  lemma IndexOfChar(v: Sextet)
    ensures Index(Char(v)) == Some(v)
  {
  }

  /** Three input bytes as four characters: the 24 bits read as four 6-bit groups, most significant first. */
  function EncodeTriple(b0: Byte, b1: Byte, b2: Byte): string
  {
    [Char(b0 / 4), Char((b0 % 4) * 16 + b1 / 16), Char((b1 % 16) * 4 + b2 / 64), Char(b2 % 64)]
  }

  /** `btoa` over the Latin-1 bytes of its argument. */
  function Encode(b: seq<Byte>): (r: string)
    decreases |b|
  {
    if |b| == 0 then []
    else if |b| == 1 then [Char(b[0] / 4), Char((b[0] % 4) * 16), '=', '=']
    else if |b| == 2 then [Char(b[0] / 4), Char((b[0] % 4) * 16 + b[1] / 16), Char((b[1] % 16) * 4), '=']
    else EncodeTriple(b[0], b[1], b[2]) + Encode(b[3..])
  }

  /** Three bytes from the 24 bits of four sextets (the leading bits of a short final group). */
  function Unpack(x0: Sextet, x1: Sextet, x2: Sextet, x3: Sextet): (r: seq<Byte>)
    ensures |r| == 3
  {
    var i0, i1, i2, i3 := x0 as int, x1 as int, x2 as int, x3 as int;
    [i0 * 4 + i1 / 16, (i1 % 16) * 16 + i2 / 4, (i2 % 4) * 64 + i3]
  }

  /** Four alphabet characters back to three bytes. */
  function DecodeQuad(c0: char, c1: char, c2: char, c3: char): Option<seq<Byte>>
  {
    match (Index(c0), Index(c1), Index(c2), Index(c3))
    case (Some(x0), Some(x1), Some(x2), Some(x3)) =>
      Some(Unpack(x0, x1, x2, x3))
    case _ => None
  }

  /** The final quantum, which may carry one or two `=`; the bits the padding discards must be zero. */
  function DecodeFinal(c0: char, c1: char, c2: char, c3: char): Option<seq<Byte>>
  {
    if c2 == '=' && c3 == '=' then
      match (Index(c0), Index(c1))
      case (Some(x0), Some(x1)) =>
        if x1 % 16 == 0 then Some(Unpack(x0, x1, 0, 0)[..1]) else None
      case _ => None
    else if c3 == '=' then
      match (Index(c0), Index(c1), Index(c2))
      case (Some(x0), Some(x1), Some(x2)) =>
        if x2 % 4 == 0 then Some(Unpack(x0, x1, x2, 0)[..2]) else None
      case _ => None
    else DecodeQuad(c0, c1, c2, c3)
  }

  /** Strict decoding: a whole number of quanta, padding only at the end, canonical pad bits. */
  function Decode(s: string): Option<seq<Byte>>
    decreases |s|
  {
    if |s| % 4 != 0 then None
    else if |s| == 0 then Some([])
    else if |s| == 4 then DecodeFinal(s[0], s[1], s[2], s[3])
    else
      var head, tail := DecodeQuad(s[0], s[1], s[2], s[3]), Decode(s[4..]);
      if head.Some? && tail.Some? then Some(head.value + tail.value) else None
  }

  /** Every 3 bytes, and a final partial group, become 4 characters. */
  lemma {:induction false} EncodeLength(b: seq<Byte>)
    ensures |Encode(b)| == 4 * ((|b| + 2) / 3)
    decreases |b|
  {
    if |b| > 2 {
      EncodeLength(b[3..]);
      assert Encode(b) == EncodeTriple(b[0], b[1], b[2]) + Encode(b[3..]);
      assert (|b| + 2) / 3 == 1 + (|b[3..]| + 2) / 3;
    }
  }

  /** Splitting three bytes into sextets and packing them again is the identity. */
  lemma UnpackPack(b0: Byte, b1: Byte, b2: Byte)
    ensures Unpack(b0 / 4, (b0 % 4) * 16 + b1 / 16, (b1 % 16) * 4 + b2 / 64, b2 % 64) == [b0, b1, b2]
  {
    var x1 := (b0 % 4) * 16 + b1 / 16;
    var x2 := (b1 % 16) * 4 + b2 / 64;
    Split16(b0 % 4, b1 / 16);
    Split4(b1 % 16, b2 / 64);
  }

  lemma Split16(hi: nat, lo: nat)
    requires lo < 16
    ensures (hi * 16 + lo) / 16 == hi && (hi * 16 + lo) % 16 == lo
  {
  }

  lemma Split4(hi: nat, lo: nat)
    requires lo < 4
    ensures (hi * 4 + lo) / 4 == hi && (hi * 4 + lo) % 4 == lo
  {
  }

  lemma TripleRoundTrip(b0: Byte, b1: Byte, b2: Byte)
    ensures var e := EncodeTriple(b0, b1, b2); DecodeQuad(e[0], e[1], e[2], e[3]) == Some([b0, b1, b2])
  {
    IndexOfChar(b0 / 4);
    IndexOfChar((b0 % 4) * 16 + b1 / 16);
    IndexOfChar((b1 % 16) * 4 + b2 / 64);
    IndexOfChar(b2 % 64);
    UnpackPack(b0, b1, b2);
  }

  lemma FinalOneRoundTrip(b0: Byte)
    ensures Decode(Encode([b0])) == Some([b0])
  {
    var x0, x1 := b0 / 4, (b0 % 4) * 16;
    IndexOfChar(x0);
    IndexOfChar(x1);
    var e := Encode([b0]);
    assert e == [Char(x0), Char(x1), '=', '='];
    assert Decode(e) == DecodeFinal(e[0], e[1], e[2], e[3]);
    Split16(b0 % 4, 0);
    assert x1 % 16 == 0 && x1 / 16 == b0 % 4;
    assert Unpack(x0, x1, 0, 0)[..1] == [b0];
  }

  lemma FinalTwoRoundTrip(b0: Byte, b1: Byte)
    ensures Decode(Encode([b0, b1])) == Some([b0, b1])
  {
    var x0, x1, x2 := b0 / 4, (b0 % 4) * 16 + b1 / 16, (b1 % 16) * 4;
    IndexOfChar(x0);
    IndexOfChar(x1);
    IndexOfChar(x2);
    var e := Encode([b0, b1]);
    assert e == [Char(x0), Char(x1), Char(x2), '='];
    assert Decode(e) == DecodeFinal(e[0], e[1], e[2], e[3]);
    Split16(b0 % 4, b1 / 16);
    Split4(b1 % 16, 0);
    assert x2 % 4 == 0 && x2 / 4 == b1 % 16;
    assert Unpack(x0, x1, x2, 0)[..2] == [b0, b1];
  }

  /** Decoding undoes encoding: `Decode(Encode(b)) == Some(b)`. */
  lemma {:induction false} DecodeEncode(b: seq<Byte>)
    ensures Decode(Encode(b)) == Some(b)
    decreases |b|
  {
    if |b| == 1 {
      assert b == [b[0]];
      FinalOneRoundTrip(b[0]);
    } else if |b| == 2 {
      assert b == [b[0], b[1]];
      FinalTwoRoundTrip(b[0], b[1]);
    } else if |b| > 2 {
      DecodeEncode(b[3..]);
      DecodeEncodeStep(b);
    }
  }

  /** One full quantum in front of a remainder that already round-trips. */
  lemma DecodeEncodeStep(b: seq<Byte>)
    requires |b| > 2 && Decode(Encode(b[3..])) == Some(b[3..])
    ensures Decode(Encode(b)) == Some(b)
  {
    var q := [b[0], b[1], b[2]];
    var e, rest := EncodeTriple(b[0], b[1], b[2]), Encode(b[3..]);
    assert Encode(b) == e + rest;
    TripleRoundTrip(b[0], b[1], b[2]);
    assert |e| == 4 && e[2] != '=' && e[3] != '=';
    DecodeQuadThen(e, q, rest, b[3..]);
    SplitThree(b);
  }

  lemma SplitThree(b: seq<Byte>)
    requires |b| > 2
    ensures b == [b[0], b[1], b[2]] + b[3..]
  {
  }

  /** A full quantum followed by a decodable remainder decodes to the concatenation. */
  lemma DecodeQuadThen(e: string, q: seq<Byte>, rest: string, r: seq<Byte>)
    requires |e| == 4 && e[2] != '=' && e[3] != '='
    requires DecodeQuad(e[0], e[1], e[2], e[3]) == Some(q)
    requires Decode(rest) == Some(r)
    ensures Decode(e + rest) == Some(q + r)
  {
    if rest == [] {
      assert e + rest == e;
      DecodeLastQuad(e, q);
      assert q + r == q;
    } else {
      assert |rest| % 4 == 0;
      DecodeFrontQuad(e, q, rest, r);
    }
  }

  /** A single full quantum is the final one. */
  lemma DecodeLastQuad(e: string, q: seq<Byte>)
    requires |e| == 4 && e[2] != '=' && e[3] != '='
    requires DecodeQuad(e[0], e[1], e[2], e[3]) == Some(q)
    ensures Decode(e) == Some(q)
  {
  }

  /** A full quantum in front of more quanta. */
  lemma DecodeFrontQuad(e: string, q: seq<Byte>, rest: string, r: seq<Byte>)
    requires |e| == 4 && rest != [] && |rest| % 4 == 0
    requires DecodeQuad(e[0], e[1], e[2], e[3]) == Some(q)
    requires Decode(rest) == Some(r)
    ensures Decode(e + rest) == Some(q + r)
  {
    var s := e + rest;
    assert s[0] == e[0] && s[1] == e[1] && s[2] == e[2] && s[3] == e[3];
    assert s[4..] == rest;
    QuantaAppend(|rest|);
    DecodeUnfold(s, q, r);
  }

  lemma QuantaAppend(n: nat)
    requires n % 4 == 0
    ensures (4 + n) % 4 == 0
  {
  }

  lemma DecodeUnfold(s: string, q: seq<Byte>, r: seq<Byte>)
    requires |s| > 4 && |s| % 4 == 0
    requires DecodeQuad(s[0], s[1], s[2], s[3]) == Some(q)
    requires Decode(s[4..]) == Some(r)
    ensures Decode(s) == Some(q + r)
  {
  }

  lemma Split64(hi: nat, lo: nat)
    requires lo < 64
    ensures (hi * 64 + lo) / 64 == hi && (hi * 64 + lo) % 64 == lo
  {
  }

  lemma Recombine(x: nat, k: nat)
    requires k == 4 || k == 16
    ensures (x / k) * k + x % k == x
  {
  }

  /** Packing four sextets into three bytes and splitting them again gives the sextets back. */
  lemma PackUnpack(x0: Sextet, x1: Sextet, x2: Sextet, x3: Sextet)
    ensures var u := Unpack(x0, x1, x2, x3);
      u[0] / 4 == x0 && (u[0] % 4) * 16 + u[1] / 16 == x1 && (u[1] % 16) * 4 + u[2] / 64 == x2 && u[2] % 64 == x3
  {
    Split4(x0, x1 / 16);
    Split16(x1 % 16, x2 / 4);
    Split64(x2 % 4, x3);
    Recombine(x1, 16);
    Recombine(x2, 4);
  }

  /** A full quantum that decodes is the encoding of the three bytes it decodes to. */
  lemma QuadEncode(c0: char, c1: char, c2: char, c3: char, q: seq<Byte>)
    requires DecodeQuad(c0, c1, c2, c3) == Some(q)
    ensures |q| == 3 && EncodeTriple(q[0], q[1], q[2]) == [c0, c1, c2, c3]
  {
    var x0, x1, x2, x3 := Index(c0).value, Index(c1).value, Index(c2).value, Index(c3).value;
    assert q == Unpack(x0, x1, x2, x3);
    PackUnpack(x0, x1, x2, x3);
  }

  /** A final quantum that decodes is the encoding of the bytes it decodes to. */
  lemma FinalEncode(c0: char, c1: char, c2: char, c3: char, b: seq<Byte>)
    requires DecodeFinal(c0, c1, c2, c3) == Some(b)
    ensures Encode(b) == [c0, c1, c2, c3]
  {
    if c2 == '=' && c3 == '=' {
      var x0, x1 := Index(c0).value, Index(c1).value;
      assert b == [Unpack(x0, x1, 0, 0)[0]];
      PackUnpack(x0, x1, 0, 0);
      Recombine(x1, 16);
    } else if c3 == '=' {
      var x0, x1, x2 := Index(c0).value, Index(c1).value, Index(c2).value;
      var u := Unpack(x0, x1, x2, 0);
      assert b == [u[0], u[1]];
      PackUnpack(x0, x1, x2, 0);
      Recombine(x2, 4);
    } else {
      QuadEncode(c0, c1, c2, c3, b);
      assert Encode(b) == EncodeTriple(b[0], b[1], b[2]) + Encode(b[3..]);
    }
  }

  /** Three bytes in front of more: their quantum in front of the rest's encoding. */
  lemma EncodeCons(q: seq<Byte>, r: seq<Byte>)
    requires |q| == 3
    ensures Encode(q + r) == EncodeTriple(q[0], q[1], q[2]) + Encode(r)
  {
    var b := q + r;
    assert b[0] == q[0] && b[1] == q[1] && b[2] == q[2] && b[3..] == r;
  }

  /**
   * Strict decoding accepts only canonical text: whatever it decodes is
   * the encoding of the result, so `Decode(s) == Some(b)` pins `s` to `Encode(b)`.
   */
  lemma {:induction false} EncodeDecode(s: string)
    requires Decode(s).Some?
    ensures Encode(Decode(s).value) == s
    decreases |s|
  {
    if |s| == 4 {
      FinalDecodeEncode(s);
    } else if |s| != 0 {
      DecodeSplits(s);
      var q, r := DecodeQuad(s[0], s[1], s[2], s[3]).value, Decode(s[4..]).value;
      EncodeDecode(s[4..]);
      EncodeDecodeStep(s, q, r);
    }
  }

  lemma FinalDecodeEncode(s: string)
    requires |s| == 4 && Decode(s).Some?
    ensures Encode(Decode(s).value) == s
  {
    FinalEncode(s[0], s[1], s[2], s[3], Decode(s).value);
    assert s == [s[0], s[1], s[2], s[3]];
  }

  /** A decodable text of several quanta decodes as its first quantum and then the rest. */
  lemma DecodeSplits(s: string)
    requires |s| != 0 && |s| != 4 && Decode(s).Some?
    ensures |s| > 4 && DecodeQuad(s[0], s[1], s[2], s[3]).Some? && Decode(s[4..]).Some?
    ensures Decode(s).value == DecodeQuad(s[0], s[1], s[2], s[3]).value + Decode(s[4..]).value
  {
    assert |s| % 4 == 0;
    QuantumLength(|s|);
  }

  lemma QuantumLength(n: nat)
    requires n % 4 == 0 && n != 0 && n != 4
    ensures n > 4
  {
  }

  lemma EncodeDecodeStep(s: string, q: seq<Byte>, r: seq<Byte>)
    requires |s| > 4 && DecodeQuad(s[0], s[1], s[2], s[3]) == Some(q) && Encode(r) == s[4..]
    ensures Encode(q + r) == s
  {
    QuadEncode(s[0], s[1], s[2], s[3], q);
    EncodeCons(q, r);
    assert s == [s[0], s[1], s[2], s[3]] + s[4..];
  }

  /** Encoding is injective: different credentials never share a header. */
  lemma EncodeInjective(a: seq<Byte>, b: seq<Byte>)
    requires Encode(a) == Encode(b)
    ensures a == b
  {
    DecodeEncode(a);
    DecodeEncode(b);
  }
}
