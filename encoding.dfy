/** Byte-level helpers of the capture parser (Capture/parser/parser.cpp): the Base64 encoder
    (RFC 4648, section 4), the lower-case hex encoder (RFC 4648, section 8) and the big-endian
    16/32-bit readers; together with the decoders that Node's `Buffer.from(text, encoding)`
    applies on the server side, proved to invert the encoders.

    Bytes are integers in [0, 256). The C++ bit operations on `uint8_t` are written as the
    arithmetic they perform: `(b & 0xFC) >> 2` is `b / 4`, `(b & 0x03) << 4` is `b % 4 * 16`,
    `(b & 0xF0) >> 4` is `b / 16`, `(b & 0x0F) << 2` is `b % 16 * 4`, `(b & 0xC0) >> 6` is
    `b / 64`, `b & 0x3F` is `b % 64`, and `|` of two disjoint bit ranges is `+`. */
module Encoding {

  import opened Wrappers

  type byte = x: int | 0 <= x < 256
  type sextet = x: int | 0 <= x < 64

  lemma Div64(q: int, r: int)
    requires 0 <= r < 64
    ensures (q * 64 + r) / 64 == q && (q * 64 + r) % 64 == r
  {
  }

  lemma Div4(q: int, r: int)
    requires 0 <= r < 4
    ensures (q * 4 + r) / 4 == q && (q * 4 + r) % 4 == r
  {
  }

  lemma Div16(q: int, r: int)
    requires 0 <= r < 16
    ensures (q * 16 + r) / 16 == q && (q * 16 + r) % 16 == r
  {
  }

  lemma Div256(q: int, r: int)
    requires 0 <= r < 256
    ensures (q * 256 + r) / 256 == q && (q * 256 + r) % 256 == r
  {
  }

  /** The encoder's table "ABC...XYZabc...xyz0123456789+/": entry `x` of the 64-character
      alphabet of RFC 4648, section 4. */
  function B64(x: sextet): char {
    if x < 26 then ('A' as int + x) as char
    else if x < 52 then ('a' as int + x - 26) as char
    else if x < 62 then ('0' as int + x - 52) as char
    else if x == 62 then '+' else '/'
  }

  // ---------------------------------------------------------------------------------------
  // Base64, RFC 4648 section 4: each 24-bit group of input is cut into four 6-bit groups,
  // each indexing the alphabet; a final group of one or two bytes is padded with zero bits
  // and with "==" or "=".
  // ---------------------------------------------------------------------------------------

  /** The four 6-bit groups of a 24-bit number, most significant first. */
  function Cut24(n: nat): seq<sextet> {
    var m := n / 64;
    var m2 := m / 64;
    [m2 / 64 % 64, m2 % 64, m % 64, n % 64]
  }

  /** The alphabet characters of a sequence of 6-bit values. */
  function Chars(xs: seq<sextet>): (r: string)
    ensures |r| == |xs|
  {
    if xs == [] then "" else [B64(xs[0])] + Chars(xs[1..])
  }

  /** The 6-bit groups of the 24-bit group `b0 b1 b2`: the top six bits of `b0`; its low
      two bits then the top four of `b1`; the low four bits of `b1` then the top two of `b2`;
      the low six bits of `b2` (`Cut24` of the group, as `SextetsAreCut24` proves). */
  function Sextets3(b0: byte, b1: byte, b2: byte): seq<sextet> {
    [b0 as int / 4, b0 as int % 4 * 16 + b1 as int / 16, b1 as int % 16 * 4 + b2 as int / 64, b2 as int % 64]
  }

  /** A final group of two bytes, padded with zero bits: three 6-bit groups. */
  function Sextets2(b0: byte, b1: byte): seq<sextet> {
    [b0 as int / 4, b0 as int % 4 * 16 + b1 as int / 16, b1 as int % 16 * 4]
  }

  /** A final group of one byte, padded with zero bits: two 6-bit groups. */
  function Sextets1(b0: byte): seq<sextet> {
    [b0 as int / 4, b0 as int % 4 * 16]
  }

  /** The padded final groups are the first groups of the group completed with zero bytes. */
  lemma SextetsPadded(b0: byte, b1: byte)
    ensures Sextets2(b0, b1) == Sextets3(b0, b1, 0)[..3]
    ensures Sextets1(b0) == Sextets3(b0, 0, 0)[..2]
  {
  }

  /** Per-byte formulas and cutting the 24-bit number agree. */
  lemma SextetsAreCut24(b0: byte, b1: byte, b2: byte)
    ensures Sextets3(b0, b1, b2) == Cut24((b0 as int * 256 + b1) * 256 + b2)
  {
    var x0, x1, x2, x3 := b0 as int / 4, b0 as int % 4 * 16 + b1 as int / 16, b1 as int % 16 * 4 + b2 as int / 64, b2 as int % 64;
    assert (b0 as int * 256 + b1) * 256 + b2 == ((x0 * 64 + x1) * 64 + x2) * 64 + x3;
    Div64((x0 * 64 + x1) * 64 + x2, x3);
    Div64(x0 * 64 + x1, x2);
    Div64(x0, x1);
    Div64(0, x0);
  }

  /** The standard Base64 encoding of `v`. */
  function Base64(v: seq<byte>): string
    decreases |v|
  {
    if |v| == 0 then ""
    else if |v| == 1 then Chars(Sextets1(v[0])) + "=="
    else if |v| == 2 then Chars(Sextets2(v[0], v[1])) + "="
    else Chars(Sextets3(v[0], v[1], v[2])) + Base64(v[3..])
  }

  lemma {:induction false} Base64Length(v: seq<byte>)
    ensures |Base64(v)| == 4 * ((|v| + 2) / 3)
    decreases |v|
  {
    if |v| > 2 { Base64Length(v[3..]); }
  }

  lemma {:induction false} CharsAt(xs: seq<sextet>)
    ensures forall k | 0 <= k < |xs| :: Chars(xs)[k] == B64(xs[k])
    decreases |xs|
  {
    if xs != [] {
      CharsAt(xs[1..]);
      assert forall k | 1 <= k < |xs| :: Chars(xs)[k] == Chars(xs[1..])[k - 1];
    }
  }

  lemma {:induction false} Base64Append(a: seq<byte>, b: seq<byte>)
    requires |a| % 3 == 0
    ensures Base64(a + b) == Base64(a) + Base64(b)
    decreases |a|
  {
    if |a| > 0 {
      assert (a + b)[3..] == a[3..] + b;
      Base64Append(a[3..], b);
    } else {
      assert a + b == b;
    }
  }

  /** The whole groups of `v[..g + 3]` are those of `v[..g]` and one more. */
  lemma Base64Group(v: seq<byte>, g: nat)
    requires g % 3 == 0 && g + 3 <= |v|
    ensures Base64(v[..g + 3]) == Base64(v[..g]) + Chars(Sextets3(v[g], v[g + 1], v[g + 2]))
  {
    Base64Append(v[..g], v[g..g + 3]);
    assert v[..g] + v[g..g + 3] == v[..g + 3];
    var w := v[g..g + 3];
    assert w == [v[g], v[g + 1], v[g + 2]];
    assert w[3..] == [];
  }

  /** What precedes a final group of one or two bytes at `g` is encoded on its own. */
  lemma Base64Tail(v: seq<byte>, g: nat)
    requires g % 3 == 0 && 0 < |v| - g < 3
    ensures Base64(v) == Base64(v[..g]) + Base64(v[g..])
  {
    Base64Append(v[..g], v[g..]);
    SplitAt(v, g);
  }

  lemma Chars2(x: sextet, y: sextet)
    ensures Chars([x, y]) == [B64(x), B64(y)]
  {
    assert [x, y][1..] == [y];
  }

  lemma Chars3(x: sextet, y: sextet, z: sextet)
    ensures Chars([x, y, z]) == [B64(x), B64(y), B64(z)]
  {
    assert [x, y, z][1..] == [y, z];
    Chars2(y, z);
  }

  lemma Chars4(x: sextet, y: sextet, z: sextet, w: sextet)
    ensures Chars([x, y, z, w]) == [B64(x), B64(y), B64(z), B64(w)]
  {
    assert [x, y, z, w][1..] == [y, z, w];
    Chars3(y, z, w);
  }

  lemma GroupPositions(g: nat)
    requires g % 3 == 0
    ensures (g + 1) % 3 == 1 && (g + 2) % 3 == 2
  {
  }

  /** The RFC encoding of a lone final byte and of a final pair of bytes. */
  lemma Base64Single(b0: byte)
    ensures Base64([b0]) == [B64(b0 as int / 4), B64(b0 as int % 4 * 16), '=', '=']
  {
    Chars2(b0 as int / 4, b0 as int % 4 * 16);
  }

  lemma Base64Pair(b0: byte, b1: byte)
    ensures Base64([b0, b1]) ==
      [B64(b0 as int / 4), B64(b0 as int % 4 * 16 + b1 as int / 16), B64(b1 as int % 16 * 4), '=']
  {
    Chars3(b0 as int / 4, b0 as int % 4 * 16 + b1 as int / 16, b1 as int % 16 * 4);
  }

  /** What the encoder pushes at the last two bytes, when they start a group. */
  lemma PushedPair(v: seq<byte>, g: nat)
    requires g % 3 == 0 && |v| == g + 2
    ensures Pushed(v, g) + Pushed(v, g + 1) ==
      [B64(v[g] as int / 4), B64(v[g] as int % 4 * 16 + v[g + 1] as int / 16), B64(v[g + 1] as int % 16 * 4), '=']
  {
    GroupPositions(g);
    PushedCases(v, g);
    PushedCases(v, g + 1);
  }

  /** The parser's padding for a final group of one byte: what it pushes at that byte
      completes the RFC encoding. */
  lemma FinalOne(v: seq<byte>, g: nat)
    requires g % 3 == 0 && |v| == g + 1
    ensures Base64(v) == Base64(v[..g]) + Pushed(v, g)
  {
    Base64Tail(v, g);
    assert v[g..] == [v[g]];
    Base64Single(v[g]);
    PushedCases(v, g);
  }

  /** The parser's padding for a final group of two bytes. */
  lemma FinalTwo(v: seq<byte>, g: nat)
    requires g % 3 == 0 && |v| == g + 2
    ensures Base64(v) == Base64(v[..g]) + (Pushed(v, g) + Pushed(v, g + 1))
  {
    Base64Tail(v, g);
    TailPair(v, g);
    PushedPair(v, g);
  }

  lemma TailPair(v: seq<byte>, g: nat)
    requires g % 3 == 0 && |v| == g + 2
    ensures Base64(v[g..]) ==
      [B64(v[g] as int / 4), B64(v[g] as int % 4 * 16 + v[g + 1] as int / 16), B64(v[g + 1] as int % 16 * 4), '=']
  {
    assert v[g..] == [v[g], v[g + 1]];
    Base64Pair(v[g], v[g + 1]);
  }

  /** The characters the capture parser's encoder pushes when it reaches byte `k`: one
      character for each 6-bit group that byte completes, and after the last byte the
      character of its zero-padded remainder and the padding. */
  function Pushed(v: seq<byte>, k: nat): string
    requires k < |v|
  {
    var last := k + 1 == |v|;
    if k % 3 == 0 then
      if last then [B64(v[k] as int / 4), B64(v[k] as int % 4 * 16), '=', '=']
      else [B64(v[k] as int / 4)]
    else if k % 3 == 1 then
      if last then [B64(v[k - 1] as int % 4 * 16 + v[k] as int / 16), B64(v[k] as int % 16 * 4), '=']
      else [B64(v[k - 1] as int % 4 * 16 + v[k] as int / 16)]
    else
      [B64(v[k - 1] as int % 16 * 4 + v[k] as int / 64), B64(v[k] as int % 64)]
  }

  /** What `Pushed` is at byte `k`, case by case, as the encoder's branches write it. */
  lemma PushedCases(v: seq<byte>, k: nat)
    requires k < |v|
    ensures k % 3 == 0 && k + 1 == |v| ==>
      Pushed(v, k) == [B64(v[k] as int / 4)] + [B64(v[k] as int % 4 * 16), '=', '=']
    ensures k % 3 == 0 && k + 1 < |v| ==> Pushed(v, k) == [B64(v[k] as int / 4)]
    ensures k % 3 == 1 && k + 1 == |v| ==>
      Pushed(v, k) == [B64(v[k - 1] as int % 4 * 16 + v[k] as int / 16)] + [B64(v[k] as int % 16 * 4), '=']
    ensures k % 3 == 1 && k + 1 < |v| ==> Pushed(v, k) == [B64(v[k - 1] as int % 4 * 16 + v[k] as int / 16)]
    ensures k % 3 == 2 ==> Pushed(v, k) == [B64(v[k - 1] as int % 16 * 4 + v[k] as int / 64), B64(v[k] as int % 64)]
  {
  }

  /** Output of the capture parser's encoder after it has consumed the first `i` bytes. */
  function Emitted(v: seq<byte>, i: nat): string
    requires i <= |v|
  {
    if i == 0 then "" else Emitted(v, i - 1) + Pushed(v, i - 1)
  }

  /** What the encoder pushes at the second and third byte of a group that starts at `g`. */
  lemma PushedSecond(v: seq<byte>, g: nat)
    requires g % 3 == 0 && g + 1 < |v|
    ensures g + 2 < |v| ==> Pushed(v, g + 1) == [B64(v[g] as int % 4 * 16 + v[g + 1] as int / 16)]
    ensures g + 2 == |v| ==> (Pushed(v, g + 1) ==
      [B64(v[g] as int % 4 * 16 + v[g + 1] as int / 16), B64(v[g + 1] as int % 16 * 4), '='])
  {
    assert (g + 1) % 3 == 1;
  }

  lemma PushedThird(v: seq<byte>, g: nat)
    requires g % 3 == 0 && g + 2 < |v|
    ensures Pushed(v, g + 2) ==
      [B64(v[g + 1] as int % 16 * 4 + v[g + 2] as int / 64), B64(v[g + 2] as int % 64)]
  {
    assert (g + 2) % 3 == 2;
  }

  /** After each whole group the encoder has written exactly the RFC encoding so far. */
  lemma {:induction false} EmittedGroups(v: seq<byte>, g: nat)
    requires g % 3 == 0 && g <= |v|
    ensures Emitted(v, g) == Base64(v[..g])
    decreases g
  {
    if g > 0 {
      var h := g - 3;
      EmittedGroups(v, h);
      PushedSecond(v, h);
      PushedThird(v, h);
      Base64Group(v, h);
      Chars4(v[h] as int / 4, v[h] as int % 4 * 16 + v[h + 1] as int / 16,
        v[h + 1] as int % 16 * 4 + v[h + 2] as int / 64, v[h + 2] as int % 64);
      calc {
        Emitted(v, g);
        Emitted(v, h + 2) + Pushed(v, h + 2);
        Emitted(v, h + 1) + Pushed(v, h + 1) + Pushed(v, h + 2);
        Emitted(v, h) + Pushed(v, h) + Pushed(v, h + 1) + Pushed(v, h + 2);
      }
    }
  }

  /** The start of the last, possibly partial, group of `n` bytes. */
  lemma LastGroup(n: nat) returns (g: nat)
    ensures g % 3 == 0 && g <= n < g + 3
  {
    g := n - n % 3;
  }

  /** The output for an input of whole groups. */
  lemma EmittedWhole(v: seq<byte>)
    requires |v| % 3 == 0
    ensures Emitted(v, |v|) == Base64(v)
  {
    EmittedGroups(v, |v|);
    assert v[..|v|] == v;
  }

  /** The output for an input ending in a group of one byte. */
  lemma EmittedLastOne(v: seq<byte>, g: nat)
    requires g % 3 == 0 && g + 1 == |v|
    ensures Emitted(v, |v|) == Base64(v)
  {
    EmittedGroups(v, g);
    FinalOne(v, g);
  }

  /** The output for an input ending in a group of two bytes. */
  lemma EmittedLastTwo(v: seq<byte>, g: nat)
    requires g % 3 == 0 && g + 2 == |v|
    ensures Emitted(v, |v|) == Base64(v)
  {
    EmittedGroups(v, g);
    FinalTwo(v, g);
    assert Emitted(v, g + 2) == Emitted(v, g) + Pushed(v, g) + Pushed(v, g + 1);
  }

  /** The whole output is the RFC encoding. */
  lemma EmittedIsBase64(v: seq<byte>)
    ensures Emitted(v, |v|) == Base64(v)
  {
    var g := LastGroup(|v|);
    if g == |v| {
      EmittedWhole(v);
    } else if g + 1 == |v| {
      EmittedLastOne(v, g);
    } else {
      EmittedLastTwo(v, g);
    }
  }

  /** `uint8_vector_to_base64_string`: one pass over the bytes, switching on the position
      inside the current 3-byte group, padding when the last byte is reached. */
  method EncodeBase64(v: seq<byte>) returns (cdst: string)
    ensures cdst == Base64(v)
  {
    cdst := "";
    var i := 0;
    while i < |v|
      invariant 0 <= i <= |v|
      invariant cdst == Emitted(v, i)
    {
      ghost var before := cdst;
      PushedCases(v, i);
      if i % 3 == 0 {
        cdst := cdst + [B64(v[i] as int / 4)];
        if i + 1 == |v| {
          cdst := cdst + [B64(v[i] as int % 4 * 16), '=', '='];
          assert cdst == before + Pushed(v, i);
        }
      } else if i % 3 == 1 {
        cdst := cdst + [B64(v[i - 1] as int % 4 * 16 + v[i] as int / 16)];
        if i + 1 == |v| {
          cdst := cdst + [B64(v[i] as int % 16 * 4), '='];
          assert cdst == before + Pushed(v, i);
        }
      } else {
        cdst := cdst + [B64(v[i - 1] as int % 16 * 4 + v[i] as int / 64), B64(v[i] as int % 64)];
      }
      i := i + 1;
    }
    EmittedIsBase64(v);
  }

  // ---------------------------------------------------------------------------------------
  // Node's base64 decoding: alphabet characters (including the URL-safe '-' and '_') are
  // collected until the first '=', other characters are skipped; every four 6-bit values
  // give three bytes, a final three give two bytes, a final two give one.
  // ---------------------------------------------------------------------------------------

  function SextetOf(c: char): Option<sextet> {
    if 'A' <= c <= 'Z' then Some(c as int - 'A' as int)
    else if 'a' <= c <= 'z' then Some(c as int - 'a' as int + 26)
    else if '0' <= c <= '9' then Some(c as int - '0' as int + 52)
    else if c == '+' || c == '-' then Some(62)
    else if c == '/' || c == '_' then Some(63)
    else None
  }

  lemma SextetOfTable(x: sextet)
    ensures SextetOf(B64(x)) == Some(x) && B64(x) != '='
  {
  }

  function CharSextets(s: string): seq<sextet>
    decreases |s|
  {
    if s == [] || s[0] == '=' then []
    else match SextetOf(s[0])
      case Some(x) => [x] + CharSextets(s[1..])
      case None => CharSextets(s[1..])
  }

  /** The three bytes of the 24-bit group made of four 6-bit groups: the first group then
      the top two bits of the second; the low four bits of the second then the top four of
      the third; the low two bits of the third then the fourth. */
  function Join24(x0: sextet, x1: sextet, x2: sextet, x3: sextet): seq<byte> {
    [x0 as int * 4 + x1 as int / 16, x1 as int % 16 * 16 + x2 as int / 4, x2 as int % 4 * 64 + x3]
  }

  function SextetsToBytes(xs: seq<sextet>): seq<byte>
    decreases |xs|
  {
    if |xs| >= 4 then Join24(xs[0], xs[1], xs[2], xs[3]) + SextetsToBytes(xs[4..])
    else if |xs| == 3 then Join24(xs[0], xs[1], xs[2], 0)[..2]
    else if |xs| == 2 then Join24(xs[0], xs[1], 0, 0)[..1]
    else []
  }

  function Base64Decode(s: string): seq<byte> {
    SextetsToBytes(CharSextets(s))
  }

  lemma {:induction false} CharSextetsOfChars(xs: seq<sextet>, rest: string)
    ensures CharSextets(Chars(xs) + rest) == xs + CharSextets(rest)
    decreases |xs|
  {
    if xs != [] {
      var s := Chars(xs) + rest;
      SextetOfTable(xs[0]);
      assert s[0] == B64(xs[0]);
      assert s[1..] == Chars(xs[1..]) + rest;
      CharSextetsOfChars(xs[1..], rest);
      calc {
        CharSextets(s);
        [xs[0]] + CharSextets(s[1..]);
        [xs[0]] + (xs[1..] + CharSextets(rest));
        { assert xs == [xs[0]] + xs[1..]; }
        xs + CharSextets(rest);
      }
    } else {
      assert Chars(xs) + rest == rest;
    }
  }

  /** Joining the 6-bit groups of a 24-bit group gives back its three bytes. */
  lemma JoinCut(b0: byte, b1: byte, b2: byte)
    ensures var xs := Sextets3(b0, b1, b2); Join24(xs[0], xs[1], xs[2], xs[3]) == [b0, b1, b2]
  {
    var p, q, r := b0 as int, b1 as int, b2 as int;
    Div16(p % 4, q / 16);
    Div4(q % 16, r / 64);
    assert p / 4 * 4 + p % 4 == p;
    assert q / 16 * 16 + q % 16 == q;
    assert r / 64 * 64 + r % 64 == r;
  }

  lemma SextetsToBytes3(b0: byte, b1: byte, b2: byte, rest: seq<sextet>)
    ensures SextetsToBytes(Sextets3(b0, b1, b2) + rest) == [b0, b1, b2] + SextetsToBytes(rest)
  {
    var xs := Sextets3(b0, b1, b2) + rest;
    assert xs[4..] == rest;
    JoinCut(b0, b1, b2);
  }

  lemma RoundTripOne(b0: byte)
    ensures Base64Decode(Base64([b0])) == [b0]
  {
    var xs := Sextets1(b0);
    assert Base64([b0]) == Chars(xs) + "==";
    CharSextetsOfChars(xs, "==");
    assert CharSextets(Base64([b0])) == xs;
    SextetsPadded(b0, 0);
    JoinCut(b0, 0, 0);
  }

  lemma RoundTripTwo(b0: byte, b1: byte)
    ensures Base64Decode(Base64([b0, b1])) == [b0, b1]
  {
    var xs := Sextets2(b0, b1);
    assert Base64([b0, b1]) == Chars(xs) + "=";
    CharSextetsOfChars(xs, "=");
    assert CharSextets(Base64([b0, b1])) == xs;
    SextetsPadded(b0, b1);
    JoinCut(b0, b1, 0);
  }

  /** Decoding inverts the encoder: what the capture side writes, the server reads back. */
  lemma {:induction false} Base64RoundTrip(v: seq<byte>)
    ensures Base64Decode(Base64(v)) == v
    decreases |v|
  {
    if |v| == 1 {
      RoundTripOne(v[0]);
      assert v == [v[0]];
    } else if |v| == 2 {
      RoundTripTwo(v[0], v[1]);
      assert v == [v[0], v[1]];
    } else if |v| > 2 {
      Base64RoundTrip(v[3..]);
      RoundTripGroup(v);
    }
  }

  lemma SplitAt<T>(v: seq<T>, g: nat)
    requires g <= |v|
    ensures v[..g] + v[g..] == v
  {
  }

  lemma Uncons3(v: seq<byte>)
    requires |v| >= 3
    ensures v == [v[0], v[1], v[2]] + v[3..]
  {
  }

  lemma RoundTripGroup(v: seq<byte>)
    requires |v| > 2 && Base64Decode(Base64(v[3..])) == v[3..]
    ensures Base64Decode(Base64(v)) == v
  {
    var xs := Sextets3(v[0], v[1], v[2]);
    var rest := Base64(v[3..]);
    CharSextetsOfChars(xs, rest);
    SextetsToBytes3(v[0], v[1], v[2], CharSextets(rest));
    calc {
      Base64Decode(Base64(v));
      SextetsToBytes(CharSextets(Chars(xs) + rest));
      SextetsToBytes(xs + CharSextets(rest));
      [v[0], v[1], v[2]] + SextetsToBytes(CharSextets(rest));
      [v[0], v[1], v[2]] + v[3..];
      { Uncons3(v); }
      v;
    }
  }

  // ---------------------------------------------------------------------------------------
  // Hex, RFC 4648 section 8 in lower case: two digits per byte, high nibble first.
  // ---------------------------------------------------------------------------------------

  /** Lower-case hex digit, as `std::hex` writes it. */
  function HexDigit(x: int): char
    requires 0 <= x < 16
  {
    if x < 10 then ('0' as int + x) as char else ('a' as int + x - 10) as char
  }

  /** The two digits of one byte, as `std::setw(2)` with fill '0' writes them. */
  function HexByte(b: byte): string {
    [HexDigit(b as int / 16), HexDigit(b as int % 16)]
  }

  function Hex(v: seq<byte>): (r: string)
    ensures |r| == 2 * |v|
  {
    if v == [] then "" else HexByte(v[0]) + Hex(v[1..])
  }

  lemma {:induction false} HexAppend(a: seq<byte>, b: byte)
    ensures Hex(a + [b]) == Hex(a) + HexByte(b)
    decreases |a|
  {
    if a == [] {
      assert a + [b] == [b];
    } else {
      assert (a + [b])[1..] == a[1..] + [b];
      HexAppend(a[1..], b);
    }
  }

  /** `uint8_vector_to_hex_string`: each byte is written with width 2, fill '0', base 16. */
  method EncodeHex(v: seq<byte>) returns (ss: string)
    ensures ss == Hex(v)
  {
    ss := "";
    var i := 0;
    while i < |v|
      invariant 0 <= i <= |v|
      invariant ss == Hex(v[..i])
    {
      HexAppend(v[..i], v[i]);
      assert v[..i + 1] == v[..i] + [v[i]];
      ss := ss + [HexDigit(v[i] as int / 16), HexDigit(v[i] as int % 16)];
      i := i + 1;
    }
    assert v[..i] == v;
  }

  function NibbleOf(c: char): (r: Option<int>)
    ensures r.Some? ==> 0 <= r.value < 16
  {
    if '0' <= c <= '9' then Some(c as int - '0' as int)
    else if 'a' <= c <= 'f' then Some(c as int - 'a' as int + 10)
    else if 'A' <= c <= 'F' then Some(c as int - 'A' as int + 10)
    else None
  }

  /** Node's hex decoding: pairs of hex digits (either case) up to the first pair that is
      not one; a trailing odd character is dropped. */
  function HexDecode(s: string): seq<byte>
    decreases |s|
  {
    if |s| < 2 then []
    else match (NibbleOf(s[0]), NibbleOf(s[1]))
      case (Some(hi), Some(lo)) => [hi * 16 + lo] + HexDecode(s[2..])
      case _ => []
  }

  lemma NibbleOfHexDigit(x: int)
    requires 0 <= x < 16
    ensures NibbleOf(HexDigit(x)) == Some(x)
  {
  }

  lemma {:induction false} HexRoundTrip(v: seq<byte>)
    ensures HexDecode(Hex(v)) == v
    decreases |v|
  {
    if v != [] {
      var s := Hex(v);
      NibbleOfHexDigit(v[0] / 16);
      NibbleOfHexDigit(v[0] % 16);
      assert s[2..] == Hex(v[1..]);
      assert s[0] == HexDigit(v[0] / 16) && s[1] == HexDigit(v[0] % 16);
      HexRoundTrip(v[1..]);
      assert v == [v[0]] + v[1..];
    }
  }

  // ---------------------------------------------------------------------------------------
  // Big-endian readers `uint8_vector_to_uint16` and `uint8_vector_to_uint32`. The C++ helpers
  // do no bounds check; the caller must keep `i + 1` (resp. `i + 3`) inside the vector.
  // ---------------------------------------------------------------------------------------

  /** `(v[i] << 8) | v[i + 1]`. */
  function Uint16At(v: seq<byte>, i: nat): (r: nat)
    requires i + 1 < |v|
    ensures r < 0x1_0000
  {
    v[i] as int * 0x100 + v[i + 1]
  }

  /** `((((v[i] << 8) | v[i + 1]) << 8 | v[i + 2]) << 8) | v[i + 3]`. */
  function Uint32At(v: seq<byte>, i: nat): (r: nat)
    requires i + 3 < |v|
    ensures r < 0x1_0000_0000
  {
    ((v[i] as int * 0x100 + v[i + 1]) * 0x100 + v[i + 2]) * 0x100 + v[i + 3]
  }

  /** Big-endian bytes of a 16-bit and a 32-bit number: the layout the readers expect. */
  function BigEndian16(n: nat): seq<byte>
    requires n < 0x1_0000
  {
    var hi: byte := n / 0x100;
    [hi, n % 0x100]
  }

  function BigEndian32(n: nat): seq<byte>
    requires n < 0x1_0000_0000
  {
    var hi: byte := n / 0x100_0000;
    [hi, n / 0x1_0000 % 0x100, n / 0x100 % 0x100, n % 0x100]
  }

  /** The readers invert big-endian layout, wherever it sits in the vector. */
  lemma Uint16RoundTrip(pre: seq<byte>, n: nat, post: seq<byte>)
    requires n < 0x1_0000
    ensures Uint16At(pre + BigEndian16(n) + post, |pre|) == n
  {
    var v := pre + BigEndian16(n) + post;
    assert v[|pre|] == n / 0x100 && v[|pre| + 1] == n % 0x100;
  }

  lemma Uint32RoundTrip(pre: seq<byte>, n: nat, post: seq<byte>)
    requires n < 0x1_0000_0000
    ensures Uint32At(pre + BigEndian32(n) + post, |pre|) == n
  {
    var v := pre + BigEndian32(n) + post;
    var k := |pre|;
    assert v[k] == n / 0x100_0000 && v[k + 1] == n / 0x1_0000 % 0x100;
    assert v[k + 2] == n / 0x100 % 0x100 && v[k + 3] == n % 0x100;
    var m := n / 0x100;
    var m2 := m / 0x100;
    assert n / 0x1_0000 == m2 && n / 0x100_0000 == m2 / 0x100;
    Div256(m2 / 0x100, m2 % 0x100);
    Div256(m, n % 0x100);
    Div256(m2, m % 0x100);
  }
}
