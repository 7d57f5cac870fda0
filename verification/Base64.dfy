/** Unpadded base64 over the alphabet that scatter keys use. */
module Base64 {
  import opened Names

  type Sextet = v: int | 0 <= v < 64

  /** `*`, `-`, then upper case, lower case and digits. */
  function CharOf(v: Sextet): char {
    if v == 0 then '*'
    else if v == 1 then '-'
    else if v < 28 then ('A' as int + v - 2) as char
    else if v < 54 then ('a' as int + v - 28) as char
    else ('0' as int + v - 54) as char
  }

  function ValueOf(c: char): Option<Sextet> {
    if c == '*' then Some(0)
    else if c == '-' then Some(1)
    else if 'A' <= c <= 'Z' then Some(c as int - 'A' as int + 2)
    else if 'a' <= c <= 'z' then Some(c as int - 'a' as int + 28)
    else if '0' <= c <= '9' then Some(c as int - '0' as int + 54)
    else None
  }

  /** The alphabet, written out. */
  lemma Alphabet(v: Sextet)
    ensures CharOf(v) == ("*-" + "ABCDEFGHIJKLMNOPQRSTUVWXYZ" + "abcdefghijklmnopqrstuvwxyz" + "0123456789")[v]
  {
  }

  lemma CharRoundTrip(v: Sextet)
    ensures ValueOf(CharOf(v)) == Some(v)
  {
  }

  lemma ValueRoundTrip(c: char)
    ensures ValueOf(c).Some? ==> CharOf(ValueOf(c).value) == c
  {
  }

  // How the bits of three bytes fall into four sextets, and back.

  function First(b0: int): int { b0 / 4 }
  function Second(b0: int, b1: int): int { b0 % 4 * 16 + b1 / 16 }
  function Third(b1: int, b2: int): int { b1 % 16 * 4 + b2 / 64 }
  function Fourth(b2: int): int { b2 % 64 }

  function Byte0(v0: int, v1: int): int { v0 * 4 + v1 / 16 }
  function Byte1(v1: int, v2: int): int { v1 % 16 * 16 + v2 / 4 }
  function Byte2(v2: int, v3: int): int { v2 % 4 * 64 + v3 }

  lemma GroupDecodes(b0: Byte, b1: Byte, b2: Byte)
    ensures Byte0(First(b0), Second(b0, b1)) == b0
    ensures Byte1(Second(b0, b1), Third(b1, b2)) == b1
    ensures Byte2(Third(b1, b2), Fourth(b2)) == b2
  {
  }

  lemma GroupEncodes(v0: Sextet, v1: Sextet, v2: Sextet, v3: Sextet)
    ensures First(Byte0(v0, v1)) == v0 && Second(Byte0(v0, v1), Byte1(v1, v2)) == v1
    ensures Third(Byte1(v1, v2), Byte2(v2, v3)) == v2 && Fourth(Byte2(v2, v3)) == v3
  {
  }

  /** Three bytes make four sextets; one or two left over make two or three, padded with zero bits. */
  function Sextets(b: seq<Byte>): seq<Sextet> {
    if |b| == 0 then []
    else if |b| == 1 then [First(b[0]), Second(b[0], 0)]
    else if |b| == 2 then [First(b[0]), Second(b[0], b[1]), Third(b[1], 0)]
    else [First(b[0]), Second(b[0], b[1]), Third(b[1], b[2]), Fourth(b[2])] + Sextets(b[3..])
  }

  function At(s: seq<int>, i: nat): int {
    if i < |s| then s[i] else 0
  }

  /** The bits are kept in order, a group of 24 at a time, missing ones counting as zero. */
  lemma {:induction false} SextetsKeepBits(b: seq<Byte>, j: nat)
    requires 3 * j < |b|
    ensures var v := Sextets(b);
      At(v, 4 * j) * 0x4_0000 + At(v, 4 * j + 1) * 0x1000 + At(v, 4 * j + 2) * 0x40 + At(v, 4 * j + 3)
        == At(b, 3 * j) * 0x1_0000 + At(b, 3 * j + 1) * 0x100 + At(b, 3 * j + 2)
    ensures |Sextets(b)| == (4 * |b| + 2) / 3
  {
    if |b| >= 3 {
      var head: seq<Sextet> := [First(b[0]), Second(b[0], b[1]), Third(b[1], b[2]), Fourth(b[2])];
      assert Sextets(b) == head + Sextets(b[3..]);
      if j > 0 {
        SextetsKeepBits(b[3..], j - 1);
      } else if |b| > 3 {
        SextetsKeepBits(b[3..], 0);
      }
    }
  }

  /** A single sextet left over is an error, and so are stray bits: those of a next byte must be zero. */
  function Bytes(v: seq<Sextet>): Option<seq<Byte>> {
    if |v| == 0 then Some([])
    else if |v| == 1 then None
    else if |v| == 2 then
      if Byte1(v[1], 0) == 0 then Some([Byte0(v[0], v[1])]) else None
    else if |v| == 3 then
      if Byte2(v[2], 0) == 0 then Some([Byte0(v[0], v[1]), Byte1(v[1], v[2])]) else None
    else
      var rest := Bytes(v[4..]);
      if rest.None? then None
      else Some([Byte0(v[0], v[1]), Byte1(v[1], v[2]), Byte2(v[2], v[3])] + rest.value)
  }

  function Encode(b: seq<Byte>): string {
    var v := Sextets(b);
    seq(|v|, i requires 0 <= i < |v| => CharOf(v[i]))
  }

  function Values(s: string): Option<seq<Sextet>> {
    if s == [] then Some([])
    else
      var first, rest := ValueOf(s[0]), Values(s[1..]);
      if first.None? || rest.None? then None else Some([first.value] + rest.value)
  }

  function Decode(s: string): Option<seq<Byte>> {
    var v := Values(s);
    if v.None? then None else Bytes(v.value)
  }

  lemma OneByteBits(x: Byte)
    ensures Byte0(First(x), Second(x, 0)) == x && Byte1(Second(x, 0), 0) == 0
  {
  }

  lemma OneDecodes(x: Byte)
    ensures Bytes(Sextets([x])) == Some([x])
  {
    OneByteBits(x);
    var v: seq<Sextet> := [First(x), Second(x, 0)];
    assert Sextets([x]) == v;
  }

  lemma TwoDecode(x: Byte, y: Byte)
    ensures Bytes(Sextets([x, y])) == Some([x, y])
  {
    GroupDecodes(x, y, 0);
    var v: seq<Sextet> := [First(x), Second(x, y), Third(y, 0)];
    assert Sextets([x, y]) == v;
  }

  ghost predicate ReadsBack(b: seq<Byte>) {
    Bytes(Sextets(b)) == Some(b)
  }

  lemma ShortDecodes(b: seq<Byte>)
    requires 0 < |b| <= 2
    ensures ReadsBack(b)
  {
    if |b| == 1 {
      OneDecodes(b[0]);
      assert ReadsBack([b[0]]);
      assert b == [b[0]];
    } else {
      TwoDecode(b[0], b[1]);
      assert ReadsBack([b[0], b[1]]);
      assert b == [b[0], b[1]];
    }
  }

  lemma LongDecodes(x: Byte, y: Byte, z: Byte, rest: seq<Byte>)
    requires ReadsBack(rest)
    ensures ReadsBack([x, y, z] + rest)
  {
    GroupDecodes(x, y, z);
    var b := [x, y, z] + rest;
    assert b[3..] == rest;
    var v: seq<Sextet> := [First(x), Second(x, y), Third(y, z), Fourth(z)];
    assert Sextets(b) == v + Sextets(rest);
    assert (v + Sextets(rest))[4..] == Sextets(rest);
  }

  lemma {:induction false} BytesOfSextets(b: seq<Byte>)
    ensures ReadsBack(b)
  {
    if 0 < |b| <= 2 {
      ShortDecodes(b);
    } else if |b| > 2 {
      BytesOfSextets(b[3..]);
      LongDecodes(b[0], b[1], b[2], b[3..]);
      assert b == [b[0], b[1], b[2]] + b[3..];
    }
  }

  lemma OneEncodes(x: Sextet, y: Sextet)
    requires Byte1(y, 0) == 0
    ensures Sextets([Byte0(x, y)]) == [x, y]
  {
    GroupEncodes(x, y, 0, 0);
  }

  lemma TwoEncode(x: Sextet, y: Sextet, z: Sextet)
    requires Byte2(z, 0) == 0
    ensures Sextets([Byte0(x, y), Byte1(y, z)]) == [x, y, z]
  {
    GroupEncodes(x, y, z, 0);
  }

  lemma ShortEncodes(v: seq<Sextet>)
    requires |v| <= 3 && Bytes(v).Some?
    ensures Sextets(Bytes(v).value) == v
  {
    if |v| == 2 {
      OneEncodes(v[0], v[1]);
    } else if |v| == 3 {
      TwoEncode(v[0], v[1], v[2]);
    }
  }

  lemma LongEncodes(v: seq<Sextet>)
    requires |v| >= 4 && Bytes(v).Some? && Sextets(Bytes(v[4..]).value) == v[4..]
    ensures Sextets(Bytes(v).value) == v
  {
    var b := Bytes(v).value;
    GroupEncodes(v[0], v[1], v[2], v[3]);
    assert b[3..] == Bytes(v[4..]).value;
    assert Sextets(b) == [First(b[0]), Second(b[0], b[1]), Third(b[1], b[2]), Fourth(b[2])] + v[4..];
    assert v == [v[0], v[1], v[2], v[3]] + v[4..];
  }

  lemma {:induction false} SextetsOfBytes(v: seq<Sextet>)
    requires Bytes(v).Some?
    ensures Sextets(Bytes(v).value) == v
  {
    if |v| <= 3 {
      ShortEncodes(v);
    } else {
      SextetsOfBytes(v[4..]);
      LongEncodes(v);
    }
  }

  lemma {:induction false} ValuesOfChars(v: seq<Sextet>)
    ensures Values(seq(|v|, i requires 0 <= i < |v| => CharOf(v[i]))) == Some(v)
  {
    if v != [] {
      var s := seq(|v|, i requires 0 <= i < |v| => CharOf(v[i]));
      var t := v[1..];
      assert s[1..] == seq(|t|, i requires 0 <= i < |t| => CharOf(t[i]));
      ValuesOfChars(t);
      CharRoundTrip(v[0]);
      assert s[0] == CharOf(v[0]);
      assert v == [v[0]] + t;
    }
  }

  lemma {:induction false} CharsOfValues(s: string)
    ensures Values(s).Some? ==> |Values(s).value| == |s| && forall i :: 0 <= i < |s| ==> CharOf(Values(s).value[i]) == s[i]
  {
    if s != [] {
      CharsOfValues(s[1..]);
      ValueRoundTrip(s[0]);
    }
  }

  /** Every name reads back, and a string decodes only to the bytes that encode to it. */
  lemma RoundTrip(b: seq<Byte>, s: string)
    ensures Decode(Encode(b)) == Some(b)
    ensures Decode(s) == Some(b) <==> s == Encode(b)
  {
    BytesOfSextets(b);
    ValuesOfChars(Sextets(b));
    if Decode(s) == Some(b) {
      SextetsOfBytes(Values(s).value);
      CharsOfValues(s);
      assert Sextets(b) == Values(s).value;
    }
  }

  /** The alphabet keeps clear of the characters that separate the parts of a key. */
  lemma EncodeIsSafe(b: seq<Byte>)
    ensures forall c :: c in Encode(b) ==> c != '/' && c != '_' && c != '!' && c != '.'
    ensures Encode(b) == [] <==> b == []
  {
    RoundTrip(b, []);
  }
}
