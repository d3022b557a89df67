/** Base 64 encoding as defined in section 4 of RFC 4648 (the alphabet
    `A-Z a-z 0-9 + /` with `=` padding), which Python's `base64.b64encode`
    produces. Decoding is given as the partner of encoding. */
module Base64 {
  import opened Wrappers

  /** The character for a 6-bit value. */
  function Sextet(v: bv8): (c: char)
    requires v < 64
    ensures SextetValue(c) == Some(v) && c != '='
  {
    if v < 26 then ('A' as int + v as int) as char
    else if v < 52 then ('a' as int + (v as int - 26)) as char
    else if v < 62 then ('0' as int + (v as int - 52)) as char
    else if v == 62 then '+'
    else '/'
  }

  /** The 6-bit value of an alphabet character; None for anything else. */
  function SextetValue(c: char): (r: Option<bv8>)
    ensures r.Some? ==> r.value < 64
  {
    if 'A' <= c <= 'Z' then Some((c as int - 'A' as int) as bv8)
    else if 'a' <= c <= 'z' then Some((c as int - 'a' as int + 26) as bv8)
    else if '0' <= c <= '9' then Some((c as int - '0' as int + 52) as bv8)
    else if c == '+' then Some(62)
    else if c == '/' then Some(63)
    else None
  }

  predicate IsAlphabet(c: char) {
    SextetValue(c).Some?
  }

  function EncodeGroup(b0: bv8, b1: bv8, b2: bv8): seq<char>
  {
    [Sextet(b0 >> 2), Sextet(((b0 & 3) << 4) | (b1 >> 4)), Sextet(((b1 & 15) << 2) | (b2 >> 6)), Sextet(b2 & 63)]
  }

  /** `base64.b64encode(b)`: four characters per started group of three
      bytes. */
  function Encode(b: seq<bv8>): (s: string)
    ensures |s| == (|b| + 2) / 3 * 4
    decreases |b|
  {
    if |b| == 0 then ""
    else if |b| == 1 then [Sextet(b[0] >> 2), Sextet((b[0] & 3) << 4), '=', '=']
    else if |b| == 2 then [Sextet(b[0] >> 2), Sextet(((b[0] & 3) << 4) | (b[1] >> 4)), Sextet((b[1] & 15) << 2), '=']
    else EncodeGroup(b[0], b[1], b[2]) + Encode(b[3..])
  }

  /** Every character of an encoding is an alphabet character or `=`
      padding. */
  lemma {:induction false} EncodeAlphabet(b: seq<bv8>)
    ensures forall c <- Encode(b) :: IsAlphabet(c) || c == '='
    decreases |b|
  {
    if |b| >= 3 {
      EncodeAlphabet(b[3..]);
      assert Encode(b) == EncodeGroup(b[0], b[1], b[2]) + Encode(b[3..]);
    }
  }

  /** Decoding of padded base 64 text; None when the text is not of that form. */
  function Decode(s: string): Option<seq<bv8>>
    decreases |s|
  {
    if |s| == 0 then Some([])
    else if |s| < 4 then None
    else
      var a, b, c, d := SextetValue(s[0]), SextetValue(s[1]), SextetValue(s[2]), SextetValue(s[3]);
      if a.None? || b.None? then None
      else if |s| == 4 && s[2] == '=' && s[3] == '=' then
        Some([(a.value << 2) | (b.value >> 4)])
      else if c.None? then None
      else if |s| == 4 && s[3] == '=' then
        Some([(a.value << 2) | (b.value >> 4), (b.value << 4) | (c.value >> 2)])
      else if d.None? then None
      else
        match Decode(s[4..])
        case None => None
        case Some(rest) =>
          Some([(a.value << 2) | (b.value >> 4), (b.value << 4) | (c.value >> 2), (c.value << 6) | d.value] + rest)
  }

  lemma DecodeQuadPad2(v0: bv8, v1: bv8)
    requires v0 < 64 && v1 < 64
    ensures Decode([Sextet(v0), Sextet(v1), '=', '=']) == Some([(v0 << 2) | (v1 >> 4)])
  {
    var s := [Sextet(v0), Sextet(v1), '=', '='];
    assert SextetValue(s[0]) == Some(v0) && SextetValue(s[1]) == Some(v1);
  }

  lemma DecodeQuadPad1(v0: bv8, v1: bv8, v2: bv8)
    requires v0 < 64 && v1 < 64 && v2 < 64
    ensures Decode([Sextet(v0), Sextet(v1), Sextet(v2), '='])
         == Some([(v0 << 2) | (v1 >> 4), (v1 << 4) | (v2 >> 2)])
  {
    var s := [Sextet(v0), Sextet(v1), Sextet(v2), '='];
    assert SextetValue(s[0]) == Some(v0) && SextetValue(s[1]) == Some(v1);
    assert SextetValue(s[2]) == Some(v2) && s[2] != '=';
  }

  lemma DecodeQuad(v0: bv8, v1: bv8, v2: bv8, v3: bv8, rest: string)
    requires v0 < 64 && v1 < 64 && v2 < 64 && v3 < 64
    ensures Decode([Sextet(v0), Sextet(v1), Sextet(v2), Sextet(v3)] + rest) ==
      match Decode(rest)
      case None => None
      case Some(r) => Some([(v0 << 2) | (v1 >> 4), (v1 << 4) | (v2 >> 2), (v2 << 6) | v3] + r)
  {
    var s := [Sextet(v0), Sextet(v1), Sextet(v2), Sextet(v3)] + rest;
    assert s[4..] == rest;
    assert SextetValue(s[0]) == Some(v0) && SextetValue(s[1]) == Some(v1);
    assert SextetValue(s[2]) == Some(v2) && SextetValue(s[3]) == Some(v3);
    assert s[2] != '=' && s[3] != '=';
  }

  /** Regrouping the sextets of one group of bytes gives the bytes back. */
  lemma RegroupBits(b0: bv8, b1: bv8, b2: bv8)
    ensures var v0, v1 := b0 >> 2, ((b0 & 3) << 4) | (b1 >> 4);
      var v2, v3 := ((b1 & 15) << 2) | (b2 >> 6), b2 & 63;
      && v0 < 64 && v1 < 64 && v2 < 64 && v3 < 64
      && (v0 << 2) | (v1 >> 4) == b0
      && (v1 << 4) | (v2 >> 2) == b1
      && (v2 << 6) | v3 == b2
  {
  }

  lemma EncodeOne(b0: bv8)
    ensures Encode([b0]) == [Sextet(b0 >> 2), Sextet((b0 & 3) << 4), '=', '=']
  {
  }

  lemma DecodeOne(b0: bv8)
    ensures Decode(Encode([b0])) == Some([b0])
  {
    var v0, v1 := b0 >> 2, (b0 & 3) << 4;
    RegroupBits(b0, 0, 0);
    assert v1 == ((b0 & 3) << 4) | (0 >> 4);
    EncodeOne(b0);
    DecodeQuadPad2(v0, v1);
  }

  lemma EncodeTwo(b0: bv8, b1: bv8)
    ensures Encode([b0, b1]) == [Sextet(b0 >> 2), Sextet(((b0 & 3) << 4) | (b1 >> 4)), Sextet((b1 & 15) << 2), '=']
  {
  }

  lemma DecodeTwo(b0: bv8, b1: bv8)
    ensures Decode(Encode([b0, b1])) == Some([b0, b1])
  {
    var v0, v1, v2 := b0 >> 2, ((b0 & 3) << 4) | (b1 >> 4), (b1 & 15) << 2;
    RegroupBits(b0, b1, 0);
    assert v2 == ((b1 & 15) << 2) | (0 >> 6);
    EncodeTwo(b0, b1);
    DecodeQuadPad1(v0, v1, v2);
  }

  /** A full group in front decodes to its three bytes, whatever follows. */
  lemma DecodeGroup(b0: bv8, b1: bv8, b2: bv8, rest: string)
    ensures Decode(EncodeGroup(b0, b1, b2) + rest) ==
      match Decode(rest)
      case None => None
      case Some(r) => Some([b0, b1, b2] + r)
  {
    var v0, v1 := b0 >> 2, ((b0 & 3) << 4) | (b1 >> 4);
    var v2, v3 := ((b1 & 15) << 2) | (b2 >> 6), b2 & 63;
    RegroupBits(b0, b1, b2);
    DecodeQuad(v0, v1, v2, v3, rest);
  }

  lemma DecodeEncodeGroup(b0: bv8, b1: bv8, b2: bv8, rest: seq<bv8>)
    requires Decode(Encode(rest)) == Some(rest)
    ensures Decode(Encode([b0, b1, b2] + rest)) == Some([b0, b1, b2] + rest)
  {
    var b := [b0, b1, b2] + rest;
    assert b[0] == b0 && b[1] == b1 && b[2] == b2 && b[3..] == rest;
    assert Encode(b) == EncodeGroup(b0, b1, b2) + Encode(rest);
    DecodeGroup(b0, b1, b2, Encode(rest));
  }

  /** Decoding undoes encoding, so the encoded text determines the bytes. */
  lemma {:induction false} DecodeEncode(b: seq<bv8>)
    ensures Decode(Encode(b)) == Some(b)
    decreases |b|
  {
    if |b| == 1 {
      assert b == [b[0]];
      DecodeOne(b[0]);
    } else if |b| == 2 {
      assert b == [b[0], b[1]];
      DecodeTwo(b[0], b[1]);
    } else if |b| >= 3 {
      assert [b[0], b[1], b[2]] + b[3..] == b;
      DecodeEncode(b[3..]);
      DecodeEncodeGroup(b[0], b[1], b[2], b[3..]);
    }
  }
}
