/**
  * `canonicalBase64DecodedLength` (`packages/schemas/src/envelope.ts`): it answers `n` exactly for the
  * encodings of `n`-byte strings, sections 3.5 and 4 of RFC 4648.
  */
module Base64 {
  import opened Community

  type Sextet = i: int | 0 <= i < 64

  /** The position of a character in the base64 alphabet. */
  function SextetOf(c: char): Option<Sextet> {
    if 'A' <= c <= 'Z' then Some(c as int - 'A' as int)
    else if 'a' <= c <= 'z' then Some(c as int - 'a' as int + 26)
    else if '0' <= c <= '9' then Some(c as int - '0' as int + 52)
    else if c == '+' then Some(62)
    else if c == '/' then Some(63)
    else None
  }

  function CharOf(s: Sextet): (c: char)
    ensures SextetOf(c) == Some(s) && c != '='
  {
    if s < 26 then ('A' as int + s) as char
    else if s < 52 then ('a' as int + s - 26) as char
    else if s < 62 then ('0' as int + s - 52) as char
    else if s == 62 then '+'
    else '/'
  }

  lemma CharOfSextet(c: char)
    requires SextetOf(c).Some?
    ensures CharOf(SextetOf(c).value) == c
  {
  }

  predicate InAlphabet(c: char) { SextetOf(c).Some? }

  // ---------------------------------------------------------------- encoding

  function Encode(b: seq<Byte>): string {
    if b == [] then ""
    else if |b| == 1 then [CharOf(First(b[0])), CharOf(Second(b[0], 0)), '=', '=']
    else if |b| == 2 then [CharOf(First(b[0])), CharOf(Second(b[0], b[1])), CharOf(Third(b[1], 0)), '=']
    else [CharOf(First(b[0])), CharOf(Second(b[0], b[1])), CharOf(Third(b[1], b[2])), CharOf(Fourth(b[2]))] + Encode(b[3..])
  }

  // The four sextets of three bytes, and the three bytes of four sextets.

  function First(x: Byte): Sextet { x / 4 }

  function Second(x: Byte, y: Byte): Sextet { x % 4 * 16 + y / 16 }

  function Third(y: Byte, z: Byte): Sextet { y % 16 * 4 + z / 64 }

  function Fourth(z: Byte): Sextet { z % 64 }

  function ByteX(i: Sextet, j: Sextet): Byte { i * 4 + j / 16 }

  function ByteY(j: Sextet, k: Sextet): Byte { j % 16 * 16 + k / 4 }

  function ByteZ(k: Sextet, l: Sextet): Byte { k % 4 * 64 + l }

  lemma SextetsOfBytes(i: Sextet, j: Sextet, k: Sextet, l: Sextet)
    ensures First(ByteX(i, j)) == i && Second(ByteX(i, j), ByteY(j, k)) == j
    ensures Third(ByteY(j, k), ByteZ(k, l)) == k && Fourth(ByteZ(k, l)) == l
    ensures j % 16 == 0 ==> Second(ByteX(i, j), 0) == j
    ensures k % 4 == 0 ==> Third(ByteY(j, k), 0) == k
  {
  }

  lemma BytesOfSextets(x: Byte, y: Byte, z: Byte)
    ensures ByteX(First(x), Second(x, y)) == x && ByteY(Second(x, y), Third(y, z)) == y && ByteZ(Third(y, z), Fourth(z)) == z
  {
  }

  // ---------------------------------------------------------------- the check

  function FirstPadding(s: string): (n: nat)
    ensures n <= |s| && (n < |s| ==> s[n] == '=') && forall i | 0 <= i < n :: s[i] != '='
  {
    if s == "" || s[0] == '=' then 0 else 1 + FirstPadding(s[1..])
  }

  /** How many `=` the text ends in, at most two. */
  function Padding(s: string): (p: nat)
    ensures p <= 2 && p <= |s| && forall i | |s| - p <= i < |s| :: s[i] == '='
  {
    if |s| >= 2 && s[|s| - 1] == '=' && s[|s| - 2] == '=' then 2
    else if |s| >= 1 && s[|s| - 1] == '=' then 1
    else 0
  }

  /** `/^[A-Za-z0-9+/]*={0,2}$/` */
  predicate Shaped(s: string) {
    ShapedWith(s, 0) || ShapedWith(s, 1) || ShapedWith(s, 2)
  }

  predicate ShapedWith(s: string, p: nat) {
    p <= |s| && (forall i | 0 <= i < |s| - p :: InAlphabet(s[i])) && (forall i | |s| - p <= i < |s| :: s[i] == '=')
  }

  function CanonicalBase64DecodedLength(s: string): Option<nat> {
    if |s| % 4 != 0 || !Shaped(s) then None
    else
      var padding, first := Padding(s), FirstPadding(s);
      if first < |s| && first != |s| - padding then None
      else if |s| == 0 then Some(0)
      else if padding == 2 && (SextetOf(s[|s| - 3]).None? || SextetOf(s[|s| - 3]).value % 16 != 0) then None
      else if padding == 1 && (SextetOf(s[|s| - 2]).None? || SextetOf(s[|s| - 2]).value % 4 != 0) then None
      else Some(|s| / 4 * 3 - padding)
  }

  // ---------------------------------------------------------------- four characters at a time

  predicate FullGroup(s: string) {
    |s| >= 4 && InAlphabet(s[0]) && InAlphabet(s[1]) && InAlphabet(s[2]) && InAlphabet(s[3])
  }

  lemma ShapedStep(s: string, p: nat)
    requires |s| > 4 && |s| % 4 == 0 && p <= 2
    ensures ShapedWith(s, p) <==> FullGroup(s) && ShapedWith(s[4..], p)
  {
    var t := s[4..];
    assert forall i | 0 <= i < |t| :: t[i] == s[i + 4];
    assert forall i | 4 <= i < |s| :: s[i] == t[i - 4];
    hide SextetOf;
  }

  lemma FirstPaddingStep(s: string)
    requires FullGroup(s)
    ensures FirstPadding(s) == FirstPadding(s[4..]) + 4
  {
    var t, n := s[4..], FirstPadding(s);
    assert n >= 4;
    assert forall i | 4 <= i < |s| :: s[i] == t[i - 4];
  }

  /** A full group in front of a non-empty rest adds three bytes and decides nothing else. */
  lemma CanonicalStep(s: string)
    requires |s| > 4 && |s| % 4 == 0
    ensures CanonicalBase64DecodedLength(s).Some? <==> FullGroup(s) && CanonicalBase64DecodedLength(s[4..]).Some?
    ensures CanonicalBase64DecodedLength(s).Some? ==>
      CanonicalBase64DecodedLength(s).value == CanonicalBase64DecodedLength(s[4..]).value + 3
  {
    ShapedStep(s, 0);
    ShapedStep(s, 1);
    ShapedStep(s, 2);
    if FullGroup(s) && Shaped(s[4..]) {
      FirstPaddingStep(s);
      assert Padding(s) == Padding(s[4..]);
    }
  }

  /** What the check makes of a single group, by its padding. */
  lemma LastGroupCanonical(s: string)
    requires |s| == 4 && InAlphabet(s[0]) && InAlphabet(s[1]) && s[0] != '=' && s[1] != '='
    ensures InAlphabet(s[2]) && s[2] != '=' && InAlphabet(s[3]) && s[3] != '=' ==> CanonicalBase64DecodedLength(s) == Some(3)
    ensures InAlphabet(s[2]) && s[2] != '=' && s[3] == '=' && SextetOf(s[2]).value % 4 == 0 ==> CanonicalBase64DecodedLength(s) == Some(2)
    ensures s[2] == '=' && s[3] == '=' && SextetOf(s[1]).value % 16 == 0 ==> CanonicalBase64DecodedLength(s) == Some(1)
  {
    hide SextetOf;
    assert FirstPadding(s) >= 2;
    if s[2] == '=' && s[3] == '=' {
      assert ShapedWith(s, 2) && FirstPadding(s) == 2;
    } else if InAlphabet(s[2]) && s[2] != '=' && s[3] == '=' {
      assert ShapedWith(s, 1) && FirstPadding(s) == 3;
    } else if FullGroup(s) && s[2] != '=' && s[3] != '=' {
      assert ShapedWith(s, 0) && FirstPadding(s) == 4;
    }
  }

  lemma ShortEncodings(b: seq<Byte>)
    requires 1 <= |b| <= 3
    ensures CanonicalBase64DecodedLength(Encode(b)) == Some(|b|)
  {
    hide SextetOf, CharOf, First, Fourth, CanonicalBase64DecodedLength;
    if |b| == 3 { assert Encode(b[3..]) == ""; }
    LastGroupCanonical(Encode(b));
  }

  lemma LongEncoding(b: seq<Byte>)
    requires |b| > 3
    ensures var s := Encode(b); |s| > 4 && |s| % 4 == 0 && FullGroup(s) && s[4..] == Encode(b[3..])
  {
    var group := [CharOf(First(b[0])), CharOf(Second(b[0], b[1])), CharOf(Third(b[1], b[2])), CharOf(Fourth(b[2]))];
    var rest := Encode(b[3..]);
    assert Encode(b) == group + rest;
    EncodingIsLong(b[3..]);
    hide Encode, SextetOf, CharOf, First, Second, Third, Fourth;
    FourInFront(group, rest);
  }

  lemma FourInFront(group: string, rest: string)
    requires |group| == 4 && FullGroup(group) && |rest| > 0 && |rest| % 4 == 0
    ensures var s := group + rest; |s| > 4 && |s| % 4 == 0 && FullGroup(s) && s[4..] == rest
  {
    hide InAlphabet;
  }

  lemma {:induction false} EncodingIsCanonical(b: seq<Byte>)
    ensures CanonicalBase64DecodedLength(Encode(b)) == Some(|b|)
  {
    if b == [] {
      assert ShapedWith("", 0);
    } else if |b| <= 3 {
      ShortEncodings(b);
    } else {
      EncodingIsCanonical(b[3..]);
      LongEncoding(b);
      CanonicalStep(Encode(b));
    }
    hide Encode, FullGroup, FirstPadding, Padding;
  }

  lemma {:induction false} EncodingIsLong(b: seq<Byte>)
    ensures |Encode(b)| == (|b| + 2) / 3 * 4
  {
    hide CharOf, First, Second, Third, Fourth;
    if |b| > 2 {
      EncodingIsLong(b[3..]);
      assert |b[3..]| == |b| - 3 && (|b| - 3 + 2) / 3 == (|b| + 2) / 3 - 1;
    }
  }

  // ---------------------------------------------------------------- decoding

  function Decode(s: string): seq<Byte>
    requires CanonicalBase64DecodedLength(s).Some?
  {
    if s == "" then []
    else
      assert |s| >= 4;
      if |s| > 4 then
        CanonicalStep(s);
        Group(s[..4]) + Decode(s[4..])
      else LastGroup(s)
  }

  function Group(s: string): (b: seq<Byte>)
    requires |s| == 4 && FullGroup(s)
    ensures |b| == 3
  {
    var i, j, k, l := SextetOf(s[0]).value, SextetOf(s[1]).value, SextetOf(s[2]).value, SextetOf(s[3]).value;
    [ByteX(i, j), ByteY(j, k), ByteZ(k, l)]
  }

  lemma LastGroupShape(s: string)
    requires |s| == 4 && CanonicalBase64DecodedLength(s).Some?
    ensures InAlphabet(s[0]) && InAlphabet(s[1])
    ensures Padding(s) < 2 ==> InAlphabet(s[2])
    ensures Padding(s) == 0 ==> InAlphabet(s[3])
  {
  }

  function LastGroup(s: string): (b: seq<Byte>)
    requires |s| == 4 && CanonicalBase64DecodedLength(s).Some?
    ensures |b| == CanonicalBase64DecodedLength(s).value
  {
    LastGroupShape(s);
    var i, j := SextetOf(s[0]).value, SextetOf(s[1]).value;
    if Padding(s) == 2 then [ByteX(i, j)]
    else
      var k := SextetOf(s[2]).value;
      if Padding(s) == 1 then [ByteX(i, j), ByteY(j, k)]
      else [ByteX(i, j), ByteY(j, k), ByteZ(k, SextetOf(s[3]).value)]
  }

  lemma LastSextets(s: string)
    requires |s| == 4 && CanonicalBase64DecodedLength(s).Some?
    ensures Padding(s) == 2 ==> SextetOf(s[1]).value % 16 == 0 && s[2] == '=' && s[3] == '='
    ensures Padding(s) == 1 ==> SextetOf(s[2]).Some? && SextetOf(s[2]).value % 4 == 0 && s[3] == '='
  {
    LastGroupShape(s);
    hide SextetOf, Shaped, FirstPadding;
  }

  lemma LastGroupEncodes(s: string)
    requires |s| == 4 && CanonicalBase64DecodedLength(s).Some?
    ensures Encode(LastGroup(s)) == s
  {
    hide First, Second, Third, Fourth, ByteX, ByteY, ByteZ, SextetOf, CharOf, CanonicalBase64DecodedLength, Padding;
    LastGroupShape(s);
    LastSextets(s);
    CharOfSextet(s[0]);
    CharOfSextet(s[1]);
    var i, j := SextetOf(s[0]).value, SextetOf(s[1]).value;
    if Padding(s) == 2 {
      SextetsOfBytes(i, j, 0, 0);
    } else {
      CharOfSextet(s[2]);
      if Padding(s) == 1 {
        SextetsOfBytes(i, j, SextetOf(s[2]).value, 0);
      } else {
        CharOfSextet(s[3]);
        SextetsOfBytes(i, j, SextetOf(s[2]).value, SextetOf(s[3]).value);
        assert Encode(LastGroup(s)[3..]) == "";
      }
    }
  }

  lemma GroupEncodes(s: string, rest: seq<Byte>)
    requires |s| == 4 && FullGroup(s)
    ensures Encode(Group(s) + rest) == s + Encode(rest)
  {
    hide First, Second, Third, Fourth, ByteX, ByteY, ByteZ, SextetOf, CharOf;
    CharOfSextet(s[0]);
    CharOfSextet(s[1]);
    CharOfSextet(s[2]);
    CharOfSextet(s[3]);
    SextetsOfBytes(SextetOf(s[0]).value, SextetOf(s[1]).value, SextetOf(s[2]).value, SextetOf(s[3]).value);
    assert (Group(s) + rest)[3..] == rest;
  }

  /** Whatever the check accepts is the encoding of its decoding, which has the length it answered. */
  lemma {:induction false} CanonicalIsEncoding(s: string)
    requires CanonicalBase64DecodedLength(s).Some?
    ensures Encode(Decode(s)) == s && |Decode(s)| == CanonicalBase64DecodedLength(s).value
    decreases |s|
  {
    if |s| > 4 {
      CanonicalStep(s);
      CanonicalIsEncoding(s[4..]);
      GroupEncodes(s[..4], Decode(s[4..]));
      assert s == s[..4] + s[4..];
    } else if |s| == 4 {
      LastGroupEncodes(s);
    }
  }

  /** The answer is `n` exactly for the encodings of `n`-byte strings. */
  lemma AnswersExactlyEncodings(s: string, n: nat)
    ensures CanonicalBase64DecodedLength(s) == Some(n) <==> exists b: seq<Byte> :: |b| == n && Encode(b) == s
  {
    if CanonicalBase64DecodedLength(s) == Some(n) {
      CanonicalIsEncoding(s);
      assert |Decode(s)| == n && Encode(Decode(s)) == s;
    }
    forall b: seq<Byte> | |b| == n && Encode(b) == s ensures CanonicalBase64DecodedLength(s) == Some(n) { EncodingIsCanonical(b); }
  }

  /** Encodings of one length that agree were made from the same bytes. */
  lemma {:induction false} EncodeIsInjective(a: seq<Byte>, b: seq<Byte>)
    requires Encode(a) == Encode(b) && |a| == |b|
    ensures a == b
    decreases |a|
  {
    hide First, Second, Third, Fourth, ByteX, ByteY, ByteZ, SextetOf, CharOf;
    if |a| > 0 {
      var s := Encode(a);
      var a1, b1 := if |a| > 1 then a[1] else 0, if |b| > 1 then b[1] else 0;
      var a2, b2 := if |a| > 2 then a[2] else 0, if |b| > 2 then b[2] else 0;
      assert s[0] == CharOf(First(a[0])) == CharOf(First(b[0])) && s[1] == CharOf(Second(a[0], a1)) == CharOf(Second(b[0], b1));
      BytesOfSextets(a[0], a1, a2);
      BytesOfSextets(b[0], b1, b2);
      if |a| >= 2 { assert s[2] == CharOf(Third(a1, a2)) == CharOf(Third(b1, b2)); }
      if |a| >= 3 {
        assert s[3] == CharOf(Fourth(a2)) == CharOf(Fourth(b2));
        assert s[4..] == Encode(a[3..]) && s[4..] == Encode(b[3..]);
        EncodeIsInjective(a[3..], b[3..]);
        assert a == [a[0], a[1], a[2]] + a[3..] && b == [b[0], b[1], b[2]] + b[3..];
      }
    }
  }

  /** Decoding undoes encoding. */
  lemma DecodeEncode(b: seq<Byte>)
    ensures CanonicalBase64DecodedLength(Encode(b)).Some? && Decode(Encode(b)) == b
  {
    EncodingIsCanonical(b);
    CanonicalIsEncoding(Encode(b));
    EncodeIsInjective(Decode(Encode(b)), b);
  }
}
