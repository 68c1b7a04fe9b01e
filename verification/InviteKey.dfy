/**
  * Base32 and invite keys (`packages/crypto/src/index.ts`): the decoder undoes the encoder for every
  * byte string although both keep their bits in a 32-bit accumulator that is never masked, and a key
  * parses back exactly if its endpoint fits the 32 groups of four characters. Section 6 of RFC 4648.
  */
module InviteKey {
  import opened Community

  type Quintet = i: int | 0 <= i < 32

  const WORD := 0x1_0000_0000

  function CharOf(q: Quintet): (c: char) {
    if q < 26 then ('A' as int + q) as char else ('2' as int + q - 26) as char
  }

  /** `B32_ALPHABET.indexOf(ch)` after `toUpperCase`. */
  function QuintetOf(c: char): Option<Quintet> {
    if 'A' <= c <= 'Z' then Some(c as int - 'A' as int)
    else if 'a' <= c <= 'z' then Some(c as int - 'a' as int)
    else if '2' <= c <= '7' then Some(c as int - '2' as int + 26)
    else None
  }

  lemma QuintetOfChar(q: Quintet)
    ensures QuintetOf(CharOf(q)) == Some(q)
  {
  }

  function Pow2(n: nat): (p: nat)
    ensures p >= 1
  {
    if n == 0 then 1 else 2 * Pow2(n - 1)
  }

  // ---------------------------------------------------------------- numbers as strings of bits

  /** The `b` bits of `v` written behind those of `w`. */
  function Join(w: nat, v: nat, b: nat): nat { w * Pow2(b) + v }

  /** All but the last `b` bits: an unsigned shift to the right. */
  function Top(x: nat, b: nat): nat {
    QuotientIsNat(x, Pow2(b));
    x / Pow2(b)
  }

  lemma QuotientIsNat(x: nat, a: nat)
    requires a >= 1
    ensures x / a >= 0
  {
  }

  /** The last `b` bits. */
  function Low(x: nat, b: nat): (r: nat)
    ensures r < Pow2(b)
  {
    x % Pow2(b)
  }

  lemma Distribute(p: int, q: int, a: int)
    ensures (p + q) * a == p * a + q * a
  {
  }

  lemma Reorder(k: int, a: int, b: int)
    ensures k * (a * b) == (k * b) * a && k * (a * b) == (k * a) * b
  {
  }

  lemma Monotone(p: int, q: int, a: int)
    requires p <= q && a >= 0
    ensures p * a <= q * a
  {
  }

  lemma DivMod(x: nat, a: nat)
    requires a >= 1
    ensures x == x / a * a + x % a && x % a < a
  {
  }

  lemma SmallMultiple(d: int, a: nat)
    requires -(a as int) < d * a < a
    ensures d == 0
  {
    if d >= 1 { Monotone(1, d, a); }
    if d <= -1 { Monotone(d, -1, a); }
  }

  lemma DivisionIsUnique(x: nat, a: nat, q: nat, r: nat)
    requires x == q * a + r && r < a
    ensures x / a == q && x % a == r
  {
    DivMod(x, a);
    var e, m := x / a, x % a;
    Distribute(e - q, q, a);
    assert (e - q) * a == r - m;
    SmallMultiple(e - q, a);
  }

  lemma {:induction false} PowersAdd(a: nat, b: nat)
    ensures Pow2(a + b) == Pow2(a) * Pow2(b)
  {
    if a > 0 { PowersAdd(a - 1, b); Reorder(2, Pow2(a - 1), Pow2(b)); }
  }

  lemma SmallPowers()
    ensures Pow2(0) == 1 && Pow2(5) == 32 && Pow2(8) == 256
  {
    assert Pow2(1) == 2 && Pow2(2) == 4 && Pow2(3) == 8 && Pow2(4) == 16;
    assert Pow2(6) == 64 && Pow2(7) == 128;
  }

  lemma WordIsPower()
    ensures WORD == Pow2(32)
  {
    SmallPowers();
    PowersAdd(8, 8);
    PowersAdd(16, 16);
  }

  lemma JoinFits(w: nat, c: nat, v: nat, b: nat)
    requires w < Pow2(c) && v < Pow2(b)
    ensures Join(w, v, b) < Pow2(c + b)
  {
    hide Pow2;
    PowersAdd(c, b);
    Monotone(w + 1, Pow2(c), Pow2(b));
    Distribute(w, 1, Pow2(b));
  }

  lemma JoinJoin(w: nat, x: nat, m: nat, y: nat, n: nat)
    ensures Join(Join(w, x, m), y, n) == Join(w, Join(x, y, n), m + n)
  {
    hide Pow2;
    PowersAdd(m, n);
    Distribute(w * Pow2(m), x, Pow2(n));
    Reorder(w, Pow2(m), Pow2(n));
  }

  lemma Split(x: nat, b: nat)
    ensures Join(Top(x, b), Low(x, b), b) == x
  {
    hide Pow2;
    DivMod(x, Pow2(b));
  }

  lemma TopFits(x: nat, a: nat, b: nat)
    requires x < Pow2(a + b)
    ensures Top(x, b) < Pow2(a)
  {
    hide Pow2;
    PowersAdd(a, b);
    DivMod(x, Pow2(b));
    if Top(x, b) >= Pow2(a) { Monotone(Pow2(a), Top(x, b), Pow2(b)); }
  }

  lemma JoinedParts(w: nat, v: nat, b: nat)
    requires v < Pow2(b)
    ensures Top(Join(w, v, b), b) == w && Low(Join(w, v, b), b) == v
  {
    hide Pow2;
    DivisionIsUnique(Join(w, v, b), Pow2(b), w, v);
  }

  /** The parts of a number already cut to `a + b` bits. */
  lemma CutTwice(x: nat, a: nat, b: nat)
    ensures Low(Low(x, a + b), b) == Low(x, b) && Top(Low(x, a + b), b) == Low(Top(x, b), a)
  {
    hide Pow2, Join, Top, Low;
    var k, y := Top(x, a + b), Low(x, a + b);
    Split(x, a + b);
    Split(y, b);
    TopFits(y, a, b);
    JoinJoin(k, Top(y, b), a, Low(y, b), b);
    JoinedParts(Join(k, Top(y, b), a), Low(y, b), b);
    JoinedParts(k, Top(y, b), a);
  }

  // ---------------------------------------------------------------- the bits themselves

  /** Encoding with `bits` leftover bits of value `v` in front of `data`. */
  function EncodeFrom(v: nat, bits: nat, data: seq<Byte>): string
    requires v < Pow2(bits) && bits <= 12
    decreases |data|, bits
  {
    if bits >= 5 then
      FirstQuintet(v, bits);
      [CharOf(Top(v, bits - 5))] + EncodeFrom(Low(v, bits - 5), bits - 5, data)
    else if data != [] then
      OneMoreByte(v, bits, data[0]);
      EncodeFrom(Join(v, data[0], 8), bits + 8, data[1..])
    else if bits > 0 then
      PaddedQuintet(v, bits);
      [CharOf(Join(v, 0, 5 - bits))]
    else ""
  }

  /** Decoding with `bits` leftover bits of value `v`; `None` is the invalid-character error. */
  function DecodeFrom(v: nat, bits: nat, s: string): Option<seq<Byte>>
    requires v < Pow2(bits) && bits < 8
    decreases |s|
  {
    if s == "" then Some([])
    else match QuintetOf(s[0])
      case None => None
      case Some(q) =>
        OneMoreQuintet(v, bits, q);
        if bits < 3 then DecodeFrom(Join(v, q, 5), bits + 5, s[1..])
        else Prepended([Top(Join(v, q, 5), bits - 3)], DecodeFrom(Low(Join(v, q, 5), bits - 3), bits - 3, s[1..]))
  }

  function Prepended(bytes: seq<Byte>, rest: Option<seq<Byte>>): Option<seq<Byte>> {
    match rest case None => None case Some(more) => Some(bytes + more)
  }

  lemma FirstQuintet(v: nat, bits: nat)
    requires v < Pow2(bits) && bits >= 5
    ensures Top(v, bits - 5) < 32
  {
    hide Pow2, Top;
    SmallPowers();
    TopFits(v, 5, bits - 5);
  }

  lemma OneMoreByte(v: nat, bits: nat, x: Byte)
    requires v < Pow2(bits)
    ensures Join(v, x, 8) < Pow2(bits + 8)
  {
    hide Pow2, Join;
    SmallPowers();
    JoinFits(v, bits, x, 8);
  }

  lemma PaddedQuintet(v: nat, bits: nat)
    requires v < Pow2(bits) && bits < 5
    ensures Join(v, 0, 5 - bits) < 32
  {
    hide Pow2, Join;
    SmallPowers();
    JoinFits(v, bits, 0, 5 - bits);
  }

  lemma OneMoreQuintet(v: nat, bits: nat, q: Quintet)
    requires v < Pow2(bits)
    ensures Join(v, q, 5) < Pow2(bits + 5)
    ensures bits >= 3 ==> Top(Join(v, q, 5), bits - 3) < 256
  {
    hide Pow2, Join, Top;
    SmallPowers();
    JoinFits(v, bits, q, 5);
    if bits >= 3 { TopFits(Join(v, q, 5), 8, bits - 3); }
  }

  function ToBase32(data: seq<Byte>): string {
    EncodeFrom(0, 0, data)
  }

  function FromBase32(s: string): Option<seq<Byte>> {
    DecodeFrom(0, 0, s)
  }

  // ---------------------------------------------------------------- round trip

  /** The bytes of a number of at most two of them. */
  function Bytes(x: nat, n: nat): seq<Byte>
    requires n <= 2 && x < Pow2(8 * n)
  {
    if n == 0 then [] else if n == 1 then SmallPowers(); [x] else FirstOfTwo(x); [Top(x, 8), Low(x, 8)]
  }

  lemma FirstOfTwo(x: nat)
    requires x < Pow2(16)
    ensures Top(x, 8) < 256 && Pow2(8) == 256
  {
    hide Pow2, Top;
    SmallPowers();
    TopFits(x, 8, 8);
  }

  lemma JoinToNothing(y: nat, x: nat)
    requires x < Pow2(0)
    ensures Join(y, x, 0) == y && Join(x, y, 8) == y && x == 0
  {
  }

  lemma BytesOfTop(y: Byte, x: nat, n: nat)
    requires n <= 1 && x < Pow2(8 * n)
    ensures Join(y, x, 8 * n) < Pow2(8 * (n + 1)) && Bytes(Join(y, x, 8 * n), n + 1) == [y] + Bytes(x, n)
  {
    SmallPowers();
    JoinFits(y, 8, x, 8 * n);
    if n == 0 { JoinToNothing(y, x); } else { JoinedParts(y, x, 8); }
    hide Pow2, Join, Top, Low;
  }

  lemma BytesGrow(x: nat, n: nat, y: Byte)
    requires n <= 1 && x < Pow2(8 * n)
    ensures Join(x, y, 8) < Pow2(8 * (n + 1)) && Bytes(Join(x, y, 8), n + 1) == Bytes(x, n) + [y]
  {
    SmallPowers();
    JoinFits(x, 8 * n, y, 8);
    if n == 0 { JoinToNothing(y, x); } else { JoinedParts(x, y, 8); }
    hide Pow2, Join, Top, Low;
  }

  // One step of each, so that the proof below can treat them as black boxes.

  lemma EncodeTakesByte(v: nat, b: nat, data: seq<Byte>)
    requires v < Pow2(b) && b < 5 && data != []
    ensures Join(v, data[0], 8) < Pow2(b + 8) && EncodeFrom(v, b, data) == EncodeFrom(Join(v, data[0], 8), b + 8, data[1..])
  {
    hide Pow2, CharOf, Join, Top, Low;
    OneMoreByte(v, b, data[0]);
  }

  lemma EncodeGivesQuintet(v: nat, b: nat, data: seq<Byte>)
    requires v < Pow2(b) && 5 <= b <= 12
    ensures Top(v, b - 5) < 32
    ensures EncodeFrom(v, b, data) == [CharOf(Top(v, b - 5))] + EncodeFrom(Low(v, b - 5), b - 5, data)
  {
    hide Pow2, CharOf, Join, Top, Low;
    FirstQuintet(v, b);
  }

  lemma EncodePads(v: nat, b: nat)
    requires v < Pow2(b) && 0 < b < 5
    ensures Join(v, 0, 5 - b) < 32 && EncodeFrom(v, b, []) == [CharOf(Join(v, 0, 5 - b))]
  {
    hide Pow2, CharOf, Join, Top, Low;
    PaddedQuintet(v, b);
  }

  lemma EncodeEnds(v: nat)
    requires v < Pow2(0)
    ensures EncodeFrom(v, 0, []) == ""
  {
  }

  lemma DecodeEnds(v: nat, bits: nat)
    requires v < Pow2(bits) && bits < 8
    ensures DecodeFrom(v, bits, "") == Some([])
  {
  }

  lemma DecodeStep(v: nat, bits: nat, s: string)
    requires v < Pow2(bits) && bits < 8 && s != ""
    ensures QuintetOf(s[0]).None? ==> DecodeFrom(v, bits, s) == None
    ensures QuintetOf(s[0]).Some? ==> Join(v, QuintetOf(s[0]).value, 5) < Pow2(bits + 5)
    ensures QuintetOf(s[0]).Some? && bits < 3 ==> DecodeFrom(v, bits, s) == DecodeFrom(Join(v, QuintetOf(s[0]).value, 5), bits + 5, s[1..])
    ensures QuintetOf(s[0]).Some? && bits >= 3 ==>
      var u := Join(v, QuintetOf(s[0]).value, 5);
      Top(u, bits - 3) < 256 && DecodeFrom(v, bits, s) == Prepended([Top(u, bits - 3)], DecodeFrom(Low(u, bits - 3), bits - 3, s[1..]))
  {
    hide QuintetOf, Pow2, Join, Top, Low;
    if QuintetOf(s[0]).Some? { OneMoreQuintet(v, bits, QuintetOf(s[0]).value); }
  }

  /** Decoding one encoded quintet. */
  lemma DecodeTakes(w: nat, c: nat, q: Quintet, s: string)
    requires w < Pow2(c) && c < 8
    ensures Join(w, q, 5) < Pow2(c + 5)
    ensures c < 3 ==> DecodeFrom(w, c, [CharOf(q)] + s) == DecodeFrom(Join(w, q, 5), c + 5, s)
    ensures c >= 3 ==>
      var u := Join(w, q, 5);
      Top(u, c - 3) < 256 && DecodeFrom(w, c, [CharOf(q)] + s) == Prepended([Top(u, c - 3)], DecodeFrom(Low(u, c - 3), c - 3, s))
  {
    QuintetOfChar(q);
    assert ([CharOf(q)] + s)[1..] == s;
    hide QuintetOf, CharOf, Pow2, Join, Top, Low, DecodeFrom;
    DecodeStep(w, c, [CharOf(q)] + s);
  }

  /** Whole bytes still in the decoder's hands and the encoder's leftover bits come out first, then the rest. */
  lemma {:induction false} DecodesRest(w: nat, c: nat, v: nat, b: nat, data: seq<Byte>)
    requires w < Pow2(c) && c < 8 && v < Pow2(b) && b <= 12 && (c + b == 0 || c + b == 8 || c + b == 16)
    ensures Join(w, v, b) < Pow2(c + b)
    ensures DecodeFrom(w, c, EncodeFrom(v, b, data)) == Some(Bytes(Join(w, v, b), (c + b) / 8) + data)
    decreases |data|, b
  {
    hide Pow2, CharOf, EncodeFrom, DecodeFrom, Bytes, Join, Top, Low;
    JoinFits(w, c, v, b);
    if b >= 5 {
      DecodesQuintet(w, c, v, b, data);
    } else if data != [] {
      EncodeTakesByte(v, b, data);
      DecodesRest(w, c, Join(v, data[0], 8), b + 8, data[1..]);
      JoinJoin(w, v, b, data[0], 8);
      var x, n := Join(w, v, b), (c + b) / 8;
      BytesGrow(x, n, data[0]);
      assert Bytes(x, n) + data == (Bytes(x, n) + [data[0]]) + data[1..];
    } else if b > 0 {
      DecodesPadding(w, c, v, b);
    } else {
      EncodeEnds(v);
      DecodeEnds(w, c);
      NoBytes(Join(w, v, b));
    }
  }

  lemma NoBytes(x: nat)
    requires x < Pow2(0)
    ensures Bytes(x, 0) + [] == []
  {
  }

  lemma OneByte(x: nat)
    requires x < Pow2(8)
    ensures x < 256 && Bytes(x, 1) == [x]
  {
    SmallPowers();
  }

  lemma DecodesPadding(w: nat, c: nat, v: nat, b: nat)
    requires w < Pow2(c) && c < 8 && v < Pow2(b) && 0 < b < 5 && c + b == 8
    ensures Join(w, v, b) < Pow2(8) && DecodeFrom(w, c, EncodeFrom(v, b, [])) == Some(Bytes(Join(w, v, b), 1) + [])
  {
    hide Pow2, CharOf, EncodeFrom, DecodeFrom, Bytes, Join, Top, Low;
    JoinFits(w, c, v, b);
    EncodePads(v, b);
    var q := Join(v, 0, 5 - b);
    assert [CharOf(q)] + "" == [CharOf(q)];
    DecodeTakes(w, c, q, "");
    JoinJoin(w, v, b, 0, 5 - b);
    JoinedParts(Join(w, v, b), 0, 5 - b);
    DecodeEnds(Low(Join(w, q, 5), c - 3), c - 3);
    OneByte(Join(w, v, b));
  }

  lemma DecodesQuintet(w: nat, c: nat, v: nat, b: nat, data: seq<Byte>)
    requires w < Pow2(c) && c < 8 && v < Pow2(b) && 5 <= b <= 12 && (c + b == 8 || c + b == 16)
    requires Join(w, v, b) < Pow2(c + b)
    ensures DecodeFrom(w, c, EncodeFrom(v, b, data)) == Some(Bytes(Join(w, v, b), (c + b) / 8) + data)
    decreases |data|, b, 1
  {
    hide Pow2, CharOf, EncodeFrom, DecodeFrom, Bytes, Join, Top, Low;
    var q, r := Top(v, b - 5), Low(v, b - 5);
    EncodeGivesQuintet(v, b, data);
    DecodeTakes(w, c, q, EncodeFrom(r, b - 5, data));
    Split(v, b - 5);
    JoinJoin(w, q, 5, r, b - 5);
    var u := Join(w, q, 5);
    if c < 3 {
      DecodesRest(u, c + 5, r, b - 5, data);
    } else {
      DecodesByte(u, c, r, b, data);
    }
  }

  lemma DecodesByte(u: nat, c: nat, r: nat, b: nat, data: seq<Byte>)
    requires 3 <= c < 8 && 5 <= b <= 12 && (c + b == 8 || c + b == 16)
    requires u < Pow2(c + 5) && r < Pow2(b - 5) && Join(u, r, b - 5) < Pow2(c + b)
    ensures Top(u, c - 3) < 256
    ensures Prepended([Top(u, c - 3)], DecodeFrom(Low(u, c - 3), c - 3, EncodeFrom(r, b - 5, data)))
      == Some(Bytes(Join(u, r, b - 5), (c + b) / 8) + data)
    decreases |data|, b, 0
  {
    hide Pow2, CharOf, EncodeFrom, DecodeFrom, Bytes, Join, Top, Low;
    var y, z := Top(u, c - 3), Low(u, c - 3);
    SmallPowers();
    TopFits(u, 8, c - 3);
    Split(u, c - 3);
    DecodesRest(z, c - 3, r, b - 5, data);
    JoinJoin(y, z, c - 3, r, b - 5);
    var x, n := Join(z, r, b - 5), (c + b) / 8 - 1;
    assert 8 * n == c - 3 + (b - 5);
    BytesOfTop(y, x, n);
    assert [y] + (Bytes(x, n) + data) == ([y] + Bytes(x, n)) + data;
  }

  /** Decoding undoes encoding, for every byte string. */
  lemma Base32RoundTrip(data: seq<Byte>)
    ensures FromBase32(ToBase32(data)) == Some(data)
  {
    SmallPowers();
    DecodesRest(0, 0, 0, 0, data);
    assert Bytes(0, 0) + data == data;
  }

  // ---------------------------------------------------------------- the loops and their 32-bit accumulator

  /** Shifting an accumulator left by `step`, cut at 32 bits, keeps the bits below `bits` and appends `x`. */
  lemma Accumulate(value: nat, bits: nat, step: nat, x: nat)
    requires bits + step <= 32 && step <= 32 && x < Pow2(step)
    ensures var next := value * Pow2(step) % WORD + x;
      next < WORD && Low(next, bits + step) == Join(Low(value, bits), x, step)
  {
    hide Pow2;
    WordIsPower();
    var shifted := Join(value, 0, step);
    ShiftedWord(value, step, x);
    var high, low := Top(value, bits), Low(value, bits);
    hide Join, Top, Low;
    Split(value, bits);
    JoinJoin(high, low, bits, 0, step);
    JoinFits(low, bits, 0, step);
    JoinFits(low, bits, x, step);
    CutTwice(shifted, 32 - bits - step, bits + step);
    JoinedParts(high, Join(low, 0, step), bits + step);
    AppendLow(Low(shifted, 32), bits, step, low, x);
  }

  /** The low zeros of a shifted word take the new bits without a carry. */
  lemma ShiftedWord(value: nat, step: nat, x: nat)
    requires step <= 32 && x < Pow2(step)
    ensures WORD == Pow2(32) && value * Pow2(step) % WORD == Low(Join(value, 0, step), 32)
    ensures Low(Join(value, 0, step), 32) + x < WORD
  {
    hide Pow2;
    WordIsPower();
    var w := Low(Join(value, 0, step), 32);
    CutTwice(Join(value, 0, step), 32 - step, step);
    JoinedParts(value, 0, step);
    Split(w, step);
    TopFits(w, 32 - step, step);
    JoinFits(Top(w, step), 32 - step, x, step);
  }

  lemma AppendLow(w: nat, bits: nat, step: nat, low: nat, x: nat)
    requires low < Pow2(bits) && x < Pow2(step) && Low(w, bits + step) == Join(low, 0, step)
    ensures Low(w + x, bits + step) == Join(low, x, step)
  {
    hide Pow2;
    Split(w, bits + step);
    JoinFits(low, bits, x, step);
    JoinedParts(Top(w, bits + step), Join(low, x, step), bits + step);
  }

  method ToBase32InPlace(data: seq<Byte>) returns (out: string)
    ensures out == ToBase32(data)
  {
    hide EncodeFrom, Pow2, CharOf, Join, Top, Low;
    SmallPowers();
    var bits: nat, value: nat := 0, 0;
    out := "";
    LowOfNothing();
    for i := 0 to |data|
      invariant bits < 5 && value < WORD
      invariant out + EncodeFrom(Low(value, bits), bits, data[i..]) == ToBase32(data)
    {
      assert data[i..][0] == data[i] && data[i..][1..] == data[i + 1..];
      EncodeTakesByte(Low(value, bits), bits, data[i..]);
      Accumulate(value, bits, 8, data[i]);
      value := value * 256 % WORD + data[i];
      bits := bits + 8;
      while bits >= 5
        invariant bits <= 12 && value < WORD
        invariant out + EncodeFrom(Low(value, bits), bits, data[i + 1..]) == ToBase32(data)
      {
        EncodeGivesQuintet(Low(value, bits), bits, data[i + 1..]);
        CutTwice(value, 5, bits - 5);
        LowIsRemainder(Top(value, bits - 5));
        out := out + [CharOf(Top(value, bits - 5) % 32)];
        bits := bits - 5;
      }
    }
    assert data[|data|..] == [];
    if bits > 0 {
      EncodePads(Low(value, bits), bits);
      PadsByShift(value, bits);
      out := out + [CharOf(value * Pow2(5 - bits) % WORD % 32)];
    } else {
      EncodeEnds(Low(value, 0));
    }
  }

  lemma LowOfNothing()
    ensures Low(0, 0) == 0
  {
  }

  lemma LowIsRemainder(x: nat)
    ensures Low(x, 5) == x % 32 && Low(x, 8) == x % 256
  {
    SmallPowers();
  }

  /** The last, padded quintet is the accumulator shifted once more. */
  lemma PadsByShift(value: nat, bits: nat)
    requires 0 < bits < 5
    ensures value * Pow2(5 - bits) % WORD % 32 == Join(Low(value, bits), 0, 5 - bits)
  {
    hide Pow2, Join, Low, Top;
    Accumulate(value, bits, 5 - bits, 0);
    LowIsRemainder(value * Pow2(5 - bits) % WORD);
  }

  method FromBase32InPlace(s: string) returns (out: Option<seq<Byte>>)
    ensures out == FromBase32(s)
  {
    hide DecodeFrom, Pow2, QuintetOf, Prepended, Join, Top, Low;
    SmallPowers();
    var bits: nat, value: nat, bytes: seq<Byte> := 0, 0, [];
    LowOfNothing();
    assert s[0..] == s;
    PrependedNothing(DecodeFrom(0, 0, s));
    for i := 0 to |s|
      invariant bits < 8 && value < WORD
      invariant FromBase32(s) == Prepended(bytes, DecodeFrom(Low(value, bits), bits, s[i..]))
    {
      assert s[i..][0] == s[i] && s[i..][1..] == s[i + 1..];
      DecodeStep(Low(value, bits), bits, s[i..]);
      if QuintetOf(s[i]).None? { PrependedNone(bytes); return None; }
      Accumulate(value, bits, 5, QuintetOf(s[i]).value);
      value := value * 32 % WORD + QuintetOf(s[i]).value;
      bits := bits + 5;
      if bits >= 8 {
        CutTwice(value, 8, bits - 8);
        LowIsRemainder(Top(value, bits - 8));
        PrependedTwice(bytes, Top(value, bits - 8) % 256, DecodeFrom(Low(value, bits - 8), bits - 8, s[i + 1..]));
        bytes := bytes + [Top(value, bits - 8) % 256];
        bits := bits - 8;
      }
    }
    assert s[|s|..] == "";
    DecodeEnds(Low(value, bits), bits);
    PrependedEnd(bytes);
    return Some(bytes);
  }

  lemma PrependedNone(bytes: seq<Byte>)
    ensures Prepended(bytes, None) == None
  {
  }

  lemma PrependedEnd(bytes: seq<Byte>)
    ensures Prepended(bytes, Some([])) == Some(bytes)
  {
    assert bytes + [] == bytes;
  }

  lemma PrependedTwice(bytes: seq<Byte>, b: Byte, rest: Option<seq<Byte>>)
    ensures Prepended(bytes + [b], rest) == Prepended(bytes, Prepended([b], rest))
  {
    match rest { case None => case Some(more) => assert bytes + [b] + more == bytes + ([b] + more); }
  }

  lemma PrependedNothing(rest: Option<seq<Byte>>)
    ensures Prepended([], rest) == rest
  {
    match rest { case None => case Some(more) => assert [] + more == more; }
  }

  // ---------------------------------------------------------------- invite keys

  /** What an invite carries; without an endpoint it is a version 1 key. */
  datatype Invite = Invite(serverId: seq<Byte>, secret: seq<Byte>, endpoint: seq<Byte>)

  const SEGMENT_CHARS := 26
  const MAX_GROUPS := 32

  /** `-` and up to four characters, at most `n` times. */
  function Groups(s: string, n: nat): string
    decreases n
  {
    if s == "" || n == 0 then ""
    else if |s| <= 4 then "-" + s
    else "-" + s[..4] + Groups(s[4..], n - 1)
  }

  function Plain(v: Invite): string {
    ToBase32(v.endpoint) + (ToBase32(v.serverId) + ToBase32(v.secret))
  }

  function FormatInviteKey(v: Invite): string {
    (if v.endpoint == [] then "JC1" else "JC2") + Groups(Plain(v), MAX_GROUPS)
  }

  predicate KeyChar(c: char) { QuintetOf(c).Some? }

  /** `(-[A-Za-z2-7]+)+` */
  predicate KeyBody(body: string) {
    && |body| >= 2 && body[0] == '-' && body[|body| - 1] != '-'
    && (forall i | 0 <= i < |body| && body[i] == '-' :: i + 1 < |body| && body[i + 1] != '-')
    && (forall i | 0 <= i < |body| :: body[i] == '-' || KeyChar(body[i]))
  }

  function Strip(s: string): string {
    if s == "" then "" else if s[0] == '-' then Strip(s[1..]) else [s[0]] + Strip(s[1..])
  }

  function ParseInviteKey(key: string): Option<Invite> {
    if |key| < 4 || key[..2] != "JC" || (key[2] != '1' && key[2] != '2') || !KeyBody(key[3..]) then None
    else ParseCompact(key[2] == '2', Strip(key[3..]))
  }

  function ParseCompact(second: bool, compact: string): Option<Invite> {
    var n := |compact|;
    if n < 2 * SEGMENT_CHARS || (!second && n != 2 * SEGMENT_CHARS) || (second && n == 2 * SEGMENT_CHARS) then None
    else
      var sid, secret := FromBase32(compact[n - 52..n - 26]), FromBase32(compact[n - 26..]);
      var endpoint := FromBase32(compact[..n - 52]);
      if sid.None? || secret.None? || endpoint.None? || |sid.value| != 16 || |secret.value| != 16 then None
      else Some(Invite(sid.value, secret.value, endpoint.value))
  }

  lemma {:induction false} EncodeFromShape(v: nat, bits: nat, data: seq<Byte>)
    requires v < Pow2(bits) && bits <= 12
    ensures |EncodeFrom(v, bits, data)| == (bits + 8 * |data| + 4) / 5 && KeyText(EncodeFrom(v, bits, data))
    decreases |data|, bits
  {
    hide Pow2, CharOf, QuintetOf, EncodeFrom, Join, Top, Low, KeyChar;
    if bits >= 5 {
      EncodeGivesQuintet(v, bits, data);
      DashIsNoChar(Top(v, bits - 5));
      EncodeFromShape(Low(v, bits - 5), bits - 5, data);
    } else if data != [] {
      EncodeTakesByte(v, bits, data);
      EncodeFromShape(Join(v, data[0], 8), bits + 8, data[1..]);
    } else if bits > 0 {
      EncodePads(v, bits);
      DashIsNoChar(Join(v, 0, 5 - bits));
    } else {
      EncodeEnds(v);
    }
  }

  lemma DashIsNoChar(q: Quintet)
    ensures CharOf(q) != '-' && KeyChar(CharOf(q))
  {
  }

  lemma Base32Shape(data: seq<Byte>)
    ensures |ToBase32(data)| == (8 * |data| + 4) / 5 && KeyText(ToBase32(data))
  {
    hide EncodeFrom, KeyText;
    SmallPowers();
    EncodeFromShape(0, 0, data);
  }

  lemma {:induction false} DecodeLength(v: nat, bits: nat, s: string)
    requires v < Pow2(bits) && bits < 8 && DecodeFrom(v, bits, s).Some?
    ensures |DecodeFrom(v, bits, s).value| == (bits + 5 * |s|) / 8
    decreases |s|
  {
    hide Pow2, QuintetOf, Join, Top, Low, DecodeFrom;
    if s == "" {
      DecodeEnds(v, bits);
    } else {
      DecodeStep(v, bits, s);
      var q := QuintetOf(s[0]).value;
      if bits < 3 { DecodeLength(Join(v, q, 5), bits + 5, s[1..]); } else { DecodeLength(Low(Join(v, q, 5), bits - 3), bits - 3, s[1..]); }
    }
  }

  predicate KeyText(s: string) {
    forall i | 0 <= i < |s| :: KeyChar(s[i]) && s[i] != '-'
  }

  function UpTo(s: string, n: nat): string {
    if |s| <= n then s else s[..n]
  }

  lemma {:induction false} StripText(s: string, rest: string)
    requires KeyText(s)
    ensures Strip(s + rest) == s + Strip(rest)
    decreases |s|
  {
    if s == "" {
      assert s + rest == rest;
    } else {
      assert (s + rest)[1..] == s[1..] + rest;
      StripText(s[1..], rest);
    }
  }

  lemma StripOne(head: string, more: string)
    requires KeyText(head)
    ensures Strip("-" + head + more) == head + Strip(more)
  {
    assert ("-" + head + more)[1..] == head + more;
    StripText(head, more);
  }

  lemma UpToNext(s: string, n: nat)
    requires |s| > 4 && n > 0
    ensures UpTo(s, 4 * n) == s[..4] + UpTo(s[4..], 4 * (n - 1))
  {
  }

  /** Taking the dashes out of the groups gives back as many characters as fitted. */
  lemma {:induction false} StripGroups(s: string, n: nat)
    requires KeyText(s)
    ensures Strip(Groups(s, n)) == UpTo(s, 4 * n)
    decreases n
  {
    hide KeyChar;
    if s != "" && n > 0 {
      if |s| <= 4 {
        StripOne(s, "");
        assert "-" + s + "" == "-" + s && s + "" == s;
      } else {
        StripGroups(s[4..], n - 1);
        StripOne(s[..4], Groups(s[4..], n - 1));
        UpToNext(s, n);
      }
    }
  }

  lemma {:induction false} GroupsAreBody(s: string, n: nat)
    requires KeyText(s) && s != "" && n > 0
    ensures KeyBody(Groups(s, n))
    decreases n
  {
    hide KeyChar;
    var g := Groups(s, n);
    if |s| <= 4 {
      assert g == "-" + s;
    } else if n == 1 {
      assert Groups(s[4..], 0) == "";
      assert g == "-" + s[..4];
    } else {
      var more := Groups(s[4..], n - 1);
      GroupsAreBody(s[4..], n - 1);
      BodyInFront(s[..4], more);
    }
  }

  lemma BodyInFront(group: string, more: string)
    requires |group| == 4 && KeyText(group) && KeyBody(more)
    ensures KeyBody("-" + group + more)
  {
    hide KeyChar;
    var g := "-" + group + more;
    assert g[0] == '-' && forall i | 5 <= i < |g| :: g[i] == more[i - 5];
    forall i | 0 <= i < |g| ensures g[i] == '-' ==> i + 1 < |g| && g[i + 1] != '-' {
      if i >= 5 && g[i] == '-' {
        assert more[i - 5] == '-';
        assert i - 5 + 1 < |more| && more[i - 5 + 1] != '-';
        assert g[i + 1] == more[i - 5 + 1];
      } else if 1 <= i < 5 {
        assert g[i] == group[i - 1];
      } else if i == 0 {
        assert g[1] == group[0];
      }
    }
    forall i | 0 <= i < |g| ensures g[i] != '-' ==> KeyChar(g[i]) {
      if i >= 5 {
        assert g[i] == more[i - 5];
      } else if i >= 1 {
        assert g[i] == group[i - 1];
        assert KeyChar(group[i - 1]);
      }
    }
    assert g[|g| - 1] == more[|more| - 1];
  }

  lemma PlainShape(v: Invite)
    requires |v.serverId| == 16 && |v.secret| == 16
    ensures KeyText(Plain(v)) && |Plain(v)| == (8 * |v.endpoint| + 4) / 5 + 52
  {
    hide KeyChar, ToBase32;
    Base32Shape(v.endpoint);
    Base32Shape(v.serverId);
    Base32Shape(v.secret);
  }

  lemma ParsesItsGroups(v: Invite)
    requires |v.serverId| == 16 && |v.secret| == 16
    ensures ParseInviteKey(FormatInviteKey(v)) == ParseCompact(v.endpoint != [], UpTo(Plain(v), 128))
  {
    hide KeyBody, Strip, Groups, ParseCompact, Plain, KeyText, UpTo;
    PlainShape(v);
    var body := Groups(Plain(v), MAX_GROUPS);
    GroupsAreBody(Plain(v), MAX_GROUPS);
    StripGroups(Plain(v), MAX_GROUPS);
    var key := FormatInviteKey(v);
    assert key[3..] == body && key[..2] == "JC";
    BodyIsNotEmpty(body);
  }

  lemma BodyIsNotEmpty(body: string)
    requires KeyBody(body)
    ensures |body| >= 2
  {
  }

  lemma WholeKeyParses(v: Invite)
    requires |v.serverId| == 16 && |v.secret| == 16
    ensures ParseCompact(v.endpoint != [], Plain(v)) == Some(v)
  {
    hide ToBase32, FromBase32, KeyText, KeyChar;
    PlainShape(v);
    Base32Shape(v.endpoint);
    Base32Shape(v.serverId);
    Base32Shape(v.secret);
    Base32RoundTrip(v.endpoint);
    Base32RoundTrip(v.serverId);
    Base32RoundTrip(v.secret);
    var n := |Plain(v)|;
    assert Plain(v)[..n - 52] == ToBase32(v.endpoint);
    assert Plain(v)[n - 52..n - 26] == ToBase32(v.serverId);
    assert Plain(v)[n - 26..] == ToBase32(v.secret);
  }

  lemma CutKeyLosesEndpoint(second: bool, compact: string)
    requires |compact| == 128 && ParseCompact(second, compact).Some?
    ensures |ParseCompact(second, compact).value.endpoint| == 47
  {
    hide DecodeFrom;
    SmallPowers();
    DecodeLength(0, 0, compact[..76]);
  }

  /** A key parses back to what it was made from exactly if its endpoint has at most 47 bytes; none at all is fine. */
  lemma InviteRoundTripIff(v: Invite)
    requires |v.serverId| == 16 && |v.secret| == 16
    ensures ParseInviteKey(FormatInviteKey(v)) == Some(v) <==> |v.endpoint| <= 47
  {
    ParsesItsGroups(v);
    PlainShape(v);
    hide ParseInviteKey, FormatInviteKey, Plain, ParseCompact, KeyText;
    if |v.endpoint| <= 47 {
      WholeKeyParses(v);
    } else {
      var cut := UpTo(Plain(v), 128);
      if ParseCompact(true, cut).Some? { CutKeyLosesEndpoint(true, cut); }
    }
  }
}
