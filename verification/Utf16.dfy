/**
 * JavaScript strings as sequences of 16-bit units, and their UTF-8 bytes as Node's Buffer produces them:
 * pairs as in section 2.1 of RFC 2781, byte layouts as in section 3 of RFC 3629, and a surrogate without
 * its partner as U+FFFD.
 */
module Utf16 {
  import opened Basics

  type Unit = u: nat | u < 0x1_0000
  type Byte = b: nat | b < 0x100
  type Text = seq<Unit>

  predicate IsHigh(u: Unit) { 0xD800 <= u <= 0xDBFF }
  predicate IsLow(u: Unit) { 0xDC00 <= u <= 0xDFFF }

  /** Cutting at k would separate a surrogate pair. */
  predicate Splits(t: Text, k: int) {
    0 < k < |t| && IsHigh(t[k - 1]) && IsLow(t[k])
  }

  function CodePoint(high: Unit, low: Unit): (c: nat)
    requires IsHigh(high) && IsLow(low)
    ensures 0x1_0000 <= c < 0x11_0000
  {
    0x1_0000 + (high - 0xD800) * 0x400 + (low - 0xDC00)
  }

  const Replacement: Unit := 0xFFFD

  function EncodeUnit(u: Unit): (r: seq<Byte>)
    ensures 1 <= |r| <= 3
  {
    if u < 0x80 then [u]
    else if u < 0x800 then [0xC0 + u / 0x40, 0x80 + u % 0x40]
    else
      var v := if IsHigh(u) || IsLow(u) then Replacement else u;
      [0xE0 + v / 0x1000, 0x80 + v / 0x40 % 0x40, 0x80 + v % 0x40]
  }

  function EncodePair(high: Unit, low: Unit): (r: seq<Byte>)
    requires IsHigh(high) && IsLow(low)
    ensures |r| == 4
  {
    var c := CodePoint(high, low);
    [0xF0 + c / 0x4_0000, 0x80 + c / 0x1000 % 0x40, 0x80 + c / 0x40 % 0x40, 0x80 + c % 0x40]
  }

  /** Units of the character at the front: two for a pair, one otherwise. */
  function Width(t: Text): (w: nat)
    requires t != []
    ensures 1 <= w <= |t| && w <= 2
  {
    if Splits(t, 1) then 2 else 1
  }

  function EncodeFirst(t: Text): (r: seq<Byte>)
    requires t != []
    ensures 1 <= |r| <= 4
  {
    if Splits(t, 1) then EncodePair(t[0], t[1]) else EncodeUnit(t[0])
  }

  function Encode(t: Text): seq<Byte> {
    if t == [] then [] else EncodeFirst(t) + Encode(t[Width(t)..])
  }

  function ByteLength(t: Text): nat {
    |Encode(t)|
  }

  // ---------------------------------------------------------------- cutting and joining

  lemma FrontOfConcat(a: Text, b: Text)
    requires a != [] && !Splits(a + b, |a|)
    ensures Width(a + b) == Width(a) && EncodeFirst(a + b) == EncodeFirst(a)
    ensures (a + b)[Width(a)..] == a[Width(a)..] + b && !Splits(a[Width(a)..] + b, |a| - Width(a))
  {
    hide EncodeUnit, EncodePair, CodePoint;
    assert (a + b)[0] == a[0];
    assert Splits(a + b, 1) == Splits(a, 1);
    var w := Width(a);
    var rest := a[w..] + b;
    assert (a + b)[w..] == rest;
    assert forall i :: 0 <= i < |rest| ==> rest[i] == (a + b)[w + i];
  }

  lemma {:induction false} EncodeConcat(a: Text, b: Text)
    requires !Splits(a + b, |a|)
    ensures Encode(a + b) == Encode(a) + Encode(b)
  {
    hide EncodeFirst, Splits, Width;
    if a == [] {
      assert a + b == b;
    } else {
      FrontOfConcat(a, b);
      var rest := a[Width(a)..];
      EncodeConcat(rest, b);
      assert EncodeFirst(a) + (Encode(rest) + Encode(b)) == (EncodeFirst(a) + Encode(rest)) + Encode(b);
    }
  }

  /** Joining two halves of a pair only saves bytes. */
  lemma {:induction false} ConcatBound(a: Text, b: Text)
    ensures ByteLength(a + b) <= ByteLength(a) + ByteLength(b)
  {
    if !Splits(a + b, |a|) {
      EncodeConcat(a, b);
    } else {
      var n := |a| - 1;
      var head, pair, rest := a[..n], [a[n], b[0]], b[1..];
      assert a == head + [a[n]] && b == [b[0]] + rest && a + b == head + (pair + rest);
      EncodeConcat(head, [a[n]]);
      EncodeConcat(head, pair + rest);
      EncodeConcat([b[0]], rest);
      assert (pair + rest)[2..] == rest && Splits(pair + rest, 1);
      assert [a[n]][1..] == [] && [b[0]][1..] == [];
      assert ByteLength([a[n]]) == 3 && ByteLength([b[0]]) == 3;
    }
  }

  lemma EncodeCut(t: Text, k: nat)
    requires k <= |t| && !Splits(t, k)
    ensures Encode(t) == Encode(t[..k]) + Encode(t[k..])
  {
    assert t == t[..k] + t[k..];
    EncodeConcat(t[..k], t[k..]);
  }

  lemma PairCost(high: Unit, low: Unit)
    requires IsHigh(high) && IsLow(low)
    ensures ByteLength([high, low]) == 4 && ByteLength([high]) == 3
  {
    var pair: Text := [high, low];
    assert Splits(pair, 1) && Width(pair) == 2 && pair[2..] == [];
    assert Encode(pair) == EncodePair(high, low) + Encode(pair[2..]);
    var one: Text := [high];
    assert Width(one) == 1 && one[1..] == [];
    assert Encode(one) == EncodeUnit(high) + Encode(one[1..]);
  }

  lemma UnitCost(u: Unit)
    ensures ByteLength([u]) >= 1
  {
  }

  /** One more unit always costs at least one more byte. */
  lemma PrefixGrows(t: Text, k: nat)
    requires k < |t|
    ensures ByteLength(t[..k]) < ByteLength(t[..k + 1])
  {
    hide Encode;
    var longer := t[..k + 1];
    if Splits(t, k) {
      var n := k - 1;
      assert longer[..n] == t[..k][..n] == t[..n];
      EncodeCut(longer, n);
      EncodeCut(t[..k], n);
      assert longer[n..] == [t[n], t[k]] && t[..k][n..] == [t[n]];
      PairCost(t[n], t[k]);
    } else {
      assert !Splits(longer, k);
      EncodeCut(longer, k);
      assert longer[..k] == t[..k] && longer[k..] == [t[k]];
      UnitCost(t[k]);
    }
  }

  lemma {:induction false} PrefixMonotone(t: Text, j: nat, k: nat)
    requires j <= k <= |t|
    ensures ByteLength(t[..j]) + (k - j) <= ByteLength(t[..k])
    decreases k - j
  {
    if j < k {
      PrefixGrows(t, k - 1);
      PrefixMonotone(t, j, k - 1);
    }
  }

  // ---------------------------------------------------------------- lead and continuation bytes

  predicate Continues(b: Byte) { 0x80 <= b < 0xC0 }

  lemma FirstBytes(t: Text)
    requires t != []
    ensures !Continues(EncodeFirst(t)[0])
    ensures forall i :: 0 < i < |EncodeFirst(t)| ==> Continues(EncodeFirst(t)[i])
  {
  }

  // ---------------------------------------------------------------- decoding

  /** What a string becomes by going through UTF-8: lone surrogates turn into U+FFFD. */
  function Repaired(t: Text): Text {
    if t == [] then []
    else if Splits(t, 1) then t[..2] + Repaired(t[2..])
    else [if IsHigh(t[0]) || IsLow(t[0]) then Replacement else t[0]] + Repaired(t[1..])
  }

  function DecodePair(c: nat): Text
    requires 0x1_0000 <= c < 0x11_0000
  {
    [0xD800 + (c - 0x1_0000) / 0x400, 0xDC00 + (c - 0x1_0000) % 0x400]
  }

  /** The payload bits of two, three and four bytes. */
  function Value2(b0: int, b1: int): int { (b0 - 0xC0) * 0x40 + (b1 - 0x80) }
  function Value3(b0: int, b1: int, b2: int): int { (b0 - 0xE0) * 0x1000 + (b1 - 0x80) * 0x40 + (b2 - 0x80) }
  function Value4(b0: int, b1: int, b2: int, b3: int): int {
    (b0 - 0xF0) * 0x4_0000 + (b1 - 0x80) * 0x1000 + (b2 - 0x80) * 0x40 + (b3 - 0x80)
  }

  /** Well-formed sequences only; anything else has no value here. */
  function Decode(b: seq<Byte>): Option<Text> {
    if b == [] then Some([])
    else if b[0] < 0x80 then Prepend([b[0]], Decode(b[1..]))
    else if 0xC0 <= b[0] < 0xE0 && |b| >= 2 && Continues(b[1]) then
      Prepend([Value2(b[0], b[1])], Decode(b[2..]))
    else if 0xE0 <= b[0] < 0xF0 && |b| >= 3 && Continues(b[1]) && Continues(b[2]) then
      Prepend([Value3(b[0], b[1], b[2])], Decode(b[3..]))
    else if 0xF0 <= b[0] < 0xF8 && |b| >= 4 && Continues(b[1]) && Continues(b[2]) && Continues(b[3]) then
      var c := Value4(b[0], b[1], b[2], b[3]);
      if 0x1_0000 <= c < 0x11_0000 then Prepend(DecodePair(c), Decode(b[4..])) else None
    else None
  }

  function Prepend(t: Text, rest: Option<Text>): Option<Text> {
    if rest.Some? then Some(t + rest.value) else None
  }

  lemma DecodeOne(u: Unit, rest: seq<Byte>)
    ensures Decode(EncodeUnit(u) + rest)
            == Prepend([if IsHigh(u) || IsLow(u) then Replacement else u], Decode(rest))
  {
    var b := EncodeUnit(u) + rest;
    assert b[|EncodeUnit(u)|..] == rest;
  }

  lemma Digits(c: nat)
    ensures c / 0x4_0000 * 0x4_0000 + c / 0x1000 % 0x40 * 0x1000 + c / 0x40 % 0x40 * 0x40 + c % 0x40 == c
  {
    assert c / 0x1000 == c / 0x40 / 0x40;
    assert c / 0x4_0000 == c / 0x1000 / 0x40;
  }

  lemma PairValue(high: Unit, low: Unit)
    requires IsHigh(high) && IsLow(low)
    ensures var b := EncodePair(high, low);
            var c := CodePoint(high, low);
            Value4(b[0], b[1], b[2], b[3]) == c && DecodePair(c) == [high, low]
  {
    Digits(CodePoint(high, low));
  }

  lemma DecodeTwo(high: Unit, low: Unit, rest: seq<Byte>)
    requires IsHigh(high) && IsLow(low)
    ensures Decode(EncodePair(high, low) + rest) == Prepend([high, low], Decode(rest))
  {
    var pair := EncodePair(high, low);
    var b := pair + rest;
    assert b[4..] == rest && b[0] == pair[0] && b[1] == pair[1] && b[2] == pair[2] && b[3] == pair[3];
    PairValue(high, low);
    assert pair[0] >= 0xF0 && pair[0] < 0xF8 && Continues(pair[1]) && Continues(pair[2]) && Continues(pair[3]);
    hide EncodePair, CodePoint, DecodePair, Value4;
  }

  /** Going through UTF-8 and back changes nothing but lone surrogates. */
  lemma {:induction false} DecodeEncode(t: Text)
    ensures Decode(Encode(t)) == Some(Repaired(t))
  {
    if t != [] {
      DecodeEncode(t[Width(t)..]);
      if Splits(t, 1) {
        DecodeTwo(t[0], t[1], Encode(t[2..]));
        assert t[..2] == [t[0], t[1]];
      } else {
        DecodeOne(t[0], Encode(t[1..]));
      }
    }
  }

  /** A string without lone surrogates survives unchanged. */
  lemma {:induction false} RoundTrip(t: Text)
    requires forall k :: 0 <= k < |t| && IsHigh(t[k]) ==> Splits(t, k + 1)
    requires forall k :: 0 <= k < |t| && IsLow(t[k]) ==> Splits(t, k)
    ensures Decode(Encode(t)) == Some(t)
  {
    DecodeEncode(t);
    WellFormedRepaired(t);
  }

  lemma {:induction false} WellFormedRepaired(t: Text)
    requires forall k :: 0 <= k < |t| && IsHigh(t[k]) ==> Splits(t, k + 1)
    requires forall k :: 0 <= k < |t| && IsLow(t[k]) ==> Splits(t, k)
    ensures Repaired(t) == t
  {
    if t != [] {
      var w := Width(t);
      var rest := t[w..];
      forall k | 0 <= k < |rest| && IsHigh(rest[k])
        ensures Splits(rest, k + 1)
      {
        assert IsHigh(t[w + k]) && Splits(t, w + k + 1);
      }
      forall k | 0 <= k < |rest| && IsLow(rest[k])
        ensures Splits(rest, k)
      {
        assert IsLow(t[w + k]) && Splits(t, w + k);
      }
      WellFormedRepaired(rest);
    }
  }

  // ---------------------------------------------------------------- character by character

  /** A surrogate without its partner. */
  predicate Lone(t: Text, k: nat)
    requires k < |t|
  {
    (0xD800 <= t[k] <= 0xDBFF && !(k + 1 < |t| && 0xDC00 <= t[k + 1] <= 0xDFFF))
    || (0xDC00 <= t[k] <= 0xDFFF && !(k > 0 && 0xD800 <= t[k - 1] <= 0xDBFF))
  }

  /** Going through UTF-8 replaces lone surrogates by U+FFFD, unit by unit, and nothing else. */
  lemma {:induction false} RepairedMeaning(t: Text, k: nat)
    requires k < |t|
    ensures |Repaired(t)| == |t| && Repaired(t)[k] == if Lone(t, k) then 0xFFFD else t[k]
    decreases |t|
  {
    var w := Width(t);
    RepairedLength(t);
    RepairedLength(t[w..]);
    if k >= w {
      RepairedMeaning(t[w..], k - w);
      assert Lone(t[w..], k - w) <==> Lone(t, k);
    } else if w == 2 {
      assert t[..2][k] == t[k];
    }
  }

  lemma {:induction false} RepairedLength(t: Text)
    ensures |Repaired(t)| == |t|
  {
    if t != [] {
      RepairedLength(t[Width(t)..]);
    }
  }

  /** One to four bytes, by the ranges of section 3 of RFC 3629. */
  lemma WidthsOfCharacters(u: Unit, high: Unit, low: Unit)
    requires IsHigh(high) && IsLow(low)
    ensures ByteLength([u]) == if u <= 0x7F then 1 else if u <= 0x7FF then 2 else 3
    ensures ByteLength([high, low]) == 4
  {
    assert [u][1..] == [] && [high, low][2..] == [];
    assert Encode([]) == [];
  }

  lemma FrontUnit(t: Text)
    requires t != [] && !IsHigh(t[0])
    ensures Encode(t) == EncodeUnit(t[0]) + Encode(t[1..])
  {
  }

  lemma OneUnit(u: Unit)
    requires !IsHigh(u)
    ensures Encode([u]) == EncodeUnit(u)
  {
    FrontUnit([u]);
    assert [u][1..] == [] && Encode([]) == [];
  }

  lemma FourUnits(a: Unit, b: Unit, c: Unit, d: Unit)
    requires !IsHigh(a) && !IsHigh(b) && !IsHigh(c) && !IsHigh(d)
    ensures Encode([a, b, c, d]) == EncodeUnit(a) + EncodeUnit(b) + EncodeUnit(c) + EncodeUnit(d)
  {
    hide Encode, EncodeUnit;
    FrontUnit([a, b, c, d]);
    FrontUnit([b, c, d]);
    FrontUnit([c, d]);
    OneUnit(d);
    assert [a, b, c, d][1..] == [b, c, d] && [b, c, d][1..] == [c, d] && [c, d][1..] == [d];
  }

  lemma LonePair(high: Unit, low: Unit)
    requires IsHigh(high) && IsLow(low)
    ensures Encode([high, low]) == EncodePair(high, low) && Encode([high]) == EncodeUnit(high)
  {
    hide EncodePair, EncodeUnit;
    assert [high, low][2..] == [] && [high][1..] == [] && Encode([]) == [];
  }

  /** The examples of section 7 of RFC 3629 ("A", not identical to, capital alpha, "."; and U+233B4), and a lone surrogate. */
  lemma StandardExamples()
    ensures Encode([0x41, 0x2262, 0x391, 0x2E]) == [0x41, 0xE2, 0x89, 0xA2, 0xCE, 0x91, 0x2E]
    ensures Encode([0xD84C, 0xDFB4]) == [0xF0, 0xA3, 0x8E, 0xB4]
    ensures Encode([0xD84C]) == [0xEF, 0xBF, 0xBD]
  {
    hide Encode;
    FourUnits(0x41, 0x2262, 0x391, 0x2E);
    LonePair(0xD84C, 0xDFB4);
  }

  /** The characters of a literal. */
  function Units(s: string): Text {
    seq(|s|, i requires 0 <= i < |s| => (s[i] as int) % 0x1_0000)
  }
}
