/**
 * Byte budgets over UTF-16 text: the binary search of config/extensions/stateful-memory/recall-utils.js,
 * the backing-off loop of config/extensions/ssh.ts, and the joiner built on the former.
 */
module TextBudget {
  import opened Basics
  import opened Utf16

  /** The longest prefix of at most `maxBytes` UTF-8 bytes that separates no surrogate pair. */
  ghost predicate LongestPrefix(text: Text, maxBytes: int, take: int) {
    && 0 <= take <= |text| && !Splits(text, take)
    && ByteLength(text[..take]) <= maxBytes
    && forall k :: take < k <= |text| && !Splits(text, k) ==> ByteLength(text[..k]) > maxBytes
  }

  lemma LongestPrefixUnique(text: Text, maxBytes: int, a: int, b: int)
    requires LongestPrefix(text, maxBytes, a) && LongestPrefix(text, maxBytes, b)
    ensures a == b
  {
  }

  function Clamp(i: int, lo: int, hi: int): int
  {
    if i < lo then lo else if i > hi then hi else i
  }

  /** Moves a cut off the middle of a pair, to the left. */
  function AvoidSplitSurrogate(text: Text, index: int): (boundary: nat)
    ensures boundary <= |text| && !Splits(text, boundary)
    ensures Clamp(index, 0, |text|) - 1 <= boundary <= Clamp(index, 0, |text|)
    ensures !Splits(text, Clamp(index, 0, |text|)) ==> boundary == Clamp(index, 0, |text|)
  {
    var boundary := Clamp(index, 0, |text|);
    if Splits(text, boundary) then boundary - 1 else boundary
  }

  method Utf8PrefixWithinBytes(text: Text, maxBytes: nat) returns (take: nat)
    ensures LongestPrefix(text, maxBytes, take)
  {
    assert text[..|text|] == text;
    if ByteLength(text) <= maxBytes {
      return |text|;
    }
    var low, high := 0, |text|;
    while low < high
      invariant 0 <= low <= high <= |text|
      invariant ByteLength(text[..low]) <= maxBytes
      invariant forall k :: high < k <= |text| ==> ByteLength(text[..k]) > maxBytes
    {
      var mid := (low + high + 1) / 2;
      if ByteLength(text[..mid]) <= maxBytes {
        low := mid;
      } else {
        forall k | mid <= k <= |text|
          ensures ByteLength(text[..k]) > maxBytes
        {
          PrefixMonotone(text, mid, k);
        }
        high := mid - 1;
      }
    }
    take := AvoidSplitSurrogate(text, low);
    PrefixMonotone(text, take, low);
  }

  /** Where backing off continuation bytes from `from` stops. */
  function BackOff(buf: seq<Byte>, from: nat): (end: nat)
    requires from < |buf|
    ensures end <= from && (end == 0 || !Continues(buf[end]))
    ensures forall j :: end < j <= from ==> Continues(buf[j])
  {
    if from > 0 && Continues(buf[from]) then BackOff(buf, from - 1) else from
  }

  /** The character after a longest prefix does not fit any more. */
  lemma NextOverflows(text: Text, maxBytes: nat, take: nat)
    requires LongestPrefix(text, maxBytes, take) && ByteLength(text) > maxBytes
    ensures take < |text|
    ensures var rest := text[take..];
            Encode(text) == Encode(text[..take]) + (EncodeFirst(rest) + Encode(rest[Width(rest)..]))
    ensures ByteLength(text[..take]) + |EncodeFirst(text[take..])| > maxBytes
  {
    hide Encode, EncodeFirst;
    assert text[..|text|] == text;
    var head, rest := text[..take], text[take..];
    EncodeCut(text, take);
    FrontEncoded(rest);
    var w := Width(rest);
    var first := rest[..w];
    NextBoundary(text, take);
    assert text[..take + w] == head + first;
    EncodeCut(head + first, take);
    assert (head + first)[..take] == head && (head + first)[take..] == first;
  }

  lemma FrontEncoded(rest: Text)
    requires rest != []
    ensures Encode(rest) == EncodeFirst(rest) + Encode(rest[Width(rest)..])
    ensures Encode(rest[..Width(rest)]) == EncodeFirst(rest)
  {
    var first := rest[..Width(rest)];
    assert first[Width(first)..] == [] && Encode([]) == [];
  }

  /** The place behind the character at a boundary is a boundary; so the two parts there can be told apart. */
  lemma NextBoundary(text: Text, take: nat)
    requires take < |text| && !Splits(text, take)
    ensures var w := Width(text[take..]);
            !Splits(text, take + w) && !Splits(text[..take] + text[take..][..w], take)
  {
    var rest := text[take..];
    var w := Width(rest);
    assert Splits(rest, 1) <==> Splits(text, take + 1);
    if w == 2 { assert IsLow(rest[1]); }
    var both := text[..take] + rest[..w];
    assert forall i :: 0 <= i < take + w ==> both[i] == text[i];
  }

  /** Both searches stop at the same character boundary. */
  lemma BackOffIsLongestPrefix(text: Text, maxBytes: nat, take: nat)
    requires LongestPrefix(text, maxBytes, take) && ByteLength(text) > maxBytes
    ensures take < |text| && Encode(text)[..BackOff(Encode(text), maxBytes)] == Encode(text[..take])
  {
    NextOverflows(text, maxBytes, take);
    var rest := text[take..];
    FirstBytes(rest);
    BackOffInside(Encode(text[..take]), EncodeFirst(rest), Encode(rest[Width(rest)..]), maxBytes);
  }

  lemma BackOffInside(head: seq<Byte>, first: seq<Byte>, tail: seq<Byte>, from: nat)
    requires |head| <= from < |head| + |first|
    requires !Continues(first[0]) && forall i :: 0 < i < |first| ==> Continues(first[i])
    ensures BackOff(head + (first + tail), from) == |head|
  {
    var buf := head + (first + tail);
    assert forall i :: 0 <= i < |first| ==> buf[|head| + i] == first[i];
    assert forall j :: |head| < j <= from ==> Continues(buf[j]) by {
      forall j | |head| < j <= from ensures Continues(buf[j]) { assert buf[j] == first[j - |head|]; }
    }
    assert !Continues(buf[|head| + 0]);
  }

  /** truncateToBytes: the text is decoded again, so a lone surrogate comes back as U+FFFD. */
  method TruncateToBytes(input: Text, maxBytes: nat) returns (text: Text, truncated: bool, ghost take: nat)
    ensures LongestPrefix(input, maxBytes, take)
    ensures truncated <==> ByteLength(input) > maxBytes
    ensures text == if truncated then Repaired(input[..take]) else input
  {
    var buf := Encode(input);
    assert input[..|input|] == input;
    take := LongestPrefixExists(input, maxBytes);
    if |buf| <= maxBytes {
      return input, false, take;
    }
    var end := maxBytes;
    while end > 0 && Continues(buf[end])
      invariant 0 <= end <= maxBytes && BackOff(buf, maxBytes) == BackOff(buf, end)
    {
      end := end - 1;
    }
    assert end == BackOff(buf, end);
    BackOffIsLongestPrefix(input, maxBytes, take);
    DecodeEncode(input[..take]);
    text, truncated := Decode(buf[..end]).value, true;
  }

  lemma LongestPrefixExists(text: Text, maxBytes: nat) returns (take: nat)
    ensures LongestPrefix(text, maxBytes, take)
  {
    take := 0;
    var k := 0;
    while k < |text|
      invariant 0 <= k <= |text| && 0 <= take <= k
      invariant !Splits(text, take) && ByteLength(text[..take]) <= maxBytes
      invariant forall j :: take < j <= k && !Splits(text, j) ==> ByteLength(text[..j]) > maxBytes
    {
      k := k + 1;
      if !Splits(text, k) && ByteLength(text[..k]) <= maxBytes {
        take := k;
      }
    }
  }

  // ---------------------------------------------------------------- joining sections

  function Join(sections: seq<Text>, separator: Text): Text {
    if sections == [] then []
    else if |sections| == 1 then sections[0]
    else Join(sections[..|sections| - 1], separator) + separator + sections[|sections| - 1]
  }

  /** The bytes the joiner accounts for: separators and sections one by one. */
  function JoinCost(sections: seq<Text>, separator: Text): nat {
    if sections == [] then 0
    else
      JoinCost(sections[..|sections| - 1], separator)
      + (if |sections| > 1 then ByteLength(separator) else 0) + ByteLength(sections[|sections| - 1])
  }

  function Separated(sections: seq<Text>, separator: Text): Text {
    if sections == [] then [] else separator
  }

  const Marker: Text := [10, 40, 116, 114, 117, 110, 99, 97, 116, 101, 100, 41]   // "\n(truncated)"

  lemma MarkerReads()
    ensures Marker == Units("\n(truncated)")
  {
  }

  function NonEmpty(sections: seq<Text>): seq<Text> {
    if sections == [] then []
    else (if sections[0] == [] then [] else [sections[0]]) + NonEmpty(sections[1..])
  }

  /** The kept texts stand, in this order, at these places. */
  predicate KeptAt(sections: seq<Text>, kept: seq<Text>, at: seq<nat>) {
    && |at| == |kept| && (forall k, l :: 0 <= k < l < |at| ==> at[k] < at[l])
    && (forall k :: 0 <= k < |at| ==> at[k] < |sections| && kept[k] == sections[at[k]] && kept[k] != [])
  }

  predicate EmptyElsewhere(sections: seq<Text>, at: seq<nat>) {
    forall i :: 0 <= i < |sections| && i !in at ==> sections[i] == []
  }

  function Shifted(first: Text, at: seq<nat>): seq<nat> {
    (if first == [] then [] else [0]) + seq(|at|, k requires 0 <= k < |at| => at[k] + 1)
  }

  lemma KeptLater(first: Text, sections: seq<Text>, kept: seq<Text>, at: seq<nat>)
    requires KeptAt(sections, kept, at)
    ensures KeptAt([first] + sections, (if first == [] then [] else [first]) + kept, Shifted(first, at))
  {
  }

  lemma InShifted(first: Text, at: seq<nat>, i: nat)
    ensures i in at ==> i + 1 in Shifted(first, at)
    ensures first != [] ==> 0 in Shifted(first, at)
  {
    if i in at {
      var k :| 0 <= k < |at| && at[k] == i;
      assert Shifted(first, at)[if first == [] then k else k + 1] == i + 1;
    }
    if first != [] { assert Shifted(first, at)[0] == 0; }
  }

  lemma EmptyLater(first: Text, sections: seq<Text>, at: seq<nat>)
    requires EmptyElsewhere(sections, at)
    ensures EmptyElsewhere([first] + sections, Shifted(first, at))
  {
    hide Shifted;
    forall i: nat
      ensures i in at ==> i + 1 in Shifted(first, at)
      ensures first != [] ==> 0 in Shifted(first, at)
    {
      InShifted(first, at, i);
    }
    InShifted(first, at, 0);
  }

  /** What is joined are exactly the sections that are not empty, in their order. */
  lemma {:induction false} NonEmptyMeaning(sections: seq<Text>) returns (at: seq<nat>)
    ensures KeptAt(sections, NonEmpty(sections), at) && EmptyElsewhere(sections, at)
  {
    at := [];
    if sections != [] {
      var later := NonEmptyMeaning(sections[1..]);
      assert sections == [sections[0]] + sections[1..];
      KeptLater(sections[0], sections[1..], NonEmpty(sections[1..]), later);
      EmptyLater(sections[0], sections[1..], later);
      at := Shifted(sections[0], later);
    }
  }

  /** Joined text is the first section, and before each further one the separator; its cost is that of all these. */
  lemma {:induction false} JoinMeaning(sections: seq<Text>, separator: Text)
    requires sections != []
    ensures Join(sections, separator)
         == sections[0] + if |sections| == 1 then [] else separator + Join(sections[1..], separator)
    ensures JoinCost(sections, separator)
         == ByteLength(sections[0]) + if |sections| == 1 then 0 else ByteLength(separator) + JoinCost(sections[1..], separator)
    decreases |sections|
  {
    hide ByteLength;
    if |sections| > 1 {
      var front, last := sections[..|sections| - 1], sections[|sections| - 1];
      JoinMeaning(front, separator);
      assert front[1..] == sections[1..][..|sections| - 2];
      if |front| == 1 {
        assert sections[1..] == [last];
        assert Join(sections[1..], separator) == last;
      }
    } else {
      assert sections[..0] == [];
    }
  }

  /** The first sections in full, then possibly the marked beginning of the next one. */
  ghost predicate Joined(kept: seq<Text>, separator: Text, budget: int, full: nat, text: Text) {
    && full <= |kept| && JoinCost(kept[..full], separator) <= budget
    && (full < |kept| ==> JoinCost(kept[..full + 1], separator) > budget)
    && (var head := Join(kept[..full], separator);
        var prefix := Separated(kept[..full], separator);
        var room := budget - JoinCost(kept[..full], separator) - ByteLength(prefix) - ByteLength(Marker);
        if full == |kept| || room < 0 then text == head
        else exists take :: LongestPrefix(kept[full], room, take) && text == head + (prefix + kept[full][..take] + Marker))
  }

  lemma JoinNothing(kept: seq<Text>, separator: Text)
    ensures JoinCost(kept[..0], separator) == 0 && Join(kept[..0], separator) == [] && ByteLength([]) == 0
  {
  }

  lemma JoinSnoc(sections: seq<Text>, last: Text, separator: Text)
    ensures Join(sections + [last], separator) == Join(sections, separator) + (Separated(sections, separator) + last)
    ensures JoinCost(sections + [last], separator)
            == JoinCost(sections, separator) + ByteLength(Separated(sections, separator)) + ByteLength(last)
  {
    assert (sections + [last])[..|sections|] == sections;
  }

  lemma ConcatBound3(a: Text, b: Text, c: Text)
    ensures ByteLength(a + (b + c)) <= ByteLength(a) + ByteLength(b) + ByteLength(c)
  {
    ConcatBound(a, b + c);
    ConcatBound(b, c);
  }

  function Budget(maxBytes: int): (b: nat)
    ensures (maxBytes >= 0 ==> b == maxBytes) && (maxBytes < 0 ==> b == 0)
  {
    if maxBytes < 0 then 0 else maxBytes
  }

  method JoinWithinBudget(sections: seq<Text>, maxBytes: int, separator: Text) returns (text: Text, ghost full: nat)
    ensures ByteLength(text) <= Budget(maxBytes)
    ensures Joined(NonEmpty(sections), separator, Budget(maxBytes), full, text)
  {
    hide Encode, EncodeFirst, LongestPrefix, Join, JoinCost, NonEmpty, Splits;
    var budget := Budget(maxBytes);
    var kept := NonEmpty(sections);
    NonEmptySections(sections);
    var used := 0;
    text := [];
    var i := 0;
    JoinNothing(kept, separator);
    while i < |kept|
      invariant 0 <= i <= |kept| && used == JoinCost(kept[..i], separator) <= budget
      invariant text == Join(kept[..i], separator) && ByteLength(text) <= used
    {
      var section := kept[i];
      var prefix := if i > 0 then separator else [];
      assert prefix == Separated(kept[..i], separator);
      assert kept[..i + 1] == kept[..i] + [section];
      JoinSnoc(kept[..i], section, separator);
      var available := budget - used - ByteLength(prefix);
      if available <= 0 {
        SomeBytes(section);
        SomeBytes(Marker);
        full := i;
        return;
      }
      if ByteLength(section) <= available {
        ConcatBound3(text, prefix, section);
        text := text + (prefix + section);
        used := used + ByteLength(prefix) + ByteLength(section);
        i := i + 1;
      } else {
        if available >= ByteLength(Marker) {
          var take := Utf8PrefixWithinBytes(section, available - ByteLength(Marker));
          ConcatBound3(text, prefix + section[..take], Marker);
          ConcatBound(prefix, section[..take]);
          text := text + (prefix + section[..take] + Marker);
        }
        full := i;
        return;
      }
    }
    full := i;
  }

  lemma {:induction false} NonEmptySections(sections: seq<Text>)
    ensures forall i :: 0 <= i < |NonEmpty(sections)| ==> NonEmpty(sections)[i] != []
  {
    if sections != [] {
      NonEmptySections(sections[1..]);
    }
  }

  lemma SomeBytes(t: Text)
    requires t != []
    ensures ByteLength(t) >= 1
  {
  }
}
