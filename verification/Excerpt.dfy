/**
 * Paging through a transcript: findTokenPositions, mergeRanges and the windows of buildRelevantExcerpt in
 * config/extensions/stateful-memory/recall-utils.js.  Case folding and the classes of characters are
 * parameters: for every query token the places where its surface form stands, the extents of the words,
 * and the places in them from where the rest of the word begins with the token's root.
 */
module Excerpt {
  import opened Basics
  import opened Utf16
  import opened TextBudget

  datatype Range = Range(start: nat, end: nat)

  /**
   * `exact` are all the places where the surface form stands, overlapping ones too.  A place is in `roots` if
   * from it to the end of its word there are five letters or more that begin with the token's first four.
   */
  datatype Token = Token(length: nat, exact: seq<nat>, words: seq<Range>, roots: set<nat>)

  datatype Page = Page(text: Text, sourceRanges: seq<Range>, nextOffset: Option<nat>)

  const FullExcerptMaxBytes := 45 * 1024
  const MaxStringLength := 0x20_0000_0000_0000

  predicate Increasing(s: seq<nat>) {
    forall i, j :: 0 <= i < j < |s| ==> s[i] < s[j]
  }

  /** Matches start on characters inside the text. */
  predicate PositionsOk(text: Text, s: seq<nat>) {
    Increasing(s) && forall i :: 0 <= i < |s| ==> s[i] < |text| && !Splits(text, s[i])
  }

  /** Words do not touch. */
  predicate WordsOk(text: Text, words: seq<Range>) {
    && (forall i :: 0 <= i < |words| ==> words[i].start < words[i].end <= |text|)
    && (forall i, j :: 0 <= i < j < |words| ==> words[i].end < words[j].start)
  }

  predicate TokenOk(text: Text, token: Token) {
    && token.length >= 2
    && PositionsOk(text, token.exact)
    && (forall i :: 0 <= i < |token.exact| ==> token.exact[i] + token.length <= |text|)
    && WordsOk(text, token.words)
    && (forall k :: k in token.roots ==> k < |text| && !Splits(text, k))
  }

  predicate WellFormed(text: Text, tokens: seq<Token>) {
    |text| < MaxStringLength && forall i :: 0 <= i < |tokens| ==> TokenOk(text, tokens[i])
  }

  // ---------------------------------------------------------------- finding

  /** A global search: the first place at or after `from`, and on from the end of that match. */
  function Search(places: seq<nat>, from: nat, length: nat): seq<nat> {
    if places == [] then []
    else if places[0] < from then Search(places[1..], from, length)
    else [places[0]] + Search(places[1..], places[0] + length, length)
  }

  /** A word the search starts inside of is seen from there on. */
  function WordSearch(words: seq<Range>, roots: set<nat>, from: nat): seq<nat> {
    if words == [] then []
    else
      var entry := Max(words[0].start, from);
      (if entry < words[0].end && entry in roots then [entry] else []) + WordSearch(words[1..], roots, from)
  }

  function FirstFew(s: seq<nat>, limit: nat): seq<nat> {
    if |s| <= limit then s else s[..limit]
  }

  /** The surface form's matches, or the words of its root when there are none and the token has five letters. */
  function Found(token: Token, start: nat, limit: nat): seq<nat> {
    var exact := FirstFew(Search(token.exact, start, token.length), limit);
    if |exact| > 0 || token.length < 5 then exact else FirstFew(WordSearch(token.words, token.roots, start), limit)
  }

  /** A unicode search does not start inside a character: from its second half it goes back to the first. */
  function SearchStart(text: Text, start: nat): (s: nat)
    ensures s <= start && !Splits(text, s) && (!Splits(text, start) ==> s == start)
  {
    if Splits(text, start) then start - 1 else start
  }

  method FindTokenPositions(text: Text, token: Token, start: nat, limit: nat) returns (positions: seq<nat>)
    ensures positions == Found(token, SearchStart(text, start), limit)
  {
    hide Splits;
    positions := [];
    var first := SearchStart(text, start);
    var lastIndex: nat := first;
    var i := 0;
    assert token.exact[0..] == token.exact;
    while i < |token.exact| && |positions| < limit
      invariant 0 <= i <= |token.exact| && |positions| <= limit
      invariant Search(token.exact, first, token.length) == positions + Search(token.exact[i..], lastIndex, token.length)
    {
      assert token.exact[i..][1..] == token.exact[i + 1..];
      if token.exact[i] >= lastIndex {
        positions := positions + [token.exact[i]];
        lastIndex := token.exact[i] + token.length;
      }
      i := i + 1;
    }
    if i == |token.exact| {
      assert token.exact[i..] == [];
    }
    if |positions| > 0 || token.length < 5 {
      return;
    }
    positions := FindWords(token.words, token.roots, first, limit);
  }

  method FindWords(words: seq<Range>, roots: set<nat>, start: nat, limit: nat) returns (positions: seq<nat>)
    ensures positions == FirstFew(WordSearch(words, roots, start), limit)
  {
    positions := [];
    var i := 0;
    assert words[0..] == words;
    while i < |words| && |positions| < limit
      invariant 0 <= i <= |words| && |positions| <= limit
      invariant WordSearch(words, roots, start) == positions + WordSearch(words[i..], roots, start)
    {
      assert words[i..][1..] == words[i + 1..];
      var entry := Max(words[i].start, start);
      if entry < words[i].end && entry in roots {
        positions := positions + [entry];
      }
      i := i + 1;
    }
    if i == |words| {
      assert words[i..] == [];
    }
  }

  // ---------------------------------------------------------------- windows around matches

  function WindowEnd(text: Text, token: Token, position: nat): (e: nat)
    ensures e <= |text| && !Splits(text, e)
  {
    AvoidSplitSurrogate(text, Min(|text|, position + token.length + 1300))
  }

  function WindowStart(text: Text, offset: nat, position: nat): (s: nat)
    ensures s <= |text| && !Splits(text, s)
  {
    AvoidSplitSurrogate(text, Max(offset, position - 900))
  }

  function Min(a: int, b: int): int { if a <= b then a else b }
  function Max(a: int, b: int): int { if a >= b then a else b }

  /** The windows of the given matches that end after the offset. */
  function WindowsOf(text: Text, token: Token, offset: nat, positions: seq<nat>): seq<Range> {
    if positions == [] then []
    else
      var p := positions[|positions| - 1];
      WindowsOf(text, token, offset, positions[..|positions| - 1])
      + (if WindowEnd(text, token, p) > offset then [Range(WindowStart(text, offset, p), WindowEnd(text, token, p))] else [])
  }

  /** Far enough back to find the windows that an earlier page showed only in part. */
  function ScanStart(text: Text, offset: nat): nat {
    SearchStart(text, Max(0, offset - 1400))
  }

  function Windows(text: Text, tokens: seq<Token>, offset: nat): seq<Range> {
    if tokens == [] then []
    else
      var last := tokens[|tokens| - 1];
      Windows(text, tokens[..|tokens| - 1], offset)
      + WindowsOf(text, last, offset, FirstFew(Found(last, ScanStart(text, offset), 101), 100))
  }

  function Capped(text: Text, tokens: seq<Token>, offset: nat): seq<Token> {
    if tokens == [] then []
    else
      var last := tokens[|tokens| - 1];
      Capped(text, tokens[..|tokens| - 1], offset) + (if |Found(last, ScanStart(text, offset), 101)| > 100 then [last] else [])
  }

  method CollectWindows(text: Text, tokens: seq<Token>, offset: nat) returns (ranges: seq<Range>, capped: seq<Token>)
    ensures ranges == Windows(text, tokens, offset) && capped == Capped(text, tokens, offset)
  {
    hide AvoidSplitSurrogate, WindowStart, WindowEnd, Found;
    ranges, capped := [], [];
    for t := 0 to |tokens|
      invariant ranges == Windows(text, tokens[..t], offset) && capped == Capped(text, tokens[..t], offset)
    {
      var token := tokens[t];
      assert tokens[..t + 1][..t] == tokens[..t];
      var positions := FindTokenPositions(text, token, Max(0, offset - 1400), 101);
      var few := FirstFew(positions, 100);
      ghost var before := ranges;
      for i := 0 to |few|
        invariant ranges == before + WindowsOf(text, token, offset, few[..i])
      {
        assert few[..i + 1][..i] == few[..i];
        var end := WindowEnd(text, token, few[i]);
        if end > offset {
          ranges := ranges + [Range(WindowStart(text, offset, few[i]), end)];
        }
      }
      assert few[..|few|] == few;
      if |positions| > 100 {
        capped := capped + [token];
      }
    }
    assert tokens[..|tokens|] == tokens;
  }

  // ---------------------------------------------------------------- merging

  predicate Before(a: Range, b: Range) {
    a.start < b.start || (a.start == b.start && a.end <= b.end)
  }

  predicate SortedRanges(s: seq<Range>) {
    forall i, j :: 0 <= i < j < |s| ==> Before(s[i], s[j])
  }

  function InsertRange(s: seq<Range>, r: Range): (t: seq<Range>)
    requires SortedRanges(s)
    ensures SortedRanges(t) && multiset(t) == multiset(s) + multiset{r}
  {
    if s == [] then [r]
    else if Before(r, s[0]) then [r] + s
    else
      assert s == [s[0]] + s[1..];
      var rest := InsertRange(s[1..], r);
      assert forall i :: 0 <= i < |rest| ==> Before(s[0], rest[i]) by {
        forall i | 0 <= i < |rest|
          ensures Before(s[0], rest[i])
        {
          assert rest[i] in multiset(rest);
          assert rest[i] == r || rest[i] in s[1..];
        }
      }
      [s[0]] + rest
  }

  /** Array.prototype.sort with the comparison of the source; equal ranges are interchangeable. */
  function SortRanges(s: seq<Range>): (t: seq<Range>)
    ensures SortedRanges(t) && multiset(t) == multiset(s)
  {
    if s == [] then [] else
      assert s == s[..|s| - 1] + [s[|s| - 1]];
      InsertRange(SortRanges(s[..|s| - 1]), s[|s| - 1])
  }

  const Gap: nat := 240

  /** Folds a further range into the last merged one or opens a new one. */
  function Absorb(merged: seq<Range>, r: Range): seq<Range>
    requires merged != []
  {
    var n := |merged| - 1;
    if r.start <= merged[n].end + Gap then merged[n := merged[n].(end := Max(merged[n].end, r.end))]
    else merged + [r]
  }

  function Merged(sorted: seq<Range>): (m: seq<Range>)
    ensures m == [] <==> sorted == []
  {
    if |sorted| <= 1 then sorted else Absorb(Merged(sorted[..|sorted| - 1]), sorted[|sorted| - 1])
  }

  lemma SortKeepsLength(ranges: seq<Range>)
    ensures |SortRanges(ranges)| == |ranges|
  {
    assert |multiset(SortRanges(ranges))| == |multiset(ranges)|;
  }

  lemma NothingToMerge()
    ensures Merged(SortRanges([])) == []
  {
  }

  lemma MergedFirst(sorted: seq<Range>)
    requires sorted != []
    ensures Merged(sorted[..1]) == [sorted[0]]
  {
  }

  lemma MergedNext(sorted: seq<Range>, i: nat)
    requires 1 <= i < |sorted|
    ensures Merged(sorted[..i + 1]) == Absorb(Merged(sorted[..i]), sorted[i])
  {
    assert sorted[..i + 1][..i] == sorted[..i];
  }

  method MergeRanges(ranges: seq<Range>) returns (merged: seq<Range>)
    ensures merged == Merged(SortRanges(ranges))
  {
    hide SortRanges, SortedRanges, Merged;
    NothingToMerge();
    if ranges == [] {
      return [];
    }
    var sorted := SortRanges(ranges);
    SortKeepsLength(ranges);
    MergedFirst(sorted);
    merged := [sorted[0]];
    for i := 1 to |sorted|
      invariant merged != [] && merged == Merged(sorted[..i])
    {
      MergedNext(sorted, i);
      var range := sorted[i];
      var last := merged[|merged| - 1];
      if range.start <= last.end + Gap {
        merged := merged[|merged| - 1 := last.(end := Max(last.end, range.end))];
      } else {
        merged := merged + [range];
      }
    }
    assert sorted[..|sorted|] == sorted;
  }

  predicate Inside(r: Range, m: Range) {
    m.start <= r.start && r.end <= m.end
  }

  /** More than the gap lies between consecutive ranges. */
  predicate Apart(m: seq<Range>) {
    && (forall i :: 0 <= i < |m| ==> m[i].start < m[i].end)
    && (forall i, j :: 0 <= i < j < |m| ==> m[i].end + Gap < m[j].start)
  }

  ghost predicate Covered(s: seq<Range>, x: int) {
    exists k :: 0 <= k < |s| && s[k].start <= x < s[k].end
  }

  ghost predicate Near(s: seq<Range>, x: int) {
    exists k :: 0 <= k < |s| && s[k].start <= x <= s[k].end + Gap
  }

  /** Every merged position is in a given range or at most the gap behind the end of one. */
  ghost predicate Justified(m: seq<Range>, given: seq<Range>) {
    forall x: int :: Covered(m, x) ==> Near(given, x)
  }

  ghost predicate Contained(r: Range, m: seq<Range>) {
    exists i :: 0 <= i < |m| && Inside(r, m[i])
  }

  ghost predicate Holds(m: seq<Range>, given: seq<Range>) {
    forall k {:trigger Contained(given[k], m)} :: 0 <= k < |given| ==> Contained(given[k], m)
  }

  predicate Proper(s: seq<Range>) {
    forall i :: 0 <= i < |s| ==> s[i].start < s[i].end
  }

  ghost predicate StartsIn(x: nat, given: seq<Range>) {
    exists k :: 0 <= k < |given| && given[k].start == x
  }

  ghost predicate EndsIn(x: nat, given: seq<Range>) {
    exists k :: 0 <= k < |given| && given[k].end == x
  }

  ghost predicate EndsFrom(m: seq<Range>, given: seq<Range>) {
    && (forall i {:trigger StartsIn(m[i].start, given)} :: 0 <= i < |m| ==> StartsIn(m[i].start, given))
    && (forall i {:trigger EndsIn(m[i].end, given)} :: 0 <= i < |m| ==> EndsIn(m[i].end, given))
  }

  lemma AbsorbHolds(m: seq<Range>, given: seq<Range>, r: Range)
    requires m != [] && Holds(m, given) && given != []
    requires m[|m| - 1].start <= given[|given| - 1].start <= r.start
    ensures Holds(Absorb(m, r), given + [r])
  {
    var t := Absorb(m, r);
    var all := given + [r];
    forall k | 0 <= k < |all|
      ensures Contained(all[k], t)
    {
      if k < |given| {
        assert Contained(given[k], m);
        var i :| 0 <= i < |m| && Inside(given[k], m[i]);
        assert Inside(all[k], t[i]);
      } else {
        assert Inside(all[k], t[|t| - 1]);
      }
    }
  }

  lemma AbsorbEnds(m: seq<Range>, given: seq<Range>, r: Range)
    requires m != [] && EndsFrom(m, given)
    ensures EndsFrom(Absorb(m, r), given + [r])
  {
    var t := Absorb(m, r);
    var all := given + [r];
    assert all[|given|] == r;
    forall i | 0 <= i < |t|
      ensures StartsIn(t[i].start, all) && EndsIn(t[i].end, all)
    {
      if i < |m| {
        assert StartsIn(m[i].start, given) && EndsIn(m[i].end, given);
        var a :| 0 <= a < |given| && given[a].start == m[i].start;
        var b :| 0 <= b < |given| && given[b].end == m[i].end;
        assert all[a].start == t[i].start;
        assert all[b].end == m[i].end;
      }
    }
  }

  lemma AbsorbJustified(m: seq<Range>, given: seq<Range>, r: Range)
    requires m != [] && Justified(m, given) && EndsFrom(m, given) && Proper(given)
    ensures Justified(Absorb(m, r), given + [r])
  {
    var t := Absorb(m, r);
    var all := given + [r];
    forall x: int | Covered(t, x)
      ensures Near(all, x)
    {
      var i :| 0 <= i < |t| && t[i].start <= x < t[i].end;
      if x >= r.start && x < r.end {
        assert all[|given|].start <= x <= all[|given|].end + Gap;
      } else if x < m[i].end {
        assert Covered(m, x);
        var k :| 0 <= k < |given| && given[k].start <= x <= given[k].end + Gap;
        assert all[k].start <= x <= all[k].end + Gap;
      } else {
        // behind the old end and before the absorbed range: within the gap
        assert EndsIn(m[i].end, given);
        var b :| 0 <= b < |given| && given[b].end == m[i].end;
        assert all[b].start <= x <= all[b].end + Gap;
      }
    }
  }

  lemma AbsorbApart(m: seq<Range>, r: Range)
    requires m != [] && Apart(m) && r.start < r.end && m[|m| - 1].start <= r.start
    ensures Apart(Absorb(m, r)) && Absorb(m, r)[|Absorb(m, r)| - 1].start <= r.start
  {
  }

  lemma NothingMerged()
    ensures Holds([], []) && EndsFrom([], []) && Justified([], []) && Apart([])
  {
  }

  lemma OneHolds(s: seq<Range>)
    requires |s| == 1
    ensures Holds(s, s)
  {
    assert Inside(s[0], s[0]);
  }

  lemma OneEnds(s: seq<Range>)
    requires |s| == 1
    ensures EndsFrom(s, s)
  {
    assert StartsIn(s[0].start, s) && EndsIn(s[0].end, s);
  }

  lemma OneJustified(s: seq<Range>)
    requires |s| == 1
    ensures Justified(s, s)
  {
    forall x: int | Covered(s, x)
      ensures Near(s, x)
    {
      assert s[0].start <= x <= s[0].end + Gap;
    }
  }

  lemma OneApart(s: seq<Range>)
    requires |s| <= 1 && Proper(s)
    ensures Apart(s)
  {
  }

  lemma SortedPrefix(sorted: seq<Range>, n: nat)
    requires SortedRanges(sorted) && Proper(sorted) && n < |sorted|
    ensures SortedRanges(sorted[..n]) && Proper(sorted[..n]) && sorted[..n] + [sorted[n]] == sorted[..n + 1]
    ensures SortedRanges(sorted[..n + 1])
    ensures n > 0 ==> sorted[n - 1].start <= sorted[n].start
  {
    assert n > 0 ==> Before(sorted[n - 1], sorted[n]);
  }

  lemma AbsorbMeaning(m: seq<Range>, given: seq<Range>, r: Range)
    requires given != [] && m != [] && SortedRanges(given + [r]) && Proper(given) && r.start < r.end
    requires Apart(m) && Holds(m, given) && EndsFrom(m, given) && Justified(m, given)
    requires m[|m| - 1].start <= given[|given| - 1].start <= r.start
    ensures var t := Absorb(m, r);
            && Apart(t) && Holds(t, given + [r]) && EndsFrom(t, given + [r]) && Justified(t, given + [r])
            && t[|t| - 1].start <= r.start
  {
    hide Holds, EndsFrom, Justified, Apart, Absorb, SortedRanges, Proper;
    AbsorbHolds(m, given, r);
    AbsorbEnds(m, given, r);
    AbsorbJustified(m, given, r);
    AbsorbApart(m, r);
  }

  lemma OneMeaning(s: seq<Range>)
    requires |s| <= 1 && Proper(s)
    ensures Apart(s) && Holds(s, s) && EndsFrom(s, s) && Justified(s, s)
  {
    hide Holds, EndsFrom, Justified, Apart;
    if s == [] {
      NothingMerged();
    } else {
      OneHolds(s);
      OneEnds(s);
      OneJustified(s);
      OneApart(s);
    }
  }

  /** What merging means: disjoint, far apart, holding all that was given and next to nothing else. */
  lemma {:induction false} MergedMeaning(sorted: seq<Range>)
    requires SortedRanges(sorted) && Proper(sorted)
    ensures var m := Merged(sorted);
            Apart(m) && Holds(m, sorted) && EndsFrom(m, sorted) && Justified(m, sorted)
    ensures sorted != [] ==> Merged(sorted)[|Merged(sorted)| - 1].start <= sorted[|sorted| - 1].start
  {
    if |sorted| <= 1 {
      OneMeaning(sorted);
    } else {
      var n := |sorted| - 1;
      var given, r := sorted[..n], sorted[n];
      SortedPrefix(sorted, n);
      assert sorted[..n + 1] == sorted && given[n - 1] == sorted[n - 1];
      assert r.start < r.end;
      hide Holds, EndsFrom, Justified, Apart, Absorb, SortedRanges, Proper;
      MergedMeaning(given);
      AbsorbMeaning(Merged(given), given, r);
    }
  }
}
