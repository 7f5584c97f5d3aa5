/**
 * That the condition is needed: whatever a page of a search for one token loses is on no page.
 */
module ExcerptNecessity {
  import opened Basics
  import opened Utf16
  import opened TextBudget
  import opened Excerpt
  import opened ExcerptSearch
  import opened ExcerptPaging
  import opened ExcerptCoverage
  import opened ExcerptExactness

  // ---------------------------------------------------------------- what merging does not bridge

  /** No given range comes near the place from the left and reaches it, or begins within the gap behind it. */
  predicate Clear(ranges: seq<Range>, r: nat, gap: nat) {
    forall i :: 0 <= i < |ranges| ==> ranges[i].end <= r || ranges[i].start > r + gap
  }

  lemma AbsorbClear(m: seq<Range>, given: Range, r: nat)
    requires m != [] && Clear(m, r, Gap) && (given.end <= r || given.start > r + Gap)
    requires given.start < given.end && m[|m| - 1].start <= given.start && m[|m| - 1].start < m[|m| - 1].end
    ensures Clear(Absorb(m, given), r, Gap)
  {
  }

  lemma {:induction false} MergedClear(sorted: seq<Range>, r: nat)
    requires SortedRanges(sorted) && Proper(sorted) && Clear(sorted, r, Gap)
    ensures Clear(Merged(sorted), r, Gap)
  {
    if |sorted| > 1 {
      var n := |sorted| - 1;
      var front := sorted[..n];
      SortedPrefix(sorted, n);
      assert forall i :: 0 <= i < n ==> front[i] == sorted[i];
      MergedClear(front, r);
      MergedMeaning(front);
      hide Merged, EndsFrom, Holds, Justified, SortedRanges;
      AbsorbClear(Merged(front), sorted[n], r);
      MergedStep(sorted);
    }
  }

  lemma MergedStep(sorted: seq<Range>)
    requires |sorted| > 1
    ensures Merged(sorted) == Absorb(Merged(sorted[..|sorted| - 1]), sorted[|sorted| - 1])
  {
  }

  lemma SortedClear(ranges: seq<Range>, r: nat, gap: nat)
    requires Clear(ranges, r, gap)
    ensures Clear(SortRanges(ranges), r, gap)
  {
    var t := SortRanges(ranges);
    forall i | 0 <= i < |t|
      ensures t[i].end <= r || t[i].start > r + gap
    {
      assert t[i] in multiset(t) && t[i] in multiset(ranges) && t[i] in ranges;
    }
  }

  lemma {:induction false} WindowsOfClear(text: Text, token: Token, offset: nat, positions: seq<nat>, r: nat, gap: nat)
    requires forall i :: 0 <= i < |positions| ==>
               (WindowEnd(text, token, positions[i]) <= r || WindowEnd(text, token, positions[i]) <= offset
                || WindowStart(text, offset, positions[i]) > r + gap)
    ensures Clear(WindowsOf(text, token, offset, positions), r, gap)
  {
    if positions != [] {
      WindowsOfClear(text, token, offset, positions[..|positions| - 1], r, gap);
    }
  }

  lemma StartsAfter(m: seq<Range>, given: seq<Range>, r: nat)
    requires EndsFrom(m, given) && forall k :: 0 <= k < |given| ==> given[k].start > r
    ensures !Covered(m, r)
  {
    forall i | 0 <= i < |m|
      ensures m[i].start > r
    {
      assert StartsIn(m[i].start, given);
    }
  }

  lemma ClearUncovered(m: seq<Range>, r: nat)
    requires Clear(m, r, Gap)
    ensures !Covered(m, r)
  {
  }

  lemma LookedIsFound(text: Text, token: Token, offset: nat)
    ensures FirstFew(Found(token, ScanStart(text, offset), 101), 100) == Looked(text, token, offset)
  {
    FoundIsFirst(token, ScanStart(text, offset), 101);
  }

  lemma AllStartLater(ranges: seq<Range>, sorted: seq<Range>, offset: nat)
    requires Clear(ranges, offset, 0) && (forall k :: 0 <= k < |ranges| ==> ranges[k].end > offset)
    requires forall r :: r in sorted ==> r in ranges
    ensures forall k :: 0 <= k < |sorted| ==> sorted[k].start > offset
  {
    forall k | 0 <= k < |sorted|
      ensures sorted[k].start > offset
    {
      assert sorted[k] in sorted && sorted[k] in ranges;
    }
  }

  lemma WindowsBehindOffset(text: Text, tokens: seq<Token>, offset: nat)
    requires PageOk(text, tokens, offset)
    ensures forall k :: 0 <= k < |Windows(text, tokens, offset)| ==> Windows(text, tokens, offset)[k].end > offset
  {
    hide Windows, Splits, WellFormed;
    WindowsAllOk(text, tokens, offset);
  }

  /** Where no window takes over, the merged ranges break off. */
  lemma BreaksOff(text: Text, token: Token, offset: nat, j: nat)
    requires PageOk(text, [token], offset) && TokenOk(text, token)
    requires j < |Looked(text, token, offset)| && !TakenOver(text, token, offset, Looked(text, token, offset), j)
    ensures !Covered(MergedWindows(text, [token], offset), Reached(text, token, offset, Looked(text, token, offset)[j]))
  {
    hide WindowStart, WindowEnd, Splits, WellFormed, TokenOk, Active, Found, Looked, SortRanges, Merged, WindowsOf, EndsFrom, Holds, Justified, WindowsOk, Windows;
    var f := Looked(text, token, offset);
    var r := Reached(text, token, offset, f[j]);
    LookedIsFound(text, token, offset);
    OneTokenWindows(text, token, offset);
    var ranges := Windows(text, [token], offset);
    WindowsAllOk(text, [token], offset);
    SortOk(text, offset, ranges);
    MergedMeaning(SortRanges(ranges));
    LookedSorted(text, token, offset);
    var open := WindowEnd(text, token, f[j]) > offset;
    forall i | 0 <= i < |f|
      ensures WindowEnd(text, token, f[i]) <= r || WindowEnd(text, token, f[i]) <= offset
              || WindowStart(text, offset, f[i]) > r + if open then Gap else 0
    {
      if i <= j {
        EndsGrow(text, token, f[i], f[j]);
      } else {
        StartsGrow(text, offset, offset, f[j + 1], f[i]);
      }
    }
    WindowsOfClear(text, token, offset, f, r, if open then Gap else 0);
    if open {
      SortedClear(ranges, r, Gap);
      MergedClear(SortRanges(ranges), r);
      ClearUncovered(Merged(SortRanges(ranges)), r);
    } else {
      WindowsBehindOffset(text, [token], offset);
      AllStartLater(ranges, SortRanges(ranges), offset);
      StartsAfter(Merged(SortRanges(ranges)), SortRanges(ranges), offset);
    }
  }

  lemma LookedSorted(text: Text, token: Token, offset: nat)
    requires TokenOk(text, token)
    ensures PositionsOk(text, Looked(text, token, offset)) && |Looked(text, token, offset)| <= 100
    ensures forall i, k :: 0 <= i <= k < |Looked(text, token, offset)| ==> Looked(text, token, offset)[i] <= Looked(text, token, offset)[k]
  {
    hide Active, Splits;
    ActiveOk(text, token, ScanStart(text, offset));
  }

  // ---------------------------------------------------------------- what is on no page

  lemma IncludedInMerged(m: seq<Range>, included: seq<Range>, j: nat, q: nat, x: int)
    requires CutAt(m, included, j, q) && Covered(included, x)
    ensures Covered(m, x)
  {
    var i :| 0 <= i < |included| && included[i].start <= x < included[i].end;
    if i < j {
      assert included[i] == included[..j][i] == m[i];
    } else {
      assert m[j].start <= x < m[j].end;
    }
  }

  /** A page with windows shows nothing outside them. */
  lemma ShowsOnlyMerged(text: Text, tokens: seq<Token>, offset: nat, maxChars: int, x: int)
    requires PageOk(text, tokens, offset) && MergedWindows(text, tokens, offset) != []
    requires Covered(KeywordPage(text, tokens, offset, maxChars).sourceRanges, x)
    ensures Covered(MergedWindows(text, tokens, offset), x)
  {
    hide WellFormed, Splits, MergedWindows, Covered;
    MergedWindowsOk(text, tokens, offset);
    WellFormedLength(text, tokens);
    var m := MergedWindows(text, tokens, offset);
    var safeMax := SafeMax(maxChars);
    var e := EmitFrom(text, m, 0, safeMax, Emission([], [], None));
    var j := EmitMeaning(text, m, offset, 0, safeMax, Emission([], [], None));
    if e.next.Some? {
      IncludedInMerged(m, e.included, j, e.next.value, x);
    }
  }

  lemma {:induction false} ForwardStarts(pages: seq<Page>, from: nat, x: int)
    requires Forward(pages, from) && Shown(pages, x)
    ensures x >= from
  {
    var k :| 0 <= k < |pages| && Covered(pages[k].sourceRanges, x);
    if k > 0 {
      var next := pages[0].nextOffset.value;
      assert Covered(pages[1..][k - 1].sourceRanges, x);
      ForwardStarts(pages[1..], next, x);
    }
  }

  lemma NotOnPage(ranges: seq<Range>, end: nat, x: int)
    requires EndsBy(ranges, end) && end <= x
    ensures !Covered(ranges, x)
  {
  }

  lemma ShownLaterOnly(page: Page, rest: seq<Page>, x: int)
    requires Shown([page] + rest, x) && !Covered(page.sourceRanges, x)
    ensures Shown(rest, x)
  {
    var k :| 0 <= k < |[page] + rest| && Covered(([page] + rest)[k].sourceRanges, x);
    assert Covered(rest[k - 1].sourceRanges, x);
  }

  /** What a page does not show and the next begins behind is on no page. */
  lemma NotShown(text: Text, tokens: seq<Token>, offset: nat, maxChars: int, x: nat)
    requires PageOk(text, tokens, offset)
    requires var page := KeywordPage(text, tokens, offset, maxChars);
             !Covered(page.sourceRanges, x) && (page.nextOffset.Some? ==> x < page.nextOffset.value)
    ensures !Shown(FollowKeyword(text, tokens, offset, maxChars), x)
  {
    hide KeywordPage, Covered, WellFormed, Splits;
    KeywordAdvances(text, tokens, offset, maxChars);
    var page := KeywordPage(text, tokens, offset, maxChars);
    var rest := if page.nextOffset.Some? then FollowKeyword(text, tokens, page.nextOffset.value, maxChars) else [];
    assert FollowKeyword(text, tokens, offset, maxChars) == [page] + rest;
    if Shown([page] + rest, x) {
      ShownLaterOnly(page, rest, x);
      if page.nextOffset.Some? {
        KeywordPagesGoForward(text, tokens, page.nextOffset.value, maxChars);
        ForwardStarts(rest, page.nextOffset.value, x);
      }
    }
  }

  // ---------------------------------------------------------------- a page that looks at a hundred of more

  lemma {:induction false} WindowsEndBy(text: Text, token: Token, offset: nat, positions: seq<nat>, last: nat)
    requires forall i :: 0 <= i < |positions| ==> positions[i] <= last
    ensures EndsBy(WindowsOf(text, token, offset, positions), WindowEnd(text, token, last))
  {
    if positions != [] {
      var n := |positions| - 1;
      WindowsEndBy(text, token, offset, positions[..n], last);
      EndsGrow(text, token, positions[n], last);
    }
  }

  lemma MergedEndBy(m: seq<Range>, given: seq<Range>, ranges: seq<Range>, end: nat)
    requires EndsFrom(m, given) && EndsBy(ranges, end) && forall r :: r in given ==> r in ranges
    ensures EndsBy(m, end)
  {
    forall i | 0 <= i < |m|
      ensures m[i].end <= end
    {
      assert EndsIn(m[i].end, given);
      var k :| 0 <= k < |given| && given[k].end == m[i].end;
      assert given[k] in ranges;
    }
  }

  /** On a crowded page of a search for one token, everything merged ends by the hundredth window. */
  lemma CrowdedEnds(text: Text, token: Token, offset: nat)
    requires PageOk(text, [token], offset) && Crowds(text, token, offset)
    ensures EndsBy(MergedWindows(text, [token], offset), HundredthEnd(text, token, offset))
  {
    hide WindowsOf, WindowEnd, WindowStart, Splits, SortRanges, Merged, EndsFrom, Holds, Justified, WindowsOk, Active, Found, WellFormed, TokenOk;
    TokenOfAll(text, [token], token);
    LookedIsFound(text, token, offset);
    LookedSorted(text, token, offset);
    var f := Looked(text, token, offset);
    assert f[99] == Active(token, ScanStart(text, offset))[99];
    OneTokenWindows(text, token, offset);
    WindowsEndBy(text, token, offset, f, f[99]);
    var ranges := Windows(text, [token], offset);
    WindowsAllOk(text, [token], offset);
    SortOk(text, offset, ranges);
    MergedMeaning(SortRanges(ranges));
    MergedEndBy(Merged(SortRanges(ranges)), SortRanges(ranges), ranges, HundredthEnd(text, token, offset));
  }

  lemma CrowdedCapped(text: Text, token: Token, offset: nat)
    ensures Capped(text, [token], offset) == if Crowds(text, token, offset) then [token] else []
  {
    FoundIsFirst(token, ScanStart(text, offset), 101);
    assert [token][..0] == [];
  }

  lemma CutBefore(m: seq<Range>, included: seq<Range>, j: nat, q: nat, end: nat)
    requires CutAt(m, included, j, q) && EndsBy(m, end) && Apart(m)
    ensures q <= end && EndsBy(included, end)
  {
    assert forall i :: 0 <= i < j ==> included[i] == included[..j][i] && included[i] == m[i];
  }

  lemma ReachesEnd(included: seq<Range>, offset: nat, i: nat, end: nat)
    requires i < |included| && included[i].end >= end >= offset && EndsBy(included, end)
    ensures CoveredEnd(included, offset) == end
  {
    CoveredEndBy(included, offset, end);
  }

  lemma {:induction false} CoveredEndBy(included: seq<Range>, offset: nat, end: nat)
    requires EndsBy(included, end) && offset <= end
    ensures CoveredEnd(included, offset) <= end
  {
    if included != [] {
      CoveredEndBy(included[..|included| - 1], offset, end);
    }
  }

  /** The emission stopped for want of room. */
  predicate CutForRoom(text: Text, tokens: seq<Token>, offset: nat, maxChars: int)
    requires PageOk(text, tokens, offset)
  {
    MergedWindowsOk(text, tokens, offset);
    EmitFrom(text, MergedWindows(text, tokens, offset), 0, SafeMax(maxChars), Emission([], [], None)).next.Some?
  }

  /** A crowded page ends by the hundredth window; cut for room its next offset lies there, else it is the first match behind. */
  lemma CrowdedPageNext(text: Text, token: Token, offset: nat, maxChars: int)
    requires PageOk(text, [token], offset) && Crowds(text, token, offset) && offset < |text|
    ensures var page := KeywordPage(text, [token], offset, maxChars);
            var end := HundredthEnd(text, token, offset);
            && MergedWindows(text, [token], offset) != [] && EndsBy(page.sourceRanges, end)
            && (if CutForRoom(text, [token], offset, maxChars) then page.nextOffset.Some? && page.nextOffset.value <= end
                else page.nextOffset == Pending([token], end))
  {
    hide WindowEnd, WindowStart, Splits, WellFormed, TokenOk, Pending, Holds, WindowsOk, MergedWindows, Active, FirstFew;
    TokenOfAll(text, [token], token);
    HundredthReachesOn(text, token, offset);
    CrowdedEnds(text, token, offset);
    CrowdedCapped(text, token, offset);
    MergedWindowsOk(text, [token], offset);
    WellFormedLength(text, [token]);
    var end := HundredthEnd(text, token, offset);
    HundredthLooked(text, token, offset);
    var i := WindowInside(text, [token], offset, token, Active(token, ScanStart(text, offset))[99]);
    var m := MergedWindows(text, [token], offset);
    var safeMax := SafeMax(maxChars);
    var e := EmitFrom(text, m, 0, safeMax, Emission([], [], None));
    var j := EmitMeaning(text, m, offset, 0, safeMax, Emission([], [], None));
    if e.next.Some? {
      CutBefore(m, e.included, j, e.next.value, end);
    } else {
      ReachesEnd(e.included, offset, i, end);
    }
  }

  lemma HundredthLooked(text: Text, token: Token, offset: nat)
    requires Crowds(text, token, offset)
    ensures |Looked(text, token, offset)| == 100 && Looked(text, token, offset)[99] == Active(token, ScanStart(text, offset))[99]
    ensures Active(token, ScanStart(text, offset))[99] in FirstFew(Active(token, ScanStart(text, offset)), 100)
  {
    assert FirstFew(Active(token, ScanStart(text, offset)), 100)[99] == Active(token, ScanStart(text, offset))[99];
  }

  lemma PendingOne(token: Token, from: nat)
    ensures Pending([token], from) == if Active(token, from) == [] then None else Some(Active(token, from)[0])
  {
    FoundIsFirst(token, from, 1);
    assert [token][..0] == [] && Pending([], from) == None;
  }

  // ---------------------------------------------------------------- a place that is lost

  lemma OverlapStillOpen(text: Text, token: Token, offset: nat, a: nat, p: nat)
    requires TokenOk(text, token) && token.length <= 101 && a < p < a + token.length
    requires WindowEnd(text, token, p) > Reached(text, token, offset, a)
    ensures InWindow(text, token, p, Reached(text, token, offset, a))
  {
  }

  lemma FirstIsFirst(text: Text, token: Token, from: nat, p: nat)
    requires TokenOk(text, token) && p in Matches(token) && p >= from
    ensures Active(token, from) != [] && Active(token, from)[0] <= p
  {
    hide Active, Matches;
    var i := NearestListed(text, token, from, p);
    ActiveOk(text, token, from);
  }

  /** Between the hundredth end and the first match behind it lies a place of some match's window. */
  lemma BehindHundredth(text: Text, token: Token, end: nat, p: nat) returns (m: nat, x: nat)
    requires TokenOk(text, token) && p in Matches(token) && p >= end
    requires Active(token, end) != [] && Active(token, end)[0] > end
    ensures m in Matches(token) && InWindow(text, token, m, x) && end <= x < Active(token, end)[0]
  {
    hide Search, WordSearch, Splits, WindowStart, WindowEnd;
    var q := Active(token, end)[0];
    SearchAll(text, token);
    ActiveOk(text, token, end);
    LengthAtLeastTwo(text, token);
    if token.exact != [] || token.length < 5 {
      SearchMembers(token.exact, 0, token.length);
      var i := SearchReaches(token.exact, end, token.length, p);
      SearchOk(text, token, end);
      var k := SearchReaches(token.exact, 0, token.length, q);
      m := Search(token.exact, 0, token.length)[k];
      assert m in Search(token.exact, 0, token.length);
      if m >= end {
        FirstIsFirst(text, token, end, m);
        x := q - 1;
        MatchInWindow(text, token, m);
      } else {
        x := end;
        OpenPast(text, token, m, end, q);
      }
    } else {
      SearchNothing(end, token.length);
      WordMembersLater(text, token.words, token.roots, end, q);
      m := q;
      x := q - 1;
      MatchInWindow(text, token, m);
    }
  }

  lemma LengthAtLeastTwo(text: Text, token: Token)
    requires TokenOk(text, token)
    ensures token.length >= 2
  {
  }

  lemma OpenPast(text: Text, token: Token, m: nat, end: nat, q: nat)
    requires TokenOk(text, token) && m <= end < q < m + token.length && q < |text|
    ensures InWindow(text, token, m, end)
  {
  }

  /** A page that loses something: a place of a window that it does not show and the next begins behind. */
  lemma LostPlace(text: Text, token: Token, offset: nat, maxChars: int, j: nat, p: nat) returns (m: nat, x: nat)
    requires PageOk(text, [token], offset) && TokenOk(text, token) && token.length <= 101 && offset < |text|
    requires Windows(text, [token], offset) != [] && p in Matches(token) && PassedOver(Looked(text, token, offset), j, p)
    requires !MadeUp(text, token, offset, KeywordPage(text, [token], offset, maxChars).nextOffset, j, p)
    ensures m in Matches(token) && InWindow(text, token, m, x) && offset <= x
    ensures var page := KeywordPage(text, [token], offset, maxChars);
            !Covered(page.sourceRanges, x) && (page.nextOffset.Some? ==> x < page.nextOffset.value)
  {
    hide WindowStart, WindowEnd, Splits, WellFormed, TokenOk, KeywordPage, MergedWindows, Active, Matches, Covered, InWindow, Windows, Pending, CutForRoom;
    var f := Looked(text, token, offset);
    var r := Reached(text, token, offset, f[j]);
    BreaksOff(text, token, offset, j);
    NothingMergedNoWindows(text, [token], offset);
    if Covered(KeywordPage(text, [token], offset, maxChars).sourceRanges, r) {
      ShowsOnlyMerged(text, [token], offset, maxChars, r);
    }
    LookedSorted(text, token, offset);
    if j < 99 || !Crowds(text, token, offset) {
      PassedIsOverlapped(text, token, offset, j, p);
      OverlapStillOpen(text, token, offset, f[j], p);
      m, x := p, r;
    } else {
      HundredthLooked(text, token, offset);
      HundredthReachesOn(text, token, offset);
      CrowdedPageNext(text, token, offset, maxChars);
      var end := HundredthEnd(text, token, offset);
      assert r == end;
      if p <= end {
        m, x := p, end;
        InWindowAt(text, token, p, end);
      } else {
        PendingOne(token, end);
        FirstIsFirst(text, token, end, p);
        m, x := BehindHundredth(text, token, end, p);
        NotOnPage(KeywordPage(text, [token], offset, maxChars).sourceRanges, end, x);
      }
    }
  }

  lemma InWindowAt(text: Text, token: Token, p: nat, x: nat)
    requires p <= x < WindowEnd(text, token, p)
    ensures InWindow(text, token, p, x)
  {
  }

  /** If all windows are shown the page loses none. */
  lemma ShownPageLeavesNothing(text: Text, token: Token, offset: nat, maxChars: int)
    requires PageOk(text, [token], offset) && offset < |text| && token.length <= 101
    requires AllShown(text, [token], token, offset, maxChars)
    ensures LeavesNothing(text, [token], token, offset, KeywordPage(text, [token], offset, maxChars).nextOffset)
  {
    hide InWindow, KeywordPage, FollowKeyword, WellFormed, Splits, Matches, Shown, TokenOk, MadeUp, Windows, Looked;
    TokenOfAll(text, [token], token);
    var next := KeywordPage(text, [token], offset, maxChars).nextOffset;
    if Windows(text, [token], offset) != [] {
      forall j: nat, p: nat | p in Matches(token) && PassedOver(Looked(text, token, offset), j, p)
        ensures MadeUp(text, token, offset, next, j, p)
      {
        if !MadeUp(text, token, offset, next, j, p) {
          var m, x := LostPlace(text, token, offset, maxChars, j, p);
          NotShown(text, [token], offset, maxChars, x);
          assert false;
        }
      }
    }
  }

  /** And they are shown by the pages that follow, as far as they are behind the next offset. */
  lemma ShownByRest(text: Text, tokens: seq<Token>, token: Token, offset: nat, maxChars: int)
    requires PageOk(text, tokens, offset) && AllShown(text, tokens, token, offset, maxChars)
    requires KeywordPage(text, tokens, offset, maxChars).nextOffset.Some?
    ensures var next := KeywordPage(text, tokens, offset, maxChars).nextOffset.value;
            PageOk(text, tokens, next) && offset < next < |text| && AllShown(text, tokens, token, next, maxChars)
  {
    hide InWindow, KeywordPage, WellFormed, Splits, Matches, Shown, Covered;
    KeywordAdvances(text, tokens, offset, maxChars);
    PageAscends(text, tokens, offset, maxChars);
    var page := KeywordPage(text, tokens, offset, maxChars);
    var next := page.nextOffset.value;
    var rest := FollowKeyword(text, tokens, next, maxChars);
    assert FollowKeyword(text, tokens, offset, maxChars) == [page] + rest;
    forall p: nat, x: nat | p in Matches(token) && next <= x && InWindow(text, token, p, x)
      ensures Shown(rest, x)
    {
      NotOnPage(page.sourceRanges, next, x);
      ShownLaterOnly(page, rest, x);
    }
  }

  lemma {:induction false} ShowingAllLeavesNothing(text: Text, token: Token, offset: nat, maxChars: int)
    requires PageOk(text, [token], offset) && offset < |text| && token.length <= 101
    requires AllShown(text, [token], token, offset, maxChars)
    ensures AllLeaveNothing(text, [token], token, offset, maxChars)
    decreases |text| - offset
  {
    hide KeywordPage, LeavesNothing, AllShown;
    ShownPageLeavesNothing(text, token, offset, maxChars);
    var next := KeywordPage(text, [token], offset, maxChars).nextOffset;
    if next.Some? {
      ShownByRest(text, [token], token, offset, maxChars);
      ShowingAllLeavesNothing(text, token, next.value, maxChars);
    }
  }

  lemma NothingInNothing(text: Text, token: Token, maxChars: int)
    requires WellFormed(text, [token]) && text == []
    ensures AllShown(text, [token], token, 0, maxChars) && AllLeaveNothing(text, [token], token, 0, maxChars)
  {
    TokenOfAll(text, [token], token);
    ActiveOk(text, token, 0);
    KeywordAdvances(text, [token], 0, maxChars);
    assert Matches(token) == [];
  }

  /**
   * A search for one token shows every window of every match if and only if no page of it loses one: where a
   * page passes over a match, its window ends with the one before it, or the next window or the next page
   * begins by the end of that.
   */
  lemma ShowsAllExactlyWhenNothingIsLeft(text: Text, token: Token, maxChars: int)
    requires WellFormed(text, [token]) && token.length <= 101
    ensures AllShown(text, [token], token, 0, maxChars) <==> AllLeaveNothing(text, [token], token, 0, maxChars)
  {
    if text == [] {
      NothingInNothing(text, token, maxChars);
    } else {
      hide AllShown, AllLeaveNothing;
      if AllLeaveNothing(text, [token], token, 0, maxChars) {
        LeavingNothingShowsAll(text, [token], token, 0, maxChars);
      }
      if AllShown(text, [token], token, 0, maxChars) {
        ShowingAllLeavesNothing(text, token, 0, maxChars);
      }
    }
  }
}
