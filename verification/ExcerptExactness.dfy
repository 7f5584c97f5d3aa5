/**
 * Exactly when the pages of a keyword search show every window of a token: on every page, where the search
 * passes over a match, the next window or the next page takes over in time.
 */
module ExcerptExactness {
  import opened Basics
  import opened Utf16
  import opened TextBudget
  import opened Excerpt
  import opened ExcerptSearch
  import opened ExcerptPaging
  import opened ExcerptCoverage

  /** The token's matches: what a search of the whole text lists. */
  function Matches(token: Token): seq<nat> {
    Active(token, 0)
  }

  /** The matches whose windows a page collects. */
  function Looked(text: Text, token: Token, offset: nat): seq<nat> {
    FirstFew(Active(token, ScanStart(text, offset)), 100)
  }

  /** The page lists more than it looks at. */
  predicate Crowds(text: Text, token: Token, offset: nat) {
    |Active(token, ScanStart(text, offset))| > 100
  }

  function HundredthEnd(text: Text, token: Token, offset: nat): nat
    requires Crowds(text, token, offset)
  {
    WindowEnd(text, token, Active(token, ScanStart(text, offset))[99])
  }

  predicate PageOk(text: Text, tokens: seq<Token>, offset: nat) {
    offset <= |text| && !Splits(text, offset) && WellFormed(text, tokens)
  }

  // ---------------------------------------------------------------- the condition

  /** The match lies between the j-th the page looks at and the one after it, or behind the last. */
  predicate PassedOver(looked: seq<nat>, j: nat, p: nat) {
    j < |looked| && looked[j] < p && (j + 1 < |looked| ==> p < looked[j + 1])
  }

  /** How far the page has got with the windows up to the j-th. */
  function Reached(text: Text, token: Token, offset: nat, p: nat): nat {
    Max(offset, WindowEnd(text, token, p))
  }

  /** The window after the j-th begins before the merging leaves a gap. */
  predicate TakenOver(text: Text, token: Token, offset: nat, looked: seq<nat>, j: nat)
    requires j < |looked|
  {
    j + 1 < |looked| &&
    WindowStart(text, offset, looked[j + 1])
      <= if WindowEnd(text, token, looked[j]) > offset then WindowEnd(text, token, looked[j]) + Gap else offset
  }

  predicate MadeUp(text: Text, token: Token, offset: nat, next: Option<nat>, j: nat, p: nat)
    requires j < |Looked(text, token, offset)|
  {
    var looked := Looked(text, token, offset);
    || WindowEnd(text, token, p) <= Reached(text, token, offset, looked[j])
    || TakenOver(text, token, offset, looked, j)
    || (next.Some? && next.value <= Reached(text, token, offset, looked[j]))
  }

  /** No window of a match that the page passes over is lost. */
  ghost predicate LeavesNothing(text: Text, tokens: seq<Token>, token: Token, offset: nat, next: Option<nat>) {
    Windows(text, tokens, offset) == [] ||
    forall j: nat, p: nat {:trigger PassedOver(Looked(text, token, offset), j, p)} ::
      p in Matches(token) && PassedOver(Looked(text, token, offset), j, p) ==> MadeUp(text, token, offset, next, j, p)
  }

  /** On no page of the run. */
  ghost predicate AllLeaveNothing(text: Text, tokens: seq<Token>, token: Token, offset: nat, maxChars: int)
    requires PageOk(text, tokens, offset)
    decreases |text| - offset
  {
    var next := KeywordPage(text, tokens, offset, maxChars).nextOffset;
    KeywordAdvances(text, tokens, offset, maxChars);
    && LeavesNothing(text, tokens, token, offset, next)
    && (next.Some? ==> AllLeaveNothing(text, tokens, token, next.value, maxChars))
  }

  /** Of every match the window, as far as it is behind the offset, is on one of the pages. */
  ghost predicate AllShown(text: Text, tokens: seq<Token>, token: Token, offset: nat, maxChars: int)
    requires PageOk(text, tokens, offset)
  {
    forall p: nat, x: nat {:trigger InWindow(text, token, p, x)} ::
      p in Matches(token) && offset <= x && InWindow(text, token, p, x) ==>
        Shown(FollowKeyword(text, tokens, offset, maxChars), x)
  }

  // ---------------------------------------------------------------- windows

  lemma EndsGrow(text: Text, token: Token, p: nat, q: nat)
    requires p <= q
    ensures WindowEnd(text, token, p) <= WindowEnd(text, token, q) && WindowStart(text, 0, p) <= WindowStart(text, 0, q)
  {
  }

  lemma MatchInWindow(text: Text, token: Token, p: nat)
    requires token.length >= 2 && p < |text|
    ensures p < WindowEnd(text, token, p) && WindowStart(text, 0, p) <= p
    ensures p > 0 ==> WindowStart(text, 0, p) <= p - 1
  {
  }

  /** Two characters further on, a window reaches further, up to the end of the text. */
  lemma EndsGrowStrictly(text: Text, token: Token, p: nat, q: nat)
    requires p + 2 <= q && WindowEnd(text, token, p) < |text|
    ensures WindowEnd(text, token, p) < WindowEnd(text, token, q)
  {
  }

  lemma {:induction false} SpacedOut(s: seq<nat>, i: nat)
    requires Spaced(s, 2) && i < |s|
    ensures s[i] >= s[0] + 2 * i
  {
    if i > 0 {
      SpacedOut(s, i - 1);
      assert s[i - 1] + 2 <= s[i];
    }
  }

  lemma StartsGrow(text: Text, a: nat, b: nat, p: nat, q: nat)
    requires a <= b && p <= q
    ensures WindowStart(text, a, p) <= WindowStart(text, b, q)
  {
  }

  /** A hundred matches take more room than the scan goes back. */
  lemma HundredthReachesOn(text: Text, token: Token, offset: nat)
    requires TokenOk(text, token) && Crowds(text, token, offset) && offset < |text| && !Splits(text, offset)
    ensures HundredthEnd(text, token, offset) > offset
  {
    hide Active;
    ActiveOk(text, token, ScanStart(text, offset));
    var l := Active(token, ScanStart(text, offset));
    SpacedOut(l, 99);
    assert l[99] >= ScanStart(text, offset) + 198;
  }

  lemma TokenOfAll(text: Text, tokens: seq<Token>, token: Token)
    requires WellFormed(text, tokens) && token in tokens
    ensures TokenOk(text, token)
  {
  }

  // ---------------------------------------------------------------- what a later search makes of a match

  lemma SearchAll(text: Text, token: Token)
    requires TokenOk(text, token)
    ensures Search(token.exact, 0, token.length) == [] <==> token.exact == []
  {
  }

  /** A search from a later start lists the match, or one it overlaps with, and nothing in between. */
  lemma NearestListed(text: Text, token: Token, start: nat, p: nat) returns (i: nat)
    requires TokenOk(text, token) && p in Matches(token) && p >= start
    ensures var l := Active(token, start);
            && i < |l| && l[i] <= p < l[i] + token.length
            && (i + 1 < |l| ==> p < l[i + 1])
  {
    hide Search, WordSearch, Splits;
    SearchAll(text, token);
    if token.exact != [] || token.length < 5 {
      SearchOk(text, token, 0);
      SearchMembers(token.exact, 0, token.length);
      i := SearchReaches(token.exact, start, token.length, p);
      SearchOk(text, token, start);
    } else {
      SearchNothing(start, token.length);
      WordMembersLater(text, token.words, token.roots, start, p);
      var l := WordSearch(token.words, token.roots, start);
      i :| 0 <= i < |l| && l[i] == p;
      WordSearchOk(text, token, start);
    }
  }

  lemma SearchNothing(start: nat, length: nat)
    ensures Search([], start, length) == []
  {
  }

  lemma NearestLooked(text: Text, token: Token, offset: nat, p: nat) returns (j: nat)
    requires TokenOk(text, token) && p in Matches(token) && p >= ScanStart(text, offset)
    ensures var f := Looked(text, token, offset);
            j < |f| && f[j] <= p && (j + 1 < |f| ==> p < f[j + 1])
  {
    hide Active, Matches;
    var i := NearestListed(text, token, ScanStart(text, offset), p);
    ActiveOk(text, token, ScanStart(text, offset));
    j := if i < 100 then i else 99;
  }

  /** What is passed over before the hundredth overlaps with the match before it. */
  lemma PassedIsOverlapped(text: Text, token: Token, offset: nat, j: nat, p: nat)
    requires TokenOk(text, token) && p in Matches(token) && PassedOver(Looked(text, token, offset), j, p)
    requires j < 99 || !Crowds(text, token, offset)
    ensures p < Looked(text, token, offset)[j] + token.length
  {
    hide Active, Matches;
    ActiveOk(text, token, ScanStart(text, offset));
    var l := Active(token, ScanStart(text, offset));
    var i := NearestListed(text, token, ScanStart(text, offset), p);
    assert Looked(text, token, offset)[j] == l[j];
    SameGap(l, i, j, p);
  }

  lemma SameGap(l: seq<nat>, i: nat, j: nat, p: nat)
    requires (forall a, b :: 0 <= a < b < |l| ==> l[a] < l[b]) && i < |l| && j < |l|
    requires l[i] <= p && (i + 1 < |l| ==> p < l[i + 1])
    requires l[j] < p && (j + 1 < |l| ==> p < l[j + 1])
    ensures i == j
  {
  }

  // ---------------------------------------------------------------- leaving nothing is enough

  lemma StillAhead(text: Text, token: Token, offset: nat, p: nat, x: nat)
    requires token.length <= 101 && offset <= x && InWindow(text, token, p, x)
    ensures p >= ScanStart(text, offset)
  {
  }

  lemma NothingMergedNoWindows(text: Text, tokens: seq<Token>, offset: nat)
    requires PageOk(text, tokens, offset)
    ensures MergedWindows(text, tokens, offset) == [] <==> Windows(text, tokens, offset) == []
  {
    SortKeepsLength(Windows(text, tokens, offset));
  }

  /** Without windows the page shows what is there. */
  lemma PlainShowsOrLeaves(text: Text, tokens: seq<Token>, offset: nat, maxChars: int, x: nat)
    requires PageOk(text, tokens, offset) && Windows(text, tokens, offset) == [] && offset <= x < |text|
    ensures var page := KeywordPage(text, tokens, offset, maxChars);
            Covered(page.sourceRanges, x) || (page.nextOffset.Some? && page.nextOffset.value <= x)
  {
    NothingMergedNoWindows(text, tokens, offset);
    hide Windows, WellFormed, MergedWindows;
    var page := PlainPage(text, offset, maxChars);
    assert page.sourceRanges[0] == Range(offset, PlainEnd(text, offset, maxChars));
  }

  lemma LookedAt(text: Text, token: Token, offset: nat, j: nat)
    requires j < |Looked(text, token, offset)|
    ensures Looked(text, token, offset)[j] in FirstFew(Active(token, ScanStart(text, offset)), 100)
  {
  }

  /** Between two windows that the merging joins. */
  lemma JoinedNowOrLater(text: Text, tokens: seq<Token>, token: Token, offset: nat, maxChars: int, j: nat, x: nat)
    requires PageOk(text, tokens, offset) && token in tokens && TokenOk(text, token)
    requires j + 1 < |Looked(text, token, offset)| && TakenOver(text, token, offset, Looked(text, token, offset), j)
    requires var f := Looked(text, token, offset);
             offset < WindowEnd(text, token, f[j]) <= x < WindowEnd(text, token, f[j + 1])
    ensures var page := KeywordPage(text, tokens, offset, maxChars);
            Covered(page.sourceRanges, x) || (page.nextOffset.Some? && page.nextOffset.value <= x)
  {
    hide WellFormed, TokenOk, WindowStart, WindowEnd, Splits, Active, Covered, KeywordPage, MergedWindows, Looked, WindowsOk, Holds, InText;
    var f := Looked(text, token, offset);
    LookedAt(text, token, offset, j);
    LookedAt(text, token, offset, j + 1);
    var i := WindowInside(text, tokens, offset, token, f[j]);
    var k := WindowInside(text, tokens, offset, token, f[j + 1]);
    MergedWindowsOk(text, tokens, offset);
    StartBeforeEnd(text, tokens, token, offset, f[j]);
    LookedGrows(text, token, offset, j);
    EndsGrow(text, token, f[j], f[j + 1]);
    MergedNowOrLater(text, tokens, offset, maxChars, i, x);
  }

  lemma LookedGrows(text: Text, token: Token, offset: nat, j: nat)
    requires TokenOk(text, token) && j + 1 < |Looked(text, token, offset)|
    ensures Looked(text, token, offset)[j] < Looked(text, token, offset)[j + 1]
  {
    hide Active;
    ActiveOk(text, token, ScanStart(text, offset));
  }

  lemma StartBeforeEnd(text: Text, tokens: seq<Token>, token: Token, offset: nat, p: nat)
    requires PageOk(text, tokens, offset) && TokenOk(text, token) && WindowEnd(text, token, p) > offset
    requires p in FirstFew(Active(token, ScanStart(text, offset)), 100)
    ensures WindowStart(text, offset, p) < WindowEnd(text, token, p)
  {
    ActiveOk(text, token, ScanStart(text, offset));
    hide Active;
    WindowOk(text, token, offset, p);
  }

  /** On a page that leaves nothing a place in the window of any match is shown, or left to the next page. */
  lemma PageShowsOrLeaves(text: Text, tokens: seq<Token>, token: Token, offset: nat, maxChars: int, p: nat, x: nat)
    requires PageOk(text, tokens, offset) && token in tokens && token.length <= 101
    requires LeavesNothing(text, tokens, token, offset, KeywordPage(text, tokens, offset, maxChars).nextOffset)
    requires p in Matches(token) && offset <= x && InWindow(text, token, p, x)
    ensures var page := KeywordPage(text, tokens, offset, maxChars);
            Covered(page.sourceRanges, x) || (page.nextOffset.Some? && page.nextOffset.value <= x)
  {
    hide WellFormed, WindowStart, WindowEnd, Splits, Active, FirstFew, ScanStart, KeywordPage, Looked, Covered, Matches, TokenOk, Windows;
    TokenOfAll(text, tokens, token);
    EndInText(text, token, p);
    if Windows(text, tokens, offset) == [] {
      PlainShowsOrLeaves(text, tokens, offset, maxChars, x);
    } else {
      StillAhead(text, token, offset, p, x);
      var j := NearestLooked(text, token, offset, p);
      var f := Looked(text, token, offset);
      LookedAt(text, token, offset, j);
      EndsGrow(text, token, f[j], p);
      if x < WindowEnd(text, token, f[j]) {
        ShownNowOrLater(text, tokens, offset, maxChars, token, f[j], x);
      } else if f[j] != p {
        assert PassedOver(f, j, p) && MadeUp(text, token, offset, KeywordPage(text, tokens, offset, maxChars).nextOffset, j, p);
        if TakenOver(text, token, offset, f, j) {
          LookedAt(text, token, offset, j + 1);
          EndsGrow(text, token, p, f[j + 1]);
          StartsGrow(text, 0, offset, f[j + 1], f[j + 1]);
          if WindowStart(text, 0, f[j + 1]) <= x {
            ShownNowOrLater(text, tokens, offset, maxChars, token, f[j + 1], x);
          } else {
            JoinedNowOrLater(text, tokens, token, offset, maxChars, j, x);
          }
        }
      }
    }
  }

  lemma EndInText(text: Text, token: Token, p: nat)
    ensures WindowEnd(text, token, p) <= |text|
  {
  }

  /** With any tokens and any number of matches: if no page loses any, all windows of the token are shown. */
  lemma {:induction false} LeavingNothingShowsAll(text: Text, tokens: seq<Token>, token: Token, offset: nat, maxChars: int)
    requires PageOk(text, tokens, offset) && token in tokens && token.length <= 101
    requires AllLeaveNothing(text, tokens, token, offset, maxChars)
    ensures AllShown(text, tokens, token, offset, maxChars)
    decreases |text| - offset
  {
    hide InWindow, LeavesNothing, Covered, KeywordPage, Matches, WellFormed, Shown;
    KeywordAdvances(text, tokens, offset, maxChars);
    var page := KeywordPage(text, tokens, offset, maxChars);
    var rest := if page.nextOffset.Some? then FollowKeyword(text, tokens, page.nextOffset.value, maxChars) else [];
    assert FollowKeyword(text, tokens, offset, maxChars) == [page] + rest;
    if page.nextOffset.Some? {
      LeavingNothingShowsAll(text, tokens, token, page.nextOffset.value, maxChars);
    }
    forall p: nat, x: nat | p in Matches(token) && offset <= x && InWindow(text, token, p, x)
      ensures Shown(FollowKeyword(text, tokens, offset, maxChars), x)
    {
      PageShowsOrLeaves(text, tokens, token, offset, maxChars, p, x);
      if Covered(page.sourceRanges, x) {
        ShownFirst(page, rest, x);
      } else {
        ShownLater(page, rest, x);
      }
    }
  }
}
