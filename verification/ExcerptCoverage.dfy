/**
 * What the pages of a keyword search show: every window around a match, and nothing twice.
 */
module ExcerptCoverage {
  import opened Basics
  import opened Utf16
  import opened TextBudget
  import opened Excerpt
  import opened ExcerptSearch
  import opened ExcerptPaging

  // ---------------------------------------------------------------- the window of a match

  lemma {:induction false} WindowOfIn(text: Text, token: Token, offset: nat, positions: seq<nat>, p: nat)
    requires p in positions && WindowEnd(text, token, p) > offset
    ensures Range(WindowStart(text, offset, p), WindowEnd(text, token, p)) in WindowsOf(text, token, offset, positions)
  {
    var n := |positions| - 1;
    if positions[n] != p {
      assert positions == positions[..n] + [positions[n]];
      WindowOfIn(text, token, offset, positions[..n], p);
    }
  }

  lemma {:induction false} WindowIn(text: Text, tokens: seq<Token>, offset: nat, token: Token, p: nat)
    requires token in tokens && WindowEnd(text, token, p) > offset
    requires p in FirstFew(Active(token, ScanStart(text, offset)), 100)
    ensures Range(WindowStart(text, offset, p), WindowEnd(text, token, p)) in Windows(text, tokens, offset)
  {
    var n := |tokens| - 1;
    if tokens[n] == token {
      FoundIsFirst(token, ScanStart(text, offset), 101);
      assert FirstFew(Found(token, ScanStart(text, offset), 101), 100) == FirstFew(Active(token, ScanStart(text, offset)), 100);
      WindowOfIn(text, token, offset, FirstFew(Found(token, ScanStart(text, offset), 101), 100), p);
    } else {
      assert tokens == tokens[..n] + [tokens[n]];
      WindowIn(text, tokens[..n], offset, token, p);
    }
  }

  lemma WindowInside(text: Text, tokens: seq<Token>, offset: nat, token: Token, p: nat) returns (i: nat)
    requires offset <= |text| && !Splits(text, offset) && WellFormed(text, tokens)
    requires token in tokens && WindowEnd(text, token, p) > offset
    requires p in FirstFew(Active(token, ScanStart(text, offset)), 100)
    ensures var m := MergedWindows(text, tokens, offset);
            i < |m| && m[i].start <= WindowStart(text, offset, p) && WindowEnd(text, token, p) <= m[i].end
  {
    var r := Range(WindowStart(text, offset, p), WindowEnd(text, token, p));
    WindowIn(text, tokens, offset, token, p);
    WindowsAllOk(text, tokens, offset);
    SortOk(text, offset, Windows(text, tokens, offset));
    MergedWindowsOk(text, tokens, offset);
    hide Windows, WindowsOk, SortRanges, WindowStart, WindowEnd, Active, ScanStart, FirstFew, Apart;
    var sorted := SortRanges(Windows(text, tokens, offset));
    var k :| 0 <= k < |sorted| && sorted[k] == r;
    var m := MergedWindows(text, tokens, offset);
    assert Contained(sorted[k], m);
    i :| 0 <= i < |m| && Inside(r, m[i]);
  }

  // ---------------------------------------------------------------- pages show every window

  ghost predicate Shown(pages: seq<Page>, x: int) {
    exists k :: 0 <= k < |pages| && Covered(pages[k].sourceRanges, x)
  }

  lemma ShownFirst(page: Page, rest: seq<Page>, x: int)
    requires Covered(page.sourceRanges, x)
    ensures Shown([page] + rest, x)
  {
    assert Covered(([page] + rest)[0].sourceRanges, x);
  }

  lemma ShownLater(page: Page, rest: seq<Page>, x: int)
    requires Shown(rest, x)
    ensures Shown([page] + rest, x)
  {
    var k :| 0 <= k < |rest| && Covered(rest[k].sourceRanges, x);
    assert Covered(([page] + rest)[k + 1].sourceRanges, x);
  }

  /** The place is part of the window the search puts around the match. */
  predicate InWindow(text: Text, token: Token, p: nat, x: nat) {
    WindowStart(text, 0, p) <= x < WindowEnd(text, token, p)
  }

  /** Either the emission shows x, or the next page starts at or before it. */
  lemma CutShows(m: seq<Range>, included: seq<Range>, j: nat, q: nat, i: nat, x: nat)
    requires Apart(m) && CutAt(m, included, j, q) && i < |m| && m[i].start <= x < m[i].end
    ensures (i < |included| && included[i].start <= x < included[i].end) || q <= x
  {
    if i < j {
      assert included[i] == included[..j][i] == m[..j][i];
    }
  }

  lemma StartsBy(text: Text, token: Token, offset: nat, p: nat, x: nat)
    requires offset <= x && InWindow(text, token, p, x) && offset <= |text| && !Splits(text, offset)
    ensures WindowStart(text, offset, p) <= x && WindowEnd(text, token, p) > offset
  {
  }

  /** A merged place is shown by the page as far as the page has got. */
  lemma MergedNowOrLater(text: Text, tokens: seq<Token>, offset: nat, maxChars: int, i: nat, x: nat)
    requires offset <= |text| && !Splits(text, offset) && WellFormed(text, tokens)
    requires var m := MergedWindows(text, tokens, offset);
             i < |m| && m[i].start <= x < m[i].end
    ensures var page := KeywordPage(text, tokens, offset, maxChars);
            Covered(page.sourceRanges, x) || (page.nextOffset.Some? && page.nextOffset.value <= x)
  {
    hide WellFormed, Splits;
    MergedWindowsOk(text, tokens, offset);
    WellFormedLength(text, tokens);
    var m := MergedWindows(text, tokens, offset);
    var safeMax := SafeMax(maxChars);
    var e := EmitFrom(text, m, 0, safeMax, Emission([], [], None));
    var j := EmitMeaning(text, m, offset, 0, safeMax, Emission([], [], None));
    assert KeywordPage(text, tokens, offset, maxChars).sourceRanges == e.included;
    if e.next.Some? {
      CutShows(m, e.included, j, e.next.value, i, x);
    }
  }

  /** So is the window of any of the first hundred matches listed. */
  lemma ShownNowOrLater(text: Text, tokens: seq<Token>, offset: nat, maxChars: int, token: Token, p: nat, x: nat)
    requires offset <= |text| && !Splits(text, offset) && WellFormed(text, tokens)
    requires token in tokens && p in FirstFew(Active(token, ScanStart(text, offset)), 100)
    requires offset <= x && InWindow(text, token, p, x)
    ensures var page := KeywordPage(text, tokens, offset, maxChars);
            Covered(page.sourceRanges, x) || (page.nextOffset.Some? && page.nextOffset.value <= x)
  {
    hide WellFormed, WindowStart, WindowEnd, Splits, Active, FirstFew, ScanStart, Covered, KeywordPage;
    StartsBy(text, token, offset, p, x);
    var i := WindowInside(text, tokens, offset, token, p);
    MergedNowOrLater(text, tokens, offset, maxChars, i, x);
  }

  lemma WellFormedLength(text: Text, tokens: seq<Token>)
    requires WellFormed(text, tokens)
    ensures |text| < MaxStringLength
  {
  }

  // ---------------------------------------------------------------- a body that loses text

  const LetterA: Unit := 97
  const LetterB: Unit := 98
  const LetterX: Unit := 120

  /** "abx" a hundred and one times, then fifteen hundred times "x". */
  const Body: Text :=
    seq(1803, (k: nat) => if k >= 303 || k % 3 == 2 then LetterX else if k % 3 == 0 then LetterA else LetterB)

  /** The token "ab". */
  const Crowded: Token := Token(2, seq(101, (i: nat) => 3 * i), [], {})

  lemma CrowdedSpacing()
    ensures Spaced(Crowded.exact, 2) && Increasing(Crowded.exact)
    ensures forall i :: 0 <= i < 101 ==> Crowded.exact[i] == 3 * i
  {
  }

  /** The positions are the places where the word stands in the body, no more and no fewer. */
  lemma CrowdedIsReal(k: nat)
    ensures StandsAt([LetterA, LetterB], Body, k) <==> k in Crowded.exact
  {
    CrowdedSpacing();
    if k in Crowded.exact {
      var i :| 0 <= i < 101 && Crowded.exact[i] == k;
      assert Body[3 * i] == LetterA && Body[3 * i + 1] == LetterB;
      assert Body[k..k + 2] == [LetterA, LetterB];
    }
    if StandsAt([LetterA, LetterB], Body, k) {
      assert Body[k..k + 2][0] == Body[k] && Body[k] == LetterA;
      assert k < 303 && k % 3 == 0;
      assert Crowded.exact[k / 3] == k;
    }
  }

  lemma {:induction false} CrowdedWindows(positions: seq<nat>)
    requires forall i :: 0 <= i < |positions| ==> positions[i] <= 297
    ensures var w := WindowsOf(Body, Crowded, 0, positions);
            && |w| == |positions|
            && forall i :: 0 <= i < |w| ==> w[i].start == 0 && 1302 <= w[i].end <= 1599
  {
    if positions != [] {
      BodyHasNoPairs();
      CrowdedWindows(positions[..|positions| - 1]);
    }
  }

  lemma BodyHasNoPairs()
    ensures forall k :: !Splits(Body, k)
  {
  }

  lemma CrowdedMatches()
    ensures WellFormed(Body, [Crowded]) && Active(Crowded, 0) == Crowded.exact
    ensures FirstFew(Found(Crowded, 0, 101), 100) == Crowded.exact[..100]
  {
    BodyHasNoPairs();
    CrowdedSpacing();
    SearchOfSpaced(Crowded.exact, 0, 2);
    AllFrom(Crowded.exact, 0);
  }

  lemma OneTokenWindows(text: Text, token: Token, offset: nat)
    ensures Windows(text, [token], offset)
            == WindowsOf(text, token, offset, FirstFew(Found(token, ScanStart(text, offset), 101), 100))
  {
    assert [token][..0] == [];
  }

  lemma OneRange(m: seq<Range>, given: seq<Range>)
    requires given != [] && Holds(m, given) && Apart(m) && EndsFrom(m, given)
    requires forall i :: 0 <= i < |given| ==> given[i].start == 0 && 1302 <= given[i].end <= 1599
    ensures |m| == 1 && m[0].start == 0 && 1302 <= m[0].end <= 1599
  {
    assert |m| > 1 ==> m[0].end + Gap < m[1].start;
    assert Contained(given[0], m);
    var i :| 0 <= i < |m| && Inside(given[0], m[i]);
    forall k | 0 <= k < |m|
      ensures m[k].start == 0 && 1302 <= m[k].end <= 1599
    {
      assert StartsIn(m[k].start, given) && EndsIn(m[k].end, given);
    }
  }

  lemma CrowdedMerged()
    ensures var m := MergedWindows(Body, [Crowded], 0);
            |m| == 1 && m[0].start == 0 && 1302 <= m[0].end <= 1599
  {
    CrowdedMatches();
    OneTokenWindows(Body, Crowded, 0);
    CrowdedWindows(Crowded.exact[..100]);
    var ranges := Windows(Body, [Crowded], 0);
    WindowsAllOk(Body, [Crowded], 0);
    hide Windows, WindowsOf, WindowsOk, Found, FirstFew, WellFormed, SortRanges, Merged, Holds, Apart, EndsFrom, Justified;
    SortOk(Body, 0, ranges);
    var sorted := SortRanges(ranges);
    assert |ranges| == 100 && ranges[0] in ranges;
    assert forall k :: 0 <= k < |sorted| ==> sorted[k] in ranges;
    MergedMeaning(sorted);
    OneRange(Merged(sorted), sorted);
  }

  lemma NoneLater(start: nat)
    requires start > 300
    ensures Found(Crowded, start, 1) == []
  {
    var later := Search(Crowded.exact, start, 2);
    if later != [] {
      assert later[0] in later;
      SearchMembers(Crowded.exact, start, 2);
    }
  }

  lemma NothingPending(capped: seq<Token>, start: nat)
    requires start > 300 && forall i :: 0 <= i < |capped| ==> capped[i] == Crowded
    ensures Pending(capped, start) == None
  {
    if capped != [] {
      NoneLater(start);
      NothingPending(capped[..|capped| - 1], start);
    }
  }

  /** One range that fits is included as it is. */
  lemma OneRangeFits(text: Text, m: seq<Range>, safeMax: nat)
    requires |m| == 1 && InText(text, m) && |text| < MaxStringLength && m[0].end - m[0].start + 54 < safeMax
    ensures var e := EmitFrom(text, m, 0, safeMax, Emission([], [], None));
            e.next == None && e.included == m
  {
    LabelShort(m[0]);
    hide Label, Piece, EmitFrom, Splits;
    var start := Emission([], [], None);
    assert GoesOn(text, m, 0, safeMax, start);
    EmitContinues(text, m, 0, safeMax, start);
    EmitNothing(text, m, safeMax, NextDone(text, m, 0, safeMax, start));
  }

  lemma NothingLeft(m: seq<Range>)
    requires |m| == 1 && m[0].end > 300
    ensures Pending(Capped(Body, [Crowded], 0), CoveredEnd(m, 0)) == None
  {
    hide Pending, Capped, Crowded;
    CappedIn(Body, [Crowded], 0);
    NothingPending(Capped(Body, [Crowded], 0), CoveredEnd(m, 0));
  }

  lemma CrowdedPage()
    ensures WellFormed(Body, [Crowded])
    ensures var page := KeywordPage(Body, [Crowded], 0, 12000);
            page.nextOffset == None && page.sourceRanges == MergedWindows(Body, [Crowded], 0)
  {
    hide Crowded, MergedWindows, Capped, Pending, CoveredEnd, WindowsOk, Apart, Holds, Windows, SortRanges, EmitFrom, Active, Found, FirstFew;
    CrowdedMatches();
    CrowdedMerged();
    WellFormedLength(Body, [Crowded]);
    MergedWindowsOk(Body, [Crowded], 0);
    var m := MergedWindows(Body, [Crowded], 0);
    OneRangeFits(Body, m, 12000);
    NothingLeft(m);
  }

  /**
   * One match too many: the places where "ab" stands in the body are a hundred and one, and the last three
   * characters of the window of the last of them are on no page.
   */
  lemma HundredFirstMatchIsCut()
    ensures WellFormed(Body, [Crowded]) && |Active(Crowded, 0)| == 101
    ensures forall k: nat :: StandsAt([LetterA, LetterB], Body, k) <==> k in Active(Crowded, 0)
    ensures 300 in Active(Crowded, 0) && InWindow(Body, Crowded, 300, 1599)
    ensures !Shown(FollowKeyword(Body, [Crowded], 0, 12000), 1599)
  {
    hide Crowded, Body, FollowKeyword, KeywordPage, MergedWindows, WellFormed, InWindow, Shown;
    forall k: nat
      ensures StandsAt([LetterA, LetterB], Body, k) <==> k in Crowded.exact
    {
      CrowdedIsReal(k);
    }
    CrowdedMatches();
    CrowdedMerged();
    CrowdedPage();
    LastWindow();
    OnePage(Body, [Crowded], 0, 12000);
    NotOnOnlyPage(KeywordPage(Body, [Crowded], 0, 12000), 1599);
  }

  lemma NotOnOnlyPage(page: Page, x: int)
    requires |page.sourceRanges| == 1 && page.sourceRanges[0].end <= x
    ensures !Shown([page], x)
  {
  }

  lemma LastWindow()
    ensures 300 in Crowded.exact && InWindow(Body, Crowded, 300, 1599) && |Crowded.exact| == 101
  {
    BodyHasNoPairs();
    assert Crowded.exact[100] == 300;
  }

  lemma OnePage(text: Text, tokens: seq<Token>, offset: nat, maxChars: int)
    requires offset <= |text| && !Splits(text, offset) && WellFormed(text, tokens)
    requires KeywordPage(text, tokens, offset, maxChars).nextOffset == None
    ensures FollowKeyword(text, tokens, offset, maxChars) == [KeywordPage(text, tokens, offset, maxChars)]
  {
  }

  // ---------------------------------------------------------------- pages show nothing twice

  predicate Ascending(ranges: seq<Range>, from: nat) {
    && (forall i :: 0 <= i < |ranges| ==> from <= ranges[i].start <= ranges[i].end)
    && (forall i, j :: 0 <= i < j < |ranges| ==> ranges[i].end <= ranges[j].start)
  }

  predicate EndsBy(ranges: seq<Range>, end: nat) {
    forall i :: 0 <= i < |ranges| ==> ranges[i].end <= end
  }

  /** Read one after the other, the pages' ranges never go back. */
  predicate Forward(pages: seq<Page>, from: nat) {
    && pages != [] && Ascending(pages[0].sourceRanges, from)
    && if |pages| == 1 then pages[0].nextOffset == None
       else
         && pages[0].nextOffset.Some? && from < pages[0].nextOffset.value
         && EndsBy(pages[0].sourceRanges, pages[0].nextOffset.value)
         && Forward(pages[1..], pages[0].nextOffset.value)
  }

  lemma CutAscends(text: Text, offset: nat, m: seq<Range>, included: seq<Range>, j: nat, q: nat)
    requires Apart(m) && WindowsOk(text, offset, m) && CutAt(m, included, j, q)
    ensures Ascending(included, offset) && EndsBy(included, q)
  {
    assert forall i :: 0 <= i < j ==> included[i] == included[..j][i] && included[i] == m[i];
  }

  lemma WholeAscends(text: Text, offset: nat, m: seq<Range>)
    requires Apart(m) && WindowsOk(text, offset, m)
    ensures Ascending(m, offset)
  {
  }

  lemma PageAscends(text: Text, tokens: seq<Token>, offset: nat, maxChars: int)
    requires offset <= |text| && !Splits(text, offset) && WellFormed(text, tokens)
    ensures var page := KeywordPage(text, tokens, offset, maxChars);
            && Ascending(page.sourceRanges, offset)
            && (page.nextOffset.Some? ==> EndsBy(page.sourceRanges, page.nextOffset.value))
  {
    MergedWindowsOk(text, tokens, offset);
    var m := MergedWindows(text, tokens, offset);
    if m != [] {
      var safeMax := SafeMax(maxChars);
      var e := EmitFrom(text, m, 0, safeMax, Emission([], [], None));
      var j := EmitMeaning(text, m, offset, 0, safeMax, Emission([], [], None));
      if e.next.Some? {
        CutAscends(text, offset, m, e.included, j, e.next.value);
      } else {
        WholeAscends(text, offset, m);
        CappedIn(text, tokens, offset);
        PendingOk(text, tokens, Capped(text, tokens, offset), CoveredEnd(e.included, offset));
      }
    }
  }

  /** No character is shown by two pages, nor twice by one. */
  lemma {:induction false} KeywordPagesGoForward(text: Text, tokens: seq<Token>, offset: nat, maxChars: int)
    requires offset <= |text| && !Splits(text, offset) && WellFormed(text, tokens)
    ensures Forward(FollowKeyword(text, tokens, offset, maxChars), offset)
    decreases |text| - offset
  {
    PageAscends(text, tokens, offset, maxChars);
    KeywordAdvances(text, tokens, offset, maxChars);
    var page := KeywordPage(text, tokens, offset, maxChars);
    if page.nextOffset.Some? {
      KeywordPagesGoForward(text, tokens, page.nextOffset.value, maxChars);
      var rest := FollowKeyword(text, tokens, page.nextOffset.value, maxChars);
      assert ([page] + rest)[1..] == rest;
    }
  }
}
