/**
 * Searches that list the same matches wherever they start: what the condition comes to, and when a caller
 * can know that it holds.
 */
module ExcerptSteady {
  import opened Basics
  import opened Utf16
  import opened TextBudget
  import opened Excerpt
  import opened ExcerptSearch
  import opened ExcerptPaging
  import opened ExcerptCoverage
  import opened ExcerptExactness
  import opened ExcerptNecessity

  /** The token's matches from the page's scan start on. */
  function Left(token: Token, start: nat): seq<nat> {
    From(Matches(token), start)
  }

  /** As long as any match is left, a search from this start lists those that are, and no others. */
  predicate Steady(token: Token, start: nat) {
    Left(token, start) != [] ==> Active(token, start) == Left(token, start)
  }

  /** At every scan start of the run. */
  predicate AllSteady(text: Text, tokens: seq<Token>, token: Token, offset: nat, maxChars: int)
    requires PageOk(text, tokens, offset)
    decreases |text| - offset
  {
    var next := KeywordPage(text, tokens, offset, maxChars).nextOffset;
    KeywordAdvances(text, tokens, offset, maxChars);
    Steady(token, ScanStart(text, offset)) && (next.Some? ==> AllSteady(text, tokens, token, next.value, maxChars))
  }

  // ---------------------------------------------------------------- when a search is steady

  /** Where no two places of the surface form overlap, every search is. */
  lemma SpacedIsSteady(text: Text, token: Token, start: nat)
    requires TokenOk(text, token) && Spaced(token.exact, token.length) && (token.exact != [] || token.length < 5)
    ensures Matches(token) == token.exact && Steady(token, start)
  {
    SearchOfSpaced(token.exact, 0, token.length);
    SearchOfSpaced(token.exact, start, token.length);
    AllFrom(token.exact, 0);
  }

  lemma {:induction false} SpacedIsAllSteady(text: Text, tokens: seq<Token>, token: Token, offset: nat, maxChars: int)
    requires PageOk(text, tokens, offset) && token in tokens
    requires Spaced(token.exact, token.length) && (token.exact != [] || token.length < 5)
    ensures AllSteady(text, tokens, token, offset, maxChars)
    decreases |text| - offset
  {
    hide WellFormed, TokenOk, KeywordPage, Steady, Splits, Spaced;
    TokenOfAll(text, tokens, token);
    SpacedIsSteady(text, token, ScanStart(text, offset));
    KeywordAdvances(text, tokens, offset, maxChars);
    var next := KeywordPage(text, tokens, offset, maxChars).nextOffset;
    if next.Some? {
      SpacedIsAllSteady(text, tokens, token, next.value, maxChars);
    }
  }

  /** So it is in every text for a word of which no proper prefix is a suffix. */
  lemma UnborderedIsAllSteady(text: Text, folded: Text, word: Text, tokens: seq<Token>, token: Token, offset: nat, maxChars: int)
    requires PageOk(text, tokens, offset) && token in tokens && token.length == |word|
    requires Unbordered(word) && AllPlaces(word, folded, token.exact) && (token.exact != [] || token.length < 5)
    ensures AllSteady(text, tokens, token, offset, maxChars)
  {
    UnborderedNeverOverlaps(word, folded, token.exact);
    SpacedIsAllSteady(text, tokens, token, offset, maxChars);
  }

  /** A search for the root is steady exactly if it does not start inside a word whose rest begins with it. */
  lemma RootIsSteady(text: Text, token: Token, start: nat)
    requires TokenOk(text, token) && token.exact == [] && token.length >= 5
    ensures Left(token, start) != [] ==> (Steady(token, start) <==> !EntersWord(token.words, token.roots, start))
  {
    hide WordSearch, EntersWord, Splits;
    SearchNothing(0, token.length);
    SearchNothing(start, token.length);
    WordSearchLater(text, token, start);
    assert Matches(token) == WordSearch(token.words, token.roots, 0);
    assert Active(token, start) == WordSearch(token.words, token.roots, start);
    assert |[start] + Left(token, start)| == |Left(token, start)| + 1;
  }

  /** No search of the run starts there. */
  ghost predicate NeverEnters(text: Text, tokens: seq<Token>, token: Token, offset: nat, maxChars: int)
    requires PageOk(text, tokens, offset)
    decreases |text| - offset
  {
    var next := KeywordPage(text, tokens, offset, maxChars).nextOffset;
    KeywordAdvances(text, tokens, offset, maxChars);
    !EntersWord(token.words, token.roots, ScanStart(text, offset)) && (next.Some? ==> NeverEnters(text, tokens, token, next.value, maxChars))
  }

  lemma {:induction false} RootIsAllSteady(text: Text, tokens: seq<Token>, token: Token, offset: nat, maxChars: int)
    requires PageOk(text, tokens, offset) && token in tokens && token.exact == [] && token.length >= 5
    requires NeverEnters(text, tokens, token, offset, maxChars)
    ensures AllSteady(text, tokens, token, offset, maxChars)
    decreases |text| - offset
  {
    hide WellFormed, TokenOk, KeywordPage, Splits, EntersWord, Active, Matches;
    TokenOfAll(text, tokens, token);
    RootIsSteady(text, token, ScanStart(text, offset));
    KeywordAdvances(text, tokens, offset, maxChars);
    var next := KeywordPage(text, tokens, offset, maxChars).nextOffset;
    if next.Some? {
      RootIsAllSteady(text, tokens, token, next.value, maxChars);
    }
  }

  // ---------------------------------------------------------------- the condition in steady runs

  function LastWindowEnd(text: Text, token: Token): nat
    requires Matches(token) != []
  {
    WindowEnd(text, token, Matches(token)[|Matches(token)| - 1])
  }

  /** A page that lists more than a hundred: the next page starts by the end of the hundredth window, or nothing is left. */
  predicate KeepsUp(text: Text, token: Token, offset: nat, next: Option<nat>) {
    Crowds(text, token, offset) && Left(token, ScanStart(text, offset)) != [] ==>
      if next.Some? then next.value <= HundredthEnd(text, token, offset)
      else Matches(token) != [] && LastWindowEnd(text, token) <= HundredthEnd(text, token, offset)
  }

  predicate AllKeepUp(text: Text, tokens: seq<Token>, token: Token, offset: nat, maxChars: int)
    requires PageOk(text, tokens, offset)
    decreases |text| - offset
  {
    var next := KeywordPage(text, tokens, offset, maxChars).nextOffset;
    KeywordAdvances(text, tokens, offset, maxChars);
    KeepsUp(text, token, offset, next) && (next.Some? ==> AllKeepUp(text, tokens, token, next.value, maxChars))
  }

  lemma LeftFacts(text: Text, token: Token, start: nat)
    requires TokenOk(text, token)
    ensures PositionsOk(text, Left(token, start)) && Spaced(Left(token, start), 2)
    ensures forall p :: p in Left(token, start) <==> p in Matches(token) && p >= start
    ensures Left(token, start) != [] ==> Left(token, start)[|Left(token, start)| - 1] == Matches(token)[|Matches(token)| - 1]
  {
    hide Active, Splits;
    ActiveOk(text, token, 0);
    var d := FromIsTail(Matches(token), start);
    FromMembers(Matches(token), start);
  }

  /** On a steady page only what comes behind the hundredth is passed over. */
  lemma PassedBehindHundredth(text: Text, token: Token, offset: nat, j: nat, p: nat)
    requires TokenOk(text, token) && Steady(token, ScanStart(text, offset))
    requires p in Matches(token) && PassedOver(Looked(text, token, offset), j, p)
    ensures j == 99 && Crowds(text, token, offset) && Left(token, ScanStart(text, offset)) != []
    ensures Active(token, ScanStart(text, offset)) == Left(token, ScanStart(text, offset))
  {
    hide Active, Matches, Splits;
    ActiveOk(text, token, ScanStart(text, offset));
    LeftFacts(text, token, ScanStart(text, offset));
    var l := Left(token, ScanStart(text, offset));
    assert Looked(text, token, offset)[j] == Active(token, ScanStart(text, offset))[j] >= ScanStart(text, offset);
    assert p in l;
    var k :| 0 <= k < |l| && l[k] == p;
    assert k > j;
  }

  lemma KeepingUpLeavesNothing(text: Text, tokens: seq<Token>, token: Token, offset: nat, next: Option<nat>)
    requires TokenOk(text, token) && Steady(token, ScanStart(text, offset)) && KeepsUp(text, token, offset, next)
    ensures LeavesNothing(text, tokens, token, offset, next)
  {
    hide WindowEnd, WindowStart, TokenOk, Matches, Active, Windows;
    forall j: nat, p: nat | p in Matches(token) && PassedOver(Looked(text, token, offset), j, p)
      ensures MadeUp(text, token, offset, next, j, p)
    {
      PassedBehindHundredth(text, token, offset, j, p);
      HundredthLooked(text, token, offset);
      LastIsLast(text, token, p);
      EndsGrow(text, token, p, Matches(token)[|Matches(token)| - 1]);
    }
  }

  lemma LastIsLast(text: Text, token: Token, p: nat)
    requires TokenOk(text, token) && p in Matches(token)
    ensures p <= Matches(token)[|Matches(token)| - 1]
  {
    hide Active;
    ActiveOk(text, token, 0);
  }

  lemma CrowdedHasWindows(text: Text, tokens: seq<Token>, token: Token, offset: nat)
    requires PageOk(text, tokens, offset) && token in tokens && TokenOk(text, token) && Crowds(text, token, offset) && offset < |text|
    ensures Windows(text, tokens, offset) != []
  {
    hide Windows, WellFormed, TokenOk, Active;
    HundredthReachesOn(text, token, offset);
    HundredthLooked(text, token, offset);
    WindowIn(text, tokens, offset, token, Active(token, ScanStart(text, offset))[99]);
  }

  /** What is behind the hundredth reaches further than it, up to the end of the text. */
  lemma BehindReachesFurther(text: Text, token: Token, offset: nat)
    requires TokenOk(text, token) && Crowds(text, token, offset) && Left(token, ScanStart(text, offset)) != [] && Steady(token, ScanStart(text, offset))
    ensures LastWindowEnd(text, token) <= HundredthEnd(text, token, offset) ==> HundredthEnd(text, token, offset) == |text|
    ensures WindowEnd(text, token, Active(token, ScanStart(text, offset))[100]) <= HundredthEnd(text, token, offset) ==>
              HundredthEnd(text, token, offset) == |text|
    ensures Active(token, ScanStart(text, offset))[100] in Matches(token)
    ensures PassedOver(Looked(text, token, offset), 99, Active(token, ScanStart(text, offset))[100])
    ensures PassedOver(Looked(text, token, offset), 99, Matches(token)[|Matches(token)| - 1])
  {
    hide WindowEnd, TokenOk, Matches, Active, Splits;
    LeftFacts(text, token, ScanStart(text, offset));
    HundredthLooked(text, token, offset);
    var l := Active(token, ScanStart(text, offset));
    var last := Matches(token)[|Matches(token)| - 1];
    assert l[100] in l && last == l[|l| - 1];
    assert l[99] + 2 <= l[100] && l[99] + 2 <= last;
    EndInText(text, token, l[99]);
    if HundredthEnd(text, token, offset) < |text| {
      EndsGrowStrictly(text, token, l[99], l[100]);
      EndsGrowStrictly(text, token, l[99], last);
    }
  }

  lemma LeavingNothingKeepsUp(text: Text, tokens: seq<Token>, token: Token, offset: nat, next: Option<nat>)
    requires PageOk(text, tokens, offset) && token in tokens && offset < |text| && Steady(token, ScanStart(text, offset))
    requires LeavesNothing(text, tokens, token, offset, next) && (next.Some? ==> next.value < |text|)
    ensures KeepsUp(text, token, offset, next)
  {
    hide WindowEnd, WindowStart, TokenOk, Matches, Active, Windows, WellFormed, Splits;
    TokenOfAll(text, tokens, token);
    if Crowds(text, token, offset) && Left(token, ScanStart(text, offset)) != [] {
      CrowdedHasWindows(text, tokens, token, offset);
      BehindReachesFurther(text, token, offset);
      HundredthReachesOn(text, token, offset);
      HundredthLooked(text, token, offset);
      LastOfLeft(text, token, offset);
      var after := Active(token, ScanStart(text, offset))[100];
      var last := Matches(token)[|Matches(token)| - 1];
      assert MadeUp(text, token, offset, next, 99, after);
      assert last in Matches(token) && MadeUp(text, token, offset, next, 99, last);
    }
  }

  lemma LastOfLeft(text: Text, token: Token, offset: nat)
    requires TokenOk(text, token) && Left(token, ScanStart(text, offset)) != []
    ensures Matches(token) != []
  {
    LeftFacts(text, token, ScanStart(text, offset));
  }

  lemma {:induction false} KeepsUpExactly(text: Text, tokens: seq<Token>, token: Token, offset: nat, maxChars: int)
    requires PageOk(text, tokens, offset) && token in tokens && offset < |text| && AllSteady(text, tokens, token, offset, maxChars)
    ensures AllKeepUp(text, tokens, token, offset, maxChars) <==> AllLeaveNothing(text, tokens, token, offset, maxChars)
    decreases |text| - offset
  {
    hide KeywordPage, LeavesNothing, KeepsUp, Steady, WellFormed, TokenOk, Splits;
    TokenOfAll(text, tokens, token);
    KeywordAdvances(text, tokens, offset, maxChars);
    var next := KeywordPage(text, tokens, offset, maxChars).nextOffset;
    if KeepsUp(text, token, offset, next) {
      KeepingUpLeavesNothing(text, tokens, token, offset, next);
    }
    if LeavesNothing(text, tokens, token, offset, next) {
      LeavingNothingKeepsUp(text, tokens, token, offset, next);
    }
    if next.Some? {
      KeepsUpExactly(text, tokens, token, next.value, maxChars);
    }
  }

  lemma NothingKeepsUp(text: Text, tokens: seq<Token>, token: Token, maxChars: int)
    requires WellFormed(text, tokens) && token in tokens && text == []
    ensures AllKeepUp(text, tokens, token, 0, maxChars)
  {
    TokenOfAll(text, tokens, token);
    ActiveOk(text, token, 0);
    KeywordAdvances(text, tokens, 0, maxChars);
    assert Matches(token) == [] && !Crowds(text, token, 0);
  }

  /** With any tokens: if every search of the run is steady and every page keeps up, all windows are shown. */
  lemma KeepingUpShowsAll(text: Text, tokens: seq<Token>, token: Token, offset: nat, maxChars: int)
    requires PageOk(text, tokens, offset) && token in tokens && token.length <= 101 && offset < |text|
    requires AllSteady(text, tokens, token, offset, maxChars) && AllKeepUp(text, tokens, token, offset, maxChars)
    ensures AllShown(text, tokens, token, offset, maxChars)
  {
    KeepsUpExactly(text, tokens, token, offset, maxChars);
    LeavingNothingShowsAll(text, tokens, token, offset, maxChars);
  }

  /** For one token: all windows are shown if and only if every page keeps up, in a run of steady searches. */
  lemma ShowsAllExactlyWhenItKeepsUp(text: Text, token: Token, maxChars: int)
    requires WellFormed(text, [token]) && token.length <= 101 && AllSteady(text, [token], token, 0, maxChars)
    ensures AllShown(text, [token], token, 0, maxChars) <==> AllKeepUp(text, [token], token, 0, maxChars)
  {
    hide AllShown, AllKeepUp, AllLeaveNothing, AllSteady;
    if text == [] {
      NothingInNothing(text, token, maxChars);
      NothingKeepsUp(text, [token], token, maxChars);
    } else {
      KeepsUpExactly(text, [token], token, 0, maxChars);
      ShowsAllExactlyWhenNothingIsLeft(text, token, maxChars);
    }
  }

  /** Up to a hundred matches no page of a steady run can fall behind. */
  lemma {:induction false} FewKeepUp(text: Text, tokens: seq<Token>, token: Token, offset: nat, maxChars: int)
    requires PageOk(text, tokens, offset) && token in tokens && |Matches(token)| <= 100
    requires AllSteady(text, tokens, token, offset, maxChars)
    ensures AllKeepUp(text, tokens, token, offset, maxChars)
    decreases |text| - offset
  {
    TokenOfAll(text, tokens, token);
    ActiveOk(text, token, 0);
    FromIncreasing(Matches(token), ScanStart(text, offset));
    hide KeywordPage, Matches, WellFormed, Splits, Active;
    KeywordAdvances(text, tokens, offset, maxChars);
    var next := KeywordPage(text, tokens, offset, maxChars).nextOffset;
    if next.Some? {
      FewKeepUp(text, tokens, token, next.value, maxChars);
    }
  }

  /** So from the start all windows of a token with at most a hundred matches are shown, whatever the other tokens. */
  lemma KeywordPagesLoseNothing(text: Text, tokens: seq<Token>, maxChars: int, token: Token)
    requires WellFormed(text, tokens) && token in tokens && token.length <= 101
    requires |Matches(token)| <= 100 && AllSteady(text, tokens, token, 0, maxChars)
    ensures AllShown(text, tokens, token, 0, maxChars)
  {
    hide AllShown, AllKeepUp, AllSteady;
    if text == [] {
      NothingToShow(text, tokens, token, maxChars);
    } else {
      FewKeepUp(text, tokens, token, 0, maxChars);
      KeepingUpShowsAll(text, tokens, token, 0, maxChars);
    }
  }

  lemma NothingToShow(text: Text, tokens: seq<Token>, token: Token, maxChars: int)
    requires WellFormed(text, tokens) && token in tokens && text == []
    ensures AllShown(text, tokens, token, 0, maxChars)
  {
    TokenOfAll(text, tokens, token);
    ActiveOk(text, token, 0);
    assert Matches(token) == [];
  }

  /**
   * Whatever page a steady run starts on, the window of any of the first hundred matches left there is shown,
   * as far as it lies behind the start, by one of the pages that follow, whatever comes behind the hundredth.
   */
  lemma {:induction false} KeywordPagesCover(text: Text, tokens: seq<Token>, offset: nat, maxChars: int, token: Token, p: nat, x: nat)
    requires PageOk(text, tokens, offset) && token in tokens && token.length <= 101
    requires AllSteady(text, tokens, token, offset, maxChars)
    requires p in FirstFew(Left(token, ScanStart(text, offset)), 100)
    requires offset <= x && InWindow(text, token, p, x)
    ensures Shown(FollowKeyword(text, tokens, offset, maxChars), x)
    decreases |text| - offset
  {
    hide WellFormed, TokenOk, KeywordPage, Splits, InWindow, Covered, Shown, Active, Matches, ScanStart;
    ShownNowOrLater(text, tokens, offset, maxChars, token, p, x);
    KeywordAdvances(text, tokens, offset, maxChars);
    var page := KeywordPage(text, tokens, offset, maxChars);
    var rest := if page.nextOffset.Some? then FollowKeyword(text, tokens, page.nextOffset.value, maxChars) else [];
    assert FollowKeyword(text, tokens, offset, maxChars) == [page] + rest;
    if Covered(page.sourceRanges, x) {
      ShownFirst(page, rest, x);
    } else {
      TokenOfAll(text, tokens, token);
      StillLeft(text, token, offset, page.nextOffset.value, p, x);
      KeywordPagesCover(text, tokens, page.nextOffset.value, maxChars, token, p, x);
      ShownLater(page, rest, x);
    }
  }

  lemma {:induction false} FromTwice(s: seq<nat>, a: nat, b: nat)
    requires a <= b
    ensures From(From(s, a), b) == From(s, b)
  {
    if s != [] {
      FromTwice(s[1..], a, b);
    }
  }

  lemma FirstFewLater(s: seq<nat>, a: nat, b: nat, p: nat, limit: nat)
    requires Increasing(s) && a <= b <= p && p in FirstFew(From(s, a), limit)
    ensures p in FirstFew(From(s, b), limit)
  {
    var l := From(s, a);
    FromIncreasing(s, a);
    FromTwice(s, a, b);
    var d := FromIsTail(l, b);
    hide From;
    var k :| 0 <= k < |l| && k < limit && l[k] == p;
    assert l[d..][k - d] == p;
  }

  lemma StillLeft(text: Text, token: Token, offset: nat, later: nat, p: nat, x: nat)
    requires TokenOk(text, token) && token.length <= 101 && offset <= later <= x && InWindow(text, token, p, x)
    requires p in FirstFew(Left(token, ScanStart(text, offset)), 100)
    ensures p in FirstFew(Left(token, ScanStart(text, later)), 100)
  {
    hide Active, TokenOk, Matches;
    StillAhead(text, token, later, p, x);
    ActiveFromStart(text, token);
    FirstFewLater(Matches(token), ScanStart(text, offset), ScanStart(text, later), p, 100);
  }

  lemma ActiveFromStart(text: Text, token: Token)
    requires TokenOk(text, token)
    ensures Increasing(Matches(token))
  {
    ActiveOk(text, token, 0);
  }

  // ---------------------------------------------------------------- what keeping up comes to

  /**
   * A crowded page of a steady search for one token keeps up exactly if it was cut for room, or a search from
   * the end of the hundredth window finds a match right there, or that window ends with the text.
   */
  lemma KeepsUpMeans(text: Text, token: Token, offset: nat, maxChars: int)
    requires PageOk(text, [token], offset) && offset < |text| && Crowds(text, token, offset)
    requires Left(token, ScanStart(text, offset)) != [] && Steady(token, ScanStart(text, offset))
    ensures var end := HundredthEnd(text, token, offset);
            KeepsUp(text, token, offset, KeywordPage(text, [token], offset, maxChars).nextOffset)
            <==> || CutForRoom(text, [token], offset, maxChars)
                 || (Active(token, end) != [] && Active(token, end)[0] == end)
                 || end == |text|
  {
    hide WindowEnd, WindowStart, TokenOk, Matches, Active, WellFormed, Splits, KeywordPage, CutForRoom;
    TokenOfAll(text, [token], token);
    var end := HundredthEnd(text, token, offset);
    CrowdedPageNext(text, token, offset, maxChars);
    PendingOne(token, end);
    ActiveOk(text, token, end);
    BehindReachesFurther(text, token, offset);
    LastOfLeft(text, token, offset);
    EndInText(text, token, Matches(token)[|Matches(token)| - 1]);
  }
}
