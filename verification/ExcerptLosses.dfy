/**
 * Two bodies that lose text although their token has no more than a hundred matches: the search of a later
 * page starts inside a run of overlapping occurrences, or inside a word.
 */
module ExcerptLosses {
  import opened Basics
  import opened Utf16
  import opened TextBudget
  import opened Excerpt
  import opened ExcerptSearch
  import opened ExcerptPaging
  import opened ExcerptCoverage
  import opened ExcerptExactness
  import opened ExcerptNecessity

  // ---------------------------------------------------------------- pages with one window

  /** Every window that reaches behind the offset holds the place `mid`, and the outermost are given. */
  ghost predicate Clustered(text: Text, token: Token, offset: nat, lo: nat, mid: nat, hi: nat) {
    var f := Looked(text, token, offset);
    && (forall i :: 0 <= i < |f| && WindowEnd(text, token, f[i]) > offset ==>
          lo <= WindowStart(text, offset, f[i]) <= mid < WindowEnd(text, token, f[i]) <= hi)
    && (exists i :: 0 <= i < |f| && WindowEnd(text, token, f[i]) > offset && WindowStart(text, offset, f[i]) == lo)
    && (exists i :: 0 <= i < |f| && WindowEnd(text, token, f[i]) > offset && WindowEnd(text, token, f[i]) == hi)
  }

  lemma {:induction false} WindowsOfCluster(text: Text, token: Token, offset: nat, positions: seq<nat>, lo: nat, mid: nat, hi: nat)
    requires forall i :: 0 <= i < |positions| && WindowEnd(text, token, positions[i]) > offset ==>
               lo <= WindowStart(text, offset, positions[i]) <= mid < WindowEnd(text, token, positions[i]) <= hi
    ensures forall r :: r in WindowsOf(text, token, offset, positions) ==> lo <= r.start <= mid < r.end <= hi
  {
    if positions != [] {
      WindowsOfCluster(text, token, offset, positions[..|positions| - 1], lo, mid, hi);
    }
  }

  lemma OneMerged(m: seq<Range>, given: seq<Range>, lo: nat, mid: nat, hi: nat)
    requires Apart(m) && EndsFrom(m, given) && Holds(m, given)
    requires forall r :: r in given ==> lo <= r.start <= mid < r.end <= hi
    requires (exists r :: r in given && r.start == lo) && (exists r :: r in given && r.end == hi)
    ensures m == [Range(lo, hi)]
  {
    assert |m| > 1 ==> m[0].end + Gap < m[1].start;
    forall i | 0 <= i < |m|
      ensures lo <= m[i].start <= mid < m[i].end <= hi
    {
      assert StartsIn(m[i].start, given) && EndsIn(m[i].end, given);
      var a :| 0 <= a < |given| && given[a].start == m[i].start;
      var b :| 0 <= b < |given| && given[b].end == m[i].end;
      assert given[a] in given && given[b] in given;
    }
    var first :| first in given && first.start == lo;
    var last :| last in given && last.end == hi;
    var a :| 0 <= a < |given| && given[a] == first;
    var b :| 0 <= b < |given| && given[b] == last;
    assert Contained(given[a], m) && Contained(given[b], m);
  }

  lemma ClusterMerges(text: Text, token: Token, offset: nat, lo: nat, mid: nat, hi: nat)
    requires PageOk(text, [token], offset) && TokenOk(text, token) && Clustered(text, token, offset, lo, mid, hi)
    ensures MergedWindows(text, [token], offset) == [Range(lo, hi)]
  {
    hide WindowStart, WindowEnd, Splits, WellFormed, TokenOk, Active, Found, SortRanges, Merged, WindowsOf, EndsFrom, Holds, Justified, WindowsOk, Windows, Looked;
    LookedIsFound(text, token, offset);
    OneTokenWindows(text, token, offset);
    var f := Looked(text, token, offset);
    var ranges := Windows(text, [token], offset);
    WindowsOfCluster(text, token, offset, f, lo, mid, hi);
    var i :| 0 <= i < |f| && WindowEnd(text, token, f[i]) > offset && WindowStart(text, offset, f[i]) == lo;
    var k :| 0 <= k < |f| && WindowEnd(text, token, f[k]) > offset && WindowEnd(text, token, f[k]) == hi;
    WindowOfIn(text, token, offset, f, f[i]);
    WindowOfIn(text, token, offset, f, f[k]);
    assert Range(WindowStart(text, offset, f[i]), WindowEnd(text, token, f[i])).start == lo;
    assert Range(WindowStart(text, offset, f[k]), WindowEnd(text, token, f[k])).end == hi;
    WindowsAllOk(text, [token], offset);
    SortOk(text, offset, ranges);
    MergedMeaning(SortRanges(ranges));
    OneMerged(Merged(SortRanges(ranges)), SortRanges(ranges), lo, mid, hi);
  }

  predicate NoPairs(text: Text) {
    forall k :: 0 <= k < |text| ==> !IsHigh(text[k])
  }

  lemma NoPairsCut(text: Text, index: int)
    requires NoPairs(text)
    ensures AvoidSplitSurrogate(text, index) == Clamp(index, 0, |text|) && !Splits(text, index)
  {
  }

  lemma NoPairsInside(text: Text, lo: nat, hi: nat)
    requires NoPairs(text) && lo <= hi <= |text|
    ensures NoPairs(text[lo..hi])
  {
  }

  /** What a page with one window does with it. */
  lemma OneWindowPage(text: Text, token: Token, offset: nat, maxChars: int, lo: nat, hi: nat)
    requires PageOk(text, [token], offset) && NoPairs(text)
    requires MergedWindows(text, [token], offset) == [Range(lo, hi)] && lo < hi <= |text|
    requires |Label(Range(lo, hi))| < SafeMax(maxChars)
    ensures var page := KeywordPage(text, [token], offset, maxChars);
            var room := SafeMax(maxChars) - |Label(Range(lo, hi))|;
            if room < hi - lo then page.nextOffset == Some(lo + room)
            else
              && page.sourceRanges == [Range(lo, hi)]
              && page.nextOffset == if Crowds(text, token, offset) then Pending([token], Max(offset, hi)) else None
  {
    hide Label, Splits, Pending, MergedWindows, WellFormed, Crowds;
    MergedWindowsOk(text, [token], offset);
    var m := [Range(lo, hi)];
    var safeMax := SafeMax(maxChars);
    var start := Emission([], [], None);
    var room := Room(safeMax, 0, true, m[0]);
    NoPairsInside(text, lo, hi);
    NoPairsCut(text[lo..hi], Min(hi - lo, room));
    EmitUnfold(text, m, 0, safeMax, start);
    CrowdedCapped(text, token, offset);
    if room >= hi - lo {
      EmitNothing(text, m, safeMax, Longer(text, m, 0, start, hi - lo));
      assert CoveredEnd([Range(lo, hi)], offset) == Max(offset, hi) by {
        assert [Range(lo, hi)][..0] == [];
      }
    }
  }

  /** What a later run of pages does not show, earlier pages do not show either. */
  lemma LaterNotShown(text: Text, tokens: seq<Token>, offset: nat, maxChars: int, x: nat)
    requires PageOk(text, tokens, offset) && KeywordPage(text, tokens, offset, maxChars).nextOffset.Some?
    requires var next := KeywordPage(text, tokens, offset, maxChars).nextOffset.value;
             next <= x && PageOk(text, tokens, next) && next > offset && !Shown(FollowKeyword(text, tokens, next, maxChars), x)
    ensures !Shown(FollowKeyword(text, tokens, offset, maxChars), x)
  {
    hide KeywordPage, WellFormed, Splits, Covered;
    KeywordAdvances(text, tokens, offset, maxChars);
    PageAscends(text, tokens, offset, maxChars);
    var page := KeywordPage(text, tokens, offset, maxChars);
    var rest := FollowKeyword(text, tokens, page.nextOffset.value, maxChars);
    assert FollowKeyword(text, tokens, offset, maxChars) == [page] + rest;
    NotOnPage(page.sourceRanges, page.nextOffset.value, x);
    if Shown([page] + rest, x) {
      ShownLaterOnly(page, rest, x);
    }
  }

  lemma LabelLength(r: Range)
    requires 600 <= r.start <= 9999 && 1000 <= r.end <= 9999
    ensures |Label(r)| == if r.start < 1000 then 29 else 30
  {
    FourDigits(r.end);
    if r.start < 1000 { ThreeDigits(r.start); } else { FourDigits(r.start); }
  }

  lemma ThreeDigits(n: nat)
    requires 100 <= n < 1000
    ensures |ExcerptPaging.Digits(n)| == 3
  {
    assert |ExcerptPaging.Digits(n / 100)| == 1 && |ExcerptPaging.Digits(n / 10)| == 2;
  }

  lemma FourDigits(n: nat)
    requires 1000 <= n < 10000
    ensures |ExcerptPaging.Digits(n)| == 4
  {
    ThreeDigits(n / 10);
  }

  // ---------------------------------------------------------------- a run of one letter

  const Letters: Text := seq(4700, (k: nat) => if 1500 <= k < 1700 then 97 else 120)

  function Run(first: nat, count: nat): seq<nat> {
    seq(count, i => first + i)
  }

  function Evens(first: nat, count: nat): seq<nat> {
    seq(count, i => first + 2 * i)
  }

  /** The token "aa" with all places where it stands. */
  const DoubleA: Token := Token(2, Run(1500, 199), [], {})

  lemma {:induction false} SearchRun(first: nat, count: nat, from: nat)
    requires from <= first
    ensures Search(Run(first, count), from, 2) == Evens(first, (count + 1) / 2)
    decreases count
  {
    var s := Run(first, count);
    if count == 0 {
    } else if count == 1 {
      assert s[1..] == [];
    } else {
      assert s[1..] == Run(first + 1, count - 1) && s[1..][1..] == Run(first + 2, count - 2);
      SearchRun(first + 2, count - 2, first + 2);
      assert [first] + Evens(first + 2, (count - 1) / 2) == Evens(first, (count + 1) / 2);
    }
  }

  lemma {:induction false} SearchInRun(first: nat, count: nat, skip: nat)
    requires skip <= count
    ensures Search(Run(first, count), first + skip, 2) == Evens(first + skip, (count - skip + 1) / 2)
    decreases skip
  {
    if skip == 0 {
      SearchRun(first, count, first);
    } else {
      assert Run(first, count)[1..] == Run(first + 1, count - 1);
      SearchInRun(first + 1, count - 1, skip - 1);
    }
  }

  lemma LettersAreReal(k: nat)
    ensures StandsAt([97, 97], Letters, k) <==> k in DoubleA.exact
  {
    if k in DoubleA.exact {
      assert 1500 <= k < 1699;
      assert Letters[k..k + 2] == [97, 97];
    }
    if StandsAt([97, 97], Letters, k) {
      assert Letters[k..k + 2][0] == Letters[k] && Letters[k..k + 2][1] == Letters[k + 1];
      assert DoubleA.exact[k - 1500] == k;
    }
  }

  lemma LettersOk()
    ensures WellFormed(Letters, [DoubleA]) && TokenOk(Letters, DoubleA) && NoPairs(Letters) && |Letters| == 4700
  {
  }

  lemma ListedInLetters(start: nat)
    ensures start <= 1500 ==> Active(DoubleA, start) == Evens(1500, 100)
    ensures start == 1501 ==> Active(DoubleA, start) == Evens(1501, 99)
  {
    if start <= 1500 { SearchRun(1500, 199, start); }
    if start == 1501 { SearchInRun(1500, 199, 1); }
  }

  lemma LettersWindow(offset: nat, p: nat)
    requires p <= 1700
    ensures WindowEnd(Letters, DoubleA, p) == p + 1302 && WindowStart(Letters, offset, p) == Clamp(Max(offset, p - 900), 0, 4700)
  {
    LettersOk();
    NoPairsCut(Letters, p + 1302);
    NoPairsCut(Letters, Max(offset, p - 900));
  }

  lemma LettersMerged(offset: nat)
    requires offset == 0 || offset == 1751 || offset == 2901
    ensures MergedWindows(Letters, [DoubleA], offset)
         == [Range(if offset == 0 then 600 else offset, if offset == 2901 then 2999 else 3000)]
    ensures !Crowds(Letters, DoubleA, offset)
  {
    hide Letters, Active, WindowStart, WindowEnd;
    LettersOk();
    ListedInLetters(ScanStart(Letters, offset));
    var lo, hi := if offset == 0 then 600 else offset, if offset == 2901 then 2999 else 3000;
    var f := Looked(Letters, DoubleA, offset);
    assert f == if offset == 2901 then Evens(1501, 99) else Evens(1500, 100);
    var n := |f| - 1;
    assert f[n] == if offset == 2901 then 1697 else 1698;
    LettersWindow(offset, f[0]);
    LettersWindow(offset, f[n]);
    var mid := if offset == 0 then 1000 else offset;
    forall i | 0 <= i < |f| && WindowEnd(Letters, DoubleA, f[i]) > offset
      ensures lo <= WindowStart(Letters, offset, f[i]) <= mid < WindowEnd(Letters, DoubleA, f[i]) <= hi
    {
      LettersWindow(offset, f[i]);
    }
    NoPairsCut(Letters, offset);
    ClusterMerges(Letters, DoubleA, offset, lo, mid, hi);
  }

  lemma LettersPages()
    ensures PageOk(Letters, [DoubleA], 0) && PageOk(Letters, [DoubleA], 1751) && PageOk(Letters, [DoubleA], 2901)
    ensures KeywordPage(Letters, [DoubleA], 0, 1180).nextOffset == Some(1751)
    ensures KeywordPage(Letters, [DoubleA], 1751, 1180).nextOffset == Some(2901)
    ensures KeywordPage(Letters, [DoubleA], 2901, 1180).nextOffset == None
    ensures KeywordPage(Letters, [DoubleA], 2901, 1180).sourceRanges == [Range(2901, 2999)]
  {
    hide Letters, DoubleA, KeywordPage, MergedWindows, Label, Crowds, Pending, WellFormed;
    LettersOk();
    NoPairsCut(Letters, 0);
    NoPairsCut(Letters, 1751);
    NoPairsCut(Letters, 2901);
    LettersMerged(0);
    LettersMerged(1751);
    LettersMerged(2901);
    LabelLength(Range(600, 3000));
    LabelLength(Range(1751, 3000));
    LabelLength(Range(2901, 2999));
    OneWindowPage(Letters, DoubleA, 0, 1180, 600, 3000);
    OneWindowPage(Letters, DoubleA, 1751, 1180, 1751, 3000);
    OneWindowPage(Letters, DoubleA, 2901, 1180, 2901, 2999);
  }

  /**
   * A hundred matches of "aa" from the start; the third page's search starts at the second of two hundred
   * letters, lists the odd places, and the last place of the last window is on no page.
   */
  lemma RunOfLettersLosesText()
    ensures WellFormed(Letters, [DoubleA]) && |Matches(DoubleA)| == 100
    ensures forall k: nat :: StandsAt([97, 97], Letters, k) <==> k in DoubleA.exact
    ensures 1698 in Matches(DoubleA) && InWindow(Letters, DoubleA, 1698, 2999)
    ensures !Shown(FollowKeyword(Letters, [DoubleA], 0, 1180), 2999)
  {
    hide Letters, KeywordPage, FollowKeyword, WindowStart, WindowEnd, Active, Shown;
    LettersOk();
    forall k: nat
      ensures StandsAt([97, 97], Letters, k) <==> k in DoubleA.exact
    {
      LettersAreReal(k);
    }
    ListedInLetters(0);
    assert Evens(1500, 100)[99] == 1698;
    LettersWindow(0, 1698);
    LettersPages();
    OnePage(Letters, [DoubleA], 2901, 1180);
    NotOnOnlyPage(KeywordPage(Letters, [DoubleA], 2901, 1180), 2999);
    LaterNotShown(Letters, [DoubleA], 1751, 1180, 2999);
    LaterNotShown(Letters, [DoubleA], 0, 1180, 2999);
  }

  // ---------------------------------------------------------------- a root inside longer words

  const Undecided: Text := [117, 110, 100, 101, 99, 105, 100, 101, 100, 32]   // "undecided "
  const Decide: Text := [100, 101, 99, 105, 100, 101, 32]                     // "decide "
  const Root: Text := [100, 101, 99, 105]                                     // "deci"

  /** "undecided " three hundred times, "decide " a hundred times, then blanks. */
  const Prose: Text :=
    seq(5700, (k: nat) => if k < 3000 then Undecided[k % 10] else if k < 3700 then Decide[(k - 3000) % 7] else 32)

  const ProseWords: seq<Range> :=
    seq(400, (i: nat) => if i < 300 then Range(10 * i, 10 * i + 9) else Range(3000 + 7 * (i - 300), 3006 + 7 * (i - 300)))

  const ProseRoots: set<nat> :=
    set k: nat | k < 5700 && ((k < 3000 && k % 10 == 2) || (3000 <= k < 3700 && (k - 3000) % 7 == 0))

  /** The token "decisions", which the text does not contain. */
  const Decisions: Token := Token(9, [], ProseWords, ProseRoots)

  function Sevens(count: nat): seq<nat> {
    seq(count, i => 3000 + 7 * i)
  }

  predicate IsLetter(u: Unit) {
    97 <= u <= 122
  }

  /** A run of letters between characters that are none. */
  predicate IsWord(text: Text, w: Range) {
    && w.start < w.end <= |text|
    && (forall k :: w.start <= k < w.end ==> IsLetter(text[k]))
    && (w.end < |text| ==> !IsLetter(text[w.end])) && (w.start > 0 ==> !IsLetter(text[w.start - 1]))
  }

  lemma WordsAreReal(i: nat)
    requires i < 400
    ensures IsWord(Prose, ProseWords[i])
  {
    var w := ProseWords[i];
    if i < 300 {
      forall k | w.start <= k < w.end
        ensures IsLetter(Prose[k])
      {
        assert k % 10 == k - 10 * i;
      }
    } else {
      forall k | w.start <= k < w.end
        ensures IsLetter(Prose[k])
      {
        assert (k - 3000) % 7 == k - w.start;
      }
      assert (w.end - 3000) % 7 == 6;
      assert w.start > 3000 ==> (w.start - 1 - 3000) % 7 == 6;
    }
  }

  predicate InSomeWord(words: seq<Range>, k: nat) {
    exists i :: 0 <= i < |words| && words[i].start <= k < words[i].end
  }

  lemma LettersAreInWords(k: nat)
    requires k < 5700 && IsLetter(Prose[k])
    ensures InSomeWord(ProseWords, k)
  {
    if k < 3000 {
      var i := k / 10;
      assert ProseWords[i] == Range(10 * i, 10 * i + 9);
    } else {
      var i := 300 + (k - 3000) / 7;
      assert ProseWords[i].start <= k < ProseWords[i].end;
    }
  }

  lemma FourOf(text: Text, word: Text, k: nat, d: nat)
    requires k + 4 <= |text| && d + 4 <= |word|
    requires text[k] == word[d] && text[k + 1] == word[d + 1] && text[k + 2] == word[d + 2] && text[k + 3] == word[d + 3]
    ensures text[k..k + 4] == word[d..d + 4]
  {
    assert text[k..k + 4] == [text[k], text[k + 1], text[k + 2], text[k + 3]] == word[d..d + 4];
  }

  lemma ProseLength()
    ensures |Prose| == 5700
  {
  }

  lemma InUndecided(i: nat, d: nat)
    requires i < 300 && d < 10
    ensures Prose[10 * i + d] == Undecided[d]
  {
    assert (10 * i + d) % 10 == d;
  }

  lemma InDecide(i: nat, d: nat)
    requires i < 100 && d < 7
    ensures Prose[3000 + 7 * i + d] == Decide[d]
  {
    assert (7 * i + d) % 7 == d;
  }

  lemma ReadsUndecided(i: nat, d: nat)
    requires i < 300 && d <= 4
    ensures Prose[10 * i + d..10 * i + d + 4] == Undecided[d..d + 4]
  {
    assert |Undecided| == 10 && |Prose| == 5700;
    hide Prose, Undecided;
    InUndecided(i, d);
    InUndecided(i, d + 1);
    InUndecided(i, d + 2);
    InUndecided(i, d + 3);
    FourOf(Prose, Undecided, 10 * i + d, d);
  }

  lemma ReadsDecide(i: nat, d: nat)
    requires i < 100 && d <= 1
    ensures Prose[3000 + 7 * i + d..3000 + 7 * i + d + 4] == Decide[d..d + 4]
  {
    assert |Decide| == 7 && |Prose| == 5700;
    hide Prose, Decide;
    InDecide(i, d);
    InDecide(i, d + 1);
    InDecide(i, d + 2);
    InDecide(i, d + 3);
    FourOf(Prose, Decide, 3000 + 7 * i + d, d);
  }

  lemma RootOfUndecided(d: nat)
    requires d <= 4
    ensures Undecided[d..d + 4] == Root <==> d == 2
  {
    assert Undecided[d..d + 4][0] == Undecided[d];
    assert Undecided[2..6] == Root;
  }

  lemma RootOfDecide(d: nat)
    requires d <= 1
    ensures Decide[d..d + 4] == Root <==> d == 0
  {
    assert Decide[d..d + 4][0] == Decide[d];
    assert Decide[0..4] == Root;
  }

  /** From here to the end of the word there are five letters or more, and the first four are the root. */
  predicate AtRoot(text: Text, w: Range, root: Text, k: nat) {
    k + 5 <= w.end <= |text| && text[k..k + 4] == root
  }

  lemma RootsAreReal(i: nat, k: nat)
    requires i < 400 && ProseWords[i].start <= k < ProseWords[i].end
    ensures k in ProseRoots <==> AtRoot(Prose, ProseWords[i], Root, k)
  {
    hide Prose, Undecided, Decide, Root;
    ProseLength();
    var d := k - ProseWords[i].start;
    if i < 300 {
      assert k % 10 == d;
      if d <= 4 {
        ReadsUndecided(i, d);
        RootOfUndecided(d);
      }
    } else {
      assert (k - 3000) % 7 == d;
      if d <= 1 {
        ReadsDecide(i - 300, d);
        RootOfDecide(d);
      }
    }
  }

  /** The surface form stands nowhere: the text has no "s". */
  lemma NoDecisions(word: Text, k: nat)
    requires 115 in word
    ensures !StandsAt(word, Prose, k)
  {
    var i :| 0 <= i < |word| && word[i] == 115;
    if k + |word| <= |Prose| {
      assert Prose[k..k + |word|][i] == Prose[k + i] && Prose[k + i] != 115;
    }
  }

  const DecisionsWord: Text := [100, 101, 99, 105, 115, 105, 111, 110, 115]   // "decisions"

  /** The token is that of "decisions" in this body: no place of the word itself, all words, and its roots in them. */
  lemma ProseIsReal()
    ensures |ProseWords| == 400 && |DecisionsWord| == Decisions.length && DecisionsWord[..4] == Root
    ensures forall k: nat :: !StandsAt(DecisionsWord, Prose, k)
    ensures forall i :: 0 <= i < 400 ==> IsWord(Prose, ProseWords[i])
    ensures forall k: nat :: k < |Prose| && IsLetter(Prose[k]) ==> InSomeWord(ProseWords, k)
    ensures forall i: nat, k: nat :: i < 400 && ProseWords[i].start <= k < ProseWords[i].end ==>
              (k in ProseRoots <==> AtRoot(Prose, ProseWords[i], Root, k))
  {
    hide Prose, ProseRoots, IsWord, InSomeWord, AtRoot, StandsAt, IsLetter;
    ProseOk();
    assert DecisionsWord[..4] == Root && DecisionsWord[4] == 115;
    forall k: nat ensures !StandsAt(DecisionsWord, Prose, k) { NoDecisions(DecisionsWord, k); }
    forall i: nat | i < 400 ensures IsWord(Prose, ProseWords[i]) { WordsAreReal(i); }
    forall k: nat | k < |Prose| && IsLetter(Prose[k]) ensures InSomeWord(ProseWords, k) { LettersAreInWords(k); }
    forall i: nat, k: nat | i < 400 && ProseWords[i].start <= k < ProseWords[i].end
      ensures k in ProseRoots <==> AtRoot(Prose, ProseWords[i], Root, k)
    {
      RootsAreReal(i, k);
    }
  }

  lemma ProseOk()
    ensures WellFormed(Prose, [Decisions]) && TokenOk(Prose, Decisions) && NoPairs(Prose) && |Prose| == 5700
  {
    assert forall k :: 0 <= k < 5700 ==> Prose[k] < 128;
    assert forall i, j :: 0 <= i < j < 400 ==> ProseWords[i].end < ProseWords[j].start;
  }

  lemma WordsOfProse(p: nat)
    ensures p in WordSearch(ProseWords, ProseRoots, 0) <==> p in Sevens(100)
  {
    WordMembers(ProseWords, ProseRoots, 0, p);
    if i :| 0 <= i < 400 && Enters(ProseWords[i], ProseRoots, 0, p) {
      assert i >= 300;
      assert Sevens(100)[i - 300] == p;
    }
    if p in Sevens(100) {
      var i :| 0 <= i < 100 && Sevens(100)[i] == p;
      assert Enters(ProseWords[300 + i], ProseRoots, 0, p);
    }
  }

  lemma ListedAtFirst()
    ensures WordSearch(ProseWords, ProseRoots, 0) == Sevens(100) && Matches(Decisions) == Sevens(100)
  {
    hide Prose, ProseWords, ProseRoots, WordSearch;
    ProseOk();
    WordSearchOk(Prose, Decisions, 0);
    forall p
      ensures p in WordSearch(ProseWords, ProseRoots, 0) <==> p in Sevens(100)
    {
      WordsOfProse(p);
    }
    SameMembers(WordSearch(ProseWords, ProseRoots, 0), Sevens(100));
    SearchNothing(0, 9);
  }

  lemma EntersUndecided()
    ensures EntersWord(ProseWords, ProseRoots, 2642) && !EntersWord(ProseWords, ProseRoots, 1671)
    ensures !EntersWord(ProseWords, ProseRoots, 4995) && !EntersWord(ProseWords, ProseRoots, 0)
  {
    assert ProseWords[264].start < 2642 < ProseWords[264].end;
  }

  lemma ListedInProse(start: nat)
    ensures start == 0 || start == 1671 ==> Active(Decisions, start) == Sevens(100)
    ensures start == 2642 ==> Active(Decisions, start) == [2642] + Sevens(100)
    ensures start == 4995 ==> Active(Decisions, start) == []
  {
    hide Prose, ProseWords, ProseRoots, WordSearch, EntersWord;
    ProseOk();
    ListedAtFirst();
    EntersUndecided();
    WordSearchLater(Prose, Decisions, start);
    SearchNothing(start, 9);
    if start <= 3000 { AllFrom(Sevens(100), start); }
    if start == 4995 { NoneFrom(Sevens(100), start); }
  }

  lemma NoneFrom(s: seq<nat>, start: nat)
    requires forall i :: 0 <= i < |s| ==> s[i] < start
    ensures From(s, start) == []
  {
    if s != [] { NoneFrom(s[1..], start); }
  }

  lemma ProseWindow(offset: nat, p: nat)
    requires p <= 4000
    ensures WindowEnd(Prose, Decisions, p) == p + 1309 && WindowStart(Prose, offset, p) == Clamp(Max(offset, p - 900), 0, 5700)
  {
    hide Prose, ProseWords, ProseRoots;
    ProseOk();
    NoPairsCut(Prose, p + 1309);
    NoPairsCut(Prose, Max(offset, p - 900));
  }

  lemma ProseMerged(offset: nat)
    requires offset == 0 || offset == 3071 || offset == 4042
    ensures MergedWindows(Prose, [Decisions], offset)
         == [Range(if offset == 0 then 2100 else offset, if offset == 4042 then 4995 else 5002)]
    ensures Crowds(Prose, Decisions, offset) <==> offset == 4042
  {
    hide Prose, Active, WindowStart, WindowEnd, ProseWords, ProseRoots, Decisions;
    ProseOk();
    ListedInProse(ScanStart(Prose, offset));
    var lo, hi := if offset == 0 then 2100 else offset, if offset == 4042 then 4995 else 5002;
    var f := Looked(Prose, Decisions, offset);
    assert f == if offset == 4042 then [2642] + Sevens(99) else Sevens(100) by {
      assert ([2642] + Sevens(100))[..100] == [2642] + Sevens(99);
    }
    var first := if offset == 4042 then 1 else 0;
    assert f[99] == (if offset == 4042 then 3686 else 3693) && f[first] == 3000;
    ProseWindow(offset, f[first]);
    ProseWindow(offset, f[99]);
    var mid := if offset == 0 then 3000 else offset;
    forall i | 0 <= i < |f| && WindowEnd(Prose, Decisions, f[i]) > offset
      ensures lo <= WindowStart(Prose, offset, f[i]) <= mid < WindowEnd(Prose, Decisions, f[i]) <= hi
    {
      ProseWindow(offset, f[i]);
    }
    NoPairsCut(Prose, offset);
    ClusterMerges(Prose, Decisions, offset, lo, mid, hi);
  }

  lemma ProsePages()
    ensures PageOk(Prose, [Decisions], 0) && PageOk(Prose, [Decisions], 3071) && PageOk(Prose, [Decisions], 4042)
    ensures KeywordPage(Prose, [Decisions], 0, 1001).nextOffset == Some(3071)
    ensures KeywordPage(Prose, [Decisions], 3071, 1001).nextOffset == Some(4042)
    ensures KeywordPage(Prose, [Decisions], 4042, 1001).nextOffset == None
    ensures KeywordPage(Prose, [Decisions], 4042, 1001).sourceRanges == [Range(4042, 4995)]
  {
    hide Prose, Decisions, ProseWords, ProseRoots, KeywordPage, MergedWindows, Label, Crowds, Pending, WellFormed, Active;
    ProseOk();
    NoPairsCut(Prose, 0);
    NoPairsCut(Prose, 3071);
    NoPairsCut(Prose, 4042);
    ProseMerged(0);
    ProseMerged(3071);
    ProseMerged(4042);
    LabelLength(Range(2100, 5002));
    LabelLength(Range(3071, 5002));
    LabelLength(Range(4042, 4995));
    OneWindowPage(Prose, Decisions, 0, 1001, 2100, 5002);
    OneWindowPage(Prose, Decisions, 3071, 1001, 3071, 5002);
    OneWindowPage(Prose, Decisions, 4042, 1001, 4042, 4995);
    ListedInProse(4995);
    PendingOne(Decisions, 4995);
  }

  /**
   * A hundred words of the root from the start; the third page's search starts inside "undecided", lists its
   * rest and no longer looks at the last of them, and the last seven places of its window are on no page.
   */
  lemma WordEnteredLosesText(x: nat)
    requires 4995 <= x < 5002
    ensures WellFormed(Prose, [Decisions]) && |Matches(Decisions)| == 100
    ensures 3693 in Matches(Decisions) && InWindow(Prose, Decisions, 3693, x)
    ensures !Shown(FollowKeyword(Prose, [Decisions], 0, 1001), x)
  {
    hide Prose, ProseWords, ProseRoots, Decisions, KeywordPage, FollowKeyword, WindowStart, WindowEnd, Active, Shown, Matches, WellFormed;
    ProseOk();
    ListedAtFirst();
    assert Sevens(100)[99] == 3693;
    ProseWindow(0, 3693);
    ProsePages();
    OnePage(Prose, [Decisions], 4042, 1001);
    NotOnOnlyPage(KeywordPage(Prose, [Decisions], 4042, 1001), x);
    LaterNotShown(Prose, [Decisions], 3071, 1001, x);
    LaterNotShown(Prose, [Decisions], 0, 1001, x);
  }
}
