/**
 * What a caller of buildRelevantExcerpt gets who starts at any offset and follows the cursor: the runs of the
 * public function are the ones the other modules speak about.
 */
module ExcerptCursor {
  import opened Basics
  import opened Utf16
  import opened TextBudget
  import opened Excerpt
  import opened ExcerptSearch
  import opened ExcerptPaging
  import opened ExcerptCoverage

  // ---------------------------------------------------------------- one page

  lemma FullEndIs(text: Text, offset: nat)
    requires offset <= |text| && !Splits(text, offset)
    ensures var page := FullPage(text, offset);
            var end := FullEnd(text, offset);
            && page == Page(text[offset..end], [Range(offset, end)], if end < |text| then Some(end) else None)
            && LongestPrefix(text[offset..], FullExcerptMaxBytes, end - offset)
  {
  }

  /** A page begins where it was asked to: a plain or full page exactly there, keyword windows there or behind it. */
  lemma PagesBeginAtTheOffset(text: Text, tokens: seq<Token>, offset: nat, maxChars: int, full: bool)
    requires WellFormed(text, tokens) && offset <= |text| && !Splits(text, offset)
    ensures var page := PageOf(text, tokens, offset, maxChars, full);
            && (full || tokens == [] ==>
                  && |page.sourceRanges| == 1 && page.sourceRanges[0].start == offset <= page.sourceRanges[0].end <= |text|
                  && page.text == text[offset..page.sourceRanges[0].end])
            && (!full && tokens != [] ==>
                  forall i :: 0 <= i < |page.sourceRanges| ==> page.sourceRanges[i].start >= offset)
  {
    hide KeywordPage, PlainEnd, FullEnd, WellFormed;
    if full {
      FullEndIs(text, offset);
    } else if tokens != [] {
      PageAscends(text, tokens, offset, maxChars);
    }
  }

  /** Any other offset is moved into the text and off the middle of a pair, to the left. */
  lemma OtherOffsetsAreMoved(text: Text, tokens: seq<Token>, offset: int, maxChars: int, full: bool)
    requires WellFormed(text, tokens)
    ensures offset < 0 ==> PageOf(text, tokens, offset, maxChars, full) == PageOf(text, tokens, 0, maxChars, full)
    ensures offset > |text| ==> PageOf(text, tokens, offset, maxChars, full) == PageOf(text, tokens, |text|, maxChars, full)
    ensures 0 <= offset <= |text| && Splits(text, offset) ==>
              !Splits(text, offset - 1)
              && PageOf(text, tokens, offset, maxChars, full) == PageOf(text, tokens, offset - 1, maxChars, full)
  {
    hide KeywordPage, PlainPage, FullPage, WellFormed;
  }

  /** A plain page is as long as asked for, less one character where it would split a pair. */
  lemma PlainPagesAreFilled(text: Text, offset: nat, maxChars: int)
    requires |text| < MaxStringLength && offset <= |text| && !Splits(text, offset) && 1000 <= maxChars <= 12000
    ensures var page := PageOf(text, [], offset, maxChars, false);
            if offset + maxChars >= |text| then page == Page(text[offset..], [Range(offset, |text|)], None)
            else
              var end := if Splits(text, offset + maxChars) then offset + maxChars - 1 else offset + maxChars;
              page == Page(text[offset..end], [Range(offset, end)], Some(end))
  {
  }

  /** A keyword page that goes on although no token was cut off at a hundred matches leaves at most 61 characters unused. */
  lemma KeywordPagesAreFilled(text: Text, tokens: seq<Token>, offset: nat, maxChars: int)
    requires WellFormed(text, tokens) && tokens != [] && offset <= |text| && !Splits(text, offset) && 1000 <= maxChars <= 12000
    requires PageOf(text, tokens, offset, maxChars, false).nextOffset.Some? && Capped(text, tokens, offset) == []
    ensures maxChars - 61 <= |PageOf(text, tokens, offset, maxChars, false).text| <= maxChars
  {
    hide KeywordPage, WellFormed, Capped;
    KeywordAdvances(text, tokens, offset, maxChars);
  }

  // ---------------------------------------------------------------- runs

  lemma CursorAdvances(text: Text, tokens: seq<Token>, offset: int, maxChars: int, full: bool)
    requires WellFormed(text, tokens)
    ensures var next := PageOf(text, tokens, offset, maxChars, full).nextOffset;
            next.Some? ==> SafeOffset(text, offset) < next.value < |text| && !Splits(text, next.value)
    ensures var next := PageOf(text, tokens, offset, maxChars, full).nextOffset;
            next.Some? ==> SafeOffset(text, next.value) == next.value
  {
    hide KeywordPage, WellFormed;
    KeywordAdvances(text, tokens, SafeOffset(text, offset), maxChars);
  }

  /** The pages of a caller who asks again at every next offset until there is none. */
  ghost function FollowPages(text: Text, tokens: seq<Token>, offset: int, maxChars: int, full: bool): seq<Page>
    requires WellFormed(text, tokens)
    decreases |text| - SafeOffset(text, offset)
  {
    var page := PageOf(text, tokens, offset, maxChars, full);
    CursorAdvances(text, tokens, offset, maxChars, full);
    [page] + if page.nextOffset.Some? then FollowPages(text, tokens, page.nextOffset.value, maxChars, full) else []
  }

  lemma {:induction false} FullRuns(text: Text, tokens: seq<Token>, offset: nat, maxChars: int)
    requires WellFormed(text, tokens) && offset <= |text| && !Splits(text, offset)
    ensures FollowPages(text, tokens, offset, maxChars, true) == FollowFull(text, offset)
    decreases |text| - offset
  {
    hide FullPage, WellFormed;
    CursorAdvances(text, tokens, offset, maxChars, true);
    var next := FullPage(text, offset).nextOffset;
    if next.Some? {
      FullRuns(text, tokens, next.value, maxChars);
    }
  }

  lemma {:induction false} PlainRuns(text: Text, offset: nat, maxChars: int)
    requires |text| < MaxStringLength && offset <= |text| && !Splits(text, offset)
    ensures FollowPages(text, [], offset, maxChars, false) == FollowPlain(text, offset, maxChars)
    decreases |text| - offset
  {
    hide PlainPage, KeywordPage;
    CursorAdvances(text, [], offset, maxChars, false);
    var next := PlainPage(text, offset, maxChars).nextOffset;
    if next.Some? {
      PlainRuns(text, next.value, maxChars);
    }
  }

  /** So what is proved about following keyword pages is about the public function. */
  lemma {:induction false} KeywordRuns(text: Text, tokens: seq<Token>, offset: nat, maxChars: int)
    requires WellFormed(text, tokens) && tokens != [] && offset <= |text| && !Splits(text, offset)
    ensures FollowPages(text, tokens, offset, maxChars, false) == FollowKeyword(text, tokens, offset, maxChars)
    decreases |text| - offset
  {
    hide KeywordPage, WellFormed;
    CursorAdvances(text, tokens, offset, maxChars, false);
    var next := KeywordPage(text, tokens, offset, maxChars).nextOffset;
    if next.Some? {
      KeywordRuns(text, tokens, next.value, maxChars);
    }
  }

  /** Without keywords, following the cursor from any offset returns the rest of the body, once and whole. */
  lemma PlainPagesAreTheBody(text: Text, offset: nat, maxChars: int)
    requires |text| < MaxStringLength && offset <= |text| && !Splits(text, offset)
    ensures var pages := FollowPages(text, [], offset, maxChars, false);
            && Tiles(pages, text, offset) && Concatenated(pages) == text[offset..]
            && forall page :: page in pages ==> |page.text| <= SafeMax(maxChars)
  {
    hide SafeMax;
    PlainRuns(text, offset, maxChars);
    FollowPlainTiles(text, offset, maxChars);
    TilesConcatenate(FollowPlain(text, offset, maxChars), text, offset);
  }

  /** So it does in full mode, whatever the query, each page being the longest of at most 45 KiB of UTF-8. */
  lemma FullPagesAreTheBody(text: Text, tokens: seq<Token>, offset: nat, maxChars: int)
    requires WellFormed(text, tokens) && offset <= |text| && !Splits(text, offset)
    ensures var pages := FollowPages(text, tokens, offset, maxChars, true);
            && Tiles(pages, text, offset) && Concatenated(pages) == text[offset..]
            && forall page :: page in pages ==> ByteLength(page.text) <= 46080
    ensures var page := PageOf(text, tokens, offset, maxChars, true);
            LongestPrefix(text[offset..], 46080, |page.text|)
  {
    hide WellFormed;
    FullRuns(text, tokens, offset, maxChars);
    FollowFullTiles(text, offset);
    TilesConcatenate(FollowFull(text, offset), text, offset);
    FullEndIs(text, offset);
  }

  // ---------------------------------------------------------------- labels

  /** What a decimal numeral denotes. */
  function Value(digits: Text): int {
    if digits == [] then 0 else 10 * Value(digits[..|digits| - 1]) + digits[|digits| - 1] - 48
  }

  predicate Numeral(digits: Text, n: nat) {
    && digits != [] && (forall i :: 0 <= i < |digits| ==> 48 <= digits[i] <= 57)
    && (digits[0] == 48 ==> |digits| == 1) && Value(digits) == n
  }

  lemma {:induction false} DigitsAreNumerals(n: nat)
    ensures Numeral(ExcerptPaging.Digits(n), n)
  {
    var d := ExcerptPaging.Digits(n);
    if n < 10 {
      assert d[..0] == [];
      assert Value([]) == 0;
    } else {
      DigitsAreNumerals(n / 10);
      assert d[..|d| - 1] == ExcerptPaging.Digits(n / 10);
      LeadingDigit(n / 10);
    }
  }

  lemma {:induction false} LeadingDigit(n: nat)
    requires n > 0
    ensures ExcerptPaging.Digits(n)[0] != 48
  {
    if n >= 10 {
      LeadingDigit(n / 10);
      assert ExcerptPaging.Digits(n)[0] == ExcerptPaging.Digits(n / 10)[0];
    }
  }

  /** The label of a range reads "[source characters", its two ends in decimal, and ends the line. */
  lemma LabelReads(r: Range) returns (start: Text, end: Text)
    ensures Numeral(start, r.start) && Numeral(end, r.end)
    ensures Label(r) == Units("[source characters ") + start + Units("-") + end + Units("]\n")
    ensures Between(true) == [] && Between(false) == Units("\n\n---\n\n")
  {
    start, end := ExcerptPaging.Digits(r.start), ExcerptPaging.Digits(r.end);
    DigitsAreNumerals(r.start);
    DigitsAreNumerals(r.end);
    hide Numeral, ExcerptPaging.Digits;
    assert LabelOpen == Units("[source characters ");
    assert Units("-") == [45] && LabelClose == Units("]\n");
  }

  // ---------------------------------------------------------------- windows

  /** Nine hundred characters before a match and thirteen hundred behind it, inside the text, a character less where a pair would be split. */
  lemma WindowsAround(text: Text, token: Token, offset: nat, p: nat)
    requires offset <= |text| && p <= |text|
    ensures var last := if p + token.length + 1300 <= |text| then p + token.length + 1300 else |text|;
            WindowEnd(text, token, p) == if Splits(text, last) then last - 1 else last
    ensures var first := if p >= 900 && p - 900 >= offset then p - 900 else offset;
            WindowStart(text, offset, p) == if Splits(text, first) then first - 1 else first
  {
  }

  /** Two windows are joined exactly if at most 240 characters lie between them. */
  lemma NearWindowsJoin(a: Range, b: Range)
    requires a.start <= a.end && b.start <= b.end && Before(a, b)
    ensures Merged([a, b]) == if b.start - a.end <= 240 then [Range(a.start, if a.end >= b.end then a.end else b.end)] else [a, b]
  {
    assert [a, b][..1] == [a];
  }

  // ---------------------------------------------------------------- several tokens

  /** Of the tokens cut off at a hundred matches, the next page begins at the earliest match of any that is left. */
  lemma {:induction false} PendingMeaning(capped: seq<Token>, from: nat)
    ensures Pending(capped, from).None? <==> forall i :: 0 <= i < |capped| ==> Active(capped[i], from) == []
    ensures forall i :: 0 <= i < |capped| && Active(capped[i], from) != [] ==>
              Pending(capped, from).Some? && Pending(capped, from).value <= Active(capped[i], from)[0]
    ensures Pending(capped, from).Some? ==>
              exists i :: 0 <= i < |capped| && Active(capped[i], from) != [] && Active(capped[i], from)[0] == Pending(capped, from).value
  {
    hide Active, Found;
    if capped != [] {
      var n := |capped| - 1;
      var before := capped[..n];
      PendingMeaning(before, from);
      FoundIsFirst(capped[n], from, 1);
      assert forall i :: 0 <= i < n ==> before[i] == capped[i];
      if Pending(before, from).Some? {
        var i :| 0 <= i < n && Active(before[i], from) != [] && Active(before[i], from)[0] == Pending(before, from).value;
        assert Active(capped[i], from)[0] == Pending(before, from).value;
      }
    }
  }

  /** Where no token has a match whose window reaches behind the offset, a query changes nothing. */
  lemma WithoutMatchesPlain(text: Text, tokens: seq<Token>, offset: nat, maxChars: int)
    requires WellFormed(text, tokens) && offset <= |text| && !Splits(text, offset)
    requires forall i :: 0 <= i < |tokens| ==> forall k :: 0 <= k < |Active(tokens[i], ScanStart(text, offset))| ==>
               WindowEnd(text, tokens[i], Active(tokens[i], ScanStart(text, offset))[k]) <= offset
    ensures PageOf(text, tokens, offset, maxChars, false) == PageOf(text, [], offset, maxChars, false)
  {
    hide PlainPage, WellFormed, WindowEnd, WindowStart, Active, EmitFrom;
    NoWindows(text, tokens, offset);
    SortKeepsLength(Windows(text, tokens, offset));
  }

  lemma {:induction false} NoWindows(text: Text, tokens: seq<Token>, offset: nat)
    requires forall i :: 0 <= i < |tokens| ==> forall k :: 0 <= k < |Active(tokens[i], ScanStart(text, offset))| ==>
               WindowEnd(text, tokens[i], Active(tokens[i], ScanStart(text, offset))[k]) <= offset
    ensures Windows(text, tokens, offset) == []
  {
    hide WindowEnd, WindowStart, Active, Found;
    if tokens != [] {
      var n := |tokens| - 1;
      assert forall i :: 0 <= i < n ==> tokens[..n][i] == tokens[i];
      NoWindows(text, tokens[..n], offset);
      FoundIsFirst(tokens[n], ScanStart(text, offset), 101);
      NoWindowsOf(text, tokens[n], offset, FirstFew(Found(tokens[n], ScanStart(text, offset), 101), 100));
    }
  }

  lemma {:induction false} NoWindowsOf(text: Text, token: Token, offset: nat, positions: seq<nat>)
    requires forall k :: 0 <= k < |positions| ==> WindowEnd(text, token, positions[k]) <= offset
    ensures WindowsOf(text, token, offset, positions) == []
  {
    hide WindowEnd, WindowStart;
    if positions != [] {
      NoWindowsOf(text, token, offset, positions[..|positions| - 1]);
    }
  }
}
