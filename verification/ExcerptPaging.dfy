/** buildRelevantExcerpt page by page: termination, sizes, and nothing left out. */
module ExcerptPaging {
  import opened Basics
  import opened Utf16
  import opened TextBudget
  import opened Excerpt
  import opened ExcerptSearch

  // ---------------------------------------------------------------- labels

  function Digits(n: nat): Text {
    if n < 10 then [48 + n] else Digits(n / 10) + [48 + n % 10]
  }

  function Pow10(k: nat): nat {
    if k == 0 then 1 else 10 * Pow10(k - 1)
  }

  lemma {:induction false} DigitsBound(n: nat, k: nat)
    requires n < Pow10(k) && k >= 1
    ensures 1 <= |Digits(n)| <= k
    decreases k
  {
    if n >= 10 {
      DigitsBound(n / 10, k - 1);
    }
  }

  const LabelOpen: Text := [91, 115, 111, 117, 114, 99, 101, 32, 99, 104, 97, 114, 97, 99, 116, 101, 114, 115, 32]   // "[source characters "
  const LabelClose: Text := [93, 10]                                                     // "]\n"
  const Divider: Text := [10, 10, 45, 45, 45, 10, 10]                                    // "\n\n---\n\n"

  function Label(r: Range): Text {
    LabelOpen + Digits(r.start) + [45] + Digits(r.end) + LabelClose
  }

  lemma LabelShort(r: Range)
    requires r.start <= r.end < MaxStringLength
    ensures |Label(r)| <= 54
  {
    assert Pow10(16) == 10_000_000_000_000_000 by {
      assert Pow10(4) == 10_000;
      assert Pow10(8) == 100_000_000;
      assert Pow10(12) == 1_000_000_000_000;
    }
    DigitsBound(r.start, 16);
    DigitsBound(r.end, 16);
  }

  // ---------------------------------------------------------------- options

  function SafeOffset(text: Text, offset: int): (o: nat)
    ensures o <= |text| && !Splits(text, o)
    ensures 0 <= offset <= |text| ==> o == if Splits(text, offset) then offset - 1 else offset
    ensures (offset < 0 ==> o == 0) && (offset > |text| ==> o == |text|)
  {
    AvoidSplitSurrogate(text, Clamp(offset, 0, |text|))
  }

  function SafeMax(maxChars: int): (m: nat)
    ensures 1000 <= m <= 12000 && (1000 <= maxChars <= 12000 ==> m == maxChars)
    ensures maxChars == 0 ==> m == 8000
    ensures (maxChars < 1000 && maxChars != 0 ==> m == 1000) && (maxChars > 12000 ==> m == 12000)
  {
    Clamp(if maxChars == 0 then 8000 else maxChars, 1000, 12000)
  }

  // ---------------------------------------------------------------- plain pages

  function PlainEnd(text: Text, offset: nat, maxChars: int): (e: nat)
    requires offset <= |text| && !Splits(text, offset)
    ensures offset <= e <= |text| && e - offset <= SafeMax(maxChars) && !Splits(text, e)
    ensures offset < |text| ==> offset < e
    ensures e < |text| ==> e - offset >= SafeMax(maxChars) - 1
  {
    AvoidSplitSurrogate(text, Min(|text|, offset + SafeMax(maxChars)))
  }

  function PageTo(text: Text, offset: nat, end: nat): Page
    requires offset <= end <= |text|
  {
    Page(text[offset..end], [Range(offset, end)], if end < |text| then Some(end) else None)
  }

  function PlainPage(text: Text, offset: nat, maxChars: int): Page
    requires offset <= |text| && !Splits(text, offset)
  {
    PageTo(text, offset, PlainEnd(text, offset, maxChars))
  }

  // ---------------------------------------------------------------- keyword pages

  /** What the emission loop has produced. */
  datatype Emission = Emission(output: Text, included: seq<Range>, next: Option<nat>)

  function Room(safeMax: nat, used: nat, first: bool, r: Range): int {
    safeMax - used - |Label(r)| - |Between(first)|
  }

  function Between(first: bool): Text {
    if first then [] else Divider
  }

  function Piece(text: Text, first: bool, r: Range, take: nat): Text
    requires r.start + take <= |text|
  {
    Between(first) + Label(r) + text[r.start..r.start + take]
  }

  predicate InText(text: Text, merged: seq<Range>) {
    forall i :: 0 <= i < |merged| ==> merged[i].start <= merged[i].end <= |text|
  }

  function TakeOf(text: Text, r: Range, room: int): (take: nat)
    requires r.start <= r.end <= |text|
    ensures take <= r.end - r.start && (room >= 0 ==> take <= room)
  {
    AvoidSplitSurrogate(text[r.start..r.end], Min(r.end - r.start, room))
  }

  /** The ranges from the i-th on, as long as the page has room. */
  function EmitFrom(text: Text, merged: seq<Range>, i: nat, safeMax: nat, done: Emission): Emission
    requires i <= |merged| && InText(text, merged)
    decreases |merged| - i
  {
    if i == |merged| then done
    else
      var r := merged[i];
      var room := Room(safeMax, |done.output|, i == 0, r);
      if room <= 0 then done.(next := Some(r.start))
      else
        var take := TakeOf(text, r, room);
        var more := Emission(done.output + Piece(text, i == 0, r, take), done.included + [Range(r.start, r.start + take)], None);
        if take < r.end - r.start then more.(next := Some(r.start + take))
        else EmitFrom(text, merged, i + 1, safeMax, more)
  }

  function CoveredEnd(included: seq<Range>, offset: nat): (e: nat)
    ensures e >= offset && forall i :: 0 <= i < |included| ==> included[i].end <= e
  {
    if included == [] then offset
    else
      var n := |included| - 1;
      var e := CoveredEnd(included[..n], offset);
      assert forall i :: 0 <= i < n ==> included[..n][i] == included[i];
      Max(e, included[n].end)
  }

  /** The first later match of any capped token. */
  function Pending(capped: seq<Token>, from: nat): Option<nat> {
    if capped == [] then None
    else
      var rest := Pending(capped[..|capped| - 1], from);
      var found := Found(capped[|capped| - 1], from, 1);
      if found == [] then rest
      else if rest.None? then Some(found[0])
      else Some(Min(rest.value, found[0]))
  }

  function MergedWindows(text: Text, tokens: seq<Token>, offset: nat): seq<Range> {
    Merged(SortRanges(Windows(text, tokens, offset)))
  }

  function Finish(text: Text, tokens: seq<Token>, offset: nat, e: Emission): Page {
    var capped := Capped(text, tokens, offset);
    var next :=
      if e.next.None? && capped != [] then Pending(capped, CoveredEnd(e.included, offset)) else e.next;
    Page(e.output, e.included, next)
  }

  // ---------------------------------------------------------------- the windows of a page

  ghost predicate WindowsOk(text: Text, offset: nat, ranges: seq<Range>) {
    forall k :: 0 <= k < |ranges| ==>
      && offset <= ranges[k].start < ranges[k].end <= |text|
      && !Splits(text, ranges[k].start) && !Splits(text, ranges[k].end)
  }

  lemma WindowOk(text: Text, token: Token, offset: nat, p: nat)
    requires offset <= |text| && !Splits(text, offset) && token.length >= 2 && p < |text| && !Splits(text, p)
    requires WindowEnd(text, token, p) > offset
    ensures offset <= WindowStart(text, offset, p) < WindowEnd(text, token, p)
  {
  }

  lemma FoundOk(text: Text, token: Token, start: nat, limit: nat)
    requires TokenOk(text, token)
    ensures PositionsOk(text, Found(token, start, limit))
    ensures forall i :: 0 <= i < |Found(token, start, limit)| ==> Found(token, start, limit)[i] >= start
  {
    hide Splits;
    SearchOk(text, token, start);
    WordSearchOk(text, token, start);
    hide Search, WordSearch, TokenOk;
  }

  lemma {:induction false} WindowsOfOk(text: Text, token: Token, offset: nat, positions: seq<nat>)
    requires offset <= |text| && !Splits(text, offset) && token.length >= 2 && PositionsOk(text, positions)
    ensures WindowsOk(text, offset, WindowsOf(text, token, offset, positions))
  {
    if positions != [] {
      var n := |positions| - 1;
      assert forall i :: 0 <= i < n ==> positions[..n][i] == positions[i];
      WindowsOfOk(text, token, offset, positions[..n]);
      if WindowEnd(text, token, positions[n]) > offset {
        WindowOk(text, token, offset, positions[n]);
      }
    }
  }

  lemma {:induction false} WindowsAllOk(text: Text, tokens: seq<Token>, offset: nat)
    requires offset <= |text| && !Splits(text, offset) && WellFormed(text, tokens)
    ensures WindowsOk(text, offset, Windows(text, tokens, offset))
  {
    if tokens != [] {
      var n := |tokens| - 1;
      assert forall i :: 0 <= i < n ==> tokens[..n][i] == tokens[i];
      WindowsAllOk(text, tokens[..n], offset);
      FoundOk(text, tokens[n], ScanStart(text, offset), 101);
      WindowsOfOk(text, tokens[n], offset, FirstFew(Found(tokens[n], ScanStart(text, offset), 101), 100));
    }
  }

  lemma SortOk(text: Text, offset: nat, ranges: seq<Range>)
    requires WindowsOk(text, offset, ranges)
    ensures WindowsOk(text, offset, SortRanges(ranges)) && Proper(SortRanges(ranges))
    ensures forall r :: r in ranges <==> r in SortRanges(ranges)
  {
    var t := SortRanges(ranges);
    forall r
      ensures r in ranges <==> r in t
    {
      assert r in ranges <==> r in multiset(ranges);
      assert r in t <==> r in multiset(t);
    }
    forall k | 0 <= k < |t|
      ensures offset <= t[k].start < t[k].end <= |text| && !Splits(text, t[k].start) && !Splits(text, t[k].end)
    {
      assert t[k] in t;
    }
  }

  lemma MergedRangesOk(text: Text, offset: nat, m: seq<Range>, sorted: seq<Range>)
    requires Apart(m) && EndsFrom(m, sorted) && WindowsOk(text, offset, sorted)
    ensures WindowsOk(text, offset, m) && InText(text, m)
  {
    forall k | 0 <= k < |m|
      ensures offset <= m[k].start < m[k].end <= |text| && !Splits(text, m[k].start) && !Splits(text, m[k].end)
    {
      assert StartsIn(m[k].start, sorted) && EndsIn(m[k].end, sorted);
      var a :| 0 <= a < |sorted| && sorted[a].start == m[k].start;
      var b :| 0 <= b < |sorted| && sorted[b].end == m[k].end;
    }
  }

  lemma MergedWindowsOk(text: Text, tokens: seq<Token>, offset: nat)
    requires offset <= |text| && !Splits(text, offset) && WellFormed(text, tokens)
    ensures var m := MergedWindows(text, tokens, offset);
            && Apart(m) && WindowsOk(text, offset, m) && InText(text, m)
            && Holds(m, SortRanges(Windows(text, tokens, offset)))
  {
    hide Windows, SortRanges, Merged, Holds, WindowsOk, InText, Apart, Splits, WellFormed, EndsFrom, Justified, Proper, SortedRanges;
    WindowsAllOk(text, tokens, offset);
    var ranges := Windows(text, tokens, offset);
    SortOk(text, offset, ranges);
    var sorted := SortRanges(ranges);
    MergedMeaning(sorted);
    MergedRangesOk(text, offset, Merged(sorted), sorted);
  }

  function KeywordPage(text: Text, tokens: seq<Token>, offset: nat, maxChars: int): Page
    requires offset <= |text| && !Splits(text, offset) && WellFormed(text, tokens)
  {
    MergedWindowsOk(text, tokens, offset);
    var merged := MergedWindows(text, tokens, offset);
    if merged == [] then PlainPage(text, offset, maxChars)
    else Finish(text, tokens, offset, EmitFrom(text, merged, 0, SafeMax(maxChars), Emission([], [], None)))
  }

  // ---------------------------------------------------------------- what the emission loop leaves out

  /** Everything before the j-th range is out in full, and of the j-th what lies before `q`. */
  ghost predicate CutAt(merged: seq<Range>, included: seq<Range>, j: nat, q: nat) {
    && j < |merged| && merged[j].start <= q < merged[j].end
    && j <= |included| <= j + 1 && included[..j] == merged[..j]
    && (if |included| == j then q == merged[j].start else included[j] == Range(merged[j].start, q))
  }

  lemma PieceLength(text: Text, first: bool, r: Range, take: nat)
    requires r.start + take <= |text|
    ensures |Piece(text, first, r, take)| == |Between(first)| + |Label(r)| + take
  {
  }

  lemma TakeSafe(text: Text, r: Range, room: int)
    requires r.start <= r.end <= |text| && !Splits(text, r.start) && room > 0
    ensures !Splits(text, r.start + TakeOf(text, r, room)) || TakeOf(text, r, room) == r.end - r.start
    ensures room > 1 && r.start < r.end ==> TakeOf(text, r, room) > 0
    ensures TakeOf(text, r, room) < r.end - r.start ==> TakeOf(text, r, room) >= room - 1
  {
  }

  lemma StepFacts(text: Text, r: Range, first: bool, safeMax: nat, used: nat)
    requires r.start < r.end <= |text| < MaxStringLength && !Splits(text, r.start) && used <= safeMax
    ensures first && used == 0 && safeMax >= 1000 ==> Room(safeMax, used, first, r) > 1
    ensures var room := Room(safeMax, used, first, r);
            room > 0 ==>
              var take := TakeOf(text, r, room);
              && used + |Piece(text, first, r, take)| <= safeMax
              && (take < r.end - r.start ==> !Splits(text, r.start + take))
              && (room > 1 ==> take > 0)
              && (take < r.end - r.start ==> used + |Piece(text, first, r, take)| >= safeMax - 1)
    ensures Room(safeMax, used, first, r) <= 0 ==> used + 61 >= safeMax
  {
    LabelShort(r);
    var room := Room(safeMax, used, first, r);
    if room > 0 {
      TakeSafe(text, r, room);
      PieceLength(text, first, r, TakeOf(text, r, room));
    }
  }

  lemma RangeOk(text: Text, offset: nat, merged: seq<Range>, i: nat)
    requires WindowsOk(text, offset, merged) && i < |merged|
    ensures offset <= merged[i].start < merged[i].end <= |text| && !Splits(text, merged[i].start)
  {
  }

  lemma StopsAt(merged: seq<Range>, i: nat, take: nat)
    requires i < |merged| && merged[i].start + take < merged[i].end
    ensures CutAt(merged, merged[..i], i, merged[i].start)
    ensures CutAt(merged, merged[..i] + [Range(merged[i].start, merged[i].start + take)], i, merged[i].start + take)
  {
  }

  function Longer(text: Text, merged: seq<Range>, i: nat, done: Emission, take: nat): Emission
    requires i < |merged| && merged[i].start + take <= |text|
  {
    var r := merged[i];
    Emission(done.output + Piece(text, i == 0, r, take), done.included + [Range(r.start, r.start + take)], None)
  }

  /** How the emission loop may end when it is entered at the i-th range. */
  ghost predicate Outcome(text: Text, merged: seq<Range>, i: nat, safeMax: nat, e: Emission, j: nat) {
    && |e.output| <= safeMax
    && (e.next.None? ==> e.included == merged)
    && (e.next.Some? ==>
          && j >= i && CutAt(merged, e.included, j, e.next.value) && !Splits(text, e.next.value)
          && (j == 0 ==> merged[0].start < e.next.value)
          && |e.output| + 61 >= safeMax)
  }

  lemma EmitUnfold(text: Text, merged: seq<Range>, i: nat, safeMax: nat, done: Emission)
    requires i < |merged| && InText(text, merged)
    ensures var r := merged[i];
            var room := Room(safeMax, |done.output|, i == 0, r);
            EmitFrom(text, merged, i, safeMax, done)
            == if room <= 0 then done.(next := Some(r.start))
               else
                 var take := TakeOf(text, r, room);
                 if take < r.end - r.start then Longer(text, merged, i, done, take).(next := Some(r.start + take))
                 else EmitFrom(text, merged, i + 1, safeMax, Longer(text, merged, i, done, take))
  {
  }

  /** What holds when the loop reaches the i-th range. */
  ghost predicate Ready(merged: seq<Range>, i: nat, safeMax: nat, done: Emission) {
    i <= |merged| && done.next == None && done.included == merged[..i] && |done.output| <= safeMax && (i == 0 ==> done.output == [])
  }

  lemma ReadyIn(merged: seq<Range>, i: nat, safeMax: nat, done: Emission)
    requires Ready(merged, i, safeMax, done)
    ensures i <= |merged|
  {
  }

  ghost predicate GoesOn(text: Text, merged: seq<Range>, i: nat, safeMax: nat, done: Emission)
    requires i < |merged| && InText(text, merged)
  {
    var r := merged[i];
    var room := Room(safeMax, |done.output|, i == 0, r);
    room > 0 && TakeOf(text, r, room) == r.end - r.start
  }

  lemma EmitStops(text: Text, merged: seq<Range>, offset: nat, i: nat, safeMax: nat, done: Emission)
    requires InText(text, merged) && WindowsOk(text, offset, merged) && safeMax >= 1000 && |text| < MaxStringLength
    requires Ready(merged, i, safeMax, done) && i < |merged| && !GoesOn(text, merged, i, safeMax, done)
    ensures Outcome(text, merged, i, safeMax, EmitFrom(text, merged, i, safeMax, done), i)
  {
    hide Label, TakeOf, Piece, Room, WindowsOk, Splits, CutAt, InText, EmitFrom, Between;
    var r := merged[i];
    RangeOk(text, offset, merged, i);
    StepFacts(text, r, i == 0, safeMax, |done.output|);
    EmitUnfold(text, merged, i, safeMax, done);
    var room := Room(safeMax, |done.output|, i == 0, r);
    StopsAt(merged, i, if room <= 0 then 0 else TakeOf(text, r, room));
  }

  ghost function NextDone(text: Text, merged: seq<Range>, i: nat, safeMax: nat, done: Emission): Emission
    requires i < |merged| && InText(text, merged)
  {
    Longer(text, merged, i, done, merged[i].end - merged[i].start)
  }

  lemma StillReady(text: Text, merged: seq<Range>, offset: nat, i: nat, safeMax: nat, done: Emission)
    requires InText(text, merged) && WindowsOk(text, offset, merged) && |text| < MaxStringLength
    requires Ready(merged, i, safeMax, done) && i < |merged| && GoesOn(text, merged, i, safeMax, done)
    ensures Ready(merged, i + 1, safeMax, NextDone(text, merged, i, safeMax, done))
  {
    var r := merged[i];
    RangeOk(text, offset, merged, i);
    StepFacts(text, r, i == 0, safeMax, |done.output|);
    assert merged[..i] + [Range(r.start, r.start + (r.end - r.start))] == merged[..i + 1];
  }

  lemma EmitContinues(text: Text, merged: seq<Range>, i: nat, safeMax: nat, done: Emission)
    requires InText(text, merged) && i < |merged| && GoesOn(text, merged, i, safeMax, done)
    ensures EmitFrom(text, merged, i, safeMax, done)
            == EmitFrom(text, merged, i + 1, safeMax, NextDone(text, merged, i, safeMax, done))
  {
    hide Label, TakeOf, Piece, Room, Splits, EmitFrom;
    EmitUnfold(text, merged, i, safeMax, done);
  }

  lemma EmitEnds(text: Text, merged: seq<Range>, safeMax: nat, done: Emission)
    requires InText(text, merged) && Ready(merged, |merged|, safeMax, done)
    ensures Outcome(text, merged, |merged|, safeMax, EmitFrom(text, merged, |merged|, safeMax, done), |merged|)
  {
    assert merged[..|merged|] == merged;
  }

  lemma OutcomeEarlier(text: Text, merged: seq<Range>, i: nat, safeMax: nat, e: Emission, j: nat)
    requires Outcome(text, merged, i + 1, safeMax, e, j)
    ensures Outcome(text, merged, i, safeMax, e, j)
  {
  }

  /** The loop stops at the end, or at a place inside one range that the next page can start from. */
  lemma {:induction false} EmitMeaning(text: Text, merged: seq<Range>, offset: nat, i: nat, safeMax: nat, done: Emission) returns (j: nat)
    requires InText(text, merged) && WindowsOk(text, offset, merged) && safeMax >= 1000 && |text| < MaxStringLength
    requires Ready(merged, i, safeMax, done)
    ensures Outcome(text, merged, i, safeMax, EmitFrom(text, merged, i, safeMax, done), j)
    decreases |merged| - i
  {
    hide *;
    ReadyIn(merged, i, safeMax, done);
    if i == |merged| {
      EmitEnds(text, merged, safeMax, done);
      j := i;
    } else if GoesOn(text, merged, i, safeMax, done) {
      EmitContinues(text, merged, i, safeMax, done);
      StillReady(text, merged, offset, i, safeMax, done);
      j := EmitMeaning(text, merged, offset, i + 1, safeMax, NextDone(text, merged, i, safeMax, done));
      OutcomeEarlier(text, merged, i, safeMax, EmitFrom(text, merged, i, safeMax, done), j);
    } else {
      EmitStops(text, merged, offset, i, safeMax, done);
      j := i;
    }
  }

  /** The page's text in terms of its source ranges: labelled slices of the body, divided. */
  function Rendered(text: Text, merged: seq<Range>, included: seq<Range>): Text
    requires |included| <= |merged| && InText(text, included)
  {
    if included == [] then []
    else
      var n := |included| - 1;
      assert forall i :: 0 <= i < n ==> included[..n][i] == included[i];
      Rendered(text, merged, included[..n])
      + (Between(n == 0) + Label(merged[n]) + text[included[n].start..included[n].end])
  }

  ghost predicate Shows(text: Text, merged: seq<Range>, e: Emission) {
    |e.included| <= |merged| && InText(text, e.included) && e.output == Rendered(text, merged, e.included)
  }

  lemma LongerShows(text: Text, merged: seq<Range>, i: nat, done: Emission, take: nat)
    requires i < |merged| && InText(text, merged) && take <= merged[i].end - merged[i].start
    requires Shows(text, merged, done) && |done.included| == i
    ensures Shows(text, merged, Longer(text, merged, i, done, take))
  {
    hide Label;
    var e := Longer(text, merged, i, done, take);
    assert e.included[..i] == done.included;
  }

  /** What a page shows is exactly its source ranges, each under the label of the window it begins. */
  lemma {:induction false} EmissionShows(text: Text, merged: seq<Range>, i: nat, safeMax: nat, done: Emission)
    requires i <= |merged| && InText(text, merged) && Shows(text, merged, done) && |done.included| == i
    ensures Shows(text, merged, EmitFrom(text, merged, i, safeMax, done))
    decreases |merged| - i
  {
    hide Label, Rendered, Longer, Room, TakeOf, EmitFrom;
    if i == |merged| {
      EmitNothing(text, merged, safeMax, done);
    } else {
      EmitUnfold(text, merged, i, safeMax, done);
      var r := merged[i];
      var room := Room(safeMax, |done.output|, i == 0, r);
      if room > 0 {
        var take := TakeOf(text, r, room);
        LongerShows(text, merged, i, done, take);
        LongerLength(text, merged, i, done, take);
        if take == r.end - r.start {
          EmissionShows(text, merged, i + 1, safeMax, Longer(text, merged, i, done, take));
        }
      }
    }
  }

  lemma LongerLength(text: Text, merged: seq<Range>, i: nat, done: Emission, take: nat)
    requires i < |merged| && merged[i].start + take <= |text|
    ensures |Longer(text, merged, i, done, take).included| == |done.included| + 1
  {
  }

  /** The page's text is its source ranges, and nothing else of the body. */
  lemma KeywordPageShows(text: Text, tokens: seq<Token>, offset: nat, maxChars: int)
    requires offset <= |text| && !Splits(text, offset) && WellFormed(text, tokens)
    ensures var m := MergedWindows(text, tokens, offset);
            var page := KeywordPage(text, tokens, offset, maxChars);
            && InText(text, page.sourceRanges)
            && (m == [] ==> |page.sourceRanges| == 1 && page.text == text[page.sourceRanges[0].start..page.sourceRanges[0].end])
            && (m != [] ==> |page.sourceRanges| <= |m| && page.text == Rendered(text, m, page.sourceRanges))
  {
    hide EmitFrom, Rendered, Windows, SortRanges;
    MergedWindowsOk(text, tokens, offset);
    var m := MergedWindows(text, tokens, offset);
    if m != [] {
      var start := Emission([], [], None);
      assert Shows(text, m, start) by { NothingRendered(text, m); }
      EmissionShows(text, m, 0, SafeMax(maxChars), start);
    }
  }

  lemma NothingRendered(text: Text, merged: seq<Range>)
    ensures Rendered(text, merged, []) == []
  {
  }

  // ---------------------------------------------------------------- every page moves on

  lemma {:induction false} PendingOk(text: Text, tokens: seq<Token>, capped: seq<Token>, from: nat)
    requires WellFormed(text, tokens) && forall i :: 0 <= i < |capped| ==> capped[i] in tokens
    ensures Pending(capped, from).Some? ==>
              from <= Pending(capped, from).value < |text| && !Splits(text, Pending(capped, from).value)
  {
    if capped != [] {
      var n := |capped| - 1;
      assert forall i :: 0 <= i < n ==> capped[..n][i] == capped[i];
      PendingOk(text, tokens, capped[..n], from);
      assert capped[n] in tokens;
      FoundOk(text, capped[n], from, 1);
    }
  }

  lemma {:induction false} CappedIn(text: Text, tokens: seq<Token>, offset: nat)
    ensures forall i :: 0 <= i < |Capped(text, tokens, offset)| ==> Capped(text, tokens, offset)[i] in tokens
  {
    if tokens != [] {
      CappedIn(text, tokens[..|tokens| - 1], offset);
    }
  }

  /** The next offset lies strictly between this one and the end, and starts on a character. */
  predicate Advances(text: Text, offset: nat, next: Option<nat>) {
    next.Some? ==> offset < next.value < |text| && !Splits(text, next.value)
  }

  lemma KeywordAdvances(text: Text, tokens: seq<Token>, offset: nat, maxChars: int)
    requires offset <= |text| && !Splits(text, offset) && WellFormed(text, tokens)
    ensures Advances(text, offset, KeywordPage(text, tokens, offset, maxChars).nextOffset)
    ensures |KeywordPage(text, tokens, offset, maxChars).text| <= SafeMax(maxChars)
    ensures KeywordPage(text, tokens, offset, maxChars).nextOffset.Some? && Capped(text, tokens, offset) == [] ==>
              |KeywordPage(text, tokens, offset, maxChars).text| + 61 >= SafeMax(maxChars)
  {
    var merged := MergedWindows(text, tokens, offset);
    MergedWindowsOk(text, tokens, offset);
    if merged != [] {
      var safeMax := SafeMax(maxChars);
      var e := EmitFrom(text, merged, 0, safeMax, Emission([], [], None));
      var j := EmitMeaning(text, merged, offset, 0, safeMax, Emission([], [], None));
      RangeOk(text, offset, merged, 0);
      if e.next.Some? {
        RangeOk(text, offset, merged, j);
        assert j > 0 ==> merged[0].end + Gap < merged[j].start;
      } else {
        CappedIn(text, tokens, offset);
        assert e.included[0].end <= CoveredEnd(e.included, offset);
        PendingOk(text, tokens, Capped(text, tokens, offset), CoveredEnd(e.included, offset));
      }
    }
  }

  // ---------------------------------------------------------------- full pages

  lemma SomePrefix(text: Text, maxBytes: nat)
    ensures exists take: int :: LongestPrefix(text, maxBytes, take)
  {
    var take := LongestPrefixExists(text, maxBytes);
  }

  lemma FirstCharacterFits(text: Text, maxBytes: nat, take: nat)
    requires text != [] && maxBytes >= 4 && LongestPrefix(text, maxBytes, take)
    ensures take > 0
  {
    var w := Width(text);
    var first := text[..w];
    assert !Splits(text, w) by {
      if w == 2 { assert IsLow(text[1]); }
    }
    assert Splits(first, 1) <==> Splits(text, 1);
    assert Width(first) == w && first[w..] == [];
    assert Encode(first) == EncodeFirst(first) + Encode([]);
    assert ByteLength(first) <= 4;
  }

  lemma CutBehind(text: Text, offset: nat, take: nat)
    requires offset <= |text| && !Splits(text, offset) && take <= |text| - offset && !Splits(text[offset..], take)
    ensures !Splits(text, offset + take)
  {
    if 0 < take < |text| - offset {
      assert text[offset..][take - 1] == text[offset + take - 1] && text[offset..][take] == text[offset + take];
    }
  }

  ghost function FullEnd(text: Text, offset: nat): (e: nat)
    requires offset <= |text| && !Splits(text, offset)
    ensures offset <= e <= |text| && LongestPrefix(text[offset..], FullExcerptMaxBytes, e - offset)
    ensures !Splits(text, e) && (offset < |text| ==> offset < e)
  {
    SomePrefix(text[offset..], FullExcerptMaxBytes);
    var take :| LongestPrefix(text[offset..], FullExcerptMaxBytes, take);
    CutBehind(text, offset, take);
    if offset < |text| then
      FirstCharacterFits(text[offset..], FullExcerptMaxBytes, take);
      offset + take
    else offset + take
  }

  ghost function FullPage(text: Text, offset: nat): Page
    requires offset <= |text| && !Splits(text, offset)
  {
    PageTo(text, offset, FullEnd(text, offset))
  }

  // ---------------------------------------------------------------- following the pages

  function FollowPlain(text: Text, offset: nat, maxChars: int): seq<Page>
    requires offset <= |text| && !Splits(text, offset)
    decreases |text| - offset
  {
    var page := PlainPage(text, offset, maxChars);
    [page] + if page.nextOffset.Some? then FollowPlain(text, page.nextOffset.value, maxChars) else []
  }

  function FollowKeyword(text: Text, tokens: seq<Token>, offset: nat, maxChars: int): seq<Page>
    requires offset <= |text| && !Splits(text, offset) && WellFormed(text, tokens)
    decreases |text| - offset
  {
    var page := KeywordPage(text, tokens, offset, maxChars);
    KeywordAdvances(text, tokens, offset, maxChars);
    [page] + if page.nextOffset.Some? then FollowKeyword(text, tokens, page.nextOffset.value, maxChars) else []
  }

  ghost function FollowFull(text: Text, offset: nat): seq<Page>
    requires offset <= |text| && !Splits(text, offset)
    decreases |text| - offset
  {
    var page := FullPage(text, offset);
    [page] + if page.nextOffset.Some? then FollowFull(text, page.nextOffset.value) else []
  }

  /** The pages are the text from `from` on, cut between characters. */
  ghost predicate Tiles(pages: seq<Page>, text: Text, from: nat) {
    && pages != [] && |pages[0].sourceRanges| == 1
    && var r := pages[0].sourceRanges[0];
       && r.start == from && from <= r.end <= |text| && !Splits(text, r.end)
       && pages[0].text == text[from..r.end]
       && if |pages| == 1 then r.end == |text| && pages[0].nextOffset == None
          else from < r.end < |text| && pages[0].nextOffset == Some(r.end) && Tiles(pages[1..], text, r.end)
  }

  function Concatenated(pages: seq<Page>): Text {
    if pages == [] then [] else pages[0].text + Concatenated(pages[1..])
  }

  lemma {:induction false} TilesConcatenate(pages: seq<Page>, text: Text, from: nat)
    requires from <= |text| && Tiles(pages, text, from)
    ensures Concatenated(pages) == text[from..]
  {
    var end := pages[0].sourceRanges[0].end;
    if |pages| == 1 {
      assert pages[1..] == [];
    } else {
      TilesConcatenate(pages[1..], text, end);
    }
    assert text[from..] == text[from..end] + text[end..];
  }

  lemma {:induction false} FollowPlainTiles(text: Text, offset: nat, maxChars: int)
    requires offset <= |text| && !Splits(text, offset)
    ensures Tiles(FollowPlain(text, offset, maxChars), text, offset)
    ensures forall page :: page in FollowPlain(text, offset, maxChars) ==> |page.text| <= SafeMax(maxChars)
    decreases |text| - offset
  {
    var page := PlainPage(text, offset, maxChars);
    if page.nextOffset.Some? {
      FollowPlainTiles(text, page.nextOffset.value, maxChars);
      assert ([page] + FollowPlain(text, page.nextOffset.value, maxChars))[1..] == FollowPlain(text, page.nextOffset.value, maxChars);
    }
  }

  lemma {:induction false} FollowFullTiles(text: Text, offset: nat)
    requires offset <= |text| && !Splits(text, offset)
    ensures Tiles(FollowFull(text, offset), text, offset)
    ensures forall page :: page in FollowFull(text, offset) ==> ByteLength(page.text) <= FullExcerptMaxBytes
    decreases |text| - offset
  {
    var page := FullPage(text, offset);
    var end := FullEnd(text, offset);
    assert text[offset..][..end - offset] == text[offset..end];
    assert ByteLength(page.text) <= FullExcerptMaxBytes;
    if page.nextOffset.Some? {
      FollowFullTiles(text, page.nextOffset.value);
      assert ([page] + FollowFull(text, page.nextOffset.value))[1..] == FollowFull(text, page.nextOffset.value);
    }
  }

  // ---------------------------------------------------------------- the source's function

  ghost function PageOf(text: Text, tokens: seq<Token>, offset: int, maxChars: int, full: bool): Page
    requires WellFormed(text, tokens)
  {
    var o := SafeOffset(text, offset);
    if full then FullPage(text, o)
    else if tokens == [] then PlainPage(text, o, maxChars)
    else KeywordPage(text, tokens, o, maxChars)
  }

  lemma EmitNothing(text: Text, merged: seq<Range>, safeMax: nat, done: Emission)
    requires InText(text, merged)
    ensures EmitFrom(text, merged, |merged|, safeMax, done) == done
  {
  }

  method Emit(text: Text, merged: seq<Range>, safeMax: nat) returns (e: Emission)
    requires InText(text, merged)
    ensures e == EmitFrom(text, merged, 0, safeMax, Emission([], [], None))
    ensures e.next.None? ==> |e.included| == |merged|
  {
    hide Label, AvoidSplitSurrogate, EmitFrom;
    var output, included := [], [];
    var i := 0;
    while i < |merged|
      invariant 0 <= i <= |merged| && |included| == i
      invariant EmitFrom(text, merged, 0, safeMax, Emission([], [], None))
             == EmitFrom(text, merged, i, safeMax, Emission(output, included, None))
    {
      EmitUnfold(text, merged, i, safeMax, Emission(output, included, None));
      var range := merged[i];
      var heading := Label(range);
      var separator := if i > 0 then Divider else [];
      var available := safeMax - |output| - |heading| - |separator|;
      if available <= 0 {
        return Emission(output, included, Some(range.start));
      }
      var segment := text[range.start..range.end];
      var take := AvoidSplitSurrogate(segment, Min(|segment|, available));
      assert segment[..take] == text[range.start..range.start + take];
      output := output + (separator + heading + segment[..take]);
      included := included + [Range(range.start, range.start + take)];
      if take < |segment| {
        return Emission(output, included, Some(range.start + take));
      }
      i := i + 1;
    }
    e := Emission(output, included, None);
    EmitNothing(text, merged, safeMax, e);
  }

  method FindPending(text: Text, capped: seq<Token>, from: nat) returns (next: Option<nat>)
    requires !Splits(text, from)
    ensures next == Pending(capped, from)
  {
    hide Splits;
    next := None;
    for t := 0 to |capped|
      invariant next == Pending(capped[..t], from)
    {
      assert capped[..t + 1][..t] == capped[..t];
      var found := FindTokenPositions(text, capped[t], from, 1);
      if found != [] {
        next := if next.None? then Some(found[0]) else Some(Min(next.value, found[0]));
      }
    }
    assert capped[..|capped|] == capped;
  }

  lemma {:induction false} CoveredEndOk(text: Text, included: seq<Range>, offset: nat)
    requires !Splits(text, offset) && forall i :: 0 <= i < |included| ==> !Splits(text, included[i].end)
    ensures !Splits(text, CoveredEnd(included, offset))
  {
    hide Splits;
    if included != [] {
      CoveredEndOk(text, included[..|included| - 1], offset);
    }
  }

  lemma EndsOnCharacters(text: Text, offset: nat, merged: seq<Range>)
    requires WindowsOk(text, offset, merged)
    ensures forall i :: 0 <= i < |merged| ==> !Splits(text, merged[i].end)
  {
  }

  /** The search for pending matches starts between characters. */
  lemma CoveredOnCharacter(text: Text, tokens: seq<Token>, offset: nat, safeMax: nat)
    requires offset <= |text| && !Splits(text, offset) && WellFormed(text, tokens) && safeMax >= 1000
    ensures InText(text, MergedWindows(text, tokens, offset))
    ensures var e := EmitFrom(text, MergedWindows(text, tokens, offset), 0, safeMax, Emission([], [], None));
            e.next.None? ==> !Splits(text, CoveredEnd(e.included, offset))
  {
    MergedWindowsOk(text, tokens, offset);
    hide MergedWindows, Splits, InText, WindowsOk, Apart, Holds, EmitFrom, CoveredEnd;
    var merged := MergedWindows(text, tokens, offset);
    var start := Emission([], [], None);
    var j := EmitMeaning(text, merged, offset, 0, safeMax, start);
    EndsOnCharacters(text, offset, merged);
    if EmitFrom(text, merged, 0, safeMax, start).next.None? {
      CoveredEndOk(text, merged, offset);
    }
  }

  method LastEnd(included: seq<Range>, offset: nat) returns (e: nat)
    ensures e == CoveredEnd(included, offset)
  {
    e := offset;
    for i := 0 to |included|
      invariant e == CoveredEnd(included[..i], offset)
    {
      assert included[..i + 1][..i] == included[..i];
      e := Max(e, included[i].end);
    }
    assert included[..|included|] == included;
  }

  method BuildKeywordExcerpt(text: Text, tokens: seq<Token>, offset: nat, maxChars: int) returns (page: Page)
    requires offset <= |text| && !Splits(text, offset) && WellFormed(text, tokens)
    ensures page == KeywordPage(text, tokens, offset, maxChars)
  {
    var ranges, capped := CollectWindows(text, tokens, offset);
    var merged := MergeRanges(ranges);
    MergedWindowsOk(text, tokens, offset);
    if merged == [] {
      return PlainPage(text, offset, maxChars);
    }
    var e := Emit(text, merged, SafeMax(maxChars));
    var next := e.next;
    // The source then looks for ranges left over without a next offset; Emit's contract says there are none.
    if next.None? && capped != [] {
      var covered := LastEnd(e.included, offset);
      CoveredOnCharacter(text, tokens, offset, SafeMax(maxChars));
      next := FindPending(text, capped, covered);
    }
    page := Page(e.output, e.included, next);
  }

  method BuildRelevantExcerpt(text: Text, tokens: seq<Token>, offset: int, maxChars: int, full: bool)
    returns (page: Page, truncated: bool)
    requires WellFormed(text, tokens)
    ensures page == PageOf(text, tokens, offset, maxChars, full)
    ensures truncated <==> page.nextOffset.Some?
  {
    var safeOffset := SafeOffset(text, offset);
    if full {
      var remaining := text[safeOffset..];
      var take := Utf8PrefixWithinBytes(remaining, FullExcerptMaxBytes);
      LongestPrefixUnique(remaining, FullExcerptMaxBytes, take, FullEnd(text, safeOffset) - safeOffset);
      var end := safeOffset + take;
      assert remaining[..take] == text[safeOffset..end];
      page := Page(remaining[..take], [Range(safeOffset, end)], if end < |text| then Some(end) else None);
    } else if tokens == [] {
      page := PlainPage(text, safeOffset, maxChars);
    } else {
      page := BuildKeywordExcerpt(text, tokens, safeOffset, maxChars);
    }
    truncated := page.nextOffset.Some?;
  }
}
