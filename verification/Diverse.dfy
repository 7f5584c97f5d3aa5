/**
 * selectDiverseSessionEntries of config/extensions/stateful-memory/recall-utils.js: the ranked list,
 * shortened so that fork transcripts do not crowd out the trunk.
 */
module Diverse {
  import opened Basics

  /** `rank` keeps two entries with the same fields apart. */
  datatype Entry = Entry(rank: nat, depth: Option<int>, tags: seq<string>, origin: string)

  /** The parts between slashes and backslashes; a run of separators only adds empty parts. */
  function Segments(origin: string): seq<string> {
    if origin == "" then [""]
    else
      var rest := Segments(origin[1..]);
      if origin[0] == '/' || origin[0] == '\\' then [""] + rest
      else if rest == [] then [[origin[0]]]
      else [[origin[0]] + rest[0]] + rest[1..]
  }

  predicate IsDelegate(e: Entry) {
    || (e.depth.Some? && e.depth.value >= 3)
    || "delegate" in e.tags || "fork" in e.tags
    || "forks" in Segments(e.origin)
  }

  predicate IsSeparator(c: char) {
    c == '/' || c == '\\'
  }

  /** Between `a` and `b` the origin reads so, from a separator or the start up to a separator or the end. */
  predicate StandsBetween(word: string, origin: string, a: nat, b: nat) {
    && a <= b <= |origin| && origin[a..b] == word
    && (a == 0 || IsSeparator(origin[a - 1])) && (b == |origin| || IsSeparator(origin[b]))
  }

  ghost predicate Stands(word: string, origin: string) {
    exists a, b :: StandsBetween(word, origin, a, b)
  }

  /** The first part ends at the first separator. */
  lemma {:induction false} FirstSegment(origin: string)
    ensures Segments(origin) != [] && |Segments(origin)[0]| <= |origin|
    ensures var n := |Segments(origin)[0]|;
            && Segments(origin)[0] == origin[..n] && (n < |origin| ==> IsSeparator(origin[n]))
            && (forall i :: 0 <= i < n ==> !IsSeparator(origin[i]))
    ensures var n := |Segments(origin)[0]|;
            Segments(origin)[1..] == if n == |origin| then [] else Segments(origin[n + 1..])
  {
    if origin != "" && !IsSeparator(origin[0]) {
      FirstSegment(origin[1..]);
    }
  }

  /** A part is what stands between separators, or the ends. */
  lemma {:induction false} SegmentsMeaning(origin: string, word: string)
    requires forall i :: 0 <= i < |word| ==> !IsSeparator(word[i])
    ensures word in Segments(origin) <==> Stands(word, origin)
    decreases |origin|
  {
    hide Segments;
    FirstSegment(origin);
    var segments := Segments(origin);
    var n := |segments[0]|;
    assert segments == [segments[0]] + segments[1..];
    if n < |origin| {
      SegmentsMeaning(origin[n + 1..], word);
    }
    if word == segments[0] {
      assert StandsBetween(word, origin, 0, n);
    } else if word in segments {
      var a, b :| StandsBetween(word, origin[n + 1..], a, b);
      StandsLater(word, origin, n, a, b);
    }
    if a, b :| StandsBetween(word, origin, a, b) {
      StandsFirstOrLater(word, origin, n, a, b);
      assert word == origin[..n] ==> word in segments;
    }
  }

  lemma StandsLater(word: string, origin: string, n: nat, a: nat, b: nat)
    requires n < |origin| && IsSeparator(origin[n]) && StandsBetween(word, origin[n + 1..], a, b)
    ensures StandsBetween(word, origin, n + 1 + a, n + 1 + b)
  {
    assert origin[n + 1..][a..b] == origin[n + 1 + a..n + 1 + b];
  }

  lemma StandsFirstOrLater(word: string, origin: string, n: nat, a: nat, b: nat)
    requires n <= |origin| && (n < |origin| ==> IsSeparator(origin[n])) && forall i :: 0 <= i < n ==> !IsSeparator(origin[i])
    requires StandsBetween(word, origin, a, b) && forall i :: 0 <= i < |word| ==> !IsSeparator(word[i])
    ensures word == origin[..n] || (n < |origin| && Stands(word, origin[n + 1..]))
  {
    if a == 0 {
      assert forall i :: 0 <= i < b ==> origin[i] == word[i];
      assert b == n;
    } else {
      assert a - 1 >= n;
      assert origin[n + 1..][a - n - 1..b - n - 1] == origin[a..b];
      assert StandsBetween(word, origin[n + 1..], a - n - 1, b - n - 1);
    }
  }

  /** Whom the source takes for a delegate: by depth, by tag, or by a directory named forks in the origin. */
  lemma DelegatesAre(e: Entry)
    ensures IsDelegate(e) <==>
              || (e.depth.Some? && e.depth.value >= 3)
              || (exists i :: 0 <= i < |e.tags| && (e.tags[i] == "delegate" || e.tags[i] == "fork"))
              || Stands("forks", e.origin)
  {
    hide Segments, StandsBetween;
    SegmentsMeaning(e.origin, "forks");
  }

  function Trunks(s: seq<Entry>): nat {
    if s == [] then 0
    else Trunks(s[..|s| - 1]) + if IsDelegate(s[|s| - 1]) then 0 else 1
  }

  function Delegates(s: seq<Entry>): nat {
    if s == [] then 0
    else Delegates(s[..|s| - 1]) + if IsDelegate(s[|s| - 1]) then 1 else 0
  }

  lemma {:induction false} CountsAddUp(s: seq<Entry>)
    ensures Trunks(s) + Delegates(s) == |s|
  {
    if s != [] {
      CountsAddUp(s[..|s| - 1]);
    }
  }

  lemma {:induction false} CountsGrow(s: seq<Entry>, i: nat)
    requires i <= |s|
    ensures Trunks(s[..i]) <= Trunks(s) && Delegates(s[..i]) <= Delegates(s)
    decreases |s|
  {
    if i < |s| {
      CountsGrow(s[..|s| - 1], i);
      assert s[..|s| - 1][..i] == s[..i];
    } else {
      assert s[..i] == s;
    }
  }

  lemma CountsSnoc(s: seq<Entry>, e: Entry)
    ensures Trunks(s + [e]) == Trunks(s) + (if IsDelegate(e) then 0 else 1)
    ensures Delegates(s + [e]) == Delegates(s) + (if IsDelegate(e) then 1 else 0)
  {
    assert (s + [e])[..|s|] == s;
  }

  function Min(a: int, b: int): int { if a <= b then a else b }
  function Max(a: int, b: int): int { if a >= b then a else b }

  /** `selected` is `ranked` at the increasing places `picks`. */
  ghost predicate Subsequence(selected: seq<Entry>, ranked: seq<Entry>, picks: seq<nat>) {
    && |picks| == |selected|
    && (forall k :: 0 <= k < |picks| ==> picks[k] < |ranked| && selected[k] == ranked[picks[k]])
    && (forall k, l :: 0 <= k < l < |picks| ==> picks[k] < picks[l])
  }

  /** Rank decides within each kind: a skipped trunk entry is behind everything picked, a skipped delegate behind the picked delegates. */
  ghost predicate BestFirst(ranked: seq<Entry>, picks: seq<nat>) {
    && (forall i, p :: 0 <= i < |ranked| && !IsDelegate(ranked[i]) && i !in picks && p in picks ==> p < i)
    && (forall i, p :: 0 <= i < |ranked| && IsDelegate(ranked[i]) && i !in picks && p in picks && p < |ranked| && IsDelegate(ranked[p]) ==> p < i)
  }

  /** A delegate ranked before something picked is skipped only once the allowed number of delegates is picked. */
  ghost predicate SkippedAtLimit(ranked: seq<Entry>, selected: seq<Entry>, picks: seq<nat>, delegateLimit: nat) {
    forall i, p :: 0 <= i < |ranked| && IsDelegate(ranked[i]) && i !in picks && p in picks && i < p ==>
      Delegates(selected) == delegateLimit
  }

  method FillUp(chosen: seq<Entry>, deferred: seq<Entry>, limit: int) returns (selected: seq<Entry>)
    ensures selected == chosen + deferred[..Min(|deferred|, Max(0, limit - |chosen|))]
  {
    selected := chosen;
    var i := 0;
    while i < |deferred|
      invariant 0 <= i <= |deferred| && i <= Max(0, limit - |chosen|)
      invariant selected == chosen + deferred[..i]
    {
      if |selected| >= limit {
        break;
      }
      selected := selected + [deferred[i]];
      i := i + 1;
    }
  }

  /** What the first loop knows after i entries; `put` delegates were put off. */
  ghost predicate Counted(ranked: seq<Entry>, i: nat, delegateLimit: nat, chosen: seq<Entry>, put: nat) {
    && i <= |ranked| && |chosen| + put == i
    && Trunks(chosen) == Trunks(ranked[..i]) && Delegates(chosen) <= delegateLimit
    && (put > 0 ==> Delegates(chosen) == delegateLimit)
  }

  ghost predicate Picked(ranked: seq<Entry>, i: nat, chosen: seq<Entry>, put: nat, picks: seq<nat>) {
    && i <= |ranked| && Subsequence(chosen, ranked, picks) && BestFirst(ranked, picks)
    && (forall p :: p in picks ==> p < i)
    && (forall k :: 0 <= k < i && (put == 0 || !IsDelegate(ranked[k])) ==> k in picks)
  }

  lemma CountEntry(ranked: seq<Entry>, i: nat, delegateLimit: nat, chosen: seq<Entry>, put: nat)
    requires Counted(ranked, i, delegateLimit, chosen, put) && i < |ranked|
    ensures var e := ranked[i];
            if IsDelegate(e) && Delegates(chosen) >= delegateLimit then Counted(ranked, i + 1, delegateLimit, chosen, put + 1)
            else Counted(ranked, i + 1, delegateLimit, chosen + [e], put)
  {
    assert ranked[..i + 1] == ranked[..i] + [ranked[i]];
    CountsSnoc(ranked[..i], ranked[i]);
    CountsSnoc(chosen, ranked[i]);
  }

  lemma PickEntry(ranked: seq<Entry>, i: nat, chosen: seq<Entry>, put: nat, picks: seq<nat>)
    requires Picked(ranked, i, chosen, put, picks) && i < |ranked| && (IsDelegate(ranked[i]) ==> put == 0)
    ensures Picked(ranked, i + 1, chosen + [ranked[i]], put, picks + [i])
  {
    hide Subsequence;
    PickNext(ranked, i, chosen, picks);
    var more := picks + [i];
    assert forall p :: p in more <==> p in picks || p == i;
  }

  lemma PickNext(ranked: seq<Entry>, i: nat, chosen: seq<Entry>, picks: seq<nat>)
    requires i < |ranked| && Subsequence(chosen, ranked, picks) && forall p :: p in picks ==> p < i
    ensures Subsequence(chosen + [ranked[i]], ranked, picks + [i])
  {
    assert forall k :: 0 <= k < |picks| ==> picks[k] in picks;
  }

  lemma PutOffEntry(ranked: seq<Entry>, i: nat, chosen: seq<Entry>, put: nat, picks: seq<nat>)
    requires Picked(ranked, i, chosen, put, picks) && i < |ranked| && IsDelegate(ranked[i])
    ensures Picked(ranked, i + 1, chosen, put + 1, picks)
  {
  }

  function DelegateLimit(trunkCount: nat, limit: nat): (d: nat)
    requires limit >= 1
  {
    if trunkCount >= limit - 1 then 1 else Max(1, limit - trunkCount)
  }

  /** Unless the list is full, nothing was put off; and a full list has the counts promised. */
  lemma CountsAtEnd(ranked: seq<Entry>, limit: nat, i: nat, chosen: seq<Entry>, put: nat)
    requires limit >= 1 && |chosen| <= limit && Counted(ranked, i, DelegateLimit(Trunks(ranked), limit), chosen, put)
    requires i == |ranked| || |chosen| == limit
    ensures |chosen| < limit ==> put == 0
    ensures |chosen| == Min(limit, |ranked|)
    ensures Trunks(chosen) >= Min(Trunks(ranked), limit - 1)
    ensures Trunks(ranked) >= limit - 1 ==> Delegates(chosen) <= 1
  {
    CountsAddUp(chosen);
    CountsGrow(ranked, i);
    CountsAddUp(ranked);
    assert i == |ranked| ==> ranked[..i] == ranked;
  }

  method SelectDiverseSessionEntries(ranked: seq<Entry>, limit: int) returns (selected: seq<Entry>, ghost picks: seq<nat>)
    ensures Subsequence(selected, ranked, picks) && BestFirst(ranked, picks)
    ensures limit >= 1 ==> SkippedAtLimit(ranked, selected, picks, DelegateLimit(Trunks(ranked), limit))
    ensures |selected| == Min(Max(0, limit), |ranked|)
    ensures limit >= 1 ==> Trunks(selected) >= Min(Trunks(ranked), limit - 1)
    ensures limit >= 1 && Trunks(ranked) >= limit - 1 ==> Delegates(selected) <= 1
  {
    picks := [];
    if limit <= 0 {
      return [], picks;
    }
    hide IsDelegate, Trunks, Delegates, Subsequence, BestFirst, SkippedAtLimit;
    var trunkCount := Trunks(ranked);
    var delegateLimit := DelegateLimit(trunkCount, limit);
    var chosen, deferred := [], [];
    var delegateCount := 0;
    var i := 0;
    NothingWalked(ranked, delegateLimit);
    while i < |ranked|
      invariant 0 <= i <= |ranked| && |chosen| <= limit && delegateCount == Delegates(chosen)
      invariant Counted(ranked, i, delegateLimit, chosen, |deferred|) && Picked(ranked, i, chosen, |deferred|, picks)
    {
      if |chosen| >= limit {
        break;
      }
      var entry := ranked[i];
      CountEntry(ranked, i, delegateLimit, chosen, |deferred|);
      CountsSnoc(chosen, entry);
      if IsDelegate(entry) {
        if delegateCount >= delegateLimit {
          PutOffEntry(ranked, i, chosen, |deferred|, picks);
          deferred := deferred + [entry];
          i := i + 1;
          continue;
        }
        delegateCount := delegateCount + 1;
      }
      PickEntry(ranked, i, chosen, |deferred|, picks);
      chosen := chosen + [entry];
      picks := picks + [i];
      i := i + 1;
    }
    CountsAtEnd(ranked, limit, i, chosen, |deferred|);
    SkipsAtEnd(ranked, i, delegateLimit, chosen, |deferred|, picks);
    // What was put off is never taken up again.
    assert deferred[..Min(|deferred|, Max(0, limit - |chosen|))] == [];
    selected := FillUp(chosen, deferred, limit);
    assert selected == chosen;
  }

  lemma SkipsAtEnd(ranked: seq<Entry>, i: nat, delegateLimit: nat, chosen: seq<Entry>, put: nat, picks: seq<nat>)
    requires Counted(ranked, i, delegateLimit, chosen, put) && Picked(ranked, i, chosen, put, picks)
    ensures SkippedAtLimit(ranked, chosen, picks, delegateLimit)
  {
  }

  lemma NothingWalked(ranked: seq<Entry>, delegateLimit: nat)
    ensures Counted(ranked, 0, delegateLimit, [], 0) && Picked(ranked, 0, [], 0, []) && Delegates([]) == 0
  {
  }
}
