/**
 * What a search lists: how it depends on where it starts, and when it does not.
 */
module ExcerptSearch {
  import opened Basics
  import opened Utf16
  import opened TextBudget
  import opened Excerpt

  /** Listed matches are at least this far apart. */
  predicate Spaced(s: seq<nat>, gap: nat) {
    forall i, j :: 0 <= i < j < |s| ==> s[i] + gap <= s[j]
  }

  // ---------------------------------------------------------------- the surface form

  lemma {:induction false} SearchMembers(places: seq<nat>, from: nat, length: nat)
    ensures forall p :: p in Search(places, from, length) ==> p in places && p >= from
  {
    if places != [] {
      assert places == [places[0]] + places[1..];
      SearchMembers(places[1..], if places[0] < from then from else places[0] + length, length);
    }
  }

  lemma {:induction false} SearchSpaced(places: seq<nat>, from: nat, length: nat)
    ensures Spaced(Search(places, from, length), length)
  {
    if places != [] {
      if places[0] < from {
        SearchSpaced(places[1..], from, length);
      } else {
        var rest := Search(places[1..], places[0] + length, length);
        SearchSpaced(places[1..], places[0] + length, length);
        SearchMembers(places[1..], places[0] + length, length);
        forall i | 0 <= i < |rest|
          ensures places[0] + length <= rest[i]
        {
          assert rest[i] in rest;
        }
      }
    }
  }

  lemma SearchOk(text: Text, token: Token, start: nat)
    requires TokenOk(text, token)
    ensures var s := Search(token.exact, start, token.length);
            && PositionsOk(text, s) && Spaced(s, token.length) && Spaced(s, 2)
            && forall i :: 0 <= i < |s| ==> s[i] in token.exact && s[i] >= start
  {
    hide Splits, Search;
    var s := Search(token.exact, start, token.length);
    SearchMembers(token.exact, start, token.length);
    SearchSpaced(token.exact, start, token.length);
    forall i | 0 <= i < |s|
      ensures s[i] in token.exact && s[i] >= start
    {
      assert s[i] in s;
    }
  }

  /** A place is either listed or overlapped by the listed match before it. */
  lemma {:induction false} SearchReaches(places: seq<nat>, from: nat, length: nat, p: nat) returns (i: nat)
    requires Increasing(places) && length > 0 && p in places && p >= from
    ensures i < |Search(places, from, length)|
    ensures Search(places, from, length)[i] <= p < Search(places, from, length)[i] + length
  {
    var tail := places[1..];
    assert places == [places[0]] + tail;
    if places[0] < from {
      i := SearchReaches(tail, from, length, p);
    } else if p < places[0] + length {
      i := 0;
    } else {
      i := SearchReaches(tail, places[0] + length, length, p);
      i := i + 1;
    }
  }

  // ---------------------------------------------------------------- words

  /** The place where the search enters the word. */
  function Entry(w: Range, from: nat): nat {
    Max(w.start, from)
  }

  predicate Enters(w: Range, roots: set<nat>, from: nat, p: nat) {
    p == Entry(w, from) && p < w.end && p in roots
  }

  lemma {:induction false} WordMembers(words: seq<Range>, roots: set<nat>, from: nat, p: nat)
    ensures p in WordSearch(words, roots, from) <==> exists i :: 0 <= i < |words| && Enters(words[i], roots, from, p)
  {
    if words != [] {
      var tail := words[1..];
      WordMembers(tail, roots, from, p);
      if p in WordSearch(words, roots, from) {
        if p in WordSearch(tail, roots, from) {
          var i :| 0 <= i < |tail| && Enters(tail[i], roots, from, p);
          assert Enters(words[i + 1], roots, from, p);
        } else {
          assert Enters(words[0], roots, from, p);
        }
      }
      if i :| 0 <= i < |words| && Enters(words[i], roots, from, p) {
        if i > 0 {
          assert Enters(tail[i - 1], roots, from, p);
        }
      }
    }
  }

  lemma {:induction false} WordsSpaced(text: Text, words: seq<Range>, roots: set<nat>, from: nat)
    requires WordsOk(text, words)
    ensures Spaced(WordSearch(words, roots, from), 2)
  {
    if words != [] {
      var tail := words[1..];
      var rest := WordSearch(tail, roots, from);
      assert forall i :: 0 <= i < |tail| ==> tail[i] == words[i + 1];
      WordsSpaced(text, tail, roots, from);
      forall k | 0 <= k < |rest|
        ensures words[0].end < rest[k]
      {
        WordMembers(tail, roots, from, rest[k]);
        assert rest[k] in rest;
        var i :| 0 <= i < |tail| && Enters(tail[i], roots, from, rest[k]);
        assert words[0].end < words[i + 1].start;
      }
    }
  }

  lemma WordSearchOk(text: Text, token: Token, start: nat)
    requires TokenOk(text, token)
    ensures var s := WordSearch(token.words, token.roots, start);
            && PositionsOk(text, s) && Spaced(s, 2)
            && forall i :: 0 <= i < |s| ==> s[i] in token.roots && s[i] >= start
  {
    hide Splits, WordSearch;
    var s := WordSearch(token.words, token.roots, start);
    WordsSpaced(text, token.words, token.roots, start);
    forall k | 0 <= k < |s|
      ensures s[k] in token.roots && s[k] >= start
    {
      WordMembers(token.words, token.roots, start, s[k]);
      assert s[k] in s;
    }
  }

  /** All that a search from `start` would list, without a limit. */
  function Active(token: Token, start: nat): seq<nat> {
    var exact := Search(token.exact, start, token.length);
    if exact != [] || token.length < 5 then exact else WordSearch(token.words, token.roots, start)
  }

  lemma FoundIsFirst(token: Token, start: nat, limit: nat)
    requires limit > 0
    ensures Found(token, start, limit) == FirstFew(Active(token, start), limit)
  {
  }

  lemma ActiveOk(text: Text, token: Token, start: nat)
    requires TokenOk(text, token)
    ensures PositionsOk(text, Active(token, start)) && Spaced(Active(token, start), 2)
    ensures forall i :: 0 <= i < |Active(token, start)| ==> Active(token, start)[i] >= start
  {
    hide Splits, TokenOk, Search, WordSearch;
    SearchOk(text, token, start);
    WordSearchOk(text, token, start);
  }

  // ---------------------------------------------------------------- searches that do not depend on their start

  /** The members at or after `start`. */
  function From(s: seq<nat>, start: nat): seq<nat> {
    if s == [] then [] else if s[0] >= start then [s[0]] + From(s[1..], start) else From(s[1..], start)
  }

  lemma {:induction false} FromMembers(s: seq<nat>, start: nat)
    ensures forall p :: p in From(s, start) <==> p in s && p >= start
  {
    if s != [] {
      FromMembers(s[1..], start);
      assert s == [s[0]] + s[1..];
    }
  }

  lemma {:induction false} FromIncreasing(s: seq<nat>, start: nat)
    requires Increasing(s)
    ensures Increasing(From(s, start)) && |From(s, start)| <= |s|
  {
    if s != [] {
      var rest := From(s[1..], start);
      FromIncreasing(s[1..], start);
      FromMembers(s[1..], start);
      forall i | 0 <= i < |rest|
        ensures s[0] < rest[i]
      {
        assert rest[i] in rest;
      }
    }
  }

  lemma {:induction false} AllFrom(s: seq<nat>, start: nat)
    requires Increasing(s) && (s != [] ==> s[0] >= start)
    ensures From(s, start) == s
  {
    if s != [] {
      AllFrom(s[1..], start);
    }
  }

  lemma {:induction false} FromIsTail(s: seq<nat>, start: nat) returns (d: nat)
    requires Increasing(s)
    ensures d <= |s| && From(s, start) == s[d..]
    ensures forall i :: 0 <= i < d ==> s[i] < start
  {
    if s == [] || s[0] >= start {
      AllFrom(s, start);
      d := 0;
    } else {
      d := FromIsTail(s[1..], start);
      assert s[d + 1..] == s[1..][d..];
      assert forall i :: 0 <= i < |s| - 1 ==> s[1..][i] == s[i + 1];
      d := d + 1;
    }
  }

  /** Where no two places overlap, a search lists those that are left. */
  lemma {:induction false} SearchOfSpaced(places: seq<nat>, from: nat, length: nat)
    requires length > 0 && Spaced(places, length)
    ensures Search(places, from, length) == From(places, from)
  {
    if places != [] {
      var tail := places[1..];
      assert forall i :: 0 <= i < |tail| ==> tail[i] == places[i + 1];
      if places[0] < from {
        SearchOfSpaced(tail, from, length);
      } else {
        SearchOfSpaced(tail, places[0] + length, length);
        AllFrom(tail, places[0] + length);
        AllFrom(tail, from);
      }
    }
  }

  lemma {:induction false} SameMembers(a: seq<nat>, b: seq<nat>)
    requires Increasing(a) && Increasing(b) && forall p :: p in a <==> p in b
    ensures a == b
  {
    assert (|a| > 0 ==> a[0] in a) && (|b| > 0 ==> b[0] in b);
    if a != [] {
      var i :| 0 <= i < |b| && b[i] == a[0];
      var j :| 0 <= j < |a| && a[j] == b[0];
      assert a[0] == b[0];
      TailMembers(a);
      TailMembers(b);
      SameMembers(a[1..], b[1..]);
    }
  }

  lemma TailMembers(a: seq<nat>)
    requires Increasing(a) && a != []
    ensures Increasing(a[1..]) && forall p :: p in a[1..] <==> p in a && p != a[0]
  {
    assert a == [a[0]] + a[1..];
  }

  /** The search starts strictly inside a word whose rest counts as a match. */
  ghost predicate EntersWord(words: seq<Range>, roots: set<nat>, start: nat) {
    start in roots && exists i :: 0 <= i < |words| && words[i].start < start < words[i].end
  }

  lemma WordMembersLater(text: Text, words: seq<Range>, roots: set<nat>, start: nat, p: nat)
    requires WordsOk(text, words)
    ensures p in WordSearch(words, roots, start)
       <==> (p in WordSearch(words, roots, 0) && p >= start) || (p == start && EntersWord(words, roots, start))
  {
    hide WordSearch;
    WordMembers(words, roots, start, p);
    WordMembers(words, roots, 0, p);
    if i :| 0 <= i < |words| && Enters(words[i], roots, start, p) {
      if words[i].start >= start {
        assert Enters(words[i], roots, 0, p);
      }
    }
    if i :| 0 <= i < |words| && Enters(words[i], roots, 0, p) {
      if p >= start {
        assert Enters(words[i], roots, start, p);
      }
    }
    if p == start && EntersWord(words, roots, start) {
      var i :| 0 <= i < |words| && words[i].start < start < words[i].end;
      assert Enters(words[i], roots, start, p);
    }
  }

  /** A start inside a word is no start of a word. */
  lemma InsideIsNoStart(text: Text, words: seq<Range>, roots: set<nat>, start: nat)
    requires WordsOk(text, words) && EntersWord(words, roots, start)
    ensures start !in WordSearch(words, roots, 0)
  {
    WordMembers(words, roots, 0, start);
    var i :| 0 <= i < |words| && words[i].start < start < words[i].end;
    forall k | 0 <= k < |words|
      ensures !Enters(words[k], roots, 0, start)
    {
      if k < i { assert words[k].end < words[i].start; }
      if k > i { assert words[i].end < words[k].start; }
    }
  }

  /** What a search for words lists from a later start: what is left, and the rest of a word it starts in. */
  lemma WordSearchLater(text: Text, token: Token, start: nat)
    requires TokenOk(text, token)
    ensures var all := WordSearch(token.words, token.roots, 0);
            WordSearch(token.words, token.roots, start)
            == if EntersWord(token.words, token.roots, start) then [start] + From(all, start) else From(all, start)
  {
    hide Splits, WordSearch, EntersWord;
    var words, roots := token.words, token.roots;
    var all, here := WordSearch(words, roots, 0), WordSearch(words, roots, start);
    WordSearchOk(text, token, 0);
    WordSearchOk(text, token, start);
    FromMembers(all, start);
    FromIncreasing(all, start);
    var rest := From(all, start);
    var want := if EntersWord(words, roots, start) then [start] + rest else rest;
    forall p
      ensures p in here <==> p in want
    {
      WordMembersLater(text, words, roots, start, p);
    }
    if EntersWord(words, roots, start) {
      InsideIsNoStart(text, words, roots, start);
      assert forall k :: 0 <= k < |rest| ==> rest[k] in rest;
    }
    SameMembers(here, want);
  }

  // ---------------------------------------------------------------- words that cannot overlap themselves

  predicate StandsAt(word: Text, text: Text, k: nat) {
    k + |word| <= |text| && text[k..k + |word|] == word
  }

  /** All the places of the word in the (folded) text. */
  ghost predicate AllPlaces(word: Text, text: Text, places: seq<nat>) {
    Increasing(places) && forall k: nat :: k in places <==> StandsAt(word, text, k)
  }

  /** No proper prefix is also a suffix. */
  predicate Unbordered(word: Text) {
    forall b :: 0 < b < |word| ==> word[..b] != word[|word| - b..]
  }

  lemma OverlapIsBorder(word: Text, text: Text, p: nat, q: nat)
    requires StandsAt(word, text, p) && StandsAt(word, text, q) && p < q < p + |word|
    ensures !Unbordered(word)
  {
    var b := p + |word| - q;
    var overlap := text[q..p + |word|];
    assert overlap == text[p..p + |word|][q - p..];
    assert overlap == text[q..q + |word|][..b];
    assert word[..b] == word[|word| - b..];
  }

  /** Such a word's places never overlap, whatever the text. */
  lemma UnborderedNeverOverlaps(word: Text, text: Text, places: seq<nat>)
    requires Unbordered(word) && AllPlaces(word, text, places)
    ensures Spaced(places, |word|)
  {
    forall i, j | 0 <= i < j < |places|
      ensures places[i] + |word| <= places[j]
    {
      assert places[i] in places && places[j] in places;
      if places[j] < places[i] + |word| {
        OverlapIsBorder(word, text, places[i], places[j]);
        assert false;
      }
    }
  }

  /** And any other word overlaps itself in some text. */
  lemma BorderedOverlaps(word: Text, b: nat) returns (text: Text)
    requires 0 < b < |word| && word[..b] == word[|word| - b..]
    ensures StandsAt(word, text, 0) && StandsAt(word, text, |word| - b)
  {
    text := word + word[b..];
    assert text[..|word|] == word;
    var q := |word| - b;
    assert text[q..q + |word|] == word[q..] + word[b..];
    assert word == word[..b] + word[b..];
  }
}
