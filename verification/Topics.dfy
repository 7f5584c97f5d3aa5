/**
 * Topic routing of config/extensions/stateful-memory: selectTopics and scoreTopic of topic-router.js, and
 * the counters extension.js keeps so that a topic outlives the turn that asked for it.
 */
module Topics {
  import opened Basics

  /** `triggers` are the trigger phrases already taken apart into words. */
  datatype Topic = Topic(id: string, triggers: seq<seq<string>>, scope: seq<string>, priority: real)

  datatype Active = Active(counter: int, maxCounter: int)

  datatype Candidate = Candidate(topic: Topic, score: real)

  /** A prompt that is not blank, with the topic index as loaded for it. */
  datatype Turn = Turn(words: set<string>, topics: seq<Topic>, scope: Option<string>, maxResults: nat, minScore: real)

  type ActiveTopics = map<string, Active>

  predicate Counting(active: ActiveTopics) {
    forall id :: id in active ==> 1 <= active[id].counter <= active[id].maxCounter
  }

  // ---------------------------------------------------------------- scores

  function Words(triggers: seq<seq<string>>): set<string> {
    set i, j | 0 <= i < |triggers| && 0 <= j < |triggers[i]| :: triggers[i][j]
  }

  function Score(topic: Topic, words: set<string>): real {
    var overlap := |words * Words(topic.triggers)|;
    if overlap == 0 then 0.0 else overlap as real + topic.priority * 0.5
  }

  function Max(a: real, b: real): real { if a >= b then a else b }

  function PersistenceScore(active: ActiveTopics, id: string, minScore: real): real
    requires Counting(active)
  {
    if id in active then
      var share := active[id].counter as real / active[id].maxCounter as real;
      minScore * (share * share)
    else 0.0
  }

  predicate InScope(topic: Topic, scope: Option<string>) {
    scope.None? || scope.value in topic.scope
  }

  function CandidateOf(t: Turn, active: ActiveTopics, topic: Topic): Option<Candidate>
    requires Counting(active)
  {
    var own := Score(topic, t.words);
    if InScope(topic, t.scope) && (own >= t.minScore || topic.id in active) then
      Some(Candidate(topic, Max(own, PersistenceScore(active, topic.id, t.minScore))))
    else None
  }

  // ---------------------------------------------------------------- what a score means

  predicate HasTrigger(topic: Topic, word: string) {
    exists i, j :: 0 <= i < |topic.triggers| && 0 <= j < |topic.triggers[i]| && topic.triggers[i][j] == word
  }

  /** The query words that the topic's triggers mention are counted once each; the priority counts half. */
  lemma ScoreMeaning(topic: Topic, words: set<string>, shared: set<string>)
    requires forall w :: w in shared <==> w in words && HasTrigger(topic, w)
    ensures shared == {} ==> Score(topic, words) == 0.0
    ensures shared != {} ==> 2.0 * Score(topic, words) == 2.0 * (|shared| as real) + topic.priority
  {
    assert words * Words(topic.triggers) == shared;
  }

  /** More shared words score more, so does a higher priority, by half the difference. */
  lemma ScoreGrows(topic: Topic, other: Topic, words: set<string>, shared: set<string>, more: set<string>)
    requires forall w :: w in shared <==> w in words && HasTrigger(topic, w)
    requires forall w :: w in more <==> w in words && HasTrigger(other, w)
    requires shared != {} && |shared| <= |more| && topic.priority <= other.priority
    ensures Score(topic, words) <= Score(other, words)
    ensures |shared| < |more| || topic.priority < other.priority ==> Score(topic, words) < Score(other, words)
  {
    ScoreMeaning(topic, words, shared);
    ScoreMeaning(other, words, more);
    if more == {} { assert false; }
  }

  /**
   * A persisted topic's claim is the threshold at a full counter, falls with the square of the counter's share,
   * and is nothing for a topic that is not active.
   */
  lemma PersistenceMeaning(active: ActiveTopics, id: string, minScore: real)
    requires Counting(active)
    ensures id !in active ==> PersistenceScore(active, id, minScore) == 0.0
    ensures id in active && active[id].counter == active[id].maxCounter ==> PersistenceScore(active, id, minScore) == minScore
    ensures id in active ==>
              var c, m := active[id].counter as real, active[id].maxCounter as real;
              PersistenceScore(active, id, minScore) * m * m == minScore * c * c
  {
    if id in active {
      Quadratic(active[id].counter as real, active[id].maxCounter as real, minScore);
    }
  }

  lemma Quadratic(c: real, m: real, minScore: real)
    requires m > 0.0
    ensures (minScore * ((c / m) * (c / m))) * m * m == minScore * c * c
    ensures c == m ==> minScore * ((c / m) * (c / m)) == minScore
  {
    var share := c / m;
    assert share * m == c;
    if c == m { assert share == 1.0; }
    calc {
      (minScore * (share * share)) * m * m;
      minScore * (share * m) * (share * m);
      minScore * c * c;
    }
  }

  /** A candidate is in scope and reaches the threshold or is active; its claim is the better of the two, so never below a fresh score. */
  lemma CandidateMeaning(t: Turn, active: ActiveTopics, topic: Topic)
    requires Counting(active)
    ensures var c := CandidateOf(t, active, topic);
            var own, kept := Score(topic, t.words), PersistenceScore(active, topic.id, t.minScore);
            && (c.Some? <==>
                  && (t.scope.None? || exists i :: 0 <= i < |topic.scope| && topic.scope[i] == t.scope.value)
                  && (own >= t.minScore || topic.id in active))
            && (c.Some? ==>
                  && c.value.topic == topic && c.value.score >= own && c.value.score >= kept
                  && (c.value.score == own || c.value.score == kept))
  {
    hide Score, PersistenceScore;
  }

  function Candidates(t: Turn, active: ActiveTopics, topics: seq<Topic>): seq<Candidate>
    requires Counting(active)
  {
    if topics == [] then []
    else
      var c := CandidateOf(t, active, topics[|topics| - 1]);
      Candidates(t, active, topics[..|topics| - 1]) + if c.Some? then [c.value] else []
  }

  // ---------------------------------------------------------------- sorting

  function Insert(s: seq<Candidate>, c: Candidate): seq<Candidate> {
    if s == [] || s[|s| - 1].score >= c.score then s + [c]
    else Insert(s[..|s| - 1], c) + [s[|s| - 1]]
  }

  function SortDescending(s: seq<Candidate>): seq<Candidate> {
    if s == [] then [] else Insert(SortDescending(s[..|s| - 1]), s[|s| - 1])
  }

  function TopicsOf(s: seq<Candidate>): (topics: seq<Topic>)
    ensures |topics| == |s| && forall i :: 0 <= i < |s| ==> topics[i] == s[i].topic
  {
    if s == [] then [] else TopicsOf(s[..|s| - 1]) + [s[|s| - 1].topic]
  }

  function FirstFew<T>(s: seq<T>, n: nat): seq<T> {
    if |s| <= n then s else s[..n]
  }

  function Ranked(t: Turn, active: ActiveTopics): seq<Candidate>
    requires Counting(active)
  {
    SortDescending(Candidates(t, active, t.topics))
  }

  function Selected(t: Turn, active: ActiveTopics): seq<Topic>
    requires Counting(active)
  {
    TopicsOf(FirstFew(Ranked(t, active), t.maxResults))
  }

  predicate Descending(s: seq<Candidate>) {
    forall i, j :: 0 <= i < j < |s| ==> s[i].score >= s[j].score
  }

  function WithScore(s: seq<Candidate>, score: real): seq<Candidate> {
    if s == [] then [] else WithScore(s[..|s| - 1], score) + if s[|s| - 1].score == score then [s[|s| - 1]] else []
  }

  lemma {:induction false} InsertMeaning(s: seq<Candidate>, c: Candidate)
    requires Descending(s)
    ensures Descending(Insert(s, c)) && multiset(Insert(s, c)) == multiset(s) + multiset{c}
  {
    if s != [] && s[|s| - 1].score < c.score {
      var front, last := s[..|s| - 1], s[|s| - 1];
      assert s == front + [last];
      InsertMeaning(front, c);
      var t := Insert(front, c);
      forall i | 0 <= i < |t|
        ensures t[i].score >= last.score
      {
        assert t[i] in multiset(t);
        assert t[i] == c || t[i] in front;
      }
    }
  }

  lemma {:induction false} NoneBelow(s: seq<Candidate>, score: real)
    requires forall i :: 0 <= i < |s| ==> s[i].score > score
    ensures WithScore(s, score) == []
  {
    if s != [] {
      NoneBelow(s[..|s| - 1], score);
    }
  }

  lemma {:induction false} InsertStable(s: seq<Candidate>, c: Candidate, score: real)
    ensures WithScore(Insert(s, c), score) == WithScore(s, score) + if c.score == score then [c] else []
  {
    if s == [] || s[|s| - 1].score >= c.score {
      assert (s + [c])[..|s|] == s;
    } else {
      var front, last := s[..|s| - 1], s[|s| - 1];
      InsertStable(front, c, score);
      var t := Insert(front, c);
      assert (t + [last])[..|t|] == t;
      assert c.score != last.score;
    }
  }

  /** The ranking: a permutation, best first, ties in the order of the index. */
  lemma {:induction false} SortMeaning(s: seq<Candidate>, score: real)
    ensures Descending(SortDescending(s)) && multiset(SortDescending(s)) == multiset(s)
    ensures WithScore(SortDescending(s), score) == WithScore(s, score)
  {
    if s != [] {
      var front := s[..|s| - 1];
      assert s == front + [s[|s| - 1]];
      SortMeaning(front, score);
      InsertMeaning(SortDescending(front), s[|s| - 1]);
      InsertStable(SortDescending(front), s[|s| - 1], score);
    }
  }

  lemma {:induction false} CandidatesAre(t: Turn, active: ActiveTopics, topics: seq<Topic>, c: Candidate)
    requires Counting(active)
    ensures c in Candidates(t, active, topics) <==> c.topic in topics && CandidateOf(t, active, c.topic) == Some(c)
  {
    if topics != [] {
      assert topics == topics[..|topics| - 1] + [topics[|topics| - 1]];
      CandidatesAre(t, active, topics[..|topics| - 1], c);
    }
  }

  lemma RankedSize(t: Turn, active: ActiveTopics)
    requires Counting(active)
    ensures Descending(Ranked(t, active)) && multiset(Ranked(t, active)) == multiset(Candidates(t, active, t.topics))
    ensures |Ranked(t, active)| == |Candidates(t, active, t.topics)|
  {
    SortMeaning(Candidates(t, active, t.topics), 0.0);
    assert |multiset(Ranked(t, active))| == |multiset(Candidates(t, active, t.topics))|;
  }

  lemma RankedAre(t: Turn, active: ActiveTopics, c: Candidate)
    requires Counting(active)
    ensures c in Ranked(t, active) <==> c.topic in t.topics && CandidateOf(t, active, c.topic) == Some(c)
  {
    RankedSize(t, active);
    CandidatesAre(t, active, t.topics, c);
    assert c in Ranked(t, active) <==> c in multiset(Ranked(t, active));
    assert c in Candidates(t, active, t.topics) <==> c in multiset(Candidates(t, active, t.topics));
  }

  lemma SelectedCandidate(t: Turn, active: ActiveTopics, topic: Topic) returns (i: nat)
    requires Counting(active) && topic in Selected(t, active)
    ensures i < |Ranked(t, active)| && i < t.maxResults && topic in t.topics
    ensures CandidateOf(t, active, topic) == Some(Ranked(t, active)[i])
  {
    var few := FirstFew(Ranked(t, active), t.maxResults);
    i :| 0 <= i < |few| && few[i].topic == topic;
    RankedAre(t, active, Ranked(t, active)[i]);
  }

  lemma OtherCandidate(t: Turn, active: ActiveTopics, other: Topic) returns (j: nat)
    requires Counting(active) && other in t.topics && CandidateOf(t, active, other).Some?
    ensures j < |Ranked(t, active)| && CandidateOf(t, active, other) == Some(Ranked(t, active)[j])
    ensures j < t.maxResults ==> other in Selected(t, active)
  {
    var c := CandidateOf(t, active, other).value;
    CandidateTopic(t, active, other);
    RankedAre(t, active, c);
    j :| 0 <= j < |Ranked(t, active)| && Ranked(t, active)[j] == c;
    if j < t.maxResults {
      assert FirstFew(Ranked(t, active), t.maxResults)[j] == c;
      assert Selected(t, active)[j] == other;
    }
  }

  /** Only candidates are selected, as many as fit, and none that is left out beats one that is in. */
  lemma SelectsTheBest(t: Turn, active: ActiveTopics)
    requires Counting(active)
    ensures var n := |Candidates(t, active, t.topics)|;
            |Selected(t, active)| == if n <= t.maxResults then n else t.maxResults
    ensures forall topic :: topic in Selected(t, active) ==> topic in t.topics && CandidateOf(t, active, topic).Some?
    ensures forall topic, other ::
              (topic in Selected(t, active) && other in t.topics && other !in Selected(t, active) && CandidateOf(t, active, other).Some?) ==>
                CandidateOf(t, active, other).value.score <= CandidateOf(t, active, topic).value.score
  {
    RankedSize(t, active);
    hide CandidateOf, Candidates, Ranked;
    forall topic | topic in Selected(t, active)
      ensures topic in t.topics && CandidateOf(t, active, topic).Some?
    {
      var i := SelectedCandidate(t, active, topic);
    }
    assert |Selected(t, active)| == |FirstFew(Ranked(t, active), t.maxResults)|;
    hide Selected;
    forall topic, other | topic in Selected(t, active) && other in t.topics && other !in Selected(t, active)
                          && CandidateOf(t, active, other).Some?
      ensures CandidateOf(t, active, other).value.score <= CandidateOf(t, active, topic).value.score
    {
      var i := SelectedCandidate(t, active, topic);
      var j := OtherCandidate(t, active, other);
    }
  }

  lemma CandidateTopic(t: Turn, active: ActiveTopics, topic: Topic)
    requires Counting(active)
    ensures CandidateOf(t, active, topic).Some? ==> CandidateOf(t, active, topic).value.topic == topic
  {
  }

  // ---------------------------------------------------------------- the counters

  function IdsOf(topics: seq<Topic>): set<string> {
    set i | 0 <= i < |topics| :: topics[i].id
  }

  function Kept(active: ActiveTopics, selected: set<string>): set<string> {
    set id | id in active && id !in selected && active[id].counter > 1
  }

  /** Selected topics start over, the others lose one and go when nothing is left. */
  function Counted(active: ActiveTopics, selected: set<string>, k: int): ActiveTopics {
    map id | id in selected + Kept(active, selected) ::
      if id in selected then Active(k, k) else active[id].(counter := active[id].counter - 1)
  }

  function Aged(state: Option<Active>, selected: bool, k: int): Option<Active> {
    if state.None? then None
    else if selected then Some(Active(k, k))
    else if state.value.counter - 1 <= 0 then None
    else Some(state.value.(counter := state.value.counter - 1))
  }

  function Added(state: Option<Active>, selected: bool, k: int): Option<Active> {
    if state.None? && selected then Some(Active(k, k)) else state
  }

  lemma CountedPointwise(active: ActiveTopics, selected: set<string>, k: int)
    ensures forall id :: Lookup(Counted(active, selected, k), id)
              == Added(Aged(Lookup(active, id), id in selected, k), id in selected, k)
  {
  }

  lemma SameLookups(a: ActiveTopics, b: ActiveTopics)
    requires forall id :: Lookup(a, id) == Lookup(b, id)
    ensures a == b
  {
    assert forall id :: id in a <==> Lookup(a, id).Some?;
    assert forall id :: id in b <==> Lookup(b, id).Some?;
    forall id | id in a
      ensures id in b && a[id] == b[id]
    {
      assert Lookup(a, id) == Lookup(b, id);
    }
  }

  /** Candidates in the order of the index. */
  method CollectCandidates(t: Turn, active: ActiveTopics) returns (candidates: seq<Candidate>)
    requires Counting(active)
    ensures candidates == Candidates(t, active, t.topics)
  {
    candidates := [];
    for i := 0 to |t.topics|
      invariant candidates == Candidates(t, active, t.topics[..i])
    {
      assert t.topics[..i + 1][..i] == t.topics[..i];
      var topic := t.topics[i];
      if t.scope.Some? && t.scope.value !in topic.scope {
        continue;
      }
      var freshScore := 0.0;
      if |t.words| > 0 {
        freshScore := ScoreTopic(topic, t.words);
      }
      var persistenceScore := PersistenceScore(active, topic.id, t.minScore);
      if freshScore >= t.minScore || topic.id in active {
        candidates := candidates + [Candidate(topic, Max(freshScore, persistenceScore))];
      }
    }
    assert t.topics[..|t.topics|] == t.topics;
  }

  lemma OverlapStep(words: set<string>, left: set<string>, word: string, tokens: set<string>)
    requires word in left && left <= words
    ensures |(words - (left - {word})) * tokens| == |(words - left) * tokens| + if word in tokens then 1 else 0
  {
    var before := (words - left) * tokens;
    assert word !in before;
    assert (words - (left - {word})) * tokens == if word in tokens then before + {word} else before;
  }

  method ScoreTopic(topic: Topic, words: set<string>) returns (score: real)
    ensures score == Score(topic, words)
  {
    var triggerTokens := Words(topic.triggers);
    if |topic.triggers| == 0 || |words| == 0 {
      assert words * triggerTokens == {};
      return 0.0;
    }
    hide Words;
    var overlap, left := 0, words;
    assert (words - words) * triggerTokens == {};
    while left != {}
      invariant left <= words && overlap == |(words - left) * triggerTokens|
      decreases |left|
    {
      var word :| word in left;
      OverlapStep(words, left, word, triggerTokens);
      if word in triggerTokens {
        overlap := overlap + 1;
      }
      left := left - {word};
    }
    assert (words - {}) * triggerTokens == words * triggerTokens;
    if overlap == 0 {
      return 0.0;
    }
    score := overlap as real + topic.priority * 0.5;
  }

  class Router {
    const persistenceCount: int
    var activeTopics: ActiveTopics

    constructor (persistenceCount: int)
      ensures activeTopics == map[] && this.persistenceCount == persistenceCount
    {
      this.persistenceCount := persistenceCount;
      activeTopics := map[];
    }

    method SelectTopicsForPrompt(t: Turn, updateActiveTopics: bool) returns (selected: seq<Topic>)
      requires Counting(activeTopics)
      modifies this
      ensures selected == Selected(t, if updateActiveTopics then old(activeTopics) else map[])
      ensures activeTopics
              == if updateActiveTopics then Counted(old(activeTopics), IdsOf(selected), persistenceCount) else old(activeTopics)
    {
      var candidates := CollectCandidates(t, if updateActiveTopics then activeTopics else map[]);
      selected := TopicsOf(FirstFew(SortDescending(candidates), t.maxResults));
      if updateActiveTopics {
        UpdateActiveTopics(IdsOf(selected));
      }
    }

    method UpdateActiveTopics(selectedIds: set<string>)
      modifies this
      ensures activeTopics == Counted(old(activeTopics), selectedIds, persistenceCount)
    {
      ghost var was := activeTopics;
      AgeTopics(selectedIds);
      AddTopics(selectedIds);
      CountedPointwise(was, selectedIds, persistenceCount);
      SameLookups(activeTopics, Counted(was, selectedIds, persistenceCount));
    }

    method AgeTopics(selectedIds: set<string>)
      modifies this
      ensures forall id :: Lookup(activeTopics, id) == Aged(Lookup(old(activeTopics), id), id in selectedIds, persistenceCount)
    {
      var left := activeTopics.Keys;
      while left != {}
        invariant left <= old(activeTopics).Keys
        invariant forall id :: Lookup(activeTopics, id)
                    == if id in left then Lookup(old(activeTopics), id)
                       else Aged(Lookup(old(activeTopics), id), id in selectedIds, persistenceCount)
        decreases |left|
      {
        var id :| id in left;
        assert Lookup(activeTopics, id).Some?;
        left := left - {id};
        if id in selectedIds {
          activeTopics := activeTopics[id := Active(persistenceCount, persistenceCount)];
        } else {
          var newCounter := activeTopics[id].counter - 1;
          if newCounter <= 0 {
            activeTopics := activeTopics - {id};
          } else {
            activeTopics := activeTopics[id := activeTopics[id].(counter := newCounter)];
          }
        }
      }
    }

    method AddTopics(selectedIds: set<string>)
      modifies this
      ensures forall id :: Lookup(activeTopics, id) == Added(Lookup(old(activeTopics), id), id in selectedIds, persistenceCount)
    {
      var left := selectedIds;
      while left != {}
        invariant left <= selectedIds
        invariant forall id :: Lookup(activeTopics, id)
                    == Added(Lookup(old(activeTopics), id), id in selectedIds && id !in left, persistenceCount)
        decreases |left|
      {
        var id :| id in left;
        left := left - {id};
        if id !in activeTopics {
          activeTopics := activeTopics[id := Active(persistenceCount, persistenceCount)];
        }
      }
    }
  }

  // ---------------------------------------------------------------- runs

  lemma CountedKeepsCounting(active: ActiveTopics, selected: set<string>, k: int)
    requires Counting(active) && k >= 1
    ensures Counting(Counted(active, selected, k))
  {
  }

  /** The counters after some turns that were not blank; blank ones change nothing. */
  function After(turns: seq<Turn>, k: int): (active: ActiveTopics)
    requires k >= 1
    ensures Counting(active)
  {
    if turns == [] then map[]
    else
      var before := After(turns[..|turns| - 1], k);
      CountedKeepsCounting(before, IdsOf(Selected(turns[|turns| - 1], before)), k);
      Counted(before, IdsOf(Selected(turns[|turns| - 1], before)), k)
  }

  /** The ids each turn selected. */
  function AllPicks(turns: seq<Turn>, k: int): (picks: seq<set<string>>)
    requires k >= 1
    ensures |picks| == |turns|
  {
    if turns == [] then []
    else
      var before := turns[..|turns| - 1];
      AllPicks(before, k) + [IdsOf(Selected(turns[|turns| - 1], After(before, k)))]
  }

  function AfterPicks(picks: seq<set<string>>, k: int): ActiveTopics {
    if picks == [] then map[] else Counted(AfterPicks(picks[..|picks| - 1], k), picks[|picks| - 1], k)
  }

  lemma {:induction false} AfterIsAfterPicks(turns: seq<Turn>, k: int)
    requires k >= 1
    ensures After(turns, k) == AfterPicks(AllPicks(turns, k), k)
  {
    if turns != [] {
      AfterIsAfterPicks(turns[..|turns| - 1], k);
      assert AllPicks(turns, k)[..|turns| - 1] == AllPicks(turns[..|turns| - 1], k);
    }
  }

  ghost predicate PickedSince(picks: seq<set<string>>, from: int, id: string) {
    exists i :: 0 <= i < |picks| && from <= i && id in picks[i]
  }

  ghost predicate LastPicked(picks: seq<set<string>>, id: string, last: int) {
    0 <= last < |picks| && id in picks[last] && forall i :: last < i < |picks| ==> id !in picks[i]
  }

  lemma LastPickedLater(picks: seq<set<string>>, id: string, last: int, next: set<string>)
    requires LastPicked(picks, id, last) && id !in next
    ensures LastPicked(picks + [next], id, last)
  {
  }

  lemma PickedSinceSnoc(picks: seq<set<string>>, from: int, id: string, next: set<string>)
    requires from <= |picks|
    ensures PickedSince(picks + [next], from, id) <==> PickedSince(picks, from, id) || id in next
  {
    var all := picks + [next];
    assert all[|picks|] == next;
    if PickedSince(picks, from, id) {
      var i :| 0 <= i < |picks| && from <= i && id in picks[i];
      assert id in all[i];
    }
  }

  lemma PickedSinceFromLast(picks: seq<set<string>>, id: string, last: int, from: int)
    requires LastPicked(picks, id, last)
    ensures PickedSince(picks, from, id) <==> from <= last
  {
    assert id in picks[last];
  }

  lemma PickedBefore(picks: seq<set<string>>, from: int, id: string)
    ensures PickedSince(picks, from + 1, id) ==> PickedSince(picks, from, id)
  {
  }

  /** Active means selected in one of the last k turns, and the counter is k minus the turns since. */
  lemma {:induction false} ActiveMeansRecent(picks: seq<set<string>>, k: int, id: string)
    requires k >= 1
    ensures id in AfterPicks(picks, k) <==> PickedSince(picks, |picks| - k, id)
    ensures id in AfterPicks(picks, k) ==>
              var a := AfterPicks(picks, k)[id];
              a.maxCounter == k && 1 <= a.counter <= k && LastPicked(picks, id, |picks| - 1 - (k - a.counter))
  {
    if picks != [] {
      var n := |picks| - 1;
      var before, next := picks[..n], picks[n];
      assert picks == before + [next];
      ActiveMeansRecent(before, k, id);
      PickedSinceSnoc(before, |picks| - k, id, next);
      PickedBefore(before, n - k, id);
      hide PickedSince;
      if id in next {
        assert LastPicked(picks, id, n);
      } else if id in AfterPicks(before, k) {
        var last := n - 1 - (k - AfterPicks(before, k)[id].counter);
        LastPickedLater(before, id, last, next);
        PickedSinceFromLast(before, id, last, |picks| - k);
      }
    }
  }

  function Recent(picks: seq<set<string>>, from: int): set<string> {
    if from >= |picks| || picks == [] then {} else Recent(picks[..|picks| - 1], from) + picks[|picks| - 1]
  }

  lemma {:induction false} RecentAre(picks: seq<set<string>>, from: int, id: string)
    ensures id in Recent(picks, from) <==> PickedSince(picks, from, id)
  {
    if picks != [] && from < |picks| {
      var n := |picks| - 1;
      RecentAre(picks[..n], from, id);
      assert picks == picks[..n] + [picks[n]];
      PickedSinceSnoc(picks[..n], from, id, picks[n]);
    }
  }

  lemma {:induction false} RecentSize(picks: seq<set<string>>, from: int, turns: nat, most: nat)
    requires |picks| - from <= turns && forall i :: 0 <= i < |picks| ==> |picks[i]| <= most
    ensures |Recent(picks, from)| <= turns * most
    decreases |picks|
  {
    if from < |picks| && picks != [] {
      if turns > 0 {
        RecentSize(picks[..|picks| - 1], from, turns - 1, most);
        UnionSize(Recent(picks[..|picks| - 1], from), picks[|picks| - 1]);
        assert turns * most == (turns - 1) * most + most;
      }
    }
  }

  lemma UnionSize(a: set<string>, b: set<string>)
    ensures |a + b| <= |a| + |b|
  {
    assert a + b == a + (b - a);
    assert |a + (b - a)| == |a| + |b - a|;
    assert b == (b - a) + (b * a);
  }

  lemma {:induction false} IdsSize(topics: seq<Topic>)
    ensures |IdsOf(topics)| <= |topics|
  {
    if topics != [] {
      var n := |topics| - 1;
      IdsSize(topics[..n]);
      assert IdsOf(topics) == IdsOf(topics[..n]) + {topics[n].id} by {
        forall id | id in IdsOf(topics)
          ensures id in IdsOf(topics[..n]) + {topics[n].id}
        {
          var i :| 0 <= i < |topics| && topics[i].id == id;
          assert i < n ==> topics[..n][i].id == id;
        }
      }
    }
  }

  lemma {:induction false} PicksSize(turns: seq<Turn>, k: int, most: nat)
    requires k >= 1 && forall i :: 0 <= i < |turns| ==> turns[i].maxResults <= most
    ensures forall i :: 0 <= i < |turns| ==> |AllPicks(turns, k)[i]| <= most
  {
    if turns != [] {
      var before, t := turns[..|turns| - 1], turns[|turns| - 1];
      PicksSize(before, k, most);
      SelectsTheBest(t, After(before, k));
      IdsSize(Selected(t, After(before, k)));
    }
  }

  lemma KeysAreRecent(picks: seq<set<string>>, k: int)
    requires k >= 1
    ensures AfterPicks(picks, k).Keys == Recent(picks, |picks| - k)
  {
    hide AfterPicks, Recent, PickedSince;
    forall id
      ensures id in AfterPicks(picks, k) <==> id in Recent(picks, |picks| - k)
    {
      ActiveMeansRecent(picks, k, id);
      RecentAre(picks, |picks| - k, id);
    }
  }

  lemma PicksBound(picks: seq<set<string>>, k: int, most: nat)
    requires k >= 1 && forall i :: 0 <= i < |picks| ==> |picks[i]| <= most
    ensures |AfterPicks(picks, k)| <= k * most
  {
    hide AfterPicks, Recent;
    RecentSize(picks, |picks| - k, k, most);
    KeysAreRecent(picks, k);
    assert |AfterPicks(picks, k)| == |AfterPicks(picks, k).Keys|;
  }

  /** Never more active topics than results of k turns. */
  lemma AtMostAllRecent(turns: seq<Turn>, k: int, most: nat)
    requires k >= 1 && forall i :: 0 <= i < |turns| ==> turns[i].maxResults <= most
    ensures |After(turns, k)| <= k * most
  {
    hide After, AfterPicks, AllPicks, Counting;
    AfterIsAfterPicks(turns, k);
    PicksSize(turns, k, most);
    PicksBound(AllPicks(turns, k), k, most);
  }

  // ---------------------------------------------------------------- staying

  predicate Fits(t: Turn, active: ActiveTopics, topic: Topic)
    requires Counting(active)
  {
    topic in t.topics && InScope(topic, t.scope) && |Candidates(t, active, t.topics)| <= t.maxResults
  }

  /** While all candidates fit, an active topic in scope is selected again. */
  lemma ActiveIsSelected(t: Turn, active: ActiveTopics, topic: Topic)
    requires Counting(active) && Fits(t, active, topic) && topic.id in active
    ensures topic in Selected(t, active) && topic.id in IdsOf(Selected(t, active))
  {
    RankedSize(t, active);
    var j := OtherCandidate(t, active, topic);
    var i :| 0 <= i < |Selected(t, active)| && Selected(t, active)[i] == topic;
    assert Selected(t, active)[i].id in IdsOf(Selected(t, active));
  }

  lemma AfterLast(turns: seq<Turn>, k: int)
    requires k >= 1 && turns != []
    ensures var before := After(turns[..|turns| - 1], k);
            After(turns, k) == Counted(before, IdsOf(Selected(turns[|turns| - 1], before)), k)
  {
  }

  lemma SelectedStartOver(active: ActiveTopics, selected: set<string>, k: int, id: string)
    requires id in selected
    ensures id in Counted(active, selected, k) && Counted(active, selected, k)[id] == Active(k, k)
  {
  }

  ghost predicate FitsThroughout(turns: seq<Turn>, k: int, from: nat, topic: Topic)
    requires k >= 1
  {
    forall i :: from <= i < |turns| ==> Fits(turns[i], After(turns[..i], k), topic)
  }

  lemma FitsBefore(turns: seq<Turn>, k: int, from: nat, topic: Topic)
    requires k >= 1 && from < |turns| && FitsThroughout(turns, k, from, topic)
    ensures FitsThroughout(turns[..|turns| - 1], k, from, topic)
    ensures Fits(turns[|turns| - 1], After(turns[..|turns| - 1], k), topic)
  {
    var before := turns[..|turns| - 1];
    hide Fits, After;
    forall i | from <= i < |before|
      ensures Fits(before[i], After(before[..i], k), topic)
    {
      assert before[..i] == turns[..i] && before[i] == turns[i];
    }
  }

  /** Once active, a topic that stays in scope stays active with a full counter, as long as the candidates fit. */
  lemma {:induction false} NothingIsDropped(turns: seq<Turn>, k: int, from: nat, topic: Topic)
    requires k >= 1 && from < |turns| && topic.id in After(turns[..from], k)
    requires FitsThroughout(turns, k, from, topic)
    ensures topic.id in After(turns, k) && After(turns, k)[topic.id] == Active(k, k)
    decreases |turns|
  {
    hide After, Counted, FitsThroughout, Fits, Counting, Candidates, IdsOf, InScope, Selected;
    var n := |turns| - 1;
    var before := turns[..n];
    AfterLast(turns, k);
    FitsBefore(turns, k, from, topic);
    if from < n {
      assert before[..from] == turns[..from];
      NothingIsDropped(before, k, from, topic);
    }
    ActiveIsSelected(turns[n], After(before, k), topic);
    SelectedStartOver(After(before, k), IdsOf(Selected(turns[n], After(before, k))), k, topic.id);
  }
}
