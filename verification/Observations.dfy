/**
 * The observation lifecycle of services/memstore/main.go: an append-only table, edges that supersede or
 * retract, and a delete that foreign keys restrict.
 */
module Observations {
  import opened Basics

  datatype Observation = Observation(entityType: string, entityName: string, body: string, tags: seq<string>)

  /** superseded_by when a target is given, retracted otherwise. */
  datatype Relation = Relation(source: nat, target: Option<nat>, reason: string)

  /** The two tables; relations in the order of their ids, `sequence` the observations' AUTOINCREMENT counter. */
  datatype Store = Store(observations: map<nat, Observation>, relations: seq<Relation>, sequence: nat)

  datatype Error =
    | TypeRequired | NameRequired | BodyRequired | IdRequired
    | NotFound(id: int) | EntityMismatch(id: int) | AlreadyClosed(id: int)
    | Restricted | StorageError

  datatype Result<+T> = Ok(value: T) | Err(error: Error)

  datatype Draft = Draft(entityType: string, entityName: string, body: string, tags: seq<string>, supersedesId: int)

  datatype Request =
    | Add(draft: Draft)
    | Retract(id: int, reason: string)
    | Delete(id: int)

  const EmptyStore := Store(map[], [], 0)

  // ---------------------------------------------------------------- queries

  predicate HasEdge(relations: seq<Relation>, id: nat) {
    exists i :: 0 <= i < |relations| && relations[i].source == id
  }

  /** Some relation names the observation, as source or as target. */
  predicate InHistory(relations: seq<Relation>, id: nat) {
    exists i :: 0 <= i < |relations| && (relations[i].source == id || relations[i].target == Some(id))
  }

  /** What lists and searches show unless history is asked for. */
  function Current(s: Store): set<nat> {
    set id | id in s.observations && !HasEdge(s.relations, id)
  }

  // ---------------------------------------------------------------- requests

  function Described(s: Store, d: Draft): Result<Draft>
  {
    if d.supersedesId <= 0 && d.entityType == "" then Err(TypeRequired)
    else if d.supersedesId <= 0 && d.entityName == "" then Err(NameRequired)
    else if d.body == "" then Err(BodyRequired)
    else if d.supersedesId <= 0 then Ok(d)
    else if d.supersedesId !in s.observations then Err(NotFound(d.supersedesId))
    else
      var prior := s.observations[d.supersedesId];
      var e := d.(entityType := if d.entityType == "" then prior.entityType else d.entityType,
                  entityName := if d.entityName == "" then prior.entityName else d.entityName);
      if prior.entityType != e.entityType || prior.entityName != e.entityName then Err(EntityMismatch(d.supersedesId))
      else if HasEdge(s.relations, d.supersedesId) then Err(AlreadyClosed(d.supersedesId))
      else Ok(e)
  }

  /** The answer to a request and the store after it; a storage error rolls the transaction back. */
  function Apply(s: Store, r: Request, storageFails: bool): (Store, Result<nat>) {
    match r
    case Add(draft) => (
      var d := Described(s, draft);
      if d.Err? && (d.error.TypeRequired? || d.error.NameRequired? || d.error.BodyRequired?) then (s, Err(d.error))
      else if storageFails then (s, Err(StorageError))
      else if d.Err? then (s, Err(d.error))
      else
        var e := d.value;
        var id := s.sequence + 1;
        var edges := if e.supersedesId > 0 then [Relation(e.supersedesId, Some(id), "")] else [];
        (Store(s.observations[id := Observation(e.entityType, e.entityName, e.body, e.tags)], s.relations + edges, id), Ok(id)))
    case Retract(id, reason) =>
      if id <= 0 then (s, Err(IdRequired))
      else if storageFails then (s, Err(StorageError))
      else if id !in s.observations then (s, Err(NotFound(id)))
      else if HasEdge(s.relations, id) then (s, Err(AlreadyClosed(id)))
      else (s.(relations := s.relations + [Relation(id, None, reason)]), Ok(id))
    case Delete(id) =>
      if id <= 0 then (s, Err(IdRequired))
      else if storageFails then (s, Err(StorageError))
      else if id in s.observations && InHistory(s.relations, id) then (s, Err(Restricted))
      else (s.(observations := s.observations - {id}), Ok(if id in s.observations then id else 0))
  }

  function Replay(s: Store, requests: seq<(Request, bool)>): Store
    decreases |requests|
  {
    if requests == [] then s else Replay(Apply(s, requests[0].0, requests[0].1).0, requests[1..])
  }

  // ---------------------------------------------------------------- what every reachable store keeps

  predicate SameEntity(s: Store, a: nat, b: nat) {
    a in s.observations && b in s.observations
    && s.observations[a].entityType == s.observations[b].entityType
    && s.observations[a].entityName == s.observations[b].entityName
  }

  ghost predicate EdgesOk(s: Store) {
    && (forall i :: 0 <= i < |s.relations| ==> s.relations[i].source in s.observations)
    && (forall i :: 0 <= i < |s.relations| && s.relations[i].target.Some? ==>
          s.relations[i].source < s.relations[i].target.value && SameEntity(s, s.relations[i].source, s.relations[i].target.value))
  }

  ghost predicate OneOut(relations: seq<Relation>) {
    forall i, j :: 0 <= i < j < |relations| ==> relations[i].source != relations[j].source
  }

  ghost predicate OneIn(relations: seq<Relation>) {
    forall i, j :: 0 <= i < j < |relations| && relations[i].target.Some? ==> relations[i].target != relations[j].target
  }

  ghost predicate Inv(s: Store) {
    && (forall id :: id in s.observations ==> 1 <= id <= s.sequence)
    && EdgesOk(s) && OneOut(s.relations) && OneIn(s.relations)
  }

  lemma ApplyInv(s: Store, r: Request, storageFails: bool)
    requires Inv(s)
    ensures Inv(Apply(s, r, storageFails).0)
  {
  }

  lemma {:induction false} ReplayInv(s: Store, requests: seq<(Request, bool)>)
    requires Inv(s)
    ensures Inv(Replay(s, requests))
    decreases |requests|
  {
    if requests != [] {
      ApplyInv(s, requests[0].0, requests[0].1);
      ReplayInv(Apply(s, requests[0].0, requests[0].1).0, requests[1..]);
    }
  }

  // ---------------------------------------------------------------- chains

  /** The observation that replaced this one. */
  ghost predicate Replaces(relations: seq<Relation>, a: nat, b: nat) {
    exists i :: 0 <= i < |relations| && relations[i].source == a && relations[i].target == Some(b)
  }

  function Successor(relations: seq<Relation>, id: nat): (r: Option<nat>)
    ensures r.Some? ==> Replaces(relations, id, r.value)
    ensures r.None? ==> forall i :: 0 <= i < |relations| && relations[i].source == id ==> relations[i].target.None?
  {
    if relations == [] then None
    else
      var last := relations[|relations| - 1];
      if last.source == id && last.target.Some? then
        assert relations[|relations| - 1].target == Some(last.target.value);
        last.target
      else
        var r := Successor(relations[..|relations| - 1], id);
        assert r.Some? ==> Replaces(relations, id, r.value) by {
          if r.Some? {
            var i :| 0 <= i < |relations| - 1 && relations[..|relations| - 1][i].source == id
                     && relations[..|relations| - 1][i].target == Some(r.value);
            assert relations[i].target == Some(r.value);
          }
        }
        assert forall i :: 0 <= i < |relations| - 1 ==> relations[..|relations| - 1][i] == relations[i];
        r
  }

  lemma SuccessorUp(s: Store, id: nat)
    requires Inv(s) && Successor(s.relations, id).Some?
    ensures var n := Successor(s.relations, id).value;
            id < n <= s.sequence && SameEntity(s, id, n)
  {
  }

  /** Following superseded_by to its end. */
  ghost function Tip(s: Store, id: nat): nat
    requires Inv(s)
    decreases s.sequence - id
  {
    var n := Successor(s.relations, id);
    if n.None? then id
    else
      SuccessorUp(s, id);
      Tip(s, n.value)
  }

  ghost predicate Reaches(s: Store, a: nat, b: nat)
    requires Inv(s)
    decreases s.sequence - a
  {
    a == b ||
    var n := Successor(s.relations, a);
    n.Some? && (SuccessorUp(s, a); Reaches(s, n.value, b))
  }

  lemma {:induction false} TipIsEnd(s: Store, id: nat)
    requires Inv(s) && id in s.observations
    ensures Successor(s.relations, Tip(s, id)).None? && Reaches(s, id, Tip(s, id))
    ensures id <= Tip(s, id) && SameEntity(s, id, Tip(s, id))
    decreases s.sequence - id
  {
    var n := Successor(s.relations, id);
    if n.Some? {
      SuccessorUp(s, id);
      TipIsEnd(s, n.value);
    }
  }

  lemma OnePredecessor(s: Store, a: nat, b: nat, n: nat)
    requires Inv(s) && Successor(s.relations, a) == Some(n) && Successor(s.relations, b) == Some(n)
    ensures a == b
  {
    var i :| 0 <= i < |s.relations| && s.relations[i].source == a && s.relations[i].target == Some(n);
    var j :| 0 <= j < |s.relations| && s.relations[j].source == b && s.relations[j].target == Some(n);
    assert i == j;
  }

  lemma {:induction false} LastStep(s: Store, b: nat, a: nat, n: nat)
    requires Inv(s) && Successor(s.relations, a) == Some(n) && Reaches(s, b, n) && b != n
    ensures Reaches(s, b, a)
    decreases s.sequence - b
  {
    var next := Successor(s.relations, b).value;
    SuccessorUp(s, b);
    if next == n {
      OnePredecessor(s, a, b, n);
    } else {
      LastStep(s, next, a, n);
    }
  }

  /** Observations with the same end lie on one line: one of them leads to the other. */
  lemma {:induction false} ChainsAreLines(s: Store, a: nat, b: nat)
    requires Inv(s) && a in s.observations && b in s.observations && Tip(s, a) == Tip(s, b)
    ensures Reaches(s, a, b) || Reaches(s, b, a)
    decreases s.sequence - a
  {
    var n := Successor(s.relations, a);
    if n.None? {
      TipIsEnd(s, b);
    } else {
      SuccessorUp(s, a);
      ChainsAreLines(s, n.value, b);
      if !Reaches(s, n.value, b) {
        LastStep(s, b, a, n.value);
      }
    }
  }

  /** A current observation ends its chain, so a chain has at most one. */
  lemma OneCurrentPerChain(s: Store, a: nat, b: nat)
    requires Inv(s) && a in Current(s) && b in Current(s) && Tip(s, a) == Tip(s, b)
    ensures a == b
  {
    CurrentIsTip(s, a);
    CurrentIsTip(s, b);
  }

  lemma CurrentIsTip(s: Store, a: nat)
    requires Inv(s) && a in Current(s)
    ensures Tip(s, a) == a
  {
    assert Successor(s.relations, a).Some? ==> HasEdge(s.relations, a);
  }

  /** The end of a chain is either current or retracted, never superseded. */
  lemma TipCurrentOrRetracted(s: Store, id: nat)
    requires Inv(s) && id in s.observations
    ensures Tip(s, id) in Current(s)
            <==> !(exists i :: 0 <= i < |s.relations| && s.relations[i].source == Tip(s, id) && s.relations[i].target.None?)
  {
    TipIsEnd(s, id);
  }

  // ---------------------------------------------------------------- counting

  function Sources(relations: seq<Relation>): set<nat> {
    set i | 0 <= i < |relations| :: relations[i].source
  }

  lemma {:induction false} SourcesCounted(relations: seq<Relation>)
    requires OneOut(relations)
    ensures |Sources(relations)| == |relations|
  {
    if relations != [] {
      var n := |relations| - 1;
      SourcesCounted(relations[..n]);
      assert forall i :: 0 <= i < n ==> relations[..n][i] == relations[i];
      assert Sources(relations) == Sources(relations[..n]) + {relations[n].source} by {
        assert forall x :: x in Sources(relations) ==> x in Sources(relations[..n]) + {relations[n].source};
        forall x | x in Sources(relations[..n]) ensures x in Sources(relations) {
          var i :| 0 <= i < n && relations[..n][i].source == x;
          assert relations[i].source == x;
        }
      }
      assert relations[n].source !in Sources(relations[..n]);
    }
  }

  /** Every edge closes exactly one observation. */
  lemma CurrentCount(s: Store)
    requires Inv(s)
    ensures |Current(s)| == |s.observations| - |s.relations|
  {
    SourcesCounted(s.relations);
    assert Current(s) == s.observations.Keys - Sources(s.relations);
    assert Sources(s.relations) <= s.observations.Keys;
    CountDifference(s.observations.Keys, Sources(s.relations));
  }

  lemma CountDifference(a: set<nat>, b: set<nat>)
    requires b <= a
    ensures |a - b| == |a| - |b|
  {
    assert a == (a - b) + b;
  }

  /** In every reachable store: chains are lines with at most one current end, and the count works out. */
  lemma ReachableChains(requests: seq<(Request, bool)>, a: nat, b: nat)
    ensures var s := Replay(EmptyStore, requests);
            && Inv(s)
            && |Current(s)| == |s.observations| - |s.relations|
            && (a in s.observations && b in s.observations && Tip(s, a) == Tip(s, b) ==>
                  && (Reaches(s, a, b) || Reaches(s, b, a)) && SameEntity(s, a, b)
                  && (a in Current(s) && b in Current(s) ==> a == b))
  {
    ReplayInv(EmptyStore, requests);
    var s := Replay(EmptyStore, requests);
    CurrentCount(s);
    if a in s.observations && b in s.observations && Tip(s, a) == Tip(s, b) {
      ChainsAreLines(s, a, b);
      TipIsEnd(s, a);
      TipIsEnd(s, b);
      if a in Current(s) && b in Current(s) {
        OneCurrentPerChain(s, a, b);
      }
    }
  }

  // ---------------------------------------------------------------- what a request may change

  /** History is never rewritten: edges stay, their endpoints stay, and nothing is edited in place. */
  lemma HistoryKept(s: Store, r: Request, storageFails: bool)
    requires Inv(s)
    ensures var t := Apply(s, r, storageFails).0;
            && s.relations <= t.relations
            && (forall id :: id in s.observations && id in t.observations ==> t.observations[id] == s.observations[id])
            && (forall id :: id in s.observations && id !in t.observations ==> r == Delete(id) && !InHistory(s.relations, id))
            && (forall id :: id in t.observations && id !in s.observations ==> id == s.sequence + 1 && r.Add?)
  {
  }

  /** A correction moves the chain's current end from the old observation to the new one. */
  lemma SupersedeMovesTheEnd(s: Store, d: Draft)
    requires Inv(s) && d.supersedesId > 0 && Apply(s, Add(d), false).1.Ok?
    ensures var t := Apply(s, Add(d), false).0;
            Current(t) == Current(s) - {d.supersedesId} + {s.sequence + 1} && d.supersedesId in Current(s)
  {
    var t := Apply(s, Add(d), false).0;
    var n := |s.relations|;
    assert t.relations[n].source == d.supersedesId;
    forall id
      ensures HasEdge(t.relations, id) <==> HasEdge(s.relations, id) || id == d.supersedesId
    {
      if HasEdge(s.relations, id) {
        var i :| 0 <= i < n && s.relations[i].source == id;
        assert t.relations[i].source == id;
      }
    }
    assert !HasEdge(s.relations, s.sequence + 1);
  }

  lemma EdgesSnoc(relations: seq<Relation>, r: Relation, id: nat)
    ensures HasEdge(relations + [r], id) <==> HasEdge(relations, id) || id == r.source
  {
    var more := relations + [r];
    assert more[|relations|] == r;
    if HasEdge(relations, id) {
      var i :| 0 <= i < |relations| && relations[i].source == id;
      assert more[i].source == id;
    }
  }

  /** A retraction closes the observation, which was current, by one edge that leads nowhere and keeps the reason. */
  lemma RetractClosesTheEnd(s: Store, id: int, reason: string, storageFails: bool)
    requires Apply(s, Retract(id, reason), storageFails).1.Ok?
    ensures var (t, answer) := Apply(s, Retract(id, reason), storageFails);
            && id > 0 && id in Current(s) && answer == Ok(id as nat)
            && Current(t) == Current(s) - {id} && t.observations == s.observations && t.sequence == s.sequence
            && |t.relations| == |s.relations| + 1 && t.relations[..|s.relations|] == s.relations
            && t.relations[|s.relations|].source == id && t.relations[|s.relations|].target.None?
            && t.relations[|s.relations|].reason == reason
  {
    forall k: nat
      ensures HasEdge(s.relations + [Relation(id, None, reason)], k) <==> HasEdge(s.relations, k) || k == id
    {
      EdgesSnoc(s.relations, Relation(id, None, reason), k);
    }
  }

  /** A deletion removes exactly that row, if there is one, and no edge. */
  lemma DeleteRemovesTheRow(s: Store, id: int, storageFails: bool)
    requires Apply(s, Delete(id), storageFails).1.Ok?
    ensures var (t, answer) := Apply(s, Delete(id), storageFails);
            && t.relations == s.relations && t.sequence == s.sequence
            && (forall k :: k in t.observations <==> k in s.observations && k != id)
            && (forall k :: k in t.observations ==> t.observations[k] == s.observations[k])
            && answer.value == if id in s.observations then id else 0
  {
  }

  /**
   * An observation is stored as drafted under a new id; one that supersedes another is of the other's type and
   * name, and the edge from it to the new one is the only change to history.
   */
  lemma AddStoresTheDraft(s: Store, d: Draft, storageFails: bool)
    requires Apply(s, Add(d), storageFails).1.Ok?
    ensures var (t, answer) := Apply(s, Add(d), storageFails);
            var id := s.sequence + 1;
            && answer == Ok(id) && t.sequence == id && id in t.observations
            && t.observations[id].body == d.body && t.observations[id].tags == d.tags
            && (forall k :: k in t.observations && k != id <==> k in s.observations && k != id)
            && (forall k :: k in t.observations && k != id ==> t.observations[k] == s.observations[k])
            && (d.supersedesId <= 0 ==>
                  t.relations == s.relations
                  && t.observations[id].entityType == d.entityType && t.observations[id].entityName == d.entityName)
            && (d.supersedesId > 0 ==>
                  && d.supersedesId in s.observations
                  && t.observations[id].entityType == s.observations[d.supersedesId].entityType
                  && t.observations[id].entityName == s.observations[d.supersedesId].entityName
                  && |t.relations| == |s.relations| + 1 && t.relations[..|s.relations|] == s.relations
                  && t.relations[|s.relations|].source == d.supersedesId && t.relations[|s.relations|].target == Some(id)
                  && t.relations[|s.relations|].reason == "")
  {
  }

  /** What a draft leaves open, or says as the observation it supersedes. */
  predicate Fits(given: string, prior: string) {
    given == "" || given == prior
  }

  /** Exactly which drafts are refused, with which error, in which order of the checks. */
  lemma AddRefusals(s: Store, d: Draft, storageFails: bool)
    ensures var (t, answer) := Apply(s, Add(d), storageFails);
            var superseding := d.supersedesId > 0;
            var typed, named := superseding || d.entityType != "", superseding || d.entityName != "";
            var complete := typed && named && d.body != "";
            && (answer.Err? ==> t == s)
            && (answer == Err(TypeRequired) <==> !typed)
            && (answer == Err(NameRequired) <==> typed && !named)
            && (answer == Err(BodyRequired) <==> typed && named && d.body == "")
            && (answer == Err(StorageError) <==> complete && storageFails)
            && (answer == Err(NotFound(d.supersedesId)) <==>
                  complete && !storageFails && superseding && d.supersedesId !in s.observations)
            && (complete && !storageFails && superseding && d.supersedesId in s.observations ==>
                  var prior := s.observations[d.supersedesId];
                  var fits := Fits(d.entityType, prior.entityType) && Fits(d.entityName, prior.entityName);
                  && (answer == Err(EntityMismatch(d.supersedesId)) <==> !fits)
                  && (answer == Err(AlreadyClosed(d.supersedesId)) <==> fits && d.supersedesId !in Current(s))
                  && (answer.Ok? <==> fits && d.supersedesId in Current(s)))
            && (complete && !storageFails && !superseding ==> answer.Ok?)
  {
  }

  /** And which retractions and deletions. */
  lemma OtherRefusals(s: Store, id: int, reason: string, storageFails: bool)
    ensures var (t, answer) := Apply(s, Retract(id, reason), storageFails);
            && (answer.Err? ==> t == s)
            && (answer == Err(IdRequired) <==> id <= 0)
            && (answer == Err(StorageError) <==> id > 0 && storageFails)
            && (answer == Err(NotFound(id)) <==> id > 0 && !storageFails && id !in s.observations)
            && (answer == Err(AlreadyClosed(id)) <==> id > 0 && !storageFails && id in s.observations && id !in Current(s))
            && (answer.Ok? <==> id > 0 && !storageFails && id in Current(s))
    ensures var (t, answer) := Apply(s, Delete(id), storageFails);
            && (answer.Err? ==> t == s)
            && (answer == Err(IdRequired) <==> id <= 0)
            && (answer == Err(StorageError) <==> id > 0 && storageFails)
            && (answer == Err(Restricted) <==> id > 0 && !storageFails && id in s.observations && InHistory(s.relations, id))
            && (answer.Ok? <==> id > 0 && !storageFails && !(id in s.observations && InHistory(s.relations, id)))
  {
  }

  /** An observation can be closed once: a second correction or retraction is refused and changes nothing. */
  lemma ClosedStaysClosed(s: Store, r: Request, storageFails: bool, id: nat)
    requires Inv(s) && id in s.observations && id !in Current(s)
    requires (r.Add? && r.draft.supersedesId == id > 0) || (r.Retract? && r.id == id)
    ensures Apply(s, r, storageFails).1.Err? && Apply(s, r, storageFails).0 == s
  {
  }

  /** The server's handle on the database: each method is one transaction under dbMu. */
  class ObservationDb {
    var observations: map<nat, Observation>
    var relations: seq<Relation>
    var sequence: nat

    function Contents(): Store
      reads this
    {
      Store(observations, relations, sequence)
    }

    /** The SELECT COUNT(*) over the relations of one source. */
    method CountEdges(id: int) returns (n: nat)
      ensures n > 0 <==> id >= 0 && HasEdge(relations, id)
    {
      n := 0;
      for i := 0 to |relations|
        invariant n > 0 <==> exists k :: 0 <= k < i && relations[k].source == id
      {
        if relations[i].source == id {
          n := n + 1;
        }
      }
    }

    method AddObservation(draft: Draft, storageFails: bool) returns (result: Result<nat>)
      modifies this
      ensures (Contents(), result) == Apply(old(Contents()), Add(draft), storageFails)
    {
      if draft.supersedesId <= 0 && draft.entityType == "" {
        return Err(TypeRequired);
      }
      if draft.supersedesId <= 0 && draft.entityName == "" {
        return Err(NameRequired);
      }
      if draft.body == "" {
        return Err(BodyRequired);
      }
      if storageFails {
        return Err(StorageError);
      }
      var entityType, entityName := draft.entityType, draft.entityName;
      if draft.supersedesId > 0 {
        if draft.supersedesId !in observations {
          return Err(NotFound(draft.supersedesId));
        }
        var prior := observations[draft.supersedesId];
        if entityType == "" {
          entityType := prior.entityType;
        }
        if entityName == "" {
          entityName := prior.entityName;
        }
        if prior.entityType != entityType || prior.entityName != entityName {
          return Err(EntityMismatch(draft.supersedesId));
        }
        var edges := CountEdges(draft.supersedesId);
        if edges > 0 {
          return Err(AlreadyClosed(draft.supersedesId));
        }
      }
      sequence := sequence + 1;
      observations := observations[sequence := Observation(entityType, entityName, draft.body, draft.tags)];
      assert relations + [] == relations;
      if draft.supersedesId > 0 {
        relations := relations + [Relation(draft.supersedesId, Some(sequence), "")];
      }
      return Ok(sequence);
    }

    method RetractObservation(id: int, reason: string, storageFails: bool) returns (result: Result<nat>)
      modifies this`relations
      ensures (Contents(), result) == Apply(old(Contents()), Retract(id, reason), storageFails)
    {
      if id <= 0 {
        return Err(IdRequired);
      }
      if storageFails {
        return Err(StorageError);
      }
      if id !in observations {
        return Err(NotFound(id));
      }
      var edges := CountEdges(id);
      if edges > 0 {
        return Err(AlreadyClosed(id));
      }
      relations := relations + [Relation(id, None, reason)];
      return Ok(id);
    }

    /** ON DELETE RESTRICT: the scan SQLite makes of both foreign keys. */
    method IsReferenced(id: int) returns (found: bool)
      ensures found <==> id >= 0 && InHistory(relations, id)
    {
      found := false;
      for i := 0 to |relations|
        invariant found <==> exists k :: 0 <= k < i && (relations[k].source == id || (id >= 0 && relations[k].target == Some(id)))
      {
        if relations[i].source == id || (id >= 0 && relations[i].target == Some(id)) {
          found := true;
        }
      }
    }

    method DeleteObservation(id: int, storageFails: bool) returns (result: Result<nat>)
      modifies this`observations
      ensures (Contents(), result) == Apply(old(Contents()), Delete(id), storageFails)
    {
      if id <= 0 {
        return Err(IdRequired);
      }
      if storageFails {
        return Err(StorageError);
      }
      if id !in observations {
        assert observations - {id} == observations;
        return Ok(0);
      }
      var referenced := IsReferenced(id);
      if referenced {
        return Err(Restricted);
      }
      observations := observations - {id};
      return Ok(id);
    }
  }
}
