/**
 * The recency index of config/extensions/stateful-memory/memory-store.js: capped at every update, and
 * still what one would get by capping once at the end.
 */
module Recency {
  import opened Basics

  datatype Entry = Entry(sessionPath: string, timestamp: string, tags: seq<string>)

  const Cap := 50

  function Without(entries: seq<Entry>, path: string): seq<Entry> {
    if entries == [] then []
    else (if entries[0].sessionPath == path then [] else [entries[0]]) + Without(entries[1..], path)
  }

  function Take(entries: seq<Entry>, n: nat): seq<Entry> {
    if |entries| <= n then entries else entries[..n]
  }

  function Updated(entries: seq<Entry>, entry: Entry): seq<Entry> {
    Take([entry] + Without(entries, entry.sessionPath), Cap)
  }

  function UpdatedBy(updates: seq<Entry>): seq<Entry> {
    if updates == [] then [] else Updated(UpdatedBy(updates[..|updates| - 1]), updates[|updates| - 1])
  }

  class RecencyIndex {
    /** None until the file is first written. */
    var file: Option<seq<Entry>>

    function Entries(): seq<Entry>
      reads this
    {
      if file.Some? then file.value else []
    }

    constructor ()
      ensures Entries() == UpdatedBy([])
    {
      file := None;
    }

    method UpdateRecencyIndex(entry: Entry)
      modifies this
      ensures file == Some(Updated(old(Entries()), entry))
    {
      var entries := Entries();
      entries := Without(entries, entry.sessionPath);
      entries := [entry] + entries;
      if |entries| > Cap {
        entries := entries[..Cap];
      }
      file := Some(entries);
    }
  }

  // ---------------------------------------------------------------- the unbounded history

  predicate Mentions(updates: seq<Entry>, path: string) {
    exists i :: 0 <= i < |updates| && updates[i].sessionPath == path
  }

  /** The last update of every session, newest first, read off the updates themselves. */
  function Latest(updates: seq<Entry>): seq<Entry> {
    if updates == [] then []
    else Latest(updates[1..]) + (if Mentions(updates[1..], updates[0].sessionPath) then [] else [updates[0]])
  }

  predicate Distinct(entries: seq<Entry>) {
    forall i, j :: 0 <= i < j < |entries| ==> entries[i].sessionPath != entries[j].sessionPath
  }

  lemma {:induction false} LatestMembers(updates: seq<Entry>)
    ensures Distinct(Latest(updates))
    ensures forall i :: 0 <= i < |Latest(updates)| ==> Mentions(updates, Latest(updates)[i].sessionPath)
  {
    if updates != [] {
      var rest := updates[1..];
      LatestMembers(rest);
      var l := Latest(updates);
      assert updates[0].sessionPath == updates[0].sessionPath;
      forall i | 0 <= i < |l|
        ensures Mentions(updates, l[i].sessionPath)
      {
        if i < |Latest(rest)| {
          assert Mentions(rest, Latest(rest)[i].sessionPath);
          var k :| 0 <= k < |rest| && rest[k].sessionPath == l[i].sessionPath;
          assert updates[k + 1].sessionPath == l[i].sessionPath;
        } else {
          assert l[i] == updates[0];
        }
      }
    }
  }

  lemma {:induction false} WithoutConcat(a: seq<Entry>, b: seq<Entry>, path: string)
    ensures Without(a + b, path) == Without(a, path) + Without(b, path)
  {
    if a == [] {
      assert a + b == b;
    } else {
      assert (a + b)[1..] == a[1..] + b;
      WithoutConcat(a[1..], b, path);
    }
  }

  lemma MentionsSnoc(updates: seq<Entry>, e: Entry, path: string)
    ensures Mentions(updates + [e], path) <==> Mentions(updates, path) || e.sessionPath == path
  {
    var all := updates + [e];
    if Mentions(updates, path) {
      var i :| 0 <= i < |updates| && updates[i].sessionPath == path;
      assert all[i].sessionPath == path;
    }
    assert all[|updates|] == e;
  }

  lemma LatestFront(updates: seq<Entry>)
    requires updates != []
    ensures Latest(updates)
         == Latest(updates[1..]) + if Mentions(updates[1..], updates[0].sessionPath) then [] else [updates[0]]
  {
  }

  lemma LatestNothing(e: Entry)
    ensures Latest([]) == [] && Latest([e]) == [e] && Without([], e.sessionPath) == []
    ensures [] + [e] == [e]
  {
    assert [e][1..] == [];
  }

  lemma WithoutFew(entry: Entry, path: string)
    ensures Without([], path) == []
    ensures Without([entry], path) == if entry.sessionPath == path then [] else [entry]
  {
    assert [entry][1..] == [];
  }

  lemma {:induction false} LatestSnoc(updates: seq<Entry>, e: Entry)
    ensures Latest(updates + [e]) == [e] + Without(Latest(updates), e.sessionPath)
  {
    hide Without, Mentions, Latest;
    LatestNothing(e);
    if updates != [] {
      var rest := updates[1..];
      assert (updates + [e])[1..] == rest + [e];
      LatestSnoc(rest, e);
      MentionsSnoc(rest, e, updates[0].sessionPath);
      assert (updates + [e])[0] == updates[0];
      var oldest := if Mentions(rest, updates[0].sessionPath) then [] else [updates[0]];
      var kept := if Mentions(rest + [e], updates[0].sessionPath) then [] else [updates[0]];
      LatestFront(updates);
      LatestFront(updates + [e]);
      WithoutConcat(Latest(rest), oldest, e.sessionPath);
      WithoutFew(updates[0], e.sessionPath);
    }
  }

  lemma {:induction false} NoneRemoved(entries: seq<Entry>, path: string)
    requires !Mentions(entries, path)
    ensures Without(entries, path) == entries
  {
    if entries != [] {
      assert forall k :: 0 <= k < |entries[1..]| ==> entries[1..][k] == entries[k + 1];
      NoneRemoved(entries[1..], path);
    }
  }

  lemma {:induction false} AtMostOneRemoved(entries: seq<Entry>, path: string)
    requires Distinct(entries)
    ensures |Without(entries, path)| >= |entries| - 1
  {
    if entries != [] {
      if entries[0].sessionPath == path {
        NoneRemoved(entries[1..], path);
      } else {
        AtMostOneRemoved(entries[1..], path);
      }
    }
  }

  /** Cutting before and after the update is cutting after it: the cut leaves one entry to spare. */
  lemma CutTwice(entries: seq<Entry>, e: Entry, n: nat)
    requires Distinct(entries) && n > 0
    ensures Take([e] + Without(Take(entries, n), e.sessionPath), n) == Take([e] + Without(entries, e.sessionPath), n)
  {
    if |entries| > n {
      var first, rest := entries[..n], entries[n..];
      assert entries == first + rest;
      WithoutConcat(first, rest, e.sessionPath);
      AtMostOneRemoved(first, e.sessionPath);
    }
  }

  lemma DistinctTake(entries: seq<Entry>, n: nat)
    requires Distinct(entries)
    ensures Distinct(Take(entries, n))
  {
  }

  /** After any updates of an empty index it holds the first fifty entries of the unbounded history. */
  lemma {:induction false} CappingLosesNothing(updates: seq<Entry>)
    ensures UpdatedBy(updates) == if |Latest(updates)| <= 50 then Latest(updates) else Latest(updates)[..50]
    ensures Distinct(UpdatedBy(updates))
  {
    LatestMembers(updates);
    DistinctTake(Latest(updates), Cap);
    if updates != [] {
      var before, e := updates[..|updates| - 1], updates[|updates| - 1];
      assert updates == before + [e];
      CappingLosesNothing(before);
      LatestSnoc(before, e);
      LatestMembers(before);
      CutTwice(Latest(before), e, Cap);
    }
  }
}
