/** Cutting a stream that arrives in pieces into newline-terminated lines. */
module LineFraming {
  import opened Basics

  function IndexOf(s: string, c: char): (r: Option<nat>)
    ensures r.Some? ==> r.value < |s| && s[r.value] == c && forall i :: 0 <= i < r.value ==> s[i] != c
    ensures r.None? ==> c !in s
  {
    if s == "" then None
    else if s[0] == c then Some(0)
    else
      var rest := IndexOf(s[1..], c);
      assert s == [s[0]] + s[1..];
      if rest.None? then None else Some(rest.value + 1)
  }

  /** The lines that are complete, without their newlines. */
  function Lines(s: string): seq<string>
    decreases |s|
  {
    var i := IndexOf(s, '\n');
    if i.None? then [] else [s[..i.value]] + Lines(s[i.value + 1..])
  }

  /** What follows the last newline. */
  function Rest(s: string): string
    decreases |s|
  {
    var i := IndexOf(s, '\n');
    if i.None? then s else Rest(s[i.value + 1..])
  }

  function Concat(chunks: seq<string>): string {
    if chunks == [] then "" else Concat(chunks[..|chunks| - 1]) + chunks[|chunks| - 1]
  }

  /** The text made of these lines and this unfinished one. */
  function Unlines(lines: seq<string>, rest: string): string {
    if lines == [] then rest else lines[0] + "\n" + Unlines(lines[1..], rest)
  }

  predicate NoNewline(lines: seq<string>) {
    forall i :: 0 <= i < |lines| ==> '\n' !in lines[i]
  }

  lemma IndexOfIs(s: string, c: char, i: nat)
    requires i < |s| && s[i] == c && forall k :: 0 <= k < i ==> s[k] != c
    ensures IndexOf(s, c) == Some(i)
  {
    var r := IndexOf(s, c);
    assert s[i] in s;
    assert !(r.value < i) && !(i < r.value);
  }

  /** Framing is the only way to read the text as lines. */
  lemma {:induction false} FramingUnique(s: string, lines: seq<string>, rest: string)
    ensures NoNewline(lines) && '\n' !in rest && s == Unlines(lines, rest) <==> lines == Lines(s) && rest == Rest(s)
    decreases |s|
  {
    hide IndexOf, Lines, Rest;
    var i := IndexOf(s, '\n');
    if i.Some? {
      var tail := s[i.value + 1..];
      FirstLine(s, i.value);
      assert s == s[..i.value] + "\n" + tail;
      FramingUnique(tail, Lines(tail), Rest(tail));
      assert '\n' !in s[..i.value];
    } else {
      NoLine(s);
    }
    if NoNewline(lines) && '\n' !in rest && s == Unlines(lines, rest) {
      if lines != [] {
        assert s == lines[0] + ("\n" + Unlines(lines[1..], rest));
        assert forall k :: 0 <= k < |lines[0]| ==> s[k] == lines[0][k] && lines[0][k] in lines[0];
        IndexOfIs(s, '\n', |lines[0]|);
        FirstLine(s, |lines[0]|);
        assert s[..|lines[0]|] == lines[0] && s[|lines[0]| + 1..] == Unlines(lines[1..], rest);
        FramingUnique(Unlines(lines[1..], rest), lines[1..], rest);
        assert lines == [lines[0]] + lines[1..];
      }
    }
  }

  lemma NoLine(s: string)
    requires IndexOf(s, '\n').None?
    ensures Lines(s) == [] && Rest(s) == s
  {
  }

  lemma FirstLine(s: string, n: nat)
    requires IndexOf(s, '\n') == Some(n)
    ensures Lines(s) == [s[..n]] + Lines(s[n + 1..]) && Rest(s) == Rest(s[n + 1..])
  {
  }

  /** Keeping only the unfinished line between pieces loses nothing. */
  lemma {:induction false} FramingStep(a: string, b: string)
    ensures Lines(a + b) == Lines(a) + Lines(Rest(a) + b) && Rest(a + b) == Rest(Rest(a) + b)
    decreases |a|
  {
    hide IndexOf, Lines, Rest;
    var i := IndexOf(a, '\n');
    if i.None? {
      NoLine(a);
    } else {
      var n := i.value;
      assert forall k :: 0 <= k < n ==> (a + b)[k] == a[k];
      IndexOfIs(a + b, '\n', n);
      FirstLine(a, n);
      FirstLine(a + b, n);
      var tail := a[n + 1..];
      assert (a + b)[..n] == a[..n] && (a + b)[n + 1..] == tail + b;
      FramingStep(tail, b);
    }
  }

  lemma {:induction false} RestHasNoNewline(s: string)
    ensures '\n' !in Rest(s) && Lines(Rest(s)) == [] && Rest(Rest(s)) == Rest(s)
    decreases |s|
  {
    var i := IndexOf(s, '\n');
    if i.Some? {
      RestHasNoNewline(s[i.value + 1..]);
    }
  }
}
