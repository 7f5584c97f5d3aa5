/** What the lines, fields and values of the event stream mean, in terms of the text that was sent. */
module EventStreamMeaning {
  import opened Basics
  import opened LineFraming
  import opened EventStream

  // ---------------------------------------------------------------- line ends

  /** The lines one by one, each ended by a newline, some of them with a carriage return before it, then `rest`. */
  function Ended(lines: seq<string>, crs: seq<bool>, rest: string): string
    requires |crs| == |lines|
  {
    if lines == [] then rest
    else lines[0] + (if crs[0] then "\r\n" else "\n") + Ended(lines[1..], crs[1..], rest)
  }

  /** No newline inside; and no carriage return at the end of a line that is ended by a newline only. */
  predicate Plain(lines: seq<string>, crs: seq<bool>)
    requires |crs| == |lines|
  {
    && NoNewline(lines)
    && forall i :: 0 <= i < |lines| && !crs[i] && lines[i] != "" ==> lines[i][|lines[i]| - 1] != '\r'
  }

  lemma StrippedFront(line: string, lines: seq<string>)
    ensures Stripped([line] + lines) == [StripCr(line)] + Stripped(lines)
    decreases |lines|
  {
    var all := [line] + lines;
    if lines == [] {
      assert all[..0] == [];
      assert Stripped([]) == [];
    } else {
      assert all[..|all| - 1] == [line] + lines[..|lines| - 1];
      StrippedFront(line, lines[..|lines| - 1]);
    }
  }

  /** The lines come back, however they were ended. */
  lemma {:induction false} EndedReads(lines: seq<string>, crs: seq<bool>, rest: string)
    requires |crs| == |lines| && Plain(lines, crs) && '\n' !in rest
    ensures Stripped(Lines(Ended(lines, crs, rest))) == lines && Rest(Ended(lines, crs, rest)) == rest
  {
    hide Lines, Rest, Stripped;
    var text := Ended(lines, crs, rest);
    if lines == [] {
      assert text == rest;
      NoNewlineInRest(rest);
    } else {
      var line, tail := lines[0], Ended(lines[1..], crs[1..], rest);
      var sent := if crs[0] then line + "\r" else line;
      assert text == sent + "\n" + tail;
      assert '\n' !in sent by { assert '\n' !in lines[0]; }
      assert forall k :: 0 <= k < |sent| ==> text[k] == sent[k] && sent[k] in sent;
      IndexOfIs(text, '\n', |sent|);
      FirstLine(text, |sent|);
      assert text[..|sent|] == sent && text[|sent| + 1..] == tail;
      EndedReads(lines[1..], crs[1..], rest);
      StrippedFront(sent, Lines(tail));
      SentLine(line, crs[0]);
      assert lines == [line] + lines[1..];
    }
  }

  lemma NoNewlineInRest(rest: string)
    requires '\n' !in rest
    ensures Stripped(Lines(rest)) == [] && Rest(rest) == rest
  {
    NoLine(rest);
  }

  lemma SentLine(line: string, cr: bool)
    requires !cr && line != "" ==> line[|line| - 1] != '\r'
    ensures StripCr(if cr then line + "\r" else line) == line
  {
  }

  /** Whether lines are ended by newlines or by carriage return and newline makes no difference to any event. */
  lemma LineEndsDoNotMatter(lines: seq<string>, a: seq<bool>, b: seq<bool>, rest: string)
    requires |a| == |b| == |lines| && Plain(lines, a) && Plain(lines, b) && '\n' !in rest
    ensures Batch(Ended(lines, a, rest)) == Batch(Ended(lines, b, rest))
    ensures OpenEvents(Stripped(Lines(Ended(lines, a, rest)))) == OpenEvents(Stripped(Lines(Ended(lines, b, rest))))
    ensures Batch(Ended(lines, a, rest)) == AllEvents(Blocks(lines)) + BlockEvents(LastBlock(lines))
  {
    hide Lines, Stripped, Blocks, LastBlock, AllEvents, BlockEvents;
    EndedReads(lines, a, rest);
    EndedReads(lines, b, rest);
  }

  // ---------------------------------------------------------------- values

  predicate AllSpace(s: string) {
    forall i :: 0 <= i < |s| ==> IsSpace(s[i])
  }

  predicate Tight(s: string) {
    s != "" ==> !IsSpace(s[0]) && !IsSpace(s[|s| - 1])
  }

  lemma {:induction false} TrimStartMeaning(s: string) returns (a: nat)
    ensures a <= |s| && TrimStart(s) == s[a..] && AllSpace(s[..a]) && (a < |s| ==> !IsSpace(s[a]))
  {
    hide IsSpace;
    a := 0;
    if s != "" && IsSpace(s[0]) {
      a := TrimStartMeaning(s[1..]);
      assert s[1..][a..] == s[a + 1..] && s[..a + 1] == [s[0]] + s[1..][..a];
      a := a + 1;
    }
  }

  lemma {:induction false} TrimEndMeaning(s: string) returns (b: nat)
    ensures b <= |s| && TrimEnd(s) == s[..b] && AllSpace(s[b..]) && (b > 0 ==> !IsSpace(s[b - 1]))
  {
    hide IsSpace;
    b := |s|;
    if s != "" && IsSpace(s[|s| - 1]) {
      b := TrimEndMeaning(s[..|s| - 1]);
      assert s[..|s| - 1][..b] == s[..b] && s[b..] == s[..|s| - 1][b..] + [s[|s| - 1]];
    }
  }

  /** A trimmed value is the text without the white space at both ends: nothing else is gone, and none is left. */
  lemma TrimMeaning(s: string) returns (a: nat, b: nat)
    ensures a <= b <= |s| && Trim(s) == s[a..b] && AllSpace(s[..a]) && AllSpace(s[b..]) && Tight(Trim(s))
  {
    hide IsSpace, TrimStart, TrimEnd;
    a := TrimStartMeaning(s);
    var n := TrimEndMeaning(s[a..]);
    b := a + n;
    assert s[a..][..n] == s[a..b] && s[a..][n..] == s[b..];
    if n > 0 { assert s[a..][n - 1] == s[b - 1]; }
  }

  /** The value of a field is that of the last line of the block that carries it. */
  lemma {:induction false} LastValueMeaning(block: seq<string>, field: string)
    ensures LastValue(block, field).None? <==> forall i :: 0 <= i < |block| ==> !(field <= block[i])
    ensures forall i :: 0 <= i < |block| && field <= block[i] && (forall j :: i < j < |block| ==> !(field <= block[j])) ==>
              LastValue(block, field) == Some(Trim(block[i][|field|..]))
  {
    hide Trim;
    if block != [] {
      var before := block[..|block| - 1];
      LastValueMeaning(before, field);
      assert forall i :: 0 <= i < |before| ==> before[i] == block[i];
    }
  }

  predicate Has(line: string, field: string) {
    field <= line
  }

  function After(line: string, field: string): string
    requires Has(line, field)
  {
    Trim(line[|field|..])
  }

  /** The values are those of the lines at these places, which are all that carry the field. */
  predicate ValuesAt(block: seq<string>, field: string, values: seq<string>, at: seq<nat>) {
    && |at| == |values| && (forall k, l :: 0 <= k < l < |at| ==> at[k] < at[l])
    && (forall k :: 0 <= k < |at| ==> at[k] < |block| && Has(block[at[k]], field) && values[k] == After(block[at[k]], field))
    && (forall i :: 0 <= i < |block| && Has(block[i], field) ==> i in at)
  }

  lemma ValuesSnoc(block: seq<string>, field: string, values: seq<string>, at: seq<nat>, line: string)
    requires ValuesAt(block, field, values, at)
    ensures if Has(line, field) then ValuesAt(block + [line], field, values + [After(line, field)], at + [|block|])
            else ValuesAt(block + [line], field, values, at)
  {
    hide Has, After;
    var more := at + [|block|];
    assert forall i :: i in at ==> i in more;
    assert more[|at|] == |block|;
  }

  /** All lines of a field count, in their order. */
  lemma {:induction false} AllValuesMeaning(block: seq<string>, field: string) returns (at: seq<nat>)
    ensures ValuesAt(block, field, AllValues(block, field), at)
  {
    hide Trim, ValuesAt;
    at := [];
    if block == [] {
      NoValuesAt(field);
    } else {
      var n := |block| - 1;
      at := AllValuesMeaning(block[..n], field);
      assert block == block[..n] + [block[n]];
      ValuesSnoc(block[..n], field, AllValues(block[..n], field), at, block[n]);
      assert AllValues(block[..n], field) + [] == AllValues(block[..n], field);
      if Has(block[n], field) { at := at + [n]; }
    }
  }

  lemma NoValuesAt(field: string)
    ensures ValuesAt([], field, [], [])
  {
  }

  // ---------------------------------------------------------------- data

  lemma UnlinesSnoc(lines: seq<string>, last: string, rest: string)
    ensures Unlines(lines + [last], rest) == Unlines(lines, last + "\n" + rest)
    decreases |lines|
  {
    if lines == [] {
      assert [last][1..] == [];
    } else {
      assert (lines + [last])[1..] == lines[1..] + [last];
      UnlinesSnoc(lines[1..], last, rest);
    }
  }

  lemma UnlinesConcat(lines: seq<string>, rest: string, more: string)
    ensures Unlines(lines, rest + more) == Unlines(lines, rest) + more
    decreases |lines|
  {
    if lines != [] {
      UnlinesConcat(lines[1..], rest, more);
      assert lines[0] + "\n" + (Unlines(lines[1..], rest) + more) == (lines[0] + "\n" + Unlines(lines[1..], rest)) + more;
    }
  }

  /** Joined data lines are the lines with a newline between each two: they can be told apart again. */
  lemma {:induction false} JoinedLines(lines: seq<string>)
    requires lines != []
    ensures JoinLines(lines) == Unlines(lines[..|lines| - 1], lines[|lines| - 1])
    ensures NoNewline(lines) ==> Lines(JoinLines(lines) + "\n") == lines
    decreases |lines|
  {
    var front, last := lines[..|lines| - 1], lines[|lines| - 1];
    assert lines == front + [last];
    if |lines| > 1 {
      var first, mid := front[..|front| - 1], front[|front| - 1];
      assert front == first + [mid];
      JoinedLines(front);
      UnlinesSnoc(first, mid, last);
      UnlinesConcat(first, mid, "\n" + last);
      assert mid + "\n" + last == mid + ("\n" + last);
      assert Unlines(first, mid) + ("\n" + last) == Unlines(first, mid) + "\n" + last;
    } else {
      assert front == [];
    }
    if NoNewline(lines) {
      UnlinesConcat(front, last, "\n");
      UnlinesSnoc(front, last, "");
      assert last + "\n" + "" == last + "\n";
      FramingUnique(JoinLines(lines) + "\n", lines, "");
    }
  }

  /** A block without data gives its comments' keepalives only, one for each; with data its own event after them. */
  lemma BlockMeaning(block: seq<string>)
    ensures var name, id := LastValue(block, "event:"), LastValue(block, "id:");
            var data := AllValues(block, "data:");
            && (data == [] ==> BlockEvents(block) == Comments(block))
            && (data != [] ==>
                  && |BlockEvents(block)| == |Comments(block)| + 1 && BlockEvents(block)[..|Comments(block)|] == Comments(block)
                  && var event := BlockEvents(block)[|Comments(block)|];
                     && event.event == (if name.Some? then name.value else "message")
                     && event.id == id && event.data == Some(JoinLines(data)))
    ensures |Comments(block)| == |AllValues(block, ":")|
    ensures forall i :: 0 <= i < |Comments(block)| ==> Comments(block)[i] == Event("__keepalive", None, None)
  {
    hide LastValue, AllValues, JoinLines;
    CommentsMeaning(block);
  }

  lemma {:induction false} CommentsMeaning(block: seq<string>)
    ensures |Comments(block)| == |AllValues(block, ":")|
    ensures forall i :: 0 <= i < |Comments(block)| ==> Comments(block)[i] == Event("__keepalive", None, None)
  {
    hide Trim;
    if block != [] {
      CommentsMeaning(block[..|block| - 1]);
    }
  }

  // ---------------------------------------------------------------- white space

  const WhiteSpace: set<int> :=
    {0x9, 0xA, 0xB, 0xC, 0xD, 0x20, 0xA0, 0x1680, 0x2000, 0x2001, 0x2002, 0x2003, 0x2004, 0x2005, 0x2006, 0x2007, 0x2008,
     0x2009, 0x200A, 0x2028, 0x2029, 0x202F, 0x205F, 0x3000, 0xFEFF}

  /** White space is that of sections 12.2 and 12.3 of the ECMAScript Language Specification. */
  lemma SpacesAreStandard(c: char)
    ensures IsSpace(c) <==> c as int in WhiteSpace
  {
  }
}
