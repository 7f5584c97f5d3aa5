/**
 * consumeStream of services/forum/packages/server/src/echsClient.ts: server-sent events taken apart while
 * the text is still arriving, against a reading of the whole text block by block.
 */
module EventStream {
  import opened Basics
  import opened LineFraming

  /** `data` is the text handed to the JSON parser; keepalives carry none. */
  datatype Event = Event(event: string, data: Option<string>, id: Option<string>)

  const Keepalive := Event("__keepalive", None, None)

  // ---------------------------------------------------------------- lines

  /** At most one carriage return goes, at the very end. */
  function StripCr(line: string): string {
    if line != "" && line[|line| - 1] == '\r' then line[..|line| - 1] else line
  }

  predicate IsSpace(c: char) {
    || c in " \t\n\r" || c == '\U{000B}' || c == '\U{000C}' || c == '\U{00A0}' || c == '\U{FEFF}'
    || c == '\U{1680}' || '\U{2000}' <= c <= '\U{200A}' || c == '\U{2028}' || c == '\U{2029}'
    || c == '\U{202F}' || c == '\U{205F}' || c == '\U{3000}'
  }

  function TrimStart(s: string): string {
    if s != "" && IsSpace(s[0]) then TrimStart(s[1..]) else s
  }

  function TrimEnd(s: string): string {
    if s != "" && IsSpace(s[|s| - 1]) then TrimEnd(s[..|s| - 1]) else s
  }

  function Trim(s: string): string {
    TrimEnd(TrimStart(s))
  }

  predicate IsComment(line: string) {
    ":" <= line
  }

  const EventField := "event:"
  const IdField := "id:"
  const DataField := "data:"

  // ---------------------------------------------------------------- blocks

  /** The lines behind the last empty one. */
  function LastBlock(lines: seq<string>): seq<string> {
    if lines == [] || lines[|lines| - 1] == "" then []
    else LastBlock(lines[..|lines| - 1]) + [lines[|lines| - 1]]
  }

  /** The blocks ended by an empty line. */
  function Blocks(lines: seq<string>): seq<seq<string>> {
    if lines == [] then []
    else
      var before := lines[..|lines| - 1];
      Blocks(before) + if lines[|lines| - 1] == "" then [LastBlock(before)] else []
  }

  /** The value of the last line of a block that carries the field. */
  function LastValue(block: seq<string>, field: string): Option<string> {
    if block == [] then None
    else if field <= block[|block| - 1] then Some(Trim(block[|block| - 1][|field|..]))
    else LastValue(block[..|block| - 1], field)
  }

  function AllValues(block: seq<string>, field: string): seq<string> {
    if block == [] then []
    else
      AllValues(block[..|block| - 1], field)
      + if field <= block[|block| - 1] then [Trim(block[|block| - 1][|field|..])] else []
  }

  function Comments(block: seq<string>): seq<Event> {
    if block == [] then []
    else Comments(block[..|block| - 1]) + if IsComment(block[|block| - 1]) then [Keepalive] else []
  }

  function JoinLines(lines: seq<string>): string {
    if lines == [] then ""
    else if |lines| == 1 then lines[0]
    else JoinLines(lines[..|lines| - 1]) + "\n" + lines[|lines| - 1]
  }

  function Dispatched(name: Option<string>, id: Option<string>, data: seq<string>): seq<Event> {
    if data == [] then [] else [Event(if name.Some? then name.value else "message", Some(JoinLines(data)), id)]
  }

  /** A keepalive per comment, then the block's own event if it has data. */
  function BlockEvents(block: seq<string>): seq<Event> {
    Comments(block) + Dispatched(LastValue(block, EventField), LastValue(block, IdField), AllValues(block, DataField))
  }

  function AllEvents(blocks: seq<seq<string>>): seq<Event> {
    if blocks == [] then [] else AllEvents(blocks[..|blocks| - 1]) + BlockEvents(blocks[|blocks| - 1])
  }

  function Stripped(lines: seq<string>): (s: seq<string>)
    ensures |s| == |lines|
  {
    if lines == [] then [] else Stripped(lines[..|lines| - 1]) + [StripCr(lines[|lines| - 1])]
  }

  /** What the text of a stream that ended means: the last block counts although no empty line ends it. */
  function Batch(text: string): seq<Event> {
    var lines := Stripped(Lines(text));
    AllEvents(Blocks(lines)) + BlockEvents(LastBlock(lines))
  }

  /** What has been emitted while the stream may go on. */
  function OpenEvents(lines: seq<string>): seq<Event> {
    AllEvents(Blocks(lines)) + Comments(LastBlock(lines))
  }

  function Unblocked(blocks: seq<seq<string>>, last: seq<string>): seq<string> {
    if blocks == [] then last else blocks[0] + [""] + Unblocked(blocks[1..], last)
  }

  lemma {:induction false} UnblockedSnoc(blocks: seq<seq<string>>, block: seq<string>, last: seq<string>)
    ensures Unblocked(blocks + [block], last) == Unblocked(blocks, block) + [""] + last
  {
    if blocks == [] {
      assert [block][1..] == [];
    } else {
      assert (blocks + [block])[1..] == blocks[1..] + [block];
      UnblockedSnoc(blocks[1..], block, last);
    }
  }

  lemma {:induction false} UnblockedLonger(blocks: seq<seq<string>>, last: seq<string>, line: string)
    ensures Unblocked(blocks, last + [line]) == Unblocked(blocks, last) + [line]
  {
    if blocks != [] {
      UnblockedLonger(blocks[1..], last, line);
    }
  }

  /** The blocks are the lines between the empty ones. */
  lemma {:induction false} BlocksMeaning(lines: seq<string>)
    ensures Unblocked(Blocks(lines), LastBlock(lines)) == lines
    ensures "" !in LastBlock(lines) && forall i :: 0 <= i < |Blocks(lines)| ==> "" !in Blocks(lines)[i]
  {
    if lines != [] {
      var before, line := lines[..|lines| - 1], lines[|lines| - 1];
      assert lines == before + [line];
      BlocksMeaning(before);
      if line == "" {
        UnblockedSnoc(Blocks(before), LastBlock(before), []);
        assert Blocks(lines) == Blocks(before) + [LastBlock(before)] && LastBlock(lines) == [];
        assert before + [""] + [] == lines;
      } else {
        UnblockedLonger(Blocks(before), LastBlock(before), line);
        assert Blocks(lines) == Blocks(before) && LastBlock(lines) == LastBlock(before) + [line];
      }
    }
  }

  // ---------------------------------------------------------------- one more line

  /** The accumulators of the loop are the values of the unfinished block. */
  ghost predicate Accumulated(lines: seq<string>, name: Option<string>, id: Option<string>, data: seq<string>) {
    var block := LastBlock(lines);
    name == LastValue(block, EventField) && id == LastValue(block, IdField) && data == AllValues(block, DataField)
  }

  lemma EmptyLine(lines: seq<string>, name: Option<string>, id: Option<string>, data: seq<string>)
    requires Accumulated(lines, name, id, data)
    ensures Accumulated(lines + [""], None, None, [])
    ensures OpenEvents(lines + [""]) == OpenEvents(lines) + Dispatched(name, id, data)
  {
    var more := lines + [""];
    assert more[..|lines|] == lines;
    var blocks, block := Blocks(lines), LastBlock(lines);
    assert Blocks(more) == blocks + [block] && LastBlock(more) == [];
    assert (blocks + [block])[..|blocks|] == blocks;
  }

  lemma FullLine(lines: seq<string>, line: string)
    requires line != ""
    ensures LastBlock(lines + [line]) == LastBlock(lines) + [line] && Blocks(lines + [line]) == Blocks(lines)
    ensures OpenEvents(lines + [line]) == OpenEvents(lines) + if IsComment(line) then [Keepalive] else []
  {
    assert (lines + [line])[..|lines|] == lines;
    var block := LastBlock(lines);
    assert (block + [line])[..|block|] == block;
  }

  lemma FieldLine(lines: seq<string>, name: Option<string>, id: Option<string>, data: seq<string>, line: string)
    requires line != "" && Accumulated(lines, name, id, data)
    ensures Accumulated(lines + [line],
                        if EventField <= line then Some(Trim(line[|EventField|..])) else name,
                        if IdField <= line then Some(Trim(line[|IdField|..])) else id,
                        if DataField <= line then data + [Trim(line[|DataField|..])] else data)
  {
    FullLine(lines, line);
    var block := LastBlock(lines);
    assert (block + [line])[..|block|] == block;
  }

  lemma FieldsDiffer(line: string)
    ensures !(EventField <= line && IdField <= line) && !(EventField <= line && DataField <= line) && !(IdField <= line && DataField <= line)
    ensures IsComment(line) ==> !(EventField <= line) && !(IdField <= line) && !(DataField <= line)
  {
    assert EventField[0] == 'e' && IdField[0] == 'i' && DataField[0] == 'd' && ":"[0] == ':';
    assert forall prefix: string :: prefix != "" && prefix <= line ==> line[0] == prefix[0];
  }

  lemma StrippedSnoc(lines: seq<string>, line: string)
    ensures Stripped(lines + [line]) == Stripped(lines) + [StripCr(line)]
  {
    assert (lines + [line])[..|lines|] == lines;
  }

  lemma NextLine(done: seq<string>, buffer: string, index: nat)
    requires IndexOf(buffer, '\n') == Some(index)
    ensures done + Lines(buffer) == done + [buffer[..index]] + Lines(buffer[index + 1..])
    ensures Rest(buffer) == Rest(buffer[index + 1..])
  {
  }

  // ---------------------------------------------------------------- the loop

  /**
   * `chunks` are the decoded pieces the reader delivers before it is done; the signal is found aborted
   * before the read number `abort`, which may be none of them.
   */
  method ConsumeStream(chunks: seq<string>, abort: nat) returns (events: seq<Event>)
    ensures events == if abort <= |chunks| then OpenEvents(Stripped(Lines(Concat(chunks[..abort])))) else Batch(Concat(chunks))
  {
    hide Lines, Rest, Blocks, LastBlock, OpenEvents, Accumulated, Stripped, Trim, StripCr, Batch, Concat, IsComment, Dispatched;
    var buffer := "";
    var eventName: Option<string> := None;
    var eventId: Option<string> := None;
    var dataLines: seq<string> := [];
    events := [];
    var turn := 0;
    ghost var done: seq<string> := [];
    NothingRead();
    while turn < abort
      invariant 0 <= turn <= abort && turn <= |chunks|
      invariant done == Lines(Concat(chunks[..turn])) && buffer == Rest(Concat(chunks[..turn]))
      invariant Accumulated(Stripped(done), eventName, eventId, dataLines) && events == OpenEvents(Stripped(done))
    {
      if turn == |chunks| {
        assert chunks[..turn] == chunks;
        FinalFlush(Concat(chunks), eventName, eventId, dataLines);
        events := events + Dispatched(eventName, eventId, dataLines);
        return;
      }
      ghost var seen := Concat(chunks[..turn + 1]);
      NextChunk(chunks, turn);
      buffer := buffer + chunks[turn];
      var index := IndexOf(buffer, '\n');
      while index.Some?
        invariant index == IndexOf(buffer, '\n')
        invariant done + Lines(buffer) == Lines(seen) && Rest(buffer) == Rest(seen)
        invariant Accumulated(Stripped(done), eventName, eventId, dataLines) && events == OpenEvents(Stripped(done))
        decreases |buffer|
      {
        var raw := buffer[..index.value];
        var line := StripCr(raw);
        NextLine(done, buffer, index.value);
        StrippedSnoc(done, raw);
        buffer := buffer[index.value + 1..];
        index := IndexOf(buffer, '\n');
        if line == "" {
          EmptyLine(Stripped(done), eventName, eventId, dataLines);
          events := events + Dispatched(eventName, eventId, dataLines);
          eventName, eventId, dataLines := None, None, [];
          done := done + [raw];
          continue;
        }
        FullLine(Stripped(done), line);
        FieldLine(Stripped(done), eventName, eventId, dataLines, line);
        done := done + [raw];
        FieldsDiffer(line);
        if IsComment(line) {
          events := events + [Keepalive];
          continue;
        }
        if EventField <= line {
          eventName := Some(Trim(line[|EventField|..]));
          continue;
        }
        if IdField <= line {
          eventId := Some(Trim(line[|IdField|..]));
          continue;
        }
        if DataField <= line {
          dataLines := dataLines + [Trim(line[|DataField|..])];
        }
      }
      NoLine(buffer);
      turn := turn + 1;
    }
    assert turn == abort;
  }

  lemma NothingRead()
    ensures Concat([]) == "" && Lines("") == [] && Rest("") == "" && Stripped([]) == []
    ensures Accumulated([], None, None, []) && OpenEvents([]) == []
  {
  }

  lemma NextChunk(chunks: seq<string>, turn: nat)
    requires turn < |chunks|
    ensures var before := Concat(chunks[..turn]);
            var after := Concat(chunks[..turn + 1]);
            && Lines(after) == Lines(before) + Lines(Rest(before) + chunks[turn])
            && Rest(after) == Rest(Rest(before) + chunks[turn])
  {
    assert chunks[..turn + 1][..turn] == chunks[..turn];
    FramingStep(Concat(chunks[..turn]), chunks[turn]);
  }

  lemma FinalFlush(text: string, name: Option<string>, id: Option<string>, data: seq<string>)
    requires Accumulated(Stripped(Lines(text)), name, id, data)
    ensures OpenEvents(Stripped(Lines(text))) + Dispatched(name, id, data) == Batch(text)
  {
  }

  // ---------------------------------------------------------------- against the standard

  /**
   * Section 9.2.6 of the WHATWG HTML Standard discards a block that no empty line ended; here it becomes
   * an event.
   */
  lemma OpenBlockIsDispatched()
    ensures Batch("data:a\n") == [Event("message", Some("a"), None)]
  {
    hide Lines, Stripped, StripCr, Blocks, LastBlock, Comments, LastValue, AllValues, Trim, IsComment;
    var line := "data:a";
    PlainField();
    OneLine(line);
    assert line + "\n" == "data:a\n";
    FieldsDiffer(line);
    OneLineBlock(line);
    OneValue("a");
  }

  lemma {:induction false} NoValues(block: seq<string>, field: string)
    ensures AllValues(block, field) == [] <==> forall i :: 0 <= i < |block| ==> !(field <= block[i])
  {
    hide Trim;
    if block != [] {
      var before := block[..|block| - 1];
      NoValues(before, field);
      assert forall i :: 0 <= i < |before| ==> before[i] == block[i];
    }
  }

  /** The end of the stream adds nothing exactly when no line behind the last empty one carries data; otherwise one event. */
  lemma FlushAddsNothingExactlyWithoutData(text: string)
    ensures var lines := Stripped(Lines(text));
            var block := LastBlock(lines);
            (Batch(text) == OpenEvents(lines) <==> forall i :: 0 <= i < |block| ==> !(DataField <= block[i]))
    ensures Batch(text) != OpenEvents(Stripped(Lines(text))) ==> |Batch(text)| == |OpenEvents(Stripped(Lines(text)))| + 1
  {
    hide Lines, Stripped, Blocks, LastBlock, AllEvents, Comments, LastValue, AllValues, JoinLines;
    var lines := Stripped(Lines(text));
    var block := LastBlock(lines);
    NoValues(block, DataField);
    FinalFlush(text, LastValue(block, EventField), LastValue(block, IdField), AllValues(block, DataField));
  }

  lemma OneLine(line: string)
    requires '\n' !in line && StripCr(line) == line
    ensures Stripped(Lines(line + "\n")) == [line]
  {
    var text := line + "\n";
    assert forall k :: 0 <= k < |line| ==> text[k] == line[k] && line[k] in line;
    IndexOfIs(text, '\n', |line|);
    FirstLine(text, |line|);
    assert text[..|line|] == line && text[|line| + 1..] == "";
    NoLine("");
    assert [line][..0] == [];
  }

  lemma PlainField()
    ensures DataField <= "data:a" && "data:a"[|DataField|..] == "a" && Trim("a") == "a"
    ensures StripCr("data:a") == "data:a" && '\n' !in "data:a"
  {
    assert !IsSpace('a') && TrimStart("a") == "a" && TrimEnd("a") == "a";
  }

  lemma OneValue(value: string)
    ensures JoinLines([value]) == value && AllEvents([]) == []
  {
  }

  lemma OneLineBlock(line: string)
    requires line != ""
    ensures Blocks([line]) == [] && LastBlock([line]) == [line]
    ensures Comments([line]) == if IsComment(line) then [Keepalive] else []
    ensures LastValue([line], EventField) == if EventField <= line then Some(Trim(line[|EventField|..])) else None
    ensures LastValue([line], IdField) == if IdField <= line then Some(Trim(line[|IdField|..])) else None
    ensures AllValues([line], DataField) == if DataField <= line then [Trim(line[|DataField|..])] else []
  {
    assert [line][..0] == [];
  }

  /** There an id lasts until another one comes; here an event only ever has the id of its own block. */
  lemma IdIsForgotten(blocks: seq<seq<string>>, block: seq<string>)
    requires LastValue(block, IdField) == None && AllValues(block, DataField) != []
    ensures var events := AllEvents(blocks + [block]);
            |events| > 0 && events[|events| - 1].id == None && events[|events| - 1].data.Some?
  {
    assert (blocks + [block])[..|blocks|] == blocks;
  }
}
