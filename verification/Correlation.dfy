/**
 * The JSON-RPC client of config/extensions/stateful-memory/memstore-client.js: which promise a line of the
 * server settles, and how often.
 */
module Correlation {
  import opened Basics
  import opened LineFraming
  import EventStream
  import EventStreamMeaning

  datatype Outcome = Resolved(result: string) | Failed(message: string) | TimedOut | SocketError | Closed | NotConnected

  /** One call of a promise's resolve or reject; a promise keeps the first. */
  datatype Call = Call(id: nat, outcome: Outcome)

  datatype Message = Message(id: Option<nat>, error: Option<string>, result: string)

  /** `live`: there is a socket and it is not destroyed. */
  datatype Client = Client(nextId: nat, pending: seq<nat>, buffer: string, connected: bool, live: bool, calls: seq<Call>)

  const Fresh := Client(1, [], "", false, false, [])

  type Parser = string -> Option<Message>

  function Without(ids: seq<nat>, id: nat): (r: seq<nat>)
    ensures forall k :: k in r <==> k in ids && k != id
  {
    if ids == [] then []
    else
      assert ids == ids[..|ids| - 1] + [ids[|ids| - 1]];
      Without(ids[..|ids| - 1], id) + if ids[|ids| - 1] == id then [] else [ids[|ids| - 1]]
  }

  function CallAll(ids: seq<nat>, outcome: Outcome): seq<Call> {
    if ids == [] then [] else CallAll(ids[..|ids| - 1], outcome) + [Call(ids[|ids| - 1], outcome)]
  }

  function Settle(c: Client, id: nat, outcome: Outcome): Client {
    c.(pending := Without(c.pending, id), calls := c.calls + [Call(id, outcome)])
  }

  function SettleAll(c: Client, outcome: Outcome): Client {
    c.(pending := [], calls := c.calls + CallAll(c.pending, outcome))
  }

  // ---------------------------------------------------------------- what each handler does

  function DoRequest(c: Client): Client {
    c.(nextId := c.nextId + 1, pending := c.pending + [c.nextId],
       calls := c.calls + if c.live then [] else [Call(c.nextId, NotConnected)])
  }

  function OutcomeOf(m: Message): Outcome {
    if m.error.Some? then Failed(m.error.value) else Resolved(m.result)
  }

  /** The reply a line carries, if any. */
  function ReplyIn(parse: Parser, line: string): Option<Call> {
    if EventStream.Trim(line) == "" then None
    else
      var m := parse(line);
      if m.None? || m.value.id.None? then None else Some(Call(m.value.id.value, OutcomeOf(m.value)))
  }

  function DoLine(parse: Parser, c: Client, line: string): Client {
    var r := ReplyIn(parse, line);
    if r.Some? && r.value.id in c.pending then Settle(c, r.value.id, r.value.outcome) else c
  }

  function DoLines(parse: Parser, c: Client, lines: seq<string>): Client {
    if lines == [] then c else DoLine(parse, DoLines(parse, c, lines[..|lines| - 1]), lines[|lines| - 1])
  }

  function DoData(parse: Parser, c: Client, chunk: string): Client {
    DoLines(parse, c, Lines(c.buffer + chunk)).(buffer := Rest(c.buffer + chunk))
  }

  function DoError(c: Client): Client {
    SettleAll(c, SocketError).(connected := false)
  }

  function DoClose(c: Client): Client {
    SettleAll(c, Closed).(connected := false, live := false, buffer := "")
  }

  datatype Step =
    | Opened | Ready | Gone
    | Request
    | Data(chunk: string)
    | Timeout(id: nat)
    | Error
    | Close

  /** A timer fires only while its request is pending: every other removal clears it. */
  predicate Possible(c: Client, s: Step) {
    s.Timeout? ==> s.id in c.pending
  }

  function Next(parse: Parser, c: Client, s: Step): Client
    requires Possible(c, s)
  {
    match s
    case Opened => c.(live := true)
    case Ready => c.(connected := true)
    case Gone => c.(connected := false, live := false)
    case Request => DoRequest(c)
    case Data(chunk) => DoData(parse, c, chunk)
    case Timeout(id) => Settle(c, id, TimedOut)
    case Error => DoError(c)
    case Close => DoClose(c)
  }

  ghost predicate Reaches(parse: Parser, c: Client, steps: seq<Step>, d: Client)
    decreases |steps|
  {
    if steps == [] then c == d
    else Possible(c, steps[0]) && Reaches(parse, Next(parse, c, steps[0]), steps[1..], d)
  }

  // ---------------------------------------------------------------- the class

  class MemstoreClient {
    const parse: Parser
    var nextId: nat
    var pending: seq<nat>
    var buffer: string
    var connected: bool
    var live: bool
    ghost var calls: seq<Call>

    ghost function State(): Client
      reads this
    {
      Client(nextId, pending, buffer, connected, live, calls)
    }

    constructor (parse: Parser)
      ensures State() == Fresh && this.parse == parse
    {
      this.parse := parse;
      nextId, pending, buffer, connected, live, calls := 1, [], "", false, false, [];
    }

    method SendRequest() returns (id: nat)
      modifies this
      ensures id == old(nextId) && State() == DoRequest(old(State()))
    {
      id := nextId;
      nextId := nextId + 1;
      pending := pending + [id];
      if !live {
        // sending throws inside the promise's executor
        calls := calls + [Call(id, NotConnected)];
      }
    }

    method OnData(chunk: string)
      modifies this
      ensures State() == DoData(parse, old(State()), chunk)
    {
      hide Lines, Rest, Without, ReplyIn;
      buffer := buffer + chunk;
      var lines := Lines(buffer);
      buffer := Rest(buffer);
      ghost var start := State();
      for i := 0 to |lines|
        invariant State() == DoLines(parse, start, lines[..i])
        invariant buffer == start.buffer
      {
        assert lines[..i + 1][..i] == lines[..i];
        var reply := ReplyIn(parse, lines[i]);
        if reply.Some? && reply.value.id in pending {
          pending := Without(pending, reply.value.id);
          calls := calls + [reply.value];
        }
      }
      assert lines[..|lines|] == lines;
      BufferApart(parse, old(State()), lines, buffer);
    }

    method OnTimeout(id: nat)
      requires id in pending
      modifies this
      ensures State() == Settle(old(State()), id, TimedOut)
    {
      pending := Without(pending, id);
      calls := calls + [Call(id, TimedOut)];
    }

    method RejectPending(ghost outcome: Outcome)
      modifies this
      ensures State() == SettleAll(old(State()), outcome)
    {
      for i := 0 to |pending|
        invariant pending == old(pending) && State() == old(State()).(calls := old(calls) + CallAll(pending[..i], outcome))
      {
        assert pending[..i + 1][..i] == pending[..i];
        calls := calls + [Call(pending[i], outcome)];
      }
      assert pending[..|pending|] == pending;
      pending := [];
    }

    method OnError()
      modifies this
      ensures State() == DoError(old(State()))
    {
      RejectPending(SocketError);
      connected := false;
    }

    method Close()
      modifies this
      ensures State() == DoClose(old(State()))
    {
      connected := false;
      live := false;
      RejectPending(Closed);
      buffer := "";
    }
  }

  lemma {:induction false} BufferApart(parse: Parser, c: Client, lines: seq<string>, buffer: string)
    ensures DoLines(parse, c.(buffer := buffer), lines) == DoLines(parse, c, lines).(buffer := buffer)
  {
    if lines != [] {
      BufferApart(parse, c, lines[..|lines| - 1], buffer);
    }
  }

  // ---------------------------------------------------------------- how the bytes are cut does not matter

  lemma {:induction false} LinesInTwo(parse: Parser, c: Client, a: seq<string>, b: seq<string>)
    ensures DoLines(parse, c, a + b) == DoLines(parse, DoLines(parse, c, a), b)
  {
    if b == [] {
      assert a + b == a;
    } else {
      LinesInTwo(parse, c, a, b[..|b| - 1]);
      assert (a + b)[..|a + b| - 1] == a + b[..|b| - 1];
    }
  }

  /** Two pieces one after the other do what their concatenation does. */
  lemma DataInTwo(parse: Parser, c: Client, a: string, b: string)
    requires '\n' !in c.buffer
    ensures DoData(parse, DoData(parse, c, a), b) == DoData(parse, c, a + b)
  {
    hide Lines, Rest, DoLine;
    var s := c.buffer + a;
    FramingStep(s, b);
    assert s + b == c.buffer + (a + b);
    var left := Lines(Rest(s) + b);
    LinesInTwo(parse, c, Lines(s), left);
    BufferApart(parse, DoLines(parse, c, Lines(s)), left, Rest(s));
  }

  /** However the stream is cut up, the client ends up as if it had come in one piece. */
  lemma {:induction false} CuttingDoesNotMatter(parse: Parser, c: Client, chunks: seq<string>, d: Client)
    requires '\n' !in c.buffer && chunks != []
    requires Reaches(parse, c, DataSteps(chunks), d)
    ensures d == DoData(parse, c, Concatenation(chunks))
    decreases |chunks|
  {
    var first := DoData(parse, c, chunks[0]);
    assert DataSteps(chunks)[0] == Data(chunks[0]) && DataSteps(chunks)[1..] == DataSteps(chunks[1..]);
    if |chunks| == 1 {
      assert Concatenation(chunks[1..]) == "" && chunks[0] + "" == chunks[0];
      assert d == first;
    } else {
      RestHasNoNewline(c.buffer + chunks[0]);
      CuttingDoesNotMatter(parse, first, chunks[1..], d);
      DataInTwo(parse, c, chunks[0], Concatenation(chunks[1..]));
    }
  }

  function DataSteps(chunks: seq<string>): seq<Step> {
    if chunks == [] then [] else [Data(chunks[0])] + DataSteps(chunks[1..])
  }

  function Concatenation(chunks: seq<string>): string {
    if chunks == [] then "" else chunks[0] + Concatenation(chunks[1..])
  }

  // ---------------------------------------------------------------- every promise is settled once

  /** The calls made on one promise, in order. */
  function CallsOn(calls: seq<Call>, id: nat): seq<Outcome> {
    if calls == [] then []
    else CallsOn(calls[..|calls| - 1], id) + if calls[|calls| - 1].id == id then [calls[|calls| - 1].outcome] else []
  }

  /** No call before it is settled, one after; a request that could not be sent has been rejected beforehand. */
  predicate CallsFit(calls: seq<Outcome>, pending: bool) {
    if pending then calls == [] || calls == [NotConnected]
    else (|calls| == 1 && calls[0] != NotConnected) || (|calls| == 2 && calls[0] == NotConnected && calls[1] != NotConnected)
  }

  predicate Ascending(ids: seq<nat>) {
    forall i, j :: 0 <= i < j < |ids| ==> ids[i] < ids[j]
  }

  ghost predicate Known(ids: seq<nat>, nextId: nat) {
    Ascending(ids) && forall id :: id in ids ==> 1 <= id < nextId
  }

  ghost predicate AllFit(calls: seq<Call>, pending: seq<nat>, nextId: nat) {
    && (forall id: nat {:trigger CallsOn(calls, id)} :: 1 <= id < nextId ==> CallsFit(CallsOn(calls, id), id in pending))
    && (forall id: nat {:trigger CallsOn(calls, id)} :: !(1 <= id < nextId) ==> CallsOn(calls, id) == [])
  }

  ghost predicate Inv(c: Client) {
    '\n' !in c.buffer && c.nextId >= 1 && Known(c.pending, c.nextId) && AllFit(c.calls, c.pending, c.nextId)
  }

  lemma CallsOnSnoc(calls: seq<Call>, call: Call, id: nat)
    ensures CallsOn(calls + [call], id) == CallsOn(calls, id) + if call.id == id then [call.outcome] else []
  {
    assert (calls + [call])[..|calls|] == calls;
  }

  lemma {:induction false} CallsOnConcat(a: seq<Call>, b: seq<Call>, id: nat)
    ensures CallsOn(a + b, id) == CallsOn(a, id) + CallsOn(b, id)
  {
    if b == [] {
      assert a + b == a;
    } else {
      assert (a + b)[..|a + b| - 1] == a + b[..|b| - 1];
      CallsOnConcat(a, b[..|b| - 1], id);
    }
  }

  lemma {:induction false} CallsOnAll(ids: seq<nat>, outcome: Outcome, id: nat)
    requires Ascending(ids)
    ensures CallsOn(CallAll(ids, outcome), id) == if id in ids then [outcome] else []
  {
    if ids != [] {
      hide CallsOn;
      var n := |ids| - 1;
      CallsOnAll(ids[..n], outcome, id);
      CallsOnSnoc(CallAll(ids[..n], outcome), Call(ids[n], outcome), id);
      assert id in ids <==> id in ids[..n] || id == ids[n];
      assert id in ids[..n] ==> id < ids[n];
    }
  }

  lemma {:induction false} WithoutAscends(ids: seq<nat>, id: nat)
    requires Ascending(ids)
    ensures Ascending(Without(ids, id))
  {
    if ids != [] {
      var n := |ids| - 1;
      var before := Without(ids[..n], id);
      WithoutAscends(ids[..n], id);
      forall i | 0 <= i < |before|
        ensures before[i] < ids[n]
      {
        assert before[i] in before && before[i] in ids[..n];
      }
    }
  }

  lemma SettleFits(calls: seq<Call>, pending: seq<nat>, nextId: nat, id: nat, outcome: Outcome)
    requires AllFit(calls, pending, nextId) && id in pending && 1 <= id < nextId && outcome != NotConnected
    ensures AllFit(calls + [Call(id, outcome)], Without(pending, id), nextId)
  {
    var after := calls + [Call(id, outcome)];
    forall k: nat
      ensures 1 <= k < nextId ==> CallsFit(CallsOn(after, k), k in Without(pending, id))
      ensures !(1 <= k < nextId) ==> CallsOn(after, k) == []
    {
      CallsOnSnoc(calls, Call(id, outcome), k);
      assert 1 <= k < nextId ==> CallsFit(CallsOn(calls, k), k in pending);
    }
  }

  lemma SettleInv(c: Client, id: nat, outcome: Outcome)
    requires Inv(c) && id in c.pending && outcome != NotConnected
    ensures Inv(Settle(c, id, outcome))
  {
    WithoutAscends(c.pending, id);
    SettleFits(c.calls, c.pending, c.nextId, id, outcome);
  }

  lemma SettleAllFits(calls: seq<Call>, pending: seq<nat>, nextId: nat, outcome: Outcome)
    requires AllFit(calls, pending, nextId) && Known(pending, nextId) && outcome != NotConnected
    ensures AllFit(calls + CallAll(pending, outcome), [], nextId)
  {
    var after := calls + CallAll(pending, outcome);
    forall k: nat
      ensures 1 <= k < nextId ==> CallsFit(CallsOn(after, k), false)
      ensures !(1 <= k < nextId) ==> CallsOn(after, k) == []
    {
      CallsOnConcat(calls, CallAll(pending, outcome), k);
      CallsOnAll(pending, outcome, k);
      assert 1 <= k < nextId ==> CallsFit(CallsOn(calls, k), k in pending);
    }
  }

  lemma SettleAllInv(c: Client, outcome: Outcome)
    requires Inv(c) && outcome != NotConnected
    ensures Inv(SettleAll(c, outcome))
  {
    hide AllFit, CallAll;
    SettleAllFits(c.calls, c.pending, c.nextId, outcome);
  }

  lemma RequestFitsAt(calls: seq<Call>, pending: seq<nat>, nextId: nat, refused: bool, k: nat)
    requires 1 <= k < nextId ==> CallsFit(CallsOn(calls, k), k in pending)
    requires !(1 <= k < nextId) ==> CallsOn(calls, k) == []
    requires nextId >= 1
    ensures var after := calls + if refused then [Call(nextId, NotConnected)] else [];
            if 1 <= k < nextId + 1 then CallsFit(CallsOn(after, k), k in pending || k == nextId) else CallsOn(after, k) == []
  {
    if refused {
      CallsOnSnoc(calls, Call(nextId, NotConnected), k);
    } else {
      assert calls + [] == calls;
    }
  }

  lemma RequestFits(calls: seq<Call>, pending: seq<nat>, nextId: nat, refused: bool)
    requires AllFit(calls, pending, nextId) && nextId >= 1
    ensures AllFit(calls + if refused then [Call(nextId, NotConnected)] else [], pending + [nextId], nextId + 1)
  {
    var after := calls + if refused then [Call(nextId, NotConnected)] else [];
    hide CallsOn, CallsFit;
    forall k: nat
      ensures if 1 <= k < nextId + 1 then CallsFit(CallsOn(after, k), k in pending + [nextId]) else CallsOn(after, k) == []
    {
      assert 1 <= k < nextId ==> CallsFit(CallsOn(calls, k), k in pending);
      RequestFitsAt(calls, pending, nextId, refused, k);
      assert k in pending + [nextId] <==> k in pending || k == nextId;
    }
  }

  lemma RequestInv(c: Client)
    requires Inv(c)
    ensures Inv(DoRequest(c))
  {
    RequestFits(c.calls, c.pending, c.nextId, !c.live);
    hide AllFit;
    forall i | 0 <= i < |c.pending|
      ensures c.pending[i] < c.nextId
    {
      assert c.pending[i] in c.pending;
    }
  }

  lemma {:induction false} LinesInv(parse: Parser, c: Client, lines: seq<string>)
    requires Inv(c)
    ensures Inv(DoLines(parse, c, lines))
  {
    hide Inv, ReplyIn;
    if lines != [] {
      var d := DoLines(parse, c, lines[..|lines| - 1]);
      LinesInv(parse, c, lines[..|lines| - 1]);
      var r := ReplyIn(parse, lines[|lines| - 1]);
      if r.Some? && r.value.id in d.pending {
        ReplyIsReply(parse, lines[|lines| - 1]);
        SettleInv(d, r.value.id, r.value.outcome);
      }
    }
  }

  lemma ReplyIsReply(parse: Parser, line: string)
    ensures ReplyIn(parse, line).Some? ==> ReplyIn(parse, line).value.outcome.Resolved? || ReplyIn(parse, line).value.outcome.Failed?
  {
  }

  lemma FieldsInv(c: Client, buffer: string, connected: bool, live: bool)
    requires Inv(c) && '\n' !in buffer
    ensures Inv(c.(buffer := buffer, connected := connected, live := live))
  {
  }

  lemma NextInv(parse: Parser, c: Client, s: Step)
    requires Inv(c) && Possible(c, s)
    ensures Inv(Next(parse, c, s))
  {
    assert '\n' !in c.buffer;
    hide Inv, Settle, SettleAll, DoRequest, DoLines, Lines, Rest;
    match s
    case Opened => FieldsInv(c, c.buffer, c.connected, true);
    case Ready => FieldsInv(c, c.buffer, true, c.live);
    case Gone => FieldsInv(c, c.buffer, false, false);
    case Request => RequestInv(c);
    case Data(chunk) =>
      var d := DoLines(parse, c, Lines(c.buffer + chunk));
      LinesInv(parse, c, Lines(c.buffer + chunk));
      RestHasNoNewline(c.buffer + chunk);
      FieldsInv(d, Rest(c.buffer + chunk), d.connected, d.live);
    case Timeout(id) => SettleInv(c, id, TimedOut);
    case Error =>
      var d := SettleAll(c, SocketError);
      SettleAllInv(c, SocketError);
      SettledBuffer(c, SocketError);
      FieldsInv(d, d.buffer, false, d.live);
    case Close =>
      var d := SettleAll(c, Closed);
      SettleAllInv(c, Closed);
      FieldsInv(d, "", false, false);
  }

  lemma SettledBuffer(c: Client, outcome: Outcome)
    ensures SettleAll(c, outcome).buffer == c.buffer
  {
  }

  /** In every run each request is pending or has been settled, by exactly one call unless it was never sent. */
  lemma {:induction false} SettledOnce(parse: Parser, c: Client, steps: seq<Step>, d: Client)
    requires Inv(c) && Reaches(parse, c, steps, d)
    ensures Inv(d)
    decreases |steps|
  {
    if steps != [] {
      NextInv(parse, c, steps[0]);
      SettledOnce(parse, Next(parse, c, steps[0]), steps[1..], d);
    }
  }

  lemma FreshInv()
    ensures Inv(Fresh)
  {
  }

  lemma FreshSettledOnce(parse: Parser, steps: seq<Step>, d: Client)
    requires Reaches(parse, Fresh, steps, d)
    ensures forall id: nat :: 1 <= id < d.nextId ==> CallsFit(CallsOn(d.calls, id), id in d.pending)
    ensures forall id: nat :: !(1 <= id < d.nextId) ==> CallsOn(d.calls, id) == []
  {
    FreshInv();
    SettledOnce(parse, Fresh, steps, d);
  }

  // ---------------------------------------------------------------- the first reply decides

  /** The outcome of the first line that answers the request. */
  function FirstReply(parse: Parser, lines: seq<string>, id: nat): Option<Outcome> {
    if lines == [] then None
    else
      var earlier := FirstReply(parse, lines[..|lines| - 1], id);
      var r := ReplyIn(parse, lines[|lines| - 1]);
      if earlier.Some? then earlier
      else if r.Some? && r.value.id == id then Some(r.value.outcome)
      else None
  }

  /** Incoming lines settle a pending request by its first reply, and nothing else. */
  lemma {:induction false} FirstReplyDecides(parse: Parser, c: Client, lines: seq<string>, id: nat)
    ensures var d := DoLines(parse, c, lines);
            var reply := FirstReply(parse, lines, id);
            if id in c.pending && reply.Some? then id !in d.pending && CallsOn(d.calls, id) == CallsOn(c.calls, id) + [reply.value]
            else (id in d.pending <==> id in c.pending) && CallsOn(d.calls, id) == CallsOn(c.calls, id)
  {
    hide ReplyIn;
    if lines != [] {
      var before, line := lines[..|lines| - 1], lines[|lines| - 1];
      FirstReplyDecides(parse, c, before, id);
      var d := DoLines(parse, c, before);
      var r := ReplyIn(parse, line);
      if r.Some? && r.value.id in d.pending {
        CallsOnSnoc(d.calls, r.value, id);
      }
    }
  }

  // ---------------------------------------------------------------- what a reply says

  /** A line that is not blank and holds a message with this id. */
  predicate Carries(parse: Parser, line: string, id: nat) {
    && (exists k :: 0 <= k < |line| && !EventStream.IsSpace(line[k]))
    && parse(line).Some? && parse(line).value.id == Some(id)
  }

  lemma BlankIsTrimmed(line: string)
    ensures EventStream.Trim(line) == "" <==> forall k :: 0 <= k < |line| ==> EventStream.IsSpace(line[k])
  {
    hide EventStream.IsSpace, EventStream.Trim;
    var a, b := EventStreamMeaning.TrimMeaning(line);
    if EventStream.Trim(line) == "" {
      assert a == b;
      forall k | 0 <= k < |line|
        ensures EventStream.IsSpace(line[k])
      {
        assert if k < a then line[k] == line[..a][k] else line[k] == line[b..][k - b];
      }
    } else {
      assert EventStream.Trim(line)[0] == line[a];
    }
  }

  lemma CarriedReply(parse: Parser, line: string, id: nat)
    ensures Carries(parse, line, id) <==> ReplyIn(parse, line).Some? && ReplyIn(parse, line).value.id == id
    ensures Carries(parse, line, id) ==>
              var m := parse(line).value;
              ReplyIn(parse, line).value.outcome == if m.error.Some? then Failed(m.error.value) else Resolved(m.result)
  {
    hide EventStream.IsSpace, EventStream.Trim;
    BlankIsTrimmed(line);
  }

  lemma {:induction false} FirstCarried(parse: Parser, lines: seq<string>, id: nat)
    ensures FirstReply(parse, lines, id).None? <==> forall k :: 0 <= k < |lines| ==> !Carries(parse, lines[k], id)
    ensures forall i :: 0 <= i < |lines| && Carries(parse, lines[i], id) && (forall k :: 0 <= k < i ==> !Carries(parse, lines[k], id)) ==>
              var m := parse(lines[i]).value;
              FirstReply(parse, lines, id) == Some(if m.error.Some? then Failed(m.error.value) else Resolved(m.result))
  {
    hide Carries, ReplyIn;
    if lines != [] {
      var n := |lines| - 1;
      FirstCarried(parse, lines[..n], id);
      assert forall k :: 0 <= k < n ==> lines[..n][k] == lines[k];
      CarriedReply(parse, lines[n], id);
    }
  }

  /** The first line that carries the id of a pending request rejects it with the line's error if it has one, and else resolves it with the result. */
  lemma FirstAnswerDecides(parse: Parser, c: Client, lines: seq<string>, id: nat, i: nat)
    requires id in c.pending && i < |lines| && Carries(parse, lines[i], id) && forall k :: 0 <= k < i ==> !Carries(parse, lines[k], id)
    ensures var d := DoLines(parse, c, lines);
            var m := parse(lines[i]).value;
            && id !in d.pending
            && CallsOn(d.calls, id) == CallsOn(c.calls, id) + [if m.error.Some? then Failed(m.error.value) else Resolved(m.result)]
  {
    hide Carries;
    FirstCarried(parse, lines, id);
    FirstReplyDecides(parse, c, lines, id);
  }

  /** A request that no line carries, or that is not pending, is left alone. */
  lemma OthersAreLeftAlone(parse: Parser, c: Client, lines: seq<string>, id: nat)
    requires id !in c.pending || forall k :: 0 <= k < |lines| ==> !Carries(parse, lines[k], id)
    ensures var d := DoLines(parse, c, lines);
            (id in d.pending <==> id in c.pending) && CallsOn(d.calls, id) == CallsOn(c.calls, id)
  {
    hide Carries;
    FirstCarried(parse, lines, id);
    FirstReplyDecides(parse, c, lines, id);
  }

  /** What the other handlers say to a request's promise. */
  lemma OtherHandlers(parse: Parser, steps: seq<Step>, c: Client, s: Step, id: nat)
    requires Reaches(parse, Fresh, steps, c) && Possible(c, s) && !s.Data?
    ensures var d := Next(parse, c, s);
            var said := CallsOn(d.calls, id);
            var before := CallsOn(c.calls, id);
            && (s.Request? && id == c.nextId ==> id in d.pending && said == before + if c.live then [] else [NotConnected])
            && (s.Timeout? && id == s.id ==> id !in d.pending && said == before + [TimedOut])
            && (s.Error? && id in c.pending ==> id !in d.pending && said == before + [SocketError])
            && (s.Close? && id in c.pending ==> id !in d.pending && said == before + [Closed])
            && (s.Error? || s.Close? ==> d.pending == [] && !d.connected)
            && (s.Close? ==> d.buffer == "" && !d.live)
            && ((s.Request? && id != c.nextId) || (s.Timeout? && id != s.id) || s.Opened? || s.Ready? || s.Gone? || id !in c.pending + [c.nextId] ==>
                  (id in d.pending <==> id in c.pending) && said == before)
  {
    FreshInv();
    SettledOnce(parse, Fresh, steps, c);
    hide CallsOn, CallAll;
    match s
    case Request =>
      if !c.live { CallsOnSnoc(c.calls, Call(c.nextId, NotConnected), id); }
      assert c.calls + [] == c.calls;
    case Timeout(k) => CallsOnSnoc(c.calls, Call(k, TimedOut), id);
    case Error =>
      CallsOnConcat(c.calls, CallAll(c.pending, SocketError), id);
      CallsOnAll(c.pending, SocketError, id);
    case Close =>
      CallsOnConcat(c.calls, CallAll(c.pending, Closed), id);
      CallsOnAll(c.pending, Closed, id);
    case _ =>
  }
}
