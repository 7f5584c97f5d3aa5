/** The main results about the save queue: for every run, with every interleaving, fault and restart. */
module SaveQueueTheorems {
  import opened Basics
  import opened SaveQueue
  import opened SaveQueueInvariants
  import opened SaveQueueOrigins
  import opened SaveQueueResults

  ghost predicate Inv(s: State) {
    QueueInv(s) && OriginInv(s) && DoneInv(s)
  }

  lemma InitInv()
    ensures Inv(Init())
  {
    BootOk(Init().disk, {});
  }

  lemma StepInv(s: State, e: Event)
    requires Inv(s) && Enabled(s, e)
    ensures RefsOk(s.mem) && Inv(Next(s, e))
  {
    hide QueueInv, OriginInv, DoneInv;
    QueueStep(s, e);
    ShapeFromInv(s);
    OriginStep(s, e);
    DoneStep(s, e);
  }

  lemma ShapeFromInv(s: State)
    requires QueueInv(s)
    ensures Shape(s.mem)
  {
  }

  lemma {:induction false} RunInv(s: State, events: seq<Event>)
    requires Inv(s) && Feasible(s, events)
    ensures Inv(Final(s, events))
    decreases |events|
  {
    hide Inv;
    if events != [] {
      StepInv(s, events[0]);
      RunInv(Next(s, events[0]), events[1..]);
    }
  }

  lemma ReachableInv(events: seq<Event>)
    requires Feasible(Init(), events)
    ensures Inv(Final(Init(), events))
  {
    InitInv();
    RunInv(Init(), events);
  }

  // ---------------------------------------------------------------- no accepted save is lost

  ghost predicate Kept(file: seq<Job>, serial: nat, save: (JobId, Content)) {
    exists i :: 0 <= i < |file| && file[i].serial == serial && (file[i].id, file[i].content) == save
  }

  lemma FileHolds(s: State, n: nat)
    requires QueueInv(s) && n < |s.hist.accepted| && n !in s.hist.settled
    ensures Kept(s.disk.queueFile, n, s.hist.accepted[n])
  {
    var file := s.disk.queueFile;
    assert InFile(file, n);
    var i :| 0 <= i < |file| && file[i].serial == n;
    var r := s.mem.queue[i];
    assert SameSave(file[i], s.mem.jobs[r]);
    assert Original(s.hist.accepted[s.mem.jobs[r].serial], s.mem.jobs[r], r < Popped(s.mem));
    assert (file[i].id, file[i].content) == s.hist.accepted[n];
  }

  /** A save that was accepted is in the queue file as submitted until it has been done or failed. */
  lemma AcceptedSavesSurvive(events: seq<Event>, n: nat)
    requires Feasible(Init(), events) && n < |Final(Init(), events).hist.accepted|
    ensures var s := Final(Init(), events);
            n in s.hist.settled || Kept(s.disk.queueFile, n, s.hist.accepted[n])
    ensures var s := Final(Init(), events);
            Shape(s.mem) && FileMatches(s.disk.queueFile, s.mem.jobs, s.mem.queue)
  {
    ReachableInv(events);
    var s := Final(Init(), events);
    if n !in s.hist.settled {
      FileHolds(s, n);
    }
  }

  // ---------------------------------------------------------------- first in, first out, across restarts

  function QueueSerials(m: Memory): seq<nat>
    requires RefsOk(m)
  {
    seq(|m.queue|, i requires 0 <= i < |m.queue| => m.jobs[m.queue[i]].serial)
  }

  function SubmittedSerials(s: State, events: seq<Event>): seq<nat>
    requires Feasible(s, events)
    decreases |events|
  {
    if events == [] then []
    else (if events[0].Submit? then [|s.hist.accepted|] else []) + SubmittedSerials(Next(s, events[0]), events[1..])
  }

  /** The saves removed from the queue, in the order of their removal. */
  function PoppedSerials(s: State, events: seq<Event>): seq<nat>
    requires Feasible(s, events)
    decreases |events|
  {
    if events == [] then []
    else
      (if events[0].Pop? && s.mem.phase.job < |s.mem.jobs| then [s.mem.jobs[s.mem.phase.job].serial] else [])
      + PoppedSerials(Next(s, events[0]), events[1..])
  }

  lemma CrashSerials(s: State)
    requires QueueInv(s)
    ensures RefsOk(s.mem) && RefsOk(Boot(s.disk)) && QueueSerials(Boot(s.disk)) == QueueSerials(s.mem)
  {
    hide QueueInv, Boot, Shape, Indexed, Numbered, Statuses;
    BootOk(s.disk, {});
    FilePart(s);
    SameFileSameSerials(s.disk.queueFile, Boot(s.disk), s.mem);
  }

  lemma FilePart(s: State)
    requires QueueInv(s)
    ensures RefsOk(s.mem) && FileMatches(s.disk.queueFile, s.mem.jobs, s.mem.queue)
  {
  }

  lemma SameFileSameSerials(file: seq<Job>, m: Memory, n: Memory)
    requires RefsOk(m) && RefsOk(n) && FileMatches(file, m.jobs, m.queue) && FileMatches(file, n.jobs, n.queue)
    ensures QueueSerials(m) == QueueSerials(n)
  {
    var a, b := QueueSerials(m), QueueSerials(n);
    assert |a| == |b| && forall i :: 0 <= i < |a| ==> a[i] == file[i].serial == b[i];
  }

  lemma PopSerials(s: State)
    requires QueueInv(s) && Enabled(s, Pop)
    ensures RefsOk(DoPop(s).mem)
    ensures [s.mem.jobs[s.mem.phase.job].serial] + QueueSerials(DoPop(s).mem) == QueueSerials(s.mem)
  {
    PopHead(s);
    TailDistinct(s.mem);
    var t := DoPop(s);
    assert forall i :: 0 < i < |s.mem.queue| ==> t.mem.jobs[s.mem.queue[i]] == s.mem.jobs[s.mem.queue[i]];
  }

  lemma UpdateSerials(s: State, e: Event)
    requires QueueInv(s) && RefsOk(s.mem) && Enabled(s, e) && (Quiet(e) || e.Mark? || e.Settle?)
    ensures RefsOk(Next(s, e).mem) && QueueSerials(Next(s, e).mem) == QueueSerials(s.mem)
  {
    hide QueueInv;
    if Quiet(e) { QuietFrame(s, e); }
  }

  lemma SerialsOfStep(s: State, e: Event)
    requires QueueInv(s) && Enabled(s, e)
    ensures RefsOk(s.mem) && RefsOk(Next(s, e).mem)
    ensures (if e.Pop? then [s.mem.jobs[s.mem.phase.job].serial] else []) + QueueSerials(Next(s, e).mem)
            == QueueSerials(s.mem) + (if e.Submit? then [|s.hist.accepted|] else [])
  {
    RefsFromInv(s);
    if e.Crash? { CrashSerials(s); }
    else if e.Pop? { PopSerials(s); }
    else if !e.Submit? { UpdateSerials(s, e); }
    else { SubmitSerials(s, e); }
  }

  lemma SubmitSerials(s: State, e: Event)
    requires RefsOk(s.mem) && Enabled(s, e) && e.Submit?
    ensures RefsOk(Next(s, e).mem) && QueueSerials(Next(s, e).mem) == QueueSerials(s.mem) + [|s.hist.accepted|]
  {
  }

  /** What left the queue, then what is still in it, is what was in it, then what was submitted. */
  lemma {:induction false} FirstInFirstOut(s: State, events: seq<Event>)
    requires Inv(s) && Feasible(s, events)
    ensures RefsOk(s.mem) && RefsOk(Final(s, events).mem)
    ensures PoppedSerials(s, events) + QueueSerials(Final(s, events).mem)
            == QueueSerials(s.mem) + SubmittedSerials(s, events)
    decreases |events|
  {
    RefsFromInv(s);
    hide Inv, QueueSerials;
    if events != [] {
      var e := events[0];
      var t := Next(s, e);
      StepInv(s, e);
      FirstInFirstOut(t, events[1..]);
      assert QueueInv(s) by { QueuePart(s); }
      SerialsOfStep(s, e);
      Regroup(if e.Pop? then [s.mem.jobs[s.mem.phase.job].serial] else [],
              PoppedSerials(t, events[1..]), QueueSerials(Final(t, events[1..]).mem),
              QueueSerials(t.mem), SubmittedSerials(t, events[1..]),
              QueueSerials(s.mem), if e.Submit? then [|s.hist.accepted|] else []);
    }
  }

  lemma Regroup(out: seq<nat>, rest: seq<nat>, last: seq<nat>, mid: seq<nat>, later: seq<nat>, first: seq<nat>, put: seq<nat>)
    requires rest + last == mid + later && out + mid == first + put
    ensures (out + rest) + last == first + (put + later)
  {
    assert (out + rest) + last == out + (rest + last);
    assert out + (mid + later) == (out + mid) + later;
    assert (first + put) + later == first + (put + later);
  }

  lemma QueuePart(s: State)
    requires Inv(s)
    ensures QueueInv(s)
  {
  }

  // ---------------------------------------------------------------- no wakeup is lost, the queue drains

  /** Steps the server takes on its own: owed pokes and the processor. */
  predicate Internal(e: Event) {
    e.Poke? || e.ResumePoke? || e.Wake? || e.Check? || e.Begin? || e.LookUp? || e.Mark? || e.Transact?
    || e.RecordOrigin? || e.Settle? || e.Release? || e.Pop?
  }

  function Rank(p: Phase): nat {
    match p
    case Waiting => 0
    case Stopped => 0
    case Checking => 10
    case Fetched(_) => 9
    case Begun(_) => 8
    case Looked(_, _) => 7
    case Marked(_, _) => 6
    case Committed(_, _) => 5
    case Settling(_, _, _, _) => 4
    case Settled(_) => 3
    case Released(_) => 2
  }

  function Work(m: Memory): nat {
    20 * |m.queue| + Rank(m.phase) + (if m.notify then 11 else 0) + 12 * m.unpoked + (if m.booting then 12 else 0)
  }

  lemma InternalStepsDescend(s: State, e: Event)
    requires QueueInv(s) && Enabled(s, e) && Internal(e)
    ensures RefsOk(s.mem) && Work(Next(s, e).mem) < Work(s.mem)
  {
    RefsFromInv(s);
    if e.Pop? { PopHead(s); }
    hide QueueInv;
    WorkStep(s, e);
  }

  lemma WorkStep(s: State, e: Event)
    requires RefsOk(s.mem) && Enabled(s, e) && Internal(e)
    requires e.Pop? ==> |s.mem.queue| > 0 && DoPop(s).mem.queue == s.mem.queue[1..]
    ensures Work(Next(s, e).mem) < Work(s.mem)
  {
    if e.Transact? || e.RecordOrigin? {
      StoringDescends(s, e);
    } else if e.Pop? {
    } else if e.Settle? || e.Mark? {
    } else {
    }
  }

  lemma StoringDescends(s: State, e: Event)
    requires RefsOk(s.mem) && Enabled(s, e) && (e.Transact? || e.RecordOrigin?)
    ensures Work(Next(s, e).mem) < Work(s.mem)
  {
    hide DoTransact, DoRecordOrigin, RefsOk;
    if e.Transact? { TransactDescends(s, e.tx); } else { RecordDescends(s, e.outcome); }
  }

  lemma TransactDescends(s: State, tx: TxOutcome)
    requires Enabled(s, Transact(tx))
    ensures Work(DoTransact(s, tx).mem) < Work(s.mem)
  {
    hide Insert, DeleteRow, RowOf;
    if tx.Commits? {
    }
  }

  lemma RecordDescends(s: State, o: MapOutcome)
    requires Enabled(s, RecordOrigin(o))
    ensures Work(DoRecordOrigin(s, o).mem) < Work(s.mem)
  {
  }

  /** Every schedule of internal steps, whatever fails, ends within Work steps. */
  lemma {:induction false} InternalRunsEnd(s: State, events: seq<Event>)
    requires Inv(s) && Feasible(s, events) && forall i :: 0 <= i < |events| ==> Internal(events[i])
    ensures |events| + Work(Final(s, events).mem) <= Work(s.mem)
    decreases |events|
  {
    hide Inv;
    if events != [] {
      StepInv(s, events[0]);
      QueuePart(s);
      InternalStepsDescend(s, events[0]);
      InternalRunsEnd(Next(s, events[0]), events[1..]);
    }
  }

  lemma Idle(s: State)
    requires RefsOk(s.mem) && Shape(s.mem) && WakeupKept(s.mem) && s.mem.phase != Stopped
    requires forall e :: Internal(e) ==> !Enabled(s, e)
    ensures s.mem.queue == []
  {
    assert !Enabled(s, Poke) && !Enabled(s, ResumePoke) && !Enabled(s, Wake);
    var p := s.mem.phase;
    var e := match p
      case Checking => Check
      case Fetched(_) => Begin
      case Begun(_) => LookUp
      case Looked(_, _) => Mark
      case Marked(_, _) => Transact(Commits)
      case Committed(_, _) => RecordOrigin(MapWritten)
      case Settling(_, _, _, _) => Settle
      case Settled(_) => Release
      case Released(_) => Pop
      case _ => Wake;
    assert Internal(e) && !Enabled(s, e);
  }

  /** And it can only end with an empty queue and every accepted save settled, unless the processor stopped. */
  lemma NothingLeftWaiting(s: State)
    requires Inv(s) && s.mem.phase != Stopped
    requires forall e :: Internal(e) ==> !Enabled(s, e)
    ensures s.mem.queue == [] && s.disk.queueFile == []
    ensures forall n :: 0 <= n < |s.hist.accepted| ==> n in s.hist.settled
  {
    RefsFromInv(s);
    Idle(s);
    assert FileMatches(s.disk.queueFile, s.mem.jobs, s.mem.queue);
    DurableEmpty(|s.hist.accepted|, s.hist.settled);
  }

  lemma DurableEmpty(accepted: nat, settled: set<nat>)
    requires Durable(accepted, settled, [])
    ensures forall n :: 0 <= n < accepted ==> n in settled
  {
  }

  // ---------------------------------------------------------------- rows of one origin

  lemma {:induction false} StraysBounded(s: State, events: seq<Event>, origin: string)
    requires Inv(s) && Feasible(s, events)
    ensures |Strays(Final(s, events), origin)| <= |Strays(s, origin)| + Missed(s, events, origin)
    decreases |events|
  {
    hide Inv, Strays, LiveRowMissed;
    if events != [] {
      StepInv(s, events[0]);
      PartsOfInv(s);
      StraysStep(s, events[0], origin);
      StraysBounded(Next(s, events[0]), events[1..], origin);
    }
  }

  lemma PartsOfInv(s: State)
    requires Inv(s)
    ensures QueueInv(s) && OriginInv(s)
  {
  }

  /** One row, plus one for every restart whose origin map file did not name the live row. */
  lemma RowsPerOrigin(events: seq<Event>, origin: string)
    requires Feasible(Init(), events)
    ensures |SaveRows(Final(Init(), events).disk.table, origin)| <= 1 + Missed(Init(), events, origin)
  {
    InitInv();
    StraysBounded(Init(), events, origin);
    var s := Final(Init(), events);
    assert Strays(Init(), origin) == {};
    CardinalityStep(Strays(s, origin), SaveRows(s.disk.table, origin),
                    if Tip(s.mem, origin).Some? then Tip(s.mem, origin).value else 0);
  }

  lemma {:induction false} NoCrashNoMiss(s: State, events: seq<Event>, origin: string)
    requires Feasible(s, events) && forall i :: 0 <= i < |events| ==> events[i] != Crash
    ensures Missed(s, events, origin) == 0
    decreases |events|
  {
    if events != [] {
      NoCrashNoMiss(Next(s, events[0]), events[1..], origin);
    }
  }

  /** Without a restart there is never a second row, even when inserts, commits or map writes fail. */
  lemma CrashFreeRunsKeepOneRow(events: seq<Event>, origin: string)
    requires Feasible(Init(), events) && forall i :: 0 <= i < |events| ==> events[i] != Crash
    ensures |SaveRows(Final(Init(), events).disk.table, origin)| <= 1
  {
    NoCrashNoMiss(Init(), events, origin);
    RowsPerOrigin(events, origin);
  }

  // ---------------------------------------------------------------- what a save deletes

  /** In every reachable state a save's transaction removes nothing but the row its own origin's last save wrote. */
  lemma SavesDeleteOnlyTheirOwn(events: seq<Event>, tx: TxOutcome, id: nat)
    requires Feasible(Init(), events) && Enabled(Final(Init(), events), Transact(tx))
    requires var s := Final(Init(), events);
             id in s.disk.table.rows && (id in DoTransact(s, tx).disk.table.rows ==>
                                           DoTransact(s, tx).disk.table.rows[id] != s.disk.table.rows[id])
    ensures var s := Final(Init(), events);
            var origin := s.mem.jobs[s.mem.phase.job].content.origin;
            && Lookup(s.mem.originMap, origin) == Some(id)
            && s.disk.table.rows[id].origin == NullString(origin)
            && s.disk.table.rows[id].writer == BySave(origin)
  {
    ReachableInv(events);
  }

  /** The head was done as `entry`: its row is there unless a tool deleted it, and both maps name it. */
  ghost predicate DoneAs(s: State, c: Content, entry: nat) {
    && Inv(s)
    && |s.mem.queue| > 0 && RefsOk(s.mem) && s.mem.jobs[s.mem.queue[0]].content == c
    && MapsName(s.mem.originMap, s.disk.originMap, c.origin, entry)
    && HoldsSave(s.disk.table, c, entry)
    && !s.mem.phase.Committed?
  }

  lemma DoneHead(s: State)
    requires Inv(s) && PhaseJob(s.mem.phase).Some? && PhaseJob(s.mem.phase).value < |s.mem.jobs|
    requires var job := s.mem.jobs[PhaseJob(s.mem.phase).value];
             (s.mem.phase.Settling? && s.mem.phase.verdict == Done)
             || ((s.mem.phase.Settled? || s.mem.phase.Released?) && job.status == Done)
    ensures var job := s.mem.jobs[PhaseJob(s.mem.phase).value];
            DoneAs(s, job.content, if s.mem.phase.Settling? then s.mem.phase.entry else job.resultEntryId)
  {
  }

  lemma HeadKept(s: State, e: Event, c: Content)
    requires QueueInv(s) && Enabled(s, e) && e != Pop && RefsOk(s.mem)
    requires |s.mem.queue| > 0 && s.mem.jobs[s.mem.queue[0]].content == c
    ensures var t := Next(s, e);
            |t.mem.queue| > 0 && RefsOk(t.mem) && t.mem.jobs[t.mem.queue[0]].content == c
  {
    hide QueueInv, Next;
    if Quiet(e) {
      QuietFrame(s, e);
    } else if e.Crash? {
      HeadReloaded(s, c);
    } else {
      HeadUpdated(s, e, c);
    }
  }

  lemma HeadReloaded(s: State, c: Content)
    requires QueueInv(s) && RefsOk(s.mem)
    requires |s.mem.queue| > 0 && s.mem.jobs[s.mem.queue[0]].content == c
    ensures var t := Next(s, Crash);
            |t.mem.queue| > 0 && RefsOk(t.mem) && t.mem.jobs[t.mem.queue[0]].content == c
  {
    hide Shape, Serials, Durable, Statuses, Indexed, Numbered, WakeupKept;
    assert SameSave(s.disk.queueFile[0], s.mem.jobs[s.mem.queue[0]]);
  }

  lemma HeadUpdated(s: State, e: Event, c: Content)
    requires RefsOk(s.mem) && Enabled(s, e) && (e.Submit? || e.Mark? || e.Settle?)
    requires |s.mem.queue| > 0 && s.mem.jobs[s.mem.queue[0]].content == c
    ensures var t := Next(s, e);
            |t.mem.queue| > 0 && RefsOk(t.mem) && t.mem.jobs[t.mem.queue[0]].content == c
  {
  }

  lemma DoneAsMaps(s: State, e: Event, origin: string, entry: nat)
    requires RefsOk(s.mem) && Enabled(s, e) && e != Pop && e != Transact(Commits) && !s.mem.phase.Committed?
    requires MapsName(s.mem.originMap, s.disk.originMap, origin, entry)
    ensures MapsName(Next(s, e).mem.originMap, Next(s, e).disk.originMap, origin, entry)
    ensures !Next(s, e).mem.phase.Committed?
  {
  }

  lemma TableKept(s: State, e: Event, c: Content, entry: nat)
    requires RefsOk(s.mem) && Enabled(s, e) && e != Transact(Commits)
    requires HoldsSave(s.disk.table, c, entry)
    ensures HoldsSave(Next(s, e).disk.table, c, entry)
  {
  }

  lemma DoneAsStep(s: State, e: Event, c: Content, entry: nat)
    requires DoneAs(s, c, entry) && Enabled(s, e) && e != Pop && e != Transact(Commits)
    ensures DoneAs(Next(s, e), c, entry)
  {
    StepInv(s, e);
    PartsOfInv(s);
    hide Inv, QueueInv, OriginInv;
    HeadKept(s, e, c);
    DoneAsMaps(s, e, c.origin, entry);
    TableKept(s, e, c, entry);
  }

  lemma RecommitReplaces(s: State, c: Content, entry: nat)
    requires DoneAs(s, c, entry) && Enabled(s, Transact(Commits))
    ensures DoTransact(s, Commits).disk.table.rows
            == (s.disk.table.rows - {entry})[s.disk.table.sequence + 1 := RowOf(c)]
    ensures Stores(RowOf(c), c) && entry <= s.disk.table.sequence
    ensures entry in s.disk.table.rows ==> s.disk.table.rows[entry] == RowOf(c)
  {
    PartsOfInv(s);
    hide Inv;
    assert s.mem.phase.prev == Some(entry);
  }

  /**
   * A process dies after the origin map was written and before the queue file was.  Whatever happens
   * next, restarts included, when the save is committed again it deletes exactly its own earlier row
   * and inserts an equal one.
   */
  lemma {:induction false} ReplayReplacesItself(s: State, events: seq<Event>, c: Content, entry: nat)
    requires DoneAs(s, c, entry) && Feasible(s, events)
    requires forall i :: 0 <= i < |events| ==> events[i] != Pop && events[i] != Transact(Commits)
    requires Enabled(Final(s, events), Transact(Commits))
    ensures var t := Final(s, events);
            var u := DoTransact(t, Commits);
            var added := t.disk.table.sequence + 1;
            && added in u.disk.table.rows && Stores(u.disk.table.rows[added], c)
            && u.disk.table.rows == (t.disk.table.rows - {entry})[added := u.disk.table.rows[added]]
            && (entry in t.disk.table.rows ==> t.disk.table.rows[entry] == u.disk.table.rows[added])
            && entry <= t.disk.table.sequence
    decreases |events|
  {
    hide DoneAs, DoTransact, Enabled, RowOf;
    if events == [] {
      RecommitReplaces(s, c, entry);
    } else {
      DoneAsStep(s, events[0], c, entry);
      ReplayReplacesItself(Next(s, events[0]), events[1..], c, entry);
    }
  }

  // ---------------------------------------------------------------- what a client reads

  predicate Moves(a: Status, b: Status) {
    a == b || (a == Queued && b == Adding) || (a == Adding && Terminal(b))
  }

  predicate Reuses(e: Event, id: JobId) {
    e.Submit? && JobId(e.millis, e.number) == id
  }

  lemma JobMoves(s: State, e: Event, r: nat)
    requires QueueInv(s) && RefsOk(s.mem) && Enabled(s, e) && e != Crash && r < |s.mem.jobs|
    ensures r < |Next(s, e).mem.jobs| && Next(s, e).mem.jobs[r].id == s.mem.jobs[r].id
    ensures Moves(s.mem.jobs[r].status, Next(s, e).mem.jobs[r].status)
  {
    hide QueueInv, Next, Shape, Statuses;
    QueueParts(s);
    if Quiet(e) {
      QuietMoves(s, e, r);
    } else if e.Mark? || e.Settle? {
      HeadMoves(s, e, r);
    } else {
      EndMoves(s, e, r);
    }
  }

  lemma QueueParts(s: State)
    requires QueueInv(s)
    ensures Shape(s.mem) && Statuses(s.mem.jobs, Popped(s.mem), s.mem.phase, s.hist.settled)
  {
  }

  lemma EndMoves(s: State, e: Event, r: nat)
    requires RefsOk(s.mem) && Enabled(s, e) && (e.Submit? || e.Pop?) && r < |s.mem.jobs|
    ensures r < |Next(s, e).mem.jobs| && Next(s, e).mem.jobs[r].id == s.mem.jobs[r].id
    ensures Next(s, e).mem.jobs[r].status == s.mem.jobs[r].status
  {
  }

  lemma QuietMoves(s: State, e: Event, r: nat)
    requires RefsOk(s.mem) && Enabled(s, e) && Quiet(e) && r < |s.mem.jobs|
    ensures r < |Next(s, e).mem.jobs| && Next(s, e).mem.jobs[r] == s.mem.jobs[r]
  {
    QuietFrame(s, e);
    hide Next;
  }

  lemma HeadMoves(s: State, e: Event, r: nat)
    requires Shape(s.mem) && RefsOk(s.mem) && Enabled(s, e) && (e.Mark? || e.Settle?) && r < |s.mem.jobs|
    requires Statuses(s.mem.jobs, Popped(s.mem), s.mem.phase, s.hist.settled)
    ensures r < |Next(s, e).mem.jobs| && Next(s, e).mem.jobs[r].id == s.mem.jobs[r].id
    ensures Moves(s.mem.jobs[r].status, Next(s, e).mem.jobs[r].status)
  {
    assert s.mem.phase.job == Popped(s.mem);
  }

  lemma IndexMoves(s: State, e: Event, id: JobId)
    requires RefsOk(s.mem) && Enabled(s, e) && e != Crash && id in s.mem.index
    ensures id in Next(s, e).mem.index
    ensures !Reuses(e, id) ==> Next(s, e).mem.index[id] == s.mem.index[id]
  {
  }

  /** Inside one process a known job stays known, and its status goes back only if a submit reuses its id. */
  lemma StatusStep(s: State, e: Event, id: JobId)
    requires Inv(s) && Enabled(s, e) && e != Crash && SaveStatus(s.mem, id).Known?
    ensures RefsOk(s.mem) && SaveStatus(Next(s, e).mem, id).Known?
    ensures !Moves(SaveStatus(s.mem, id).status, SaveStatus(Next(s, e).mem, id).status)
            <==> Reuses(e, id) && SaveStatus(s.mem, id).status != Queued
  {
    RefsFromInv(s);
    PartsOfInv(s);
    IndexMoves(s, e, id);
    JobMoves(s, e, s.mem.index[id]);
    if Reuses(e, id) {
      assert Next(s, e).mem.index[id] == |s.mem.jobs|;
    }
  }

  /** Only a job of an earlier process can have its id reused: two submits of one process never share an id. */
  lemma OnlyLoadedIdsReused(s: State, e: Event, id: JobId)
    requires Inv(s) && Enabled(s, e) && Reuses(e, id) && SaveStatus(s.mem, id).Known?
    ensures s.mem.index[id] < s.mem.loaded
  {
  }
}
