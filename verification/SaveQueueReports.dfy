/** What a client reads about a save: its verdict, the message of the first failure, and nothing else. */
module SaveQueueReports {
  import opened Basics
  import opened SaveQueue
  import opened SaveQueueInvariants
  import opened SaveQueueResults
  import opened SaveQueueTheorems

  // ---------------------------------------------------------------- only a failure has a message

  predicate JobReportsOk(j: Job) {
    (j.status != Failed ==> j.error == "") && (j.status == Adding ==> j.resultEntryId == 0)
  }

  ghost predicate ReportsOk(m: Memory) {
    && (forall r :: 0 <= r < |m.jobs| ==> JobReportsOk(m.jobs[r]))
    && (m.phase.Settling? && m.phase.verdict == Done ==> m.phase.message == "")
  }

  lemma HeadVerdict(s: State)
    requires QueueInv(s) && s.mem.phase.Settling?
    ensures Terminal(s.mem.phase.verdict) && s.mem.phase.job == Popped(s.mem) < |s.mem.jobs|
    ensures s.mem.jobs[s.mem.phase.job].status == Adding
  {
  }

  lemma ReportsStep(s: State, e: Event)
    requires QueueInv(s) && RefsOk(s.mem) && ReportsOk(s.mem) && Enabled(s, e)
    ensures ReportsOk(Next(s, e).mem)
  {
    hide QueueInv, RefsOk, FileImage, IndexOf;
    if e.Settle? {
      HeadVerdict(s);
    } else if e.Transact? {
    } else if e.Pop? {
    } else if e.Submit? {
    } else if e.Crash? {
    } else {
    }
  }

  lemma {:induction false} ReportsRun(s: State, events: seq<Event>)
    requires Inv(s) && ReportsOk(s.mem) && Feasible(s, events)
    ensures ReportsOk(Final(s, events).mem)
    decreases |events|
  {
    hide Inv, QueueInv, ReportsOk, Next, Enabled;
    if events != [] {
      StepInv(s, events[0]);
      QueuePart(s);
      ReportsStep(s, events[0]);
      ReportsRun(Next(s, events[0]), events[1..]);
    }
  }

  /** In every reachable state a report carries a message only if the save failed, and no entry while it is being added. */
  lemma OnlyFailuresCarryMessages(events: seq<Event>, id: JobId)
    requires Feasible(Init(), events) && SaveStatus(Final(Init(), events).mem, id).Known?
    ensures var report := SaveStatus(Final(Init(), events).mem, id);
            (report.status != Failed ==> report.error == "") && (report.status == Adding ==> report.entry == 0)
  {
    hide Inv;
    InitInv();
    ReportsRun(Init(), events);
  }

  // ---------------------------------------------------------------- the first failure decides

  /** The step after which nothing can change the verdict any more. */
  predicate Decides(s: State, e: Event, verdict: Status, message: string, entry: nat) {
    || (e.Transact? && s.mem.phase.Marked? && !e.tx.Commits? && (verdict, message, entry) == (Failed, e.tx.error, 0))
    || (e.RecordOrigin? && s.mem.phase.Committed? && e.outcome.MapFails?
        && (verdict, message, entry) == (Failed, e.outcome.error, s.mem.phase.entry))
    || (e.RecordOrigin? && s.mem.phase.Committed? && e.outcome.MapWritten?
        && (verdict, message, entry) == (Done, "", s.mem.phase.entry))
  }

  /** The verdict on the job is written, or is what the processor writes next. */
  predicate Decided(m: Memory, r: nat, verdict: Status, message: string, entry: nat) {
    && r < |m.jobs|
    && if m.phase.Settling? && m.phase.job == r then (m.phase.verdict, m.phase.message, m.phase.entry) == (verdict, message, entry)
       else
         && (m.jobs[r].status, m.jobs[r].error, m.jobs[r].resultEntryId) == (verdict, message, entry)
         && (r < Popped(m) || ((m.phase.Settled? || m.phase.Released?) && m.phase.job == r))
  }

  lemma HeadIsNext(s: State)
    requires QueueInv(s)
    ensures RefsOk(s.mem) && 0 <= Popped(s.mem) && (PhaseJob(s.mem.phase).Some? ==> PhaseJob(s.mem.phase).value == Popped(s.mem))
    ensures |s.mem.queue| > 0 ==> s.mem.queue[0] == Popped(s.mem)
  {
  }

  lemma DecidedStep(s: State, e: Event, r: nat, verdict: Status, message: string, entry: nat)
    requires QueueInv(s) && RefsOk(s.mem) && Enabled(s, e) && e != Crash && Decided(s.mem, r, verdict, message, entry)
    ensures Decided(Next(s, e).mem, r, verdict, message, entry)
    ensures r < |Next(s, e).mem.jobs| && Next(s, e).mem.jobs[r].id == s.mem.jobs[r].id
  {
    hide QueueInv, FileImage, RefsOk, Insert, DeleteRow, RowOf;
    HeadIsNext(s);
    if e.Transact? || e.RecordOrigin? {
      StoringKeeps(s, e, r);
    } else if e.Pop? {
      PopKeepsDecided(s, r, verdict, message, entry);
    } else if e.Submit? || e.Settle? || e.Mark? {
    } else {
    }
  }

  lemma StoringKeeps(s: State, e: Event, r: nat)
    requires RefsOk(s.mem) && Enabled(s, e) && (e.Transact? || e.RecordOrigin?)
    ensures Next(s, e).mem.jobs == s.mem.jobs && Next(s, e).mem.queue == s.mem.queue
    ensures PhaseJob(Next(s, e).mem.phase) == PhaseJob(s.mem.phase)
  {
    hide Insert, DeleteRow, RowOf, DoTransact, DoRecordOrigin;
    if e.Transact? { TransactKeeps(s, e.tx); } else { RecordKeeps(s, e.outcome); }
  }

  lemma TransactKeeps(s: State, tx: TxOutcome)
    requires Enabled(s, Transact(tx))
    ensures var t := DoTransact(s, tx);
            t.mem.jobs == s.mem.jobs && t.mem.queue == s.mem.queue && PhaseJob(t.mem.phase) == PhaseJob(s.mem.phase)
  {
    hide Insert, DeleteRow, RowOf;
  }

  lemma RecordKeeps(s: State, o: MapOutcome)
    requires Enabled(s, RecordOrigin(o))
    ensures var t := DoRecordOrigin(s, o);
            t.mem.jobs == s.mem.jobs && t.mem.queue == s.mem.queue && PhaseJob(t.mem.phase) == PhaseJob(s.mem.phase)
  {
  }

  lemma PopKeepsDecided(s: State, r: nat, verdict: Status, message: string, entry: nat)
    requires QueueInv(s) && RefsOk(s.mem) && Enabled(s, Pop) && Decided(s.mem, r, verdict, message, entry)
    ensures Decided(DoPop(s).mem, r, verdict, message, entry) && DoPop(s).mem.jobs[r].id == s.mem.jobs[r].id
  {
    PopHead(s);
    hide QueueInv, FileImage;
  }

  lemma {:induction false} DecidedRun(s: State, events: seq<Event>, r: nat, verdict: Status, message: string, entry: nat)
    requires Inv(s) && Feasible(s, events) && forall i :: 0 <= i < |events| ==> events[i] != Crash
    requires Decided(s.mem, r, verdict, message, entry)
    ensures Decided(Final(s, events).mem, r, verdict, message, entry)
    ensures r < |Final(s, events).mem.jobs| && Final(s, events).mem.jobs[r].id == s.mem.jobs[r].id
    decreases |events|
  {
    hide Inv, QueueInv, Next, Enabled;
    if events != [] {
      StepInv(s, events[0]);
      QueuePart(s);
      DecidedStep(s, events[0], r, verdict, message, entry);
      DecidedRun(Next(s, events[0]), events[1..], r, verdict, message, entry);
    }
  }

  lemma NothingToReport()
    ensures ReportsOk(Init().mem)
  {
  }

  lemma DecidesIt(s: State, e: Event, r: nat, verdict: Status, message: string, entry: nat)
    requires RefsOk(s.mem) && Enabled(s, e) && Decides(s, e, verdict, message, entry) && PhaseJob(s.mem.phase) == Some(r)
    ensures r < |s.mem.jobs| && Decided(Next(s, e).mem, r, verdict, message, entry)
    ensures Next(s, e).mem.jobs == s.mem.jobs
  {
    hide Insert, DeleteRow, RowOf;
  }

  lemma DecidedReports(m: Memory, r: nat, verdict: Status, message: string, entry: nat, id: JobId)
    requires Decided(m, r, verdict, message, entry) && ReportsOk(m) && id in m.index && m.index[id] == r
    requires m.phase.Settling? && m.phase.job == r ==> m.jobs[r].status == Adding
    ensures SaveStatus(m, id) == Known(Adding, "", 0) || SaveStatus(m, id) == Known(verdict, message, entry)
  {
  }

  /**
   * From the step that decides a save on, as long as the process lives, its report is that it is being added,
   * and then the verdict: failed with the message of the first failure, or done with the committed entry.
   */
  lemma FirstFailureIsReported(
      events: seq<Event>, e: Event, more: seq<Event>, r: nat, verdict: Status, message: string, entry: nat)
    requires Feasible(Init(), events) && Enabled(Final(Init(), events), e) && RefsOk(Final(Init(), events).mem)
    requires Decides(Final(Init(), events), e, verdict, message, entry) && PhaseJob(Final(Init(), events).mem.phase) == Some(r)
    requires Feasible(Next(Final(Init(), events), e), more) && forall i :: 0 <= i < |more| ==> more[i] != Crash
    ensures var s := Final(Init(), events);
            var t := Final(Next(s, e), more);
            && r < |s.mem.jobs| && r < |t.mem.jobs| && t.mem.jobs[r].id == s.mem.jobs[r].id
            && forall id :: id in t.mem.index && t.mem.index[id] == r ==>
                 SaveStatus(t.mem, id) == Known(Adding, "", 0) || SaveStatus(t.mem, id) == Known(verdict, message, entry)
  {
    hide Inv, QueueInv, ReportsOk, Decided, Decides, Next, Enabled, SaveStatus;
    InitInv();
    NothingToReport();
    RunInv(Init(), events);
    ReportsRun(Init(), events);
    var s := Final(Init(), events);
    QueuePart(s);
    StepInv(s, e);
    ReportsStep(s, e);
    DecidesIt(s, e, r, verdict, message, entry);
    RunInv(Next(s, e), more);
    ReportsRun(Next(s, e), more);
    DecidedRun(Next(s, e), more, r, verdict, message, entry);
    var t := Final(Next(s, e), more);
    QueuePart(t);
    forall id | id in t.mem.index && t.mem.index[id] == r
      ensures SaveStatus(t.mem, id) == Known(Adding, "", 0) || SaveStatus(t.mem, id) == Known(verdict, message, entry)
    {
      if t.mem.phase.Settling? { HeadVerdict(t); }
      DecidedReports(t.mem, r, verdict, message, entry, id);
    }
  }

  // ---------------------------------------------------------------- what memory keeps

  /** Of a save that left the queue, memory keeps neither body, title nor tags. */
  lemma PoppedTextIsGone(events: seq<Event>, r: nat)
    requires Feasible(Init(), events) && r < Popped(Final(Init(), events).mem)
    ensures var c := Final(Init(), events).mem.jobs[r].content;
            c.body == "" && c.title == "" && c.tags == []
  {
    hide Durable, Statuses, Indexed, Numbered, FileMatches;
    ReachableInv(events);
    var s := Final(Init(), events);
    assert Original(s.hist.accepted[s.mem.jobs[r].serial], s.mem.jobs[r], r < Popped(s.mem));
  }

  // ---------------------------------------------------------------- what the files keep, and a restart brings back

  /** The queue file is rewritten whenever the queue changes, with the jobs as they stand then, status and all. */
  lemma QueueFileIsWritten(events: seq<Event>, e: Event)
    requires Feasible(Init(), events) && RefsOk(Final(Init(), events).mem) && Enabled(Final(Init(), events), e)
    requires e.Submit? || e.Pop?
    ensures var t := Next(Final(Init(), events), e);
            && RefsOk(t.mem) && |t.disk.queueFile| == |t.mem.queue|
            && forall i :: 0 <= i < |t.mem.queue| ==> t.disk.queueFile[i] == t.mem.jobs[t.mem.queue[i]]
  {
    ReachableInv(events);
    StepInv(Final(Init(), events), e);
    hide QueueInv, Inv, Enabled;
  }

  /** A restart finds the jobs of the file in their order, queued and without a message, each with its id, content and entry. */
  lemma RestartReloads(s: State)
    requires RefsOk(s.mem)
    ensures var m := Next(s, Crash).mem;
            && |m.jobs| == |s.disk.queueFile| == |m.queue| && m.originMap == s.disk.originMap && m.phase == Waiting
            && forall i :: 0 <= i < |m.jobs| ==>
                 && m.queue[i] == i && m.jobs[i].status == Queued && m.jobs[i].error == ""
                 && m.jobs[i].serial == s.disk.queueFile[i].serial && m.jobs[i].id == s.disk.queueFile[i].id
                 && m.jobs[i].content == s.disk.queueFile[i].content && m.jobs[i].resultEntryId == s.disk.queueFile[i].resultEntryId
  {
  }

  /** The process counts the new entry as the origin's in every case; the file names it exactly if it was replaced. */
  lemma OriginIsRecorded(s: State, o: MapOutcome)
    requires RefsOk(s.mem) && Enabled(s, RecordOrigin(o))
    ensures var t := Next(s, RecordOrigin(o));
            var origin := s.mem.jobs[s.mem.phase.job].content.origin;
            && origin in t.mem.originMap && t.mem.originMap[origin] == s.mem.phase.entry
            && (forall other :: other != origin ==> Lookup(t.mem.originMap, other) == Lookup(s.mem.originMap, other))
            && t.disk.originMap == (if o.MapWritten? || o.replaced then t.mem.originMap else s.disk.originMap)
            && t.disk.table == s.disk.table && t.disk.queueFile == s.disk.queueFile
  {
  }

  // ---------------------------------------------------------------- the end of a process

  ghost predicate StopsOnlyWhenClosing(m: Memory) {
    m.phase == Stopped ==> m.closing
  }

  lemma StopStep(s: State, e: Event)
    requires RefsOk(s.mem) && StopsOnlyWhenClosing(s.mem) && Enabled(s, e)
    ensures StopsOnlyWhenClosing(Next(s, e).mem)
  {
    hide FileImage, Insert, DeleteRow, RowOf, RefsOk;
    if e.Transact? {
    } else if e.RecordOrigin? {
    } else {
    }
  }

  lemma {:induction false} StopRun(s: State, events: seq<Event>)
    requires StopsOnlyWhenClosing(s.mem) && Feasible(s, events)
    ensures StopsOnlyWhenClosing(Final(s, events).mem)
    decreases |events|
  {
    hide StopsOnlyWhenClosing, Next, Enabled;
    if events != [] {
      StopStep(s, events[0]);
      StopRun(Next(s, events[0]), events[1..]);
    }
  }

  /**
   * The processor stops only once the process is closing; so in every reachable state in which it is not, and no
   * internal step is possible, queue and file are empty and every accepted save is settled.  Closing pokes it.
   */
  lemma OpenProcessesDrain(events: seq<Event>)
    requires Feasible(Init(), events)
    ensures var s := Final(Init(), events);
            && (s.mem.phase == Stopped ==> s.mem.closing)
            && (!s.mem.closing && (forall e :: Internal(e) ==> !Enabled(s, e)) ==>
                  s.mem.queue == [] && s.disk.queueFile == [] && forall n :: 0 <= n < |s.hist.accepted| ==> n in s.hist.settled)
            && (RefsOk(s.mem) && Enabled(s, Close) ==> Enabled(Next(s, Close), Poke) && Next(s, Close).mem.closing)
  {
    hide Inv;
    ReachableInv(events);
    assert StopsOnlyWhenClosing(Init().mem);
    StopRun(Init(), events);
    var s := Final(Init(), events);
    if !s.mem.closing && forall e :: Internal(e) ==> !Enabled(s, e) {
      NothingLeftWaiting(s);
    }
  }
}
