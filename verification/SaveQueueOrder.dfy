/** Saves are written in the order they were accepted, and a report is about the latest save of its id. */
module SaveQueueOrder {
  import opened Basics
  import opened SaveQueue
  import opened SaveQueueInvariants
  import opened SaveQueueOrigins
  import opened SaveQueueResults
  import opened SaveQueueTheorems

  // ---------------------------------------------------------------- the last write wins

  /** Nothing committed is of a later save than one still in the queue. */
  predicate NoneAhead(commits: map<nat, (nat, Row)>, queued: seq<nat>) {
    forall c, i :: c in commits && 0 <= i < |queued| ==> commits[c].0 <= queued[i]
  }

  /** A commit is on record with the row its save asked for. */
  predicate AsAccepted(commits: map<nat, (nat, Row)>, accepted: seq<(JobId, Content)>, sequence: nat) {
    forall c :: c in commits ==>
      c <= sequence && commits[c].0 < |accepted| && Stores(commits[c].1, accepted[commits[c].0].1)
  }

  /** A row that a save wrote is the one on record under its id. */
  predicate RowsOnRecord(rows: map<nat, Row>, commits: map<nat, (nat, Row)>) {
    forall id :: id in rows && rows[id].writer.BySave? ==> id in commits && commits[id].1 == rows[id]
  }

  ghost predicate InOrder(s: State) {
    && RefsOk(s.mem)
    && NoneAhead(s.hist.commits, QueueSerials(s.mem))
    && AsAccepted(s.hist.commits, s.hist.accepted, s.disk.table.sequence)
    && RowsOnRecord(s.disk.table.rows, s.hist.commits)
  }

  /** The head of the queue is the earliest save in it, and still as it was accepted. */
  lemma HeadFirst(s: State)
    requires QueueInv(s) && PhaseJob(s.mem.phase).Some?
    ensures RefsOk(s.mem) && PhaseJob(s.mem.phase).value < |s.mem.jobs|
    ensures var job := s.mem.jobs[PhaseJob(s.mem.phase).value];
            && |QueueSerials(s.mem)| > 0 && QueueSerials(s.mem)[0] == job.serial
            && (forall i :: 0 <= i < |QueueSerials(s.mem)| ==> job.serial <= QueueSerials(s.mem)[i])
            && job.serial < |s.hist.accepted| && job.content == s.hist.accepted[job.serial].1
  {
    hide Durable, Statuses, Indexed, Numbered, FileMatches;
    var r := PhaseJob(s.mem.phase).value;
    assert Original(s.hist.accepted[s.mem.jobs[r].serial], s.mem.jobs[r], r < Popped(s.mem));
  }

  lemma SameSerials(s: State, e: Event)
    requires QueueInv(s) && Enabled(s, e) && !e.Submit? && !e.Pop?
    ensures RefsOk(s.mem) && RefsOk(Next(s, e).mem) && QueueSerials(Next(s, e).mem) == QueueSerials(s.mem)
  {
    hide QueueInv, QueueSerials, Next;
    SerialsOfStep(s, e);
    var before, after := QueueSerials(s.mem), QueueSerials(Next(s, e).mem);
    assert [] + after == after && before + [] == before;
  }

  lemma RowStores(c: Content)
    ensures Stores(RowOf(c), c)
  {
  }

  lemma CommitInOrder(s: State)
    requires InOrder(s) && QueueInv(s) && Enabled(s, Transact(Commits))
    ensures InOrder(Next(s, Transact(Commits)))
  {
    hide QueueInv, QueueSerials, RowOf, Stores;
    HeadFirst(s);
    RowStores(s.mem.jobs[s.mem.phase.job].content);
    SameSerials(s, Transact(Commits));
  }

  lemma OtherInOrder(s: State, e: Event)
    requires InOrder(s) && QueueInv(s) && Enabled(s, e) && e != Transact(Commits) && !e.Submit? && !e.Pop?
    ensures InOrder(Next(s, e))
  {
    hide QueueInv, QueueSerials, RowOf, Boot, FileImage, NoneAhead;
    SameSerials(s, e);
    if e.RecordOrigin? {
    } else if e.Transact? {
    } else {
    }
  }

  lemma PopInOrder(s: State)
    requires InOrder(s) && QueueInv(s) && Enabled(s, Pop)
    ensures InOrder(Next(s, Pop))
  {
    hide QueueInv, QueueSerials, RowOf, FileImage;
    SerialsOfStep(s, Pop);
    var gone := s.mem.jobs[s.mem.phase.job].serial;
    var rest := QueueSerials(Next(s, Pop).mem);
    assert forall i :: 0 <= i < |rest| ==> rest[i] == ([gone] + rest)[i + 1];
  }

  lemma SubmitInOrder(s: State, e: Event)
    requires InOrder(s) && QueueInv(s) && Enabled(s, e) && e.Submit?
    ensures InOrder(Next(s, e))
  {
    hide QueueInv, QueueSerials, RowOf, FileImage;
    SerialsOfStep(s, e);
    var before, after := QueueSerials(s.mem), QueueSerials(Next(s, e).mem);
    assert [] + after == after;
    assert forall i :: 0 <= i < |after| ==> after[i] == if i < |before| then before[i] else |s.hist.accepted|;
  }

  lemma InOrderStep(s: State, e: Event)
    requires InOrder(s) && QueueInv(s) && Enabled(s, e)
    ensures InOrder(Next(s, e))
  {
    hide InOrder, QueueInv;
    if e == Transact(Commits) { CommitInOrder(s); }
    else if e.Submit? { SubmitInOrder(s, e); }
    else if e.Pop? { PopInOrder(s); }
    else { OtherInOrder(s, e); }
  }

  // ---------------------------------------------------------------- which save an id names

  /** The jobs of a process are the last saves accepted. */
  predicate Consecutive(jobs: seq<Job>, accepted: nat) {
    && |jobs| <= accepted
    && forall i :: 0 <= i < |jobs| ==> jobs[i].serial == accepted - |jobs| + i
  }

  predicate LastOfId(jobs: seq<Job>, index: map<JobId, nat>) {
    forall r :: 0 <= r < |jobs| ==> jobs[r].id in index && index[jobs[r].id] >= r
  }

  ghost predicate Latest(s: State) {
    Consecutive(s.mem.jobs, |s.hist.accepted|) && LastOfId(s.mem.jobs, s.mem.index)
  }

  lemma {:induction false} IndexOfLast(jobs: seq<Job>)
    ensures LastOfId(jobs, IndexOf(jobs))
  {
    if jobs != [] {
      IndexOfLast(jobs[..|jobs| - 1]);
    }
  }

  lemma ReloadLatest(file: seq<Job>, jobs: seq<Job>, popped: nat, accepted: nat)
    requires Consecutive(jobs, accepted) && popped + |file| == |jobs|
    requires forall i :: 0 <= i < |file| ==> SameSave(file[i], jobs[popped + i])
    ensures Consecutive(Reloaded(file), accepted) && LastOfId(Reloaded(file), IndexOf(Reloaded(file)))
  {
    var again := Reloaded(file);
    assert forall i :: 0 <= i < |again| ==> SameSave(again[i], jobs[popped + i]);
    IndexOfLast(again);
  }

  lemma UpdateLatest(jobs: seq<Job>, index: map<JobId, nat>, accepted: nat, r: nat, job: Job)
    requires Consecutive(jobs, accepted) && LastOfId(jobs, index)
    requires r < |jobs| && job.serial == jobs[r].serial && job.id == jobs[r].id
    ensures Consecutive(jobs[r := job], accepted) && LastOfId(jobs[r := job], index)
  {
  }

  lemma SnocLatest(jobs: seq<Job>, index: map<JobId, nat>, accepted: nat, job: Job)
    requires Consecutive(jobs, accepted) && LastOfId(jobs, index) && job.serial == accepted
    ensures Consecutive(jobs + [job], accepted + 1) && LastOfId(jobs + [job], index[job.id := |jobs|])
  {
  }

  lemma CrashLatest(s: State)
    requires Latest(s) && QueueInv(s)
    ensures RefsOk(s.mem) && Latest(Next(s, Crash))
  {
    hide Serials, Durable, Statuses, Indexed, Numbered, FileMatches, WakeupKept, Consecutive, LastOfId, Reloaded, IndexOf;
    ReloadMatches(s.disk.queueFile, s.mem.jobs, s.mem.queue, Popped(s.mem));
    ReloadLatest(s.disk.queueFile, s.mem.jobs, Popped(s.mem), |s.hist.accepted|);
  }

  lemma QuietLatest(s: State, e: Event)
    requires Latest(s) && RefsOk(s.mem) && Enabled(s, e) && Quiet(e)
    ensures Latest(Next(s, e))
  {
    hide Next, Consecutive, LastOfId, Enabled;
    QuietFrame(s, e);
  }

  lemma LatestStep(s: State, e: Event)
    requires Latest(s) && QueueInv(s) && Enabled(s, e)
    ensures RefsOk(s.mem) && Latest(Next(s, e))
  {
    hide QueueInv;
    RefsFromInv(s);
    if Quiet(e) { QuietLatest(s, e); }
    else if e.Crash? { CrashLatest(s); }
    else { JobLatest(s, e); }
  }

  lemma JobLatest(s: State, e: Event)
    requires Latest(s) && RefsOk(s.mem) && Enabled(s, e) && !Quiet(e) && !e.Crash?
    ensures Latest(Next(s, e))
  {
    hide Consecutive, LastOfId, FileImage;
    var m := s.mem;
    match e
    case Submit(millis, number, c) =>
      SnocLatest(m.jobs, m.index, |s.hist.accepted|, Job(|s.hist.accepted|, JobId(millis, number), c, Queued, "", 0));
    case Mark => UpdateLatest(m.jobs, m.index, |s.hist.accepted|, m.phase.job, SetStatus(m.jobs[m.phase.job], Adding, "", 0));
    case Settle =>
      UpdateLatest(m.jobs, m.index, |s.hist.accepted|, m.phase.job,
                   SetStatus(m.jobs[m.phase.job], m.phase.verdict, m.phase.message, m.phase.entry));
    case Pop =>
      var job := m.jobs[m.phase.job];
      UpdateLatest(m.jobs, m.index, |s.hist.accepted|, m.phase.job, job.(content := Wiped(job.content)));
  }

  // ---------------------------------------------------------------- over whole runs

  ghost predicate Ordered(s: State) {
    Inv(s) && InOrder(s) && Latest(s)
  }

  lemma OrderedStep(s: State, e: Event)
    requires Ordered(s) && Enabled(s, e)
    ensures RefsOk(s.mem) && Ordered(Next(s, e))
  {
    hide Inv, InOrder, Latest;
    StepInv(s, e);
    QueuePart(s);
    InOrderStep(s, e);
    LatestStep(s, e);
  }

  lemma {:induction false} OrderedRun(s: State, events: seq<Event>)
    requires Ordered(s) && Feasible(s, events)
    ensures Ordered(Final(s, events))
    decreases |events|
  {
    hide Ordered, Next, Enabled;
    if events != [] {
      OrderedStep(s, events[0]);
      OrderedRun(Next(s, events[0]), events[1..]);
    }
  }

  lemma ReachableOrdered(events: seq<Event>)
    requires Feasible(Init(), events)
    ensures Ordered(Final(Init(), events))
  {
    InitInv();
    OrderedRun(Init(), events);
  }

  /**
   * The last write wins, in every reachable state and across restarts: the row a save's transaction removes
   * was committed, as submitted, by the same save or an earlier one of its origin; and no row that a save
   * wrote is of a later save than the one being committed.
   */
  lemma LastWriteWins(events: seq<Event>, tx: TxOutcome, id: nat)
    requires Feasible(Init(), events) && Enabled(Final(Init(), events), Transact(tx))
    requires var s := Final(Init(), events);
             id in s.disk.table.rows && (id in DoTransact(s, tx).disk.table.rows ==>
                                           DoTransact(s, tx).disk.table.rows[id] != s.disk.table.rows[id])
    ensures var s := Final(Init(), events);
            var job := s.mem.jobs[s.mem.phase.job];
            && id in s.hist.commits && s.hist.commits[id].0 <= job.serial < |s.hist.accepted|
            && job.content == s.hist.accepted[job.serial].1
            && s.hist.accepted[s.hist.commits[id].0].1.origin == job.content.origin
            && Stores(s.disk.table.rows[id], s.hist.accepted[s.hist.commits[id].0].1)
    ensures var s := Final(Init(), events);
            forall r :: r in s.disk.table.rows && s.disk.table.rows[r].writer.BySave? ==>
              r in s.hist.commits && s.hist.commits[r].0 <= s.mem.jobs[s.mem.phase.job].serial
  {
    hide QueueSerials, QueueInv, DoTransact, Feasible, Final;
    var s := Final(Init(), events);
    ReachableOrdered(events);
    SavesDeleteOnlyTheirOwn(events, tx, id);
    HeadFirst(s);
  }

  /**
   * In every reachable state, across restarts: whatever was committed, and every row that a save wrote, holds
   * field by field what the client submitted with the save of its serial.
   */
  lemma RowsAreAsSubmitted(events: seq<Event>, id: nat)
    requires Feasible(Init(), events)
    ensures var s := Final(Init(), events);
            && (id in s.hist.commits ==>
                  && s.hist.commits[id].0 < |s.hist.accepted|
                  && Stores(s.hist.commits[id].1, s.hist.accepted[s.hist.commits[id].0].1))
            && (id in s.disk.table.rows && s.disk.table.rows[id].writer.BySave? ==>
                  id in s.hist.commits && s.disk.table.rows[id] == s.hist.commits[id].1)
  {
    hide QueueInv, QueueSerials, Stores;
    ReachableOrdered(events);
  }

  /** Of the saves accepted with this id, the latest. */
  ghost predicate Newest(h: History, serial: nat, id: JobId) {
    && serial < |h.accepted| && h.accepted[serial].0 == id
    && forall k :: serial < k < |h.accepted| ==> h.accepted[k].0 != id
  }

  lemma IndexedIsNewest(s: State, id: JobId)
    requires QueueInv(s) && Latest(s) && id in s.mem.index
    ensures s.mem.index[id] < |s.mem.jobs| && Newest(s.hist, s.mem.jobs[s.mem.index[id]].serial, id)
  {
    hide Durable, Statuses, Numbered, FileMatches, Shape, WakeupKept;
    var jobs := s.mem.jobs;
    var r := s.mem.index[id];
    assert Original(s.hist.accepted[jobs[r].serial], jobs[r], r < Popped(s.mem));
    forall k | jobs[r].serial < k < |s.hist.accepted|
      ensures s.hist.accepted[k].0 != id
    {
      var i := k - (|s.hist.accepted| - |jobs|);
      assert jobs[i].serial == k;
      assert Original(s.hist.accepted[k], jobs[i], i < Popped(s.mem));
    }
  }

  /** In every reachable state a report is about the latest save accepted with its id. */
  lemma ReportsAreOfTheNewest(events: seq<Event>, id: JobId)
    requires Feasible(Init(), events) && SaveStatus(Final(Init(), events).mem, id).Known?
    ensures var s := Final(Init(), events);
            id in s.mem.index && s.mem.index[id] < |s.mem.jobs| && Newest(s.hist, s.mem.jobs[s.mem.index[id]].serial, id)
  {
    hide QueueInv, InOrder, Latest, Newest;
    ReachableOrdered(events);
    IndexedIsNewest(Final(Init(), events), id);
  }

  /**
   * A save reported done was committed as submitted, and the origin map file was rewritten to its entry: the
   * save is the latest one accepted with the id, so the one asked about unless its id was drawn again.
   */
  lemma DoneIsDurable(events: seq<Event>, id: JobId)
    requires Feasible(Init(), events)
    requires SaveStatus(Final(Init(), events).mem, id).Known? && SaveStatus(Final(Init(), events).mem, id).status == Done
    ensures var s := Final(Init(), events);
            && id in s.mem.index && s.mem.index[id] < |s.mem.jobs|
            && var serial := s.mem.jobs[s.mem.index[id]].serial;
               Newest(s.hist, serial, id) && Proven(s.hist, serial, SaveStatus(s.mem, id).entry)
  {
    hide Newest, InOrder, Latest, QueueInv;
    ReportsAreOfTheNewest(events, id);
    ReachableInv(events);
    var s := Final(Init(), events);
    var r := s.mem.index[id];
    assert Proven(s.hist, s.mem.jobs[r].serial, s.mem.jobs[r].resultEntryId);
  }
}
