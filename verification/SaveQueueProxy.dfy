/**
 * The server object itself: fields updated in place under its locks.  Each method that is one critical
 * section performs exactly one step of the transition system in SaveQueue; the longer methods perform
 * the run of steps they return.  Ghost fields carry what the program keeps in goroutines: their
 * positions, owed pokes and drawn numbers.
 */
module SaveQueueProxy {
  import opened Basics
  import opened SaveQueue

  class SaveJob {
    const serial: nat   // bookkeeping only
    const id: JobId
    const origin: string
    const depth: int
    var body: string
    var title: string
    var tags: seq<string>
    var status: Status
    var error: string
    var resultEntryId: nat

    constructor (serial: nat, id: JobId, c: Content)
      ensures Record() == Job(serial, id, c, Queued, "", 0)
    {
      this.serial, this.id, this.origin, this.depth := serial, id, c.origin, c.depth;
      body, title, tags := c.body, c.title, c.tags;
      status, error, resultEntryId := Queued, "", 0;
    }

    /** A job read back from the queue file: status and error are reset, the result entry is not. */
    constructor Reload(j: Job)
      ensures Record() == Requeued(j)
    {
      serial, id, origin, depth := j.serial, j.id, j.content.origin, j.content.depth;
      body, title, tags := j.content.body, j.content.title, j.content.tags;
      status, error, resultEntryId := Queued, "", j.resultEntryId;
    }

    function Record(): Job
      reads this
    {
      Job(serial, id, Content(body, title, tags, origin, depth), status, error, resultEntryId)
    }
  }

  /** The data directory: the entries table, origin-map.json and save-queue.json. */
  class DataDir {
    var rows: map<nat, Row>
    var sequence: nat
    var originMap: map<string, nat>
    var queueFile: seq<Job>

    ghost function Contents(): Disk
      reads this
    {
      Disk(Table(rows, sequence), originMap, queueFile)
    }

    /** A reported error leaves the old file or the new one. */
    method WriteOriginMap(outcome: MapOutcome, m: map<string, nat>)
      modifies this`originMap
      ensures originMap == if outcome.MapWritten? || outcome.replaced then m else old(originMap)
    {
      if outcome.MapWritten? || outcome.replaced {
        originMap := m;
      }
    }

    /** The committed transaction: the previous row goes, the new one gets the next number. */
    method ReplaceRow(prev: Option<nat>, row: Row) returns (newId: nat)
      modifies this`rows, this`sequence
      ensures var t := old(Contents().table);
              Contents().table == Insert(if prev.Some? then DeleteRow(t, prev.value) else t, row)
      ensures newId == sequence
    {
      if prev.Some? {
        rows := rows - {prev.value};
      }
      newId := sequence + 1;
      rows := rows[newId := row];
      sequence := newId;
    }
  }

  // ---------------------------------------------------------------- parts of the object invariant

  ghost predicate Describes(all: seq<SaveJob>, jobs: seq<Job>)
    reads all
  {
    |jobs| == |all| && forall i :: 0 <= i < |all| ==> all[i].Record() == jobs[i]
  }

  ghost predicate Distinct(all: seq<SaveJob>) {
    forall i, j :: 0 <= i < j < |all| ==> all[i] != all[j]
  }

  ghost predicate IsTail(queue: seq<SaveJob>, all: seq<SaveJob>) {
    |queue| <= |all| && queue == all[|all| - |queue|..]
  }

  ghost predicate Resolves(index: map<JobId, SaveJob>, refs: map<JobId, nat>, all: seq<SaveJob>) {
    index.Keys == refs.Keys && forall id :: id in refs ==> refs[id] < |all| && index[id] == all[refs[id]]
  }

  ghost function TailRefs(total: nat, length: nat): (r: seq<nat>)
    requires length <= total
    ensures |r| == length && forall i :: 0 <= i < length ==> r[i] == total - length + i < total
  {
    seq(length, i => total - length + i)
  }

  /** A process before it has read the queue file. */
  ghost function Bare(d: Disk): Memory {
    Memory([], [], map[], d.originMap, false, Waiting, None, |d.queueFile|, 0, {}, 0, true, false)
  }

  lemma Appended(all: seq<SaveJob>, jobs: seq<Job>, queue: seq<SaveJob>, index: map<JobId, SaveJob>, refs: map<JobId, nat>, job: SaveJob)
    requires Describes(all, jobs) && Distinct(all) && IsTail(queue, all) && Resolves(index, refs, all) && job !in all
    ensures Describes(all + [job], jobs + [job.Record()]) && Distinct(all + [job]) && IsTail(queue + [job], all + [job])
    ensures Resolves(index[job.id := job], refs[job.id := |all|], all + [job])
    ensures TailRefs(|all| + 1, |queue| + 1) == TailRefs(|all|, |queue|) + [|all|]
  {
  }

  /** The parts of the memory that the program fields mirror are the same. */
  predicate SameMemory(s: State, t: State) {
    && t.mem.jobs == s.mem.jobs && t.mem.queue == s.mem.queue && t.mem.index == s.mem.index
    && t.mem.originMap == s.mem.originMap && t.mem.notify == s.mem.notify && t.mem.saveSeq == s.mem.saveSeq
    && t.mem.closing == s.mem.closing && t.mem.current == s.mem.current
  }

  predicate SameObjects(s: State, t: State) {
    SameMemory(s, t) && |t.hist.accepted| == |s.hist.accepted|
  }

  /** What accepting a save comes to once the job object is in the queue. */
  lemma SubmitFrame(s: State, u: State, millis: nat, number: nat, c: Content)
    requires RefsOk(s.mem)
    requires var m := s.mem;
             var job := Job(|s.hist.accepted|, JobId(millis, number), c, Queued, "", 0);
             u == s.(mem := m.(jobs := m.jobs + [job], queue := m.queue + [|m.jobs|], index := m.index[job.id := |m.jobs|]))
    ensures RefsOk(u.mem) && SameMemory(u, DoSubmit(s, millis, number, c))
    ensures DoSubmit(s, millis, number, c).disk == s.disk.(queueFile := FileImage(u.mem.jobs, u.mem.queue))
    ensures |DoSubmit(s, millis, number, c).hist.accepted| == |s.hist.accepted| + 1
  {
  }

  lemma TransactDisk(s: State, tx: TxOutcome)
    requires s.mem.phase.Marked? && s.mem.phase.job < |s.mem.jobs|
    ensures DoTransact(s, tx).disk
         == if tx.Commits? then
              var t := s.disk.table;
              var prev := s.mem.phase.prev;
              s.disk.(table := Insert(if prev.Some? then DeleteRow(t, prev.value) else t, RowOf(s.mem.jobs[s.mem.phase.job].content)))
            else s.disk
    ensures tx.Commits? ==> DoTransact(s, tx).mem.phase.Committed? && DoTransact(s, tx).mem.phase.entry == DoTransact(s, tx).disk.table.sequence
  {
  }

  lemma MarkFrame(s: State)
    requires s.mem.phase.Looked? && s.mem.phase.job < |s.mem.jobs|
    ensures var m := s.mem;
            var marked := m.(jobs := m.jobs[m.phase.job := SetStatus(m.jobs[m.phase.job], Adding, "", 0)]);
            && SameObjects(s.(mem := marked), s.(mem := DoMark(m)))
            && DoMark(m).phase == Marked(m.phase.job, m.phase.prev) && |DoMark(m).jobs| == |m.jobs|
  {
  }

  ghost function LoadedSoFar(d: Disk, i: nat): Memory
    requires i <= |d.queueFile|
  {
    var jobs := Reloaded(d.queueFile[..i]);
    Bare(d).(jobs := jobs, queue := seq(i, k => k), index := IndexOf(jobs))
  }

  lemma NothingLoaded(d: Disk)
    ensures LoadedSoFar(d, 0) == Bare(d) && Bare(d).jobs == []
  {
  }

  lemma AllLoaded(d: Disk)
    ensures LoadedSoFar(d, |d.queueFile|) == Boot(d)
  {
    assert d.queueFile[..|d.queueFile|] == d.queueFile;
  }

  lemma ReloadStep(file: seq<Job>, i: nat)
    requires i < |file|
    ensures Reloaded(file[..i + 1]) == Reloaded(file[..i]) + [Requeued(file[i])]
    ensures IndexOf(Reloaded(file[..i + 1])) == IndexOf(Reloaded(file[..i]))[file[i].id := i]
    ensures seq(i + 1, k => k) == seq(i, k => k) + [i]
  {
    assert Reloaded(file[..i + 1])[..i] == Reloaded(file[..i]);
  }

  /** What popping the head comes to. */
  lemma PopFrame(s: State)
    requires RefsOk(s.mem) && s.mem.phase.Released? && s.mem.phase.job < |s.mem.jobs|
    requires |s.mem.queue| > 0 && s.mem.queue[0] == s.mem.phase.job
    ensures var m := s.mem;
            var r := m.phase.job;
            var jobs := m.jobs[r := m.jobs[r].(content := Wiped(m.jobs[r].content))];
            var n := m.(jobs := jobs, queue := m.queue[1..], phase := Checking);
            RefsOk(n) && DoPop(s) == s.(mem := n, disk := s.disk.(queueFile := FileImage(n.jobs, n.queue)))
  {
  }

  lemma RecordFrame(s: State, outcome: MapOutcome)
    requires s.mem.phase.Committed? && s.mem.phase.job < |s.mem.jobs|
    ensures var t := DoRecordOrigin(s, outcome);
            && t.mem.queue == s.mem.queue && |t.mem.jobs| == |s.mem.jobs|
            && t.mem.phase == (match outcome
                               case MapWritten => Settling(s.mem.phase.job, Done, "", s.mem.phase.entry)
                               case MapFails(error, _) => Settling(s.mem.phase.job, Failed, error, s.mem.phase.entry))
  {
  }

  lemma SettleFrame(s: State)
    requires s.mem.phase.Settling? && s.mem.phase.job < |s.mem.jobs|
    ensures var t := DoSettle(s);
            t.mem.queue == s.mem.queue && |t.mem.jobs| == |s.mem.jobs| && t.mem.phase == Settled(s.mem.phase.job)
  {
  }

  lemma TransactFrame(s: State, tx: TxOutcome)
    requires s.mem.phase.Marked? && s.mem.phase.job < |s.mem.jobs|
    ensures DoTransact(s, tx).mem.phase == if tx.Commits? then Committed(s.mem.phase.job, DoTransact(s, tx).mem.phase.entry)
                                           else Settling(s.mem.phase.job, Failed, tx.error, 0)
    ensures SameObjects(s, DoTransact(s, tx)) && PhaseJob(DoTransact(s, tx).mem.phase) == PhaseJob(s.mem.phase)
  {
  }

  lemma SubmitRefs(s: State, millis: nat, number: nat, c: Content)
    requires RefsOk(s.mem)
    ensures RefsOk(DoSubmit(s, millis, number, c).mem)
  {
  }

  lemma EmptyParts()
    ensures Describes([], []) && Distinct([]) && IsTail([], []) && Resolves(map[], map[], []) && TailRefs(0, 0) == []
  {
  }

  lemma TailJob(all: seq<SaveJob>, jobs: seq<Job>, queue: seq<SaveJob>, i: nat)
    requires Describes(all, jobs) && IsTail(queue, all) && i < |queue|
    ensures queue[i].Record() == jobs[TailRefs(|all|, |queue|)[i]]
  {
    assert queue[i] == all[|all| - |queue| + i];
  }

  lemma Shortened(queue: seq<SaveJob>, all: seq<SaveJob>)
    requires IsTail(queue, all) && |queue| > 0
    ensures IsTail(queue[1..], all) && queue[0] == all[|all| - |queue|]
    ensures TailRefs(|all|, |queue|)[1..] == TailRefs(|all|, |queue| - 1)
  {
  }

  // ---------------------------------------------------------------- runs

  ghost predicate Runs(s: State, events: seq<Event>, t: State) {
    Feasible(s, events) && Final(s, events) == t
  }

  lemma RunsNext(s: State, events: seq<Event>, t: State, e: Event) returns (longer: seq<Event>)
    requires Runs(s, events, t) && RefsOk(t.mem) && Enabled(t, e)
    ensures longer == events + [e] && Runs(s, longer, Next(t, e))
    ensures Next(t, e).mem.queue == t.mem.queue && |Next(t, e).mem.jobs| >= |t.mem.jobs| ==> RefsOk(Next(t, e).mem)
  {
    RunsThen(s, events, t, e);
    longer := events + [e];
  }

  lemma RunsNothing(s: State)
    ensures Runs(s, [], s)
  {
  }

  lemma {:induction false} RunsThen(s: State, events: seq<Event>, t: State, e: Event)
    requires Runs(s, events, t) && RefsOk(t.mem) && Enabled(t, e)
    ensures Runs(s, events + [e], Next(t, e))
    decreases |events|
  {
    hide Next, Enabled;
    var longer := events + [e];
    assert longer[1..] == if events == [] then [] else events[1..] + [e];
    if events == [] {
      assert s == t;
      assert Feasible(Next(s, e), []) && Final(Next(s, e), []) == Next(s, e);
      assert Feasible(s, longer);
    } else {
      RunsThen(Next(s, events[0]), events[1..], t, e);
    }
  }

  class Proxy {
    const data: DataDir
    var saveQueue: seq<SaveJob>
    var saveJobs: map<JobId, SaveJob>
    var saveNotify: bool
    var processingSave: bool
    var currentSaveJob: SaveJob?
    var originMap: map<string, nat>
    var saveSeq: nat
    var closing: bool
    var accepted: nat   // bookkeeping only: how many saves were ever accepted

    ghost var all: seq<SaveJob>   // every job object of this process, in the order of creation
    ghost var state: State        // the state of the transition system this object stands for

    ghost predicate Valid()
      reads this, all, data
    {
      && QueueOk() && FlagsOk() && DataOk()
    }

    /** The queue and the index share the job objects. */
    ghost predicate QueueOk()
      reads this, all
    {
      && Describes(all, state.mem.jobs)
      && Distinct(all)
      && IsTail(saveQueue, all)
      && state.mem.queue == TailRefs(|all|, |saveQueue|)
      && Resolves(saveJobs, state.mem.index, all)
      && accepted == |state.hist.accepted|
    }

    ghost predicate FlagsOk()
      reads this
    {
      var m := state.mem;
      && originMap == m.originMap && saveNotify == m.notify && saveSeq == m.saveSeq && closing == m.closing
      && processingSave == m.current.Some?
      && (if m.current.Some? then m.current.value < |all| && currentSaveJob == all[m.current.value] else currentSaveJob == null)
    }

    ghost predicate DataOk()
      reads this, data
    {
      data.Contents() == state.disk
    }

    /** The job the processor works on. */
    ghost predicate Holds(job: SaveJob)
      reads this
    {
      var p := PhaseJob(state.mem.phase);
      p.Some? && p.value < |all| == |state.mem.jobs| && job == all[p.value]
    }

    // ---------------------------------------------------------------- start of a process

    constructor (data: DataDir, accepted: nat, ghost hist: History)
      requires accepted == |hist.accepted|
      ensures this.data == data && all == [] && QueueOk() && FlagsOk()
      ensures state == State(Bare(data.Contents()), data.Contents(), hist)
    {
      hide Describes, Distinct, IsTail, Resolves, TailRefs;
      this.data := data;
      saveQueue, saveJobs, saveNotify := [], map[], false;
      processingSave, currentSaveJob := false, null;
      originMap := data.originMap;
      saveSeq, closing := 0, false;
      all := [];
      state := State(Bare(data.Contents()), data.Contents(), hist);
      this.accepted := accepted;
      new;
      EmptyParts();
    }

    method AppendObject(job: SaveJob)
      requires QueueOk() && FlagsOk() && job !in all
      modifies this`saveQueue, this`saveJobs, this`all, this`state
      ensures QueueOk() && FlagsOk() && all == old(all) + [job] && saveQueue == old(saveQueue) + [job]
      ensures var m := old(state.mem);
              state == old(state).(mem := m.(jobs := m.jobs + [job.Record()], queue := m.queue + [|m.jobs|],
                                             index := m.index[job.id := |m.jobs|]))
    {
      Appended(all, state.mem.jobs, saveQueue, saveJobs, state.mem.index, job);
      ghost var m := state.mem;
      assert |m.jobs| == |all|;
      hide Describes, Distinct, IsTail, Resolves, TailRefs;
      saveQueue := saveQueue + [job];
      saveJobs := saveJobs[job.id := job];
      all := all + [job];
      state := state.(mem := m.(jobs := m.jobs + [job.Record()], queue := m.queue + [|m.jobs|],
                                index := m.index[job.id := |m.jobs|]));
    }

    /** loadSaveQueue: after it the memory is that of a freshly booted process. */
    method LoadSaveQueue()
      requires Valid() && all == []
      requires state.mem == Bare(data.Contents())
      modifies this`saveQueue, this`saveJobs, this`all, this`state
      ensures Valid() && state.mem == Boot(data.Contents())
    {
      hide QueueOk, FlagsOk, Reloaded, IndexOf, Bare, Boot;
      var file := data.queueFile;
      NothingLoaded(data.Contents());
      for i := 0 to |file|
        invariant QueueOk() && FlagsOk() && fresh(all) && |all| == i
        invariant |state.mem.jobs| == i && state == old(state).(mem := LoadedSoFar(old(data.Contents()), i))
      {
        var job := new SaveJob.Reload(file[i]);
        AppendObject(job);
        ReloadStep(file, i);
      }
      AllLoaded(data.Contents());
    }

    // ---------------------------------------------------------------- submitters

    method DrawNumber() returns (number: nat)
      requires Valid()
      modifies this`saveSeq, this`state
      ensures Valid() && state == old(state).(mem := DoDraw(old(state.mem)))
      ensures number == saveSeq && number in state.mem.tickets
    {
      saveSeq := saveSeq + 1;
      number := saveSeq;
      state := state.(mem := DoDraw(state.mem));
    }

    /** persistSaveQueue: the whole queue, or no file when it is empty. */
    method PersistSaveQueue()
      requires QueueOk() && RefsOk(state.mem)
      modifies data`queueFile
      ensures data.queueFile == FileImage(state.mem.jobs, state.mem.queue)
    {
      ghost var image := FileImage(state.mem.jobs, state.mem.queue);
      var file: seq<Job> := [];
      for i := 0 to |saveQueue|
        invariant |file| == i && file == image[..i]
      {
        TailJob(all, state.mem.jobs, saveQueue, i);
        file := file + [saveQueue[i].Record()];
      }
      data.queueFile := file;
    }

    method AppendJob(millis: nat, number: nat, c: Content) returns (id: JobId, depth: nat)
      requires Valid() && RefsOk(state.mem) && number in state.mem.tickets
      modifies this`saveQueue, this`saveJobs, this`all, this`state, this`accepted, data`queueFile
      ensures Valid() && state == DoSubmit(old(state), millis, number, c)
      ensures id == JobId(millis, number) && depth == |old(saveQueue)| + 1
    {
      hide QueueOk, FlagsOk, DoSubmit, SameMemory;
      AcceptedCount();
      id := JobId(millis, number);
      var job := new SaveJob(accepted, id, c);
      AppendObject(job);
      depth := |saveQueue|;
      SubmitFrame(old(state), state, millis, number, c);
      PersistSaveQueue();
      CountAccepted(DoSubmit(old(state), millis, number, c));
    }

    lemma AcceptedCount()
      requires QueueOk()
      ensures accepted == |state.hist.accepted|
    {
    }

    /** A ghost step that adds one to the saves accepted. */
    method CountAccepted(ghost t: State)
      requires QueueOk() && FlagsOk() && SameMemory(state, t) && |t.hist.accepted| == |state.hist.accepted| + 1
      modifies this`accepted, this`state
      ensures QueueOk() && FlagsOk() && state == t
    {
      hide Describes, Distinct, IsTail, Resolves, TailRefs;
      accepted := accepted + 1;
      state := t;
    }

    /** The non-blocking send into the one-slot channel. */
    method Poke()
      requires Valid() && state.mem.unpoked > 0
      modifies this`saveNotify, this`state
      ensures Valid() && state == old(state).(mem := DoPoke(old(state.mem)))
    {
      saveNotify := true;
      state := state.(mem := DoPoke(state.mem));
    }

    method SubmitSave(millis: nat, c: Content) returns (id: JobId, depth: nat)
      requires Valid() && RefsOk(state.mem) && !state.mem.booting
      modifies this, data`queueFile
      ensures Valid() && id == JobId(millis, old(saveSeq) + 1) && depth == |old(saveQueue)| + 1
      ensures Runs(old(state), [Draw, Submit(millis, id.number, c), Event.Poke], state)
    {
      hide QueueOk, DataOk;
      ghost var s := state;
      assert old(saveSeq) == s.mem.saveSeq;
      var number := DrawNumber();
      RunsThen(s, [], s, Draw);
      ghost var t := state;
      id, depth := AppendJob(millis, number, c);
      RunsThen(s, [Draw], t, Submit(millis, number, c));
      ghost var u := state;
      SubmitRefs(t, millis, number, c);
      Poke();
      RunsThen(s, [Draw, Submit(millis, number, c)], u, Event.Poke);
      assert [Draw] + [Submit(millis, number, c)] == [Draw, Submit(millis, number, c)];
      assert [Draw, Submit(millis, number, c)] + [Event.Poke] == [Draw, Submit(millis, id.number, c), Event.Poke];
    }

    method ReadSaveStatus(id: JobId) returns (report: Report)
      requires Valid()
      ensures report == SaveStatus(state.mem, id)
    {
      if id in saveJobs {
        var job := saveJobs[id];
        report := Known(job.status, job.error, job.resultEntryId);
      } else {
        report := Unknown;
      }
    }

    // ---------------------------------------------------------------- the processor's critical sections

    method TakeNotify()
      requires Valid() && state.mem.phase == Waiting && saveNotify
      modifies this`saveNotify, this`state
      ensures Valid() && state == old(state).(mem := DoWake(old(state.mem)))
    {
      saveNotify := false;
      state := state.(mem := DoWake(state.mem));
    }

    method FetchHead() returns (job: SaveJob?)
      requires Valid() && state.mem.phase == Checking
      modifies this`state
      ensures Valid() && state == old(state).(mem := DoCheck(old(state.mem)))
      ensures job == null <==> saveQueue == []
      ensures job == null ==> state.mem.phase == Waiting
      ensures job != null ==> Holds(job) && state.mem.phase == Fetched(|all| - |saveQueue|)
    {
      state := state.(mem := DoCheck(state.mem));
      if |saveQueue| == 0 {
        job := null;
      } else {
        job := saveQueue[0];
      }
    }

    method BeginJob(job: SaveJob)
      requires Valid() && state.mem.phase.Fetched? && Holds(job)
      modifies this`processingSave, this`currentSaveJob, this`state
      ensures Valid() && Holds(job) && state == old(state).(mem := DoBegin(old(state.mem)))
    {
      hide Describes, Distinct, IsTail, Resolves, TailRefs;
      processingSave := true;
      currentSaveJob := job;
      state := state.(mem := DoBegin(state.mem));
    }

    method PreviousEntry(job: SaveJob) returns (prev: Option<nat>)
      requires Valid() && state.mem.phase.Begun? && Holds(job)
      modifies this`state
      ensures Valid() && Holds(job) && state == old(state).(mem := DoLookUp(old(state.mem))) && state.mem.phase.prev == prev
    {
      assert job.Record() == state.mem.jobs[state.mem.phase.job];
      hide Describes, Distinct, IsTail, Resolves, TailRefs;
      prev := if job.origin in originMap then Some(originMap[job.origin]) else None;
      state := state.(mem := DoLookUp(state.mem));
    }

    lemma HeldRecord(job: SaveJob)
      requires QueueOk() && Holds(job)
      ensures var r := PhaseJob(state.mem.phase).value; r < |state.mem.jobs| && job.Record() == state.mem.jobs[r]
    {
    }

    /** Writing the status through one pointer changes the job for the queue and the index alike. */
    method UpdateSaveJob(job: SaveJob, status: Status, error: string, entry: nat)
      requires Valid() && Holds(job)
      modifies job`status, job`error, job`resultEntryId, this`state
      ensures Valid()
      ensures var m := old(state.mem);
              var r := PhaseJob(m.phase).value;
              state == old(state).(mem := m.(jobs := m.jobs[r := SetStatus(m.jobs[r], status, error, entry)]))
    {
      hide IsTail, Resolves, TailRefs;
      job.status := status;
      job.error := error;
      job.resultEntryId := entry;
      ghost var m := state.mem;
      ghost var r := PhaseJob(m.phase).value;
      state := state.(mem := m.(jobs := m.jobs[r := SetStatus(m.jobs[r], status, error, entry)]));
    }

    method MarkAdding(job: SaveJob)
      requires Valid() && state.mem.phase.Looked? && Holds(job)
      modifies job`status, job`error, job`resultEntryId, this`state
      ensures Valid() && Holds(job) && state == old(state).(mem := DoMark(old(state.mem)))
    {
      hide QueueOk, FlagsOk, SameObjects, DoMark;
      HeldRecord(job);
      MarkFrame(state);
      UpdateSaveJob(job, Adding, "", 0);
      Advance(old(state).(mem := DoMark(old(state.mem))));
    }

    method SettleJob(job: SaveJob, status: Status, error: string, entry: nat)
      requires Valid() && Holds(job) && state.mem.phase == Settling(state.mem.phase.job, status, error, entry)
      modifies job`status, job`error, job`resultEntryId, this`state
      ensures Valid() && Holds(job) && state == DoSettle(old(state))
    {
      UpdateSaveJob(job, status, error, entry);
      hide Describes, Distinct, IsTail, Resolves, TailRefs;
      state := DoSettle(old(state));
    }

    /** Delete and insert under dbMu.  The outcome is what SQLite answers. */
    method ReplaceEntry(job: SaveJob, prev: Option<nat>, tx: TxOutcome) returns (newId: nat)
      requires Valid() && state.mem.phase.Marked? && state.mem.phase.prev == prev && Holds(job)
      modifies this`state, data`rows, data`sequence
      ensures Valid() && Holds(job) && state == DoTransact(old(state), tx)
      ensures tx.Commits? ==> state.mem.phase.Committed? && state.mem.phase.entry == newId
    {
      hide QueueOk, FlagsOk, DoTransact, Insert, DeleteRow;
      ghost var s := state;
      HeldRecord(job);
      newId := 0;
      if tx.Commits? {
        var nullable := if job.origin == "" then None else Some(job.origin);
        newId := data.ReplaceRow(prev, Row(job.body, job.title, job.tags, nullable, job.depth, BySave(job.origin)));
      }
      TransactFrame(s, tx);
      TransactDisk(s, tx);
      assert data.Contents() == DoTransact(s, tx).disk;
      Advance(DoTransact(s, tx));
    }

    /** A ghost step that leaves the jobs, the queue and the flags as they are. */
    ghost method Advance(t: State)
      requires QueueOk() && FlagsOk() && SameObjects(state, t)
      modifies this`state
      ensures QueueOk() && FlagsOk() && state == t
    {
      hide Describes, Distinct, IsTail, Resolves, TailRefs;
      state := t;
    }

    /** The in-memory map changes in every case, the file as far as the write got. */
    method RecordEntry(job: SaveJob, newId: nat, outcome: MapOutcome)
      requires Valid() && state.mem.phase.Committed? && state.mem.phase.entry == newId && Holds(job)
      modifies this`originMap, this`state, data`originMap
      ensures Valid() && Holds(job) && state == DoRecordOrigin(old(state), outcome)
    {
      ghost var m := state.mem;
      assert job.Record() == m.jobs[m.phase.job];
      hide Describes, Distinct, IsTail, Resolves, TailRefs;
      originMap := originMap[job.origin := newId];
      data.WriteOriginMap(outcome, originMap);
      state := DoRecordOrigin(state, outcome);
      assert state.mem.jobs == m.jobs && state.mem.queue == m.queue && state.mem.index == m.index;
      assert state.mem.current == m.current && state.mem.notify == m.notify;
    }

    method EndJob(job: SaveJob)
      requires Valid() && state.mem.phase.Settled? && Holds(job)
      modifies this`processingSave, this`currentSaveJob, this`state
      ensures Valid() && Holds(job) && state == old(state).(mem := DoRelease(old(state.mem)))
    {
      hide Describes, Distinct, IsTail, Resolves, TailRefs;
      processingSave := false;
      currentSaveJob := null;
      state := state.(mem := DoRelease(state.mem));
    }

    method WipeJob(job: SaveJob, ghost r: nat)
      requires QueueOk() && FlagsOk() && r < |all| == |state.mem.jobs| && job == all[r]
      modifies job`body, job`title, job`tags, this`state
      ensures QueueOk() && FlagsOk()
      ensures var m := old(state.mem);
              state == old(state).(mem := m.(jobs := m.jobs[r := m.jobs[r].(content := Wiped(m.jobs[r].content))]))
    {
      hide IsTail, Resolves, TailRefs;
      job.body := "";
      job.title := "";
      job.tags := [];
      ghost var m := state.mem;
      state := state.(mem := m.(jobs := m.jobs[r := m.jobs[r].(content := Wiped(m.jobs[r].content))]));
    }

    method DropHead(job: SaveJob)
      requires QueueOk() && FlagsOk() && Holds(job) && |saveQueue| > 0
      requires state.mem.phase == Released(|all| - |saveQueue|)
      modifies this`saveQueue, this`state
      ensures QueueOk() && FlagsOk() && saveQueue == old(saveQueue)[1..]
      ensures state == old(state).(mem := old(state.mem).(queue := old(state.mem.queue)[1..], phase := Checking))
    {
      Shortened(saveQueue, all);
      hide Describes, Distinct, IsTail, Resolves, TailRefs;
      if |saveQueue| > 0 && saveQueue[0].id == job.id {
        saveQueue := saveQueue[1..];
      }
      state := state.(mem := state.mem.(queue := state.mem.queue[1..], phase := Checking));
    }

    /** The head leaves the queue and its memory, then the shorter queue goes to disk. */
    method PopJob(job: SaveJob)
      requires Valid() && RefsOk(state.mem) && state.mem.phase == Released(|all| - |saveQueue|) && Holds(job) && |saveQueue| > 0
      modifies this`saveQueue, this`state, job`body, job`title, job`tags, data`queueFile
      ensures Valid() && RefsOk(state.mem) && state == DoPop(old(state))
      ensures saveQueue == old(saveQueue)[1..]
    {
      ghost var s := state;
      HeadRef();
      hide QueueOk, FlagsOk;
      DropHead(job);
      PopFrame(s);
      WipeJob(job, PhaseJob(s.mem.phase).value);
      PersistSaveQueue();
      Advance(DoPop(s));
    }

    lemma HeadRef()
      requires QueueOk() && |saveQueue| > 0
      ensures |state.mem.queue| == |saveQueue| && state.mem.queue[0] == |all| - |saveQueue| < |state.mem.jobs| == |all|
    {
    }

    method TakeJob(job: SaveJob, ghost s: State, ghost before: seq<Event>) returns (prev: Option<nat>, ghost events: seq<Event>)
      requires Valid() && RefsOk(state.mem) && state.mem.phase.Fetched? && Holds(job) && Runs(s, before, state)
      modifies this`processingSave, this`currentSaveJob, this`state, job`status, job`error, job`resultEntryId
      ensures Valid() && RefsOk(state.mem) && Holds(job) && state.mem.phase == Marked(old(state.mem.phase.job), prev)
      ensures Runs(s, events, state) && events == before + [Begin, LookUp, Mark]
    {
      hide QueueOk, FlagsOk, DataOk, Runs, RefsOk;
      ghost var t := state;
      BeginJob(job);
      events := RunsNext(s, before, t, Begin);
      t := state;
      prev := PreviousEntry(job);
      events := RunsNext(s, events, t, LookUp);
      t := state;
      MarkAdding(job);
      events := RunsNext(s, events, t, Mark);
    }

    /** The transaction, then the origin map if it committed; the job's verdict is what the first failure says. */
    method StoreJob(job: SaveJob, prev: Option<nat>, tx: TxOutcome, outcome: MapOutcome, ghost s: State, ghost before: seq<Event>)
      returns (status: Status, error: string, entry: nat, ghost events: seq<Event>)
      requires Valid() && RefsOk(state.mem) && state.mem.phase.Marked? && state.mem.phase.prev == prev && Holds(job)
      requires Runs(s, before, state)
      modifies this`originMap, this`state, data`rows, data`sequence, data`originMap
      ensures Valid() && RefsOk(state.mem) && Holds(job)
      ensures state.mem.phase == Settling(old(state.mem.phase.job), status, error, entry)
      ensures Runs(s, events, state)
      ensures events == before + (if tx.Commits? then [Transact(tx), RecordOrigin(outcome)] else [Transact(tx)])
    {
      hide QueueOk, FlagsOk, DataOk, Runs, RefsOk, DoTransact, DoRecordOrigin;
      ghost var t := state;
      var newId := ReplaceEntry(job, prev, tx);
      TransactFrame(t, tx);
      events := RunsNext(s, before, t, Transact(tx));
      if !tx.Commits? {
        return Failed, tx.error, 0, events;
      }
      t := state;
      RecordEntry(job, newId, outcome);
      RecordFrame(t, outcome);
      events := RunsNext(s, events, t, RecordOrigin(outcome));
      match outcome {
        case MapWritten => status, error, entry := Done, "", newId;
        case MapFails(message, _) => status, error, entry := Failed, message, newId;
      }
    }

    /** processOneJob, from taking the job to handing the processor back. */
    method ProcessOneJob(job: SaveJob, tx: TxOutcome, outcome: MapOutcome, ghost s: State, ghost before: seq<Event>)
      returns (ghost events: seq<Event>)
      requires Valid() && RefsOk(state.mem) && state.mem.phase.Fetched? && Holds(job) && Runs(s, before, state)
      modifies this`processingSave, this`currentSaveJob, this`originMap, this`state,
               job`status, job`error, job`resultEntryId, data`rows, data`sequence, data`originMap
      ensures Valid() && RefsOk(state.mem) && Holds(job) && state.mem.phase == Released(old(state.mem.phase.job))
      ensures Runs(s, events, state)
      ensures events == before + [Begin, LookUp, Mark, Transact(tx)]
                        + (if tx.Commits? then [RecordOrigin(outcome)] else []) + [Settle, Release]
    {
      hide QueueOk, FlagsOk, DataOk, Runs, RefsOk, DoSettle;
      var prev;
      prev, events := TakeJob(job, s, before);
      var status, error, entry;
      status, error, entry, events := StoreJob(job, prev, tx, outcome, s, events);
      ghost var t := state;
      SettleJob(job, status, error, entry);
      SettleFrame(t);
      events := RunsNext(s, events, t, Settle);
      t := state;
      EndJob(job);
      events := RunsNext(s, events, t, Release);
    }

    /**
     * One wake of processSaveJobs: the inner loop runs until the queue is empty.  `answers` is what SQLite
     * and the file system say to each save.
     */
    method DrainQueue(answers: nat -> (TxOutcome, MapOutcome)) returns (ghost events: seq<Event>)
      requires Valid() && RefsOk(state.mem) && state.mem.phase == Waiting && saveNotify
      modifies this, data, all
      ensures Valid() && saveQueue == [] && state.mem.phase == Waiting && !saveNotify
      ensures Runs(old(state), events, state)
      ensures |events| <= 9 * |old(saveQueue)| + 2
    {
      ghost var s := state;
      RunsNothing(s);
      TakeNotify();
      events := RunsNext(s, [], s, Wake);
      var more := true;
      while more
        invariant Valid() && RefsOk(state.mem) && !saveNotify && all == old(all)
        invariant if more then state.mem.phase == Checking else saveQueue == [] && state.mem.phase == Waiting
        invariant Runs(s, events, state)
        invariant |saveQueue| <= |old(saveQueue)|
        invariant |events| <= 9 * (|old(saveQueue)| - |saveQueue|) + (if more then 1 else 2)
        decreases more, |saveQueue|
      {
        hide Valid, Runs, RefsOk;
        more, events := ProcessHead(answers, s, events);
      }
    }

    /** One turn of the inner loop; it ends when the queue is empty. */
    method ProcessHead(answers: nat -> (TxOutcome, MapOutcome), ghost s: State, ghost before: seq<Event>)
      returns (more: bool, ghost events: seq<Event>)
      requires Valid() && RefsOk(state.mem) && state.mem.phase == Checking && Runs(s, before, state)
      modifies this`saveQueue, this`processingSave, this`currentSaveJob, this`originMap, this`state, data, all
      ensures Valid() && RefsOk(state.mem) && Runs(s, events, state)
      ensures more <==> old(saveQueue) != []
      ensures if more then saveQueue == old(saveQueue)[1..] && state.mem.phase == Checking && |events| <= |before| + 9
              else saveQueue == [] && state.mem.phase == Waiting && |events| == |before| + 1
    {
      hide Runs, RefsOk, QueueOk, FlagsOk, DataOk;
      ghost var t := state;
      var job := FetchHead();
      events := RunsNext(s, before, t, Check);
      more := job != null;
      if more {
        JobAmongAll(job);
        var (tx, outcome) := answers(job.serial);
        events := ProcessOneJob(job, tx, outcome, s, events);
        t := state;
        PopJob(job);
        events := RunsNext(s, events, t, Pop);
      }
    }

    lemma JobAmongAll(job: SaveJob)
      requires Holds(job)
      ensures job in all
    {
    }
  }
}
