/**
 * The save queue of the memstore server (services/memstore/main.go) as a transition system.
 *
 * A step is one critical section of the server: what runs under saveMu, originMapMu or dbMu, or one
 * channel operation.  Memory is what a process loses when it dies; Disk is what the next process finds.
 * `serial`, `writer` and History are bookkeeping of the model: no step's guard or effect on the
 * modelled state reads them.
 */
module SaveQueue {
  import opened Basics

  // ---------------------------------------------------------------- data

  datatype JobId = JobId(millis: nat, number: nat)

  datatype Status = Queued | Adding | Done | Failed

  /** What a client submits. */
  datatype Content = Content(body: string, title: string, tags: seq<string>, origin: string, depth: int)

  datatype Job = Job(serial: nat, id: JobId, content: Content, status: Status, error: string, resultEntryId: nat)

  datatype Writer = BySave(origin: string) | ByTool

  /** A row of the entries table; an absent origin is SQL NULL. */
  datatype Row = Row(body: string, title: string, tags: seq<string>, origin: Option<string>, depth: int, writer: Writer)

  /** The entries table; `sequence` is the AUTOINCREMENT counter, which never goes down. */
  datatype Table = Table(rows: map<nat, Row>, sequence: nat)

  datatype TxOutcome = BeginFails(error: string) | InsertFails(error: string) | CommitFails(error: string) | Commits

  /** A reported error may come before or after the rename that replaces the file. */
  datatype MapOutcome = MapWritten | MapFails(error: string, replaced: bool)

  /** Where the single processor goroutine stands; each value names the section it runs next. */
  datatype Phase =
    | Waiting
    | Checking
    | Fetched(job: nat)
    | Begun(job: nat)
    | Looked(job: nat, prev: Option<nat>)
    | Marked(job: nat, prev: Option<nat>)
    | Committed(job: nat, entry: nat)
    | Settling(job: nat, verdict: Status, message: string, entry: nat)
    | Settled(job: nat)
    | Released(job: nat)
    | Stopped

  /**
   * `jobs` holds every job object of the process in the order of creation; `queue` and `index` hold
   * references into it, so a job updated in place changes for both.
   */
  datatype Memory = Memory(
    jobs: seq<Job>,
    queue: seq<nat>,
    index: map<JobId, nat>,
    originMap: map<string, nat>,
    notify: bool,
    phase: Phase,
    current: Option<nat>,
    loaded: nat,          // how many of `jobs` came from the queue file
    saveSeq: nat,
    tickets: set<nat>,    // numbers drawn by submitters that have not appended yet
    unpoked: nat,         // goroutines (submitters, shutdown) that owe the processor a poke
    booting: bool,        // main has not reached its resume poke yet
    closing: bool)

  datatype Disk = Disk(table: Table, originMap: map<string, nat>, queueFile: seq<Job>)

  datatype History = History(
    accepted: seq<(JobId, Content)>,
    settled: set<nat>,                  // serials that reached done or failed
    commits: map<nat, (nat, Row)>,      // entry id -> serial and row of the committed transaction
    mapWrites: set<(string, nat)>)      // origin/id pairs named by a written origin map

  datatype State = State(mem: Memory, disk: Disk, hist: History)

  datatype Event =
    | Draw
    | Submit(millis: nat, number: nat, content: Content)
    | Poke
    | ResumePoke
    | Close
    | Wake
    | Stop
    | Check
    | Begin
    | LookUp
    | Mark
    | Transact(tx: TxOutcome)
    | RecordOrigin(outcome: MapOutcome)
    | Settle
    | Release
    | Pop
    | ToolAdd(row: Row)
    | ToolDelete(id: nat)
    | Crash

  // ---------------------------------------------------------------- helpers

  function NullString(s: string): Option<string> {
    if s == "" then None else Some(s)
  }

  function RowOf(c: Content): Row {
    Row(c.body, c.title, c.tags, NullString(c.origin), c.depth, BySave(c.origin))
  }

  function Wiped(c: Content): Content {
    c.(body := "", title := "", tags := [])
  }

  function SetStatus(j: Job, status: Status, error: string, entry: nat): Job {
    j.(status := status, error := error, resultEntryId := entry)
  }

  /** Inserting takes the next number of the counter, never one used before. */
  function Insert(t: Table, row: Row): Table {
    Table(t.rows[t.sequence + 1 := row], t.sequence + 1)
  }

  function DeleteRow(t: Table, id: nat): Table {
    t.(rows := t.rows - {id})
  }

  /** The queue as it is written to disk: the jobs themselves, status fields included. */
  function FileImage(jobs: seq<Job>, queue: seq<nat>): seq<Job>
    requires forall i :: 0 <= i < |queue| ==> queue[i] < |jobs|
  {
    seq(|queue|, i requires 0 <= i < |queue| => jobs[queue[i]])
  }

  predicate RefsOk(m: Memory) {
    forall i :: 0 <= i < |m.queue| ==> m.queue[i] < |m.jobs|
  }

  function PhaseJob(p: Phase): Option<nat> {
    match p
    case Waiting => None
    case Checking => None
    case Stopped => None
    case _ => Some(p.job)
  }

  // ---------------------------------------------------------------- start and restart

  function IndexOf(jobs: seq<Job>): map<JobId, nat>
  {
    if jobs == [] then map[] else IndexOf(jobs[..|jobs| - 1])[jobs[|jobs| - 1].id := |jobs| - 1]
  }

  /** loadSaveQueue resets status and error, and nothing else. */
  function Requeued(j: Job): Job {
    j.(status := Queued, error := "")
  }

  function Reloaded(file: seq<Job>): seq<Job> {
    seq(|file|, i requires 0 <= i < |file| => Requeued(file[i]))
  }

  function Boot(d: Disk): Memory {
    Memory(
      jobs := Reloaded(d.queueFile),
      queue := seq(|d.queueFile|, i => i),
      index := IndexOf(Reloaded(d.queueFile)),
      originMap := d.originMap,
      notify := false,
      phase := Waiting,
      current := None,
      loaded := |d.queueFile|,
      saveSeq := 0,
      tickets := {},
      unpoked := 0,
      booting := true,
      closing := false)
  }

  function Init(): State {
    var d := Disk(Table(map[], 0), map[], []);
    State(Boot(d), d, History([], {}, map[], {}))
  }

  // ---------------------------------------------------------------- steps

  predicate Enabled(s: State, e: Event) {
    var m := s.mem;
    match e
    case Draw => !m.booting
    case Submit(_, number, _) => number in m.tickets
    case Poke => m.unpoked > 0
    case ResumePoke => m.booting
    case Close => !m.booting
    case Wake => m.phase == Waiting && m.notify
    case Stop => m.phase == Waiting && m.closing
    case Check => m.phase == Checking && RefsOk(m)
    case Begin => m.phase.Fetched?
    case LookUp => m.phase.Begun? && m.phase.job < |m.jobs|
    case Mark => m.phase.Looked? && m.phase.job < |m.jobs|
    case Transact(_) => m.phase.Marked? && m.phase.job < |m.jobs|
    case RecordOrigin(_) => m.phase.Committed? && m.phase.job < |m.jobs|
    case Settle => m.phase.Settling? && m.phase.job < |m.jobs|
    case Release => m.phase.Settled?
    case Pop => m.phase.Released? && m.phase.job < |m.jobs| && RefsOk(m)
    case ToolAdd(row) => row.writer == ByTool
    case ToolDelete(_) => true
    case Crash => true
  }

  function DoSubmit(s: State, millis: nat, number: nat, c: Content): State
    requires RefsOk(s.mem)
  {
    var m := s.mem;
    var id := JobId(millis, number);
    var job := Job(|s.hist.accepted|, id, c, Queued, "", 0);
    var jobs := m.jobs + [job];
    var queue := m.queue + [|m.jobs|];
    State(
      m.(jobs := jobs, queue := queue, index := m.index[id := |m.jobs|], tickets := m.tickets - {number},
         unpoked := m.unpoked + 1),
      s.disk.(queueFile := FileImage(jobs, queue)),
      s.hist.(accepted := s.hist.accepted + [(id, c)]))
  }

  /** Delete the previous entry and insert the new one in one transaction; a failure has no effect. */
  function DoTransact(s: State, tx: TxOutcome): State
    requires s.mem.phase.Marked? && s.mem.phase.job < |s.mem.jobs|
  {
    var m := s.mem;
    var p := m.phase;
    match tx
    case Commits =>
      var job := m.jobs[p.job];
      var row := RowOf(job.content);
      var cleared := if p.prev.Some? then DeleteRow(s.disk.table, p.prev.value) else s.disk.table;
      var table := Insert(cleared, row);
      State(m.(phase := Committed(p.job, table.sequence)),
            s.disk.(table := table),
            s.hist.(commits := s.hist.commits[table.sequence := (job.serial, row)]))
    case _ => s.(mem := m.(phase := Settling(p.job, Failed, tx.error, 0)))
  }

  /** The map in memory is updated in every case; the file only as far as the write got. */
  function DoRecordOrigin(s: State, o: MapOutcome): State
    requires s.mem.phase.Committed? && s.mem.phase.job < |s.mem.jobs|
  {
    var m := s.mem;
    var p := m.phase;
    var origin := m.jobs[p.job].content.origin;
    var updated := m.originMap[origin := p.entry];
    match o
    case MapWritten =>
      State(m.(originMap := updated, phase := Settling(p.job, Done, "", p.entry)),
            s.disk.(originMap := updated),
            s.hist.(mapWrites := s.hist.mapWrites + {(origin, p.entry)}))
    case MapFails(error, replaced) =>
      s.(mem := m.(originMap := updated, phase := Settling(p.job, Failed, error, p.entry)),
         disk := if replaced then s.disk.(originMap := updated) else s.disk)
  }

  function DoSettle(s: State): State
    requires s.mem.phase.Settling? && s.mem.phase.job < |s.mem.jobs|
  {
    var m := s.mem;
    var p := m.phase;
    var job := m.jobs[p.job];
    s.(mem := m.(jobs := m.jobs[p.job := SetStatus(job, p.verdict, p.message, p.entry)], phase := Settled(p.job)),
       hist := s.hist.(settled := s.hist.settled + {job.serial}))
  }

  function DoPop(s: State): State
    requires s.mem.phase.Released? && s.mem.phase.job < |s.mem.jobs| && RefsOk(s.mem)
  {
    var m := s.mem;
    var job := m.jobs[m.phase.job];
    var queue := if |m.queue| > 0 && m.jobs[m.queue[0]].id == job.id then m.queue[1..] else m.queue;
    var jobs := m.jobs[m.phase.job := job.(content := Wiped(job.content))];
    s.(mem := m.(jobs := jobs, queue := queue, phase := Checking),
       disk := s.disk.(queueFile := FileImage(jobs, queue)))
  }

  // Steps that touch memory only.

  function DoDraw(m: Memory): Memory {
    m.(saveSeq := m.saveSeq + 1, tickets := m.tickets + {m.saveSeq + 1})
  }

  function DoPoke(m: Memory): Memory
    requires m.unpoked > 0
  {
    m.(unpoked := m.unpoked - 1, notify := true)
  }

  function DoResume(m: Memory): Memory {
    m.(booting := false, notify := m.notify || |m.queue| > 0)
  }

  function DoClose(m: Memory): Memory {
    m.(closing := true, unpoked := m.unpoked + 1)
  }

  function DoWake(m: Memory): Memory {
    m.(notify := false, phase := Checking)
  }

  function DoCheck(m: Memory): Memory {
    m.(phase := if |m.queue| == 0 then Waiting else Fetched(m.queue[0]))
  }

  function DoBegin(m: Memory): Memory
    requires m.phase.Fetched?
  {
    m.(current := Some(m.phase.job), phase := Begun(m.phase.job))
  }

  function DoLookUp(m: Memory): Memory
    requires m.phase.Begun? && m.phase.job < |m.jobs|
  {
    m.(phase := Looked(m.phase.job, Lookup(m.originMap, m.jobs[m.phase.job].content.origin)))
  }

  function DoMark(m: Memory): Memory
    requires m.phase.Looked? && m.phase.job < |m.jobs|
  {
    m.(jobs := m.jobs[m.phase.job := SetStatus(m.jobs[m.phase.job], Adding, "", 0)],
       phase := Marked(m.phase.job, m.phase.prev))
  }

  function DoRelease(m: Memory): Memory
    requires m.phase.Settled?
  {
    m.(current := None, phase := Released(m.phase.job))
  }

  function Next(s: State, e: Event): State
    requires Enabled(s, e) && RefsOk(s.mem)
  {
    var m := s.mem;
    match e
    case Draw => s.(mem := DoDraw(m))
    case Submit(millis, number, content) => DoSubmit(s, millis, number, content)
    case Poke => s.(mem := DoPoke(m))
    case ResumePoke => s.(mem := DoResume(m))
    case Close => s.(mem := DoClose(m))
    case Wake => s.(mem := DoWake(m))
    case Stop => s.(mem := m.(phase := Stopped))
    case Check => s.(mem := DoCheck(m))
    case Begin => s.(mem := DoBegin(m))
    case LookUp => s.(mem := DoLookUp(m))
    case Mark => s.(mem := DoMark(m))
    case Transact(tx) => DoTransact(s, tx)
    case RecordOrigin(o) => DoRecordOrigin(s, o)
    case Settle => DoSettle(s)
    case Release => s.(mem := DoRelease(m))
    case Pop => DoPop(s)
    case ToolAdd(row) => s.(disk := s.disk.(table := Insert(s.disk.table, row)))
    case ToolDelete(id) => s.(disk := s.disk.(table := DeleteRow(s.disk.table, id)))
    case Crash => s.(mem := Boot(s.disk))
  }

  // ---------------------------------------------------------------- runs

  predicate Feasible(s: State, events: seq<Event>)
    decreases |events|
  {
    events == [] || (RefsOk(s.mem) && Enabled(s, events[0]) && Feasible(Next(s, events[0]), events[1..]))
  }

  function Final(s: State, events: seq<Event>): State
    requires Feasible(s, events)
    decreases |events|
  {
    if events == [] then s else Final(Next(s, events[0]), events[1..])
  }

  // ---------------------------------------------------------------- what clients see

  datatype Report = Unknown | Known(status: Status, error: string, entry: nat)

  function SaveStatus(m: Memory, id: JobId): Report {
    if id in m.index && m.index[id] < |m.jobs| then
      var j := m.jobs[m.index[id]];
      Known(j.status, j.error, j.resultEntryId)
    else Unknown
  }
}
