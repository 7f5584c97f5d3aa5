/** Which rows saves own, delete and leave behind; what a done status proves. */
module SaveQueueOrigins {
  import opened Basics
  import opened SaveQueue
  import opened SaveQueueInvariants

  // ---------------------------------------------------------------- what a row keeps of a save

  /** Field by field what the client submitted; only the origin "" is stored as absent. */
  predicate Stores(row: Row, c: Content) {
    && row.body == c.body && row.title == c.title && row.tags == c.tags && row.depth == c.depth
    && (row.origin.None? <==> c.origin == "") && (row.origin.Some? ==> row.origin.value == c.origin)
    && row.writer == BySave(c.origin)
  }

  // ---------------------------------------------------------------- ownership of entry ids

  /** The id names no row, or a row that a save for this very origin wrote.  It was handed out before. */
  ghost predicate NamesOwn(t: Table, origin: string, id: nat) {
    && 1 <= id <= t.sequence
    && (id in t.rows ==> t.rows[id].origin == NullString(origin) && t.rows[id].writer == BySave(origin))
  }

  ghost predicate MapOk(t: Table, m: map<string, nat>) {
    forall o :: o in m ==> NamesOwn(t, o, m[o])
  }

  ghost predicate TableOk(t: Table) {
    forall id :: id in t.rows ==> 1 <= id <= t.sequence
  }

  /** The entry is the row the job wrote, unless a tool deleted it since. */
  ghost predicate HoldsSave(t: Table, c: Content, entry: nat) {
    1 <= entry <= t.sequence && (entry in t.rows ==> Stores(t.rows[entry], c))
  }

  /** Both maps name the entry of a job whose origin map write succeeded. */
  ghost predicate MapsName(memMap: map<string, nat>, diskMap: map<string, nat>, origin: string, entry: nat) {
    memMap == diskMap && origin in diskMap && diskMap[origin] == entry
  }

  ghost predicate PhaseOk(p: Phase, jobs: seq<Job>, memMap: map<string, nat>, d: Disk) {
    PhaseJob(p).Some? && PhaseJob(p).value < |jobs| ==>
      var job := jobs[PhaseJob(p).value];
      match p
      case Looked(_, prev) => prev == Lookup(memMap, job.content.origin)
      case Marked(_, prev) => prev == Lookup(memMap, job.content.origin)
      case Committed(_, entry) => HoldsSave(d.table, job.content, entry)
      case Settling(_, verdict, _, entry) =>
        verdict == Done ==> HoldsSave(d.table, job.content, entry) && MapsName(memMap, d.originMap, job.content.origin, entry)
      case Settled(_) =>
        job.status == Done ==>
          HoldsSave(d.table, job.content, job.resultEntryId) && MapsName(memMap, d.originMap, job.content.origin, job.resultEntryId)
      case Released(_) =>
        job.status == Done ==>
          HoldsSave(d.table, job.content, job.resultEntryId) && MapsName(memMap, d.originMap, job.content.origin, job.resultEntryId)
      case _ => true
  }

  ghost predicate OriginInv(s: State) {
    && TableOk(s.disk.table)
    && MapOk(s.disk.table, s.mem.originMap)
    && MapOk(s.disk.table, s.disk.originMap)
    && PhaseOk(s.mem.phase, s.mem.jobs, s.mem.originMap, s.disk)
  }

  /** Only ids above the counter become new rows, so old names never come to mean another row. */
  predicate Extends(t: Table, u: Table) {
    t.sequence <= u.sequence && forall id :: id in u.rows && id <= t.sequence ==> id in t.rows && u.rows[id] == t.rows[id]
  }

  lemma MapExtends(t: Table, u: Table, m: map<string, nat>)
    requires MapOk(t, m) && Extends(t, u)
    ensures MapOk(u, m)
  {
  }

  lemma MapRecords(t: Table, m: map<string, nat>, c: Content, entry: nat)
    requires MapOk(t, m) && HoldsSave(t, c, entry)
    ensures MapOk(t, m[c.origin := entry])
  {
  }

  lemma TableSteps(t: Table, row: Row, id: nat)
    requires TableOk(t)
    ensures TableOk(Insert(t, row)) && Extends(t, Insert(t, row)) && HoldsNew(Insert(t, row), row)
    ensures TableOk(DeleteRow(t, id)) && Extends(t, DeleteRow(t, id))
    ensures TableOk(Insert(DeleteRow(t, id), row)) && Extends(t, Insert(DeleteRow(t, id), row))
    ensures HoldsNew(Insert(DeleteRow(t, id), row), row)
  {
  }

  predicate HoldsNew(t: Table, row: Row) {
    t.sequence >= 1 && t.sequence in t.rows && t.rows[t.sequence] == row
  }

  lemma PhaseExtends(p: Phase, jobs: seq<Job>, memMap: map<string, nat>, d: Disk, u: Table)
    requires PhaseOk(p, jobs, memMap, d) && Extends(d.table, u)
    ensures PhaseOk(p, jobs, memMap, d.(table := u))
  {
  }

  /** The table, both maps and the job under the processor's hands stay as they are. */
  predicate KeepsOrigins(s: State, e: Event)
  {
    !(e.LookUp? || e.Mark? || e.Transact? || e.RecordOrigin? || e.Settle? || e.Release?
      || e.Pop? || e.ToolAdd? || e.ToolDelete? || e.Crash? || e.Submit?)
  }

  lemma KeepStep(s: State, e: Event)
    requires Shape(s.mem) && RefsOk(s.mem) && OriginInv(s) && Enabled(s, e) && KeepsOrigins(s, e)
    ensures OriginInv(Next(s, e))
  {
    hide NamesOwn, TableOk, MapOk, HoldsSave;
  }

  lemma ProcessorStep(s: State, e: Event)
    requires Shape(s.mem) && RefsOk(s.mem) && OriginInv(s) && Enabled(s, e)
    requires e.LookUp? || e.Mark? || e.Settle? || e.Release? || e.Submit?
    ensures OriginInv(Next(s, e))
  {
    hide NamesOwn, TableOk, MapOk, HoldsSave, MapsName;
  }

  lemma PopOrigins(s: State)
    requires Shape(s.mem) && RefsOk(s.mem) && OriginInv(s) && Enabled(s, Pop)
    ensures OriginInv(Next(s, Pop))
  {
    hide NamesOwn, TableOk, MapOk, HoldsSave;
  }

  lemma TransactOrigins(s: State, tx: TxOutcome)
    requires Shape(s.mem) && RefsOk(s.mem) && OriginInv(s) && Enabled(s, Transact(tx))
    ensures OriginInv(DoTransact(s, tx))
  {
    hide MapOk, TableOk, Extends;
    if tx.Commits? {
      var p := s.mem.phase;
      var row := RowOf(s.mem.jobs[p.job].content);
      TableSteps(s.disk.table, row, if p.prev.Some? then p.prev.value else 0);
      var t := DoTransact(s, tx);
      MapExtends(s.disk.table, t.disk.table, s.mem.originMap);
      MapExtends(s.disk.table, t.disk.table, s.disk.originMap);
    }
  }

  lemma RecordOrigins(s: State, o: MapOutcome)
    requires Shape(s.mem) && RefsOk(s.mem) && OriginInv(s) && Enabled(s, RecordOrigin(o))
    ensures OriginInv(DoRecordOrigin(s, o))
  {
    hide MapOk, TableOk;
    var p := s.mem.phase;
    MapRecords(s.disk.table, s.mem.originMap, s.mem.jobs[p.job].content, p.entry);
  }

  lemma ToolOrigins(s: State, e: Event)
    requires Shape(s.mem) && RefsOk(s.mem) && OriginInv(s) && Enabled(s, e) && (e.ToolAdd? || e.ToolDelete?)
    ensures OriginInv(Next(s, e))
  {
    hide MapOk, TableOk, Extends, PhaseOk;
    var t := Next(s, e);
    TableSteps(s.disk.table, if e.ToolAdd? then e.row else RowOf(Content("", "", [], "", 0)), if e.ToolDelete? then e.id else 0);
    MapExtends(s.disk.table, t.disk.table, s.mem.originMap);
    MapExtends(s.disk.table, t.disk.table, s.disk.originMap);
    PhaseExtends(s.mem.phase, s.mem.jobs, s.mem.originMap, s.disk, t.disk.table);
  }

  lemma OriginStep(s: State, e: Event)
    requires Shape(s.mem) && RefsOk(s.mem) && OriginInv(s) && Enabled(s, e)
    ensures OriginInv(Next(s, e))
  {
    hide NamesOwn, TableOk, MapOk, HoldsSave, MapsName;
    match e
    case Transact(tx) => TransactOrigins(s, tx);
    case RecordOrigin(o) => RecordOrigins(s, o);
    case Pop => PopOrigins(s);
    case ToolAdd(_) => ToolOrigins(s, e);
    case ToolDelete(_) => ToolOrigins(s, e);
    case LookUp => ProcessorStep(s, e);
    case Mark => ProcessorStep(s, e);
    case Settle => ProcessorStep(s, e);
    case Release => ProcessorStep(s, e);
    case Submit(_, _, _) => ProcessorStep(s, e);
    case Crash =>
    case _ => KeepStep(s, e);
  }
}
