/** What a reported `done` means, and how many rows a save may leave behind. */
module SaveQueueResults {
  import opened Basics
  import opened SaveQueue
  import opened SaveQueueInvariants
  import opened SaveQueueOrigins

  // ---------------------------------------------------------------- done means durable

  /** A transaction wrote the submitted content of this save as row `entry`. */
  ghost predicate Recorded(h: History, serial: nat, entry: nat) {
    serial < |h.accepted| && entry in h.commits && h.commits[entry].0 == serial && Stores(h.commits[entry].1, h.accepted[serial].1)
  }

  /** And the origin map file was rewritten to name that row. */
  ghost predicate Proven(h: History, serial: nat, entry: nat) {
    Recorded(h, serial, entry) && (h.accepted[serial].1.origin, entry) in h.mapWrites
  }

  ghost predicate JobsProven(jobs: seq<Job>, h: History) {
    forall r :: 0 <= r < |jobs| && jobs[r].status == Done ==> Proven(h, jobs[r].serial, jobs[r].resultEntryId)
  }

  ghost predicate PhaseProven(p: Phase, jobs: seq<Job>, h: History) {
    && (p.Committed? && p.job < |jobs| ==> Recorded(h, jobs[p.job].serial, p.entry))
    && (p.Settling? && p.job < |jobs| && p.verdict == Done ==> Proven(h, jobs[p.job].serial, p.entry))
  }

  ghost predicate DoneInv(s: State) {
    && JobsProven(s.mem.jobs, s.hist)
    && PhaseProven(s.mem.phase, s.mem.jobs, s.hist)
    && (forall id :: id in s.hist.commits ==> id <= s.disk.table.sequence)
  }

  predicate Grows(h: History, k: History) {
    && |h.accepted| <= |k.accepted| && k.accepted[..|h.accepted|] == h.accepted
    && (forall id :: id in h.commits ==> id in k.commits && k.commits[id] == h.commits[id])
    && h.mapWrites <= k.mapWrites
    && h.settled <= k.settled
  }

  lemma JobsProvenGrow(jobs: seq<Job>, h: History, k: History)
    requires JobsProven(jobs, h) && Grows(h, k)
    ensures JobsProven(jobs, k)
  {
    forall r | 0 <= r < |jobs| && jobs[r].status == Done
      ensures Proven(k, jobs[r].serial, jobs[r].resultEntryId)
    {
      assert Proven(h, jobs[r].serial, jobs[r].resultEntryId);
    }
  }

  lemma PhaseProvenGrow(p: Phase, jobs: seq<Job>, h: History, k: History)
    requires PhaseProven(p, jobs, h) && Grows(h, k)
    ensures PhaseProven(p, jobs, k)
  {
  }

  lemma JobsProvenUpdate(jobs: seq<Job>, h: History, r: nat, job: Job)
    requires JobsProven(jobs, h) && r < |jobs| && (job.status == Done ==> Proven(h, job.serial, job.resultEntryId))
    ensures JobsProven(jobs[r := job], h)
  {
  }

  lemma HeadContent(s: State)
    requires QueueInv(s) && PhaseJob(s.mem.phase).Some?
    ensures PhaseJob(s.mem.phase).value == Popped(s.mem) < |s.mem.jobs|
    ensures var job := s.mem.jobs[Popped(s.mem)];
            job.serial < |s.hist.accepted| && s.hist.accepted[job.serial] == (job.id, job.content)
  {
  }

  lemma DoneTransact(s: State, tx: TxOutcome)
    requires QueueInv(s) && DoneInv(s) && Enabled(s, Transact(tx))
    ensures DoneInv(DoTransact(s, tx))
  {
    hide QueueInv, JobsProven;
    HeadContent(s);
    if tx.Commits? {
      JobsProvenGrow(s.mem.jobs, s.hist, DoTransact(s, tx).hist);
    }
  }

  lemma DoneRecord(s: State, o: MapOutcome)
    requires QueueInv(s) && DoneInv(s) && Enabled(s, RecordOrigin(o))
    ensures DoneInv(DoRecordOrigin(s, o))
  {
    hide QueueInv, JobsProven;
    HeadContent(s);
    JobsProvenGrow(s.mem.jobs, s.hist, DoRecordOrigin(s, o).hist);
  }

  lemma DoneSettle(s: State)
    requires QueueInv(s) && DoneInv(s) && Enabled(s, Settle)
    ensures DoneInv(DoSettle(s))
  {
    hide QueueInv, JobsProven;
    HeadContent(s);
    var p := s.mem.phase;
    var k := DoSettle(s).hist;
    JobsProvenGrow(s.mem.jobs, s.hist, k);
    JobsProvenUpdate(s.mem.jobs, k, p.job, SetStatus(s.mem.jobs[p.job], p.verdict, p.message, p.entry));
  }

  lemma DoneMark(s: State)
    requires QueueInv(s) && DoneInv(s) && Enabled(s, Mark)
    ensures RefsOk(s.mem) && DoneInv(Next(s, Mark))
  {
    hide JobsProven, QueueInv;
    RefsFromInv(s);
    var p := s.mem.phase;
    JobsProvenUpdate(s.mem.jobs, s.hist, p.job, SetStatus(s.mem.jobs[p.job], Adding, "", 0));
  }

  lemma ProvenJob(jobs: seq<Job>, h: History, r: nat)
    requires JobsProven(jobs, h) && r < |jobs|
    ensures jobs[r].status == Done ==> Proven(h, jobs[r].serial, jobs[r].resultEntryId)
  {
  }

  lemma DonePop(s: State)
    requires QueueInv(s) && DoneInv(s) && Enabled(s, Pop)
    ensures DoneInv(DoPop(s))
  {
    hide JobsProven, QueueInv, Proven, Recorded;
    var r := s.mem.phase.job;
    var job := s.mem.jobs[r];
    ProvenJob(s.mem.jobs, s.hist, r);
    JobsProvenUpdate(s.mem.jobs, s.hist, r, job.(content := Wiped(job.content)));
  }

  lemma DoneSubmit(s: State, millis: nat, number: nat, c: Content)
    requires QueueInv(s) && DoneInv(s) && Enabled(s, Submit(millis, number, c))
    ensures RefsOk(s.mem) && DoneInv(DoSubmit(s, millis, number, c))
  {
    hide QueueInv, Shape;
    assert RefsOk(s.mem) by { RefsFromInv(s); }
    var t := DoSubmit(s, millis, number, c);
    JobsProvenGrow(s.mem.jobs, s.hist, t.hist);
    PhaseProvenGrow(s.mem.phase, s.mem.jobs, s.hist, t.hist);
    RefsFromInv(s);
    PhaseProvenSnoc(s.mem.phase, s.mem.jobs, t.hist, t.mem.jobs[|s.mem.jobs|]);
    assert forall r :: 0 <= r < |s.mem.jobs| ==> t.mem.jobs[r] == s.mem.jobs[r];
  }

  lemma PhaseProvenSnoc(p: Phase, jobs: seq<Job>, h: History, job: Job)
    requires PhaseProven(p, jobs, h) && (PhaseJob(p).Some? ==> PhaseJob(p).value < |jobs|)
    ensures PhaseProven(p, jobs + [job], h)
  {
  }

  lemma RefsFromInv(s: State)
    requires QueueInv(s)
    ensures RefsOk(s.mem) && (PhaseJob(s.mem.phase).Some? ==> PhaseJob(s.mem.phase).value < |s.mem.jobs|)
  {
  }

  lemma DoneQuiet(s: State, e: Event)
    requires RefsOk(s.mem) && DoneInv(s) && Enabled(s, e) && Quiet(e) && !e.Transact? && !e.RecordOrigin?
    ensures DoneInv(Next(s, e))
  {
    hide JobsProven, Proven, Recorded;
  }

  lemma DoneStep(s: State, e: Event)
    requires QueueInv(s) && RefsOk(s.mem) && DoneInv(s) && Enabled(s, e)
    ensures DoneInv(Next(s, e))
  {
    hide QueueInv, DoneInv;
    match e
    case Transact(tx) => DoneTransact(s, tx);
    case RecordOrigin(o) => DoneRecord(s, o);
    case Settle => DoneSettle(s);
    case Mark => DoneMark(s);
    case Pop => DonePop(s);
    case Submit(millis, number, content) => DoneSubmit(s, millis, number, content);
    case Crash => DoneCrash(s);
    case _ => DoneQuiet(s, e);
  }

  lemma DoneCrash(s: State)
    requires DoneInv(s)
    ensures DoneInv(s.(mem := Boot(s.disk)))
  {
    assert forall r :: 0 <= r < |s.disk.queueFile| ==> Reloaded(s.disk.queueFile)[r].status == Queued;
  }

  // ---------------------------------------------------------------- rows of one origin

  /** Rows that saves wrote for the origin. */
  function SaveRows(t: Table, origin: string): set<nat> {
    set id | id in t.rows && t.rows[id].writer == BySave(origin)
  }

  /** The row the process takes to be the origin's entry: the one just committed, else the map's. */
  function Tip(m: Memory, origin: string): Option<nat> {
    if m.phase.Committed? && m.phase.job < |m.jobs| && m.jobs[m.phase.job].content.origin == origin
    then Some(m.phase.entry)
    else Lookup(m.originMap, origin)
  }

  function Strays(s: State, origin: string): set<nat> {
    SaveRows(s.disk.table, origin) - (if Tip(s.mem, origin).Some? then {Tip(s.mem, origin).value} else {})
  }

  /** A restart now would start from an origin map that does not name the origin's live row. */
  predicate LiveRowMissed(s: State, origin: string) {
    var tip := Tip(s.mem, origin);
    tip.Some? && tip.value in s.disk.table.rows && Lookup(s.disk.originMap, origin) != tip
  }

  /** How many restarts of a run started from a map that missed the live row. */
  function Missed(s: State, events: seq<Event>, origin: string): nat
    requires Feasible(s, events)
    decreases |events|
  {
    if events == [] then 0
    else (if events[0] == Crash && LiveRowMissed(s, origin) then 1 else 0) + Missed(Next(s, events[0]), events[1..], origin)
  }

  lemma CardinalityStep(a: set<nat>, b: set<nat>, x: nat)
    requires b <= a + {x}
    ensures |b| <= |a| + 1
    ensures b <= a ==> |b| <= |a|
  {
    Subset(b - {x}, a);
    if b <= a { Subset(b, a); }
  }

  lemma Subset(a: set<nat>, b: set<nat>)
    requires a <= b
    ensures |a| <= |b|
  {
    if a != {} {
      var x :| x in a;
      Subset(a - {x}, b - {x});
    }
  }

  lemma TransactStrays(s: State, tx: TxOutcome, origin: string)
    requires RefsOk(s.mem) && OriginInv(s) && Enabled(s, Transact(tx))
    ensures Strays(DoTransact(s, tx), origin) <= Strays(s, origin)
  {
    hide MapOk, HoldsSave;
  }

  lemma RecordStrays(s: State, o: MapOutcome, origin: string)
    requires Enabled(s, RecordOrigin(o))
    ensures Strays(DoRecordOrigin(s, o), origin) == Strays(s, origin)
  {
  }

  lemma CrashStrays(s: State, origin: string)
    ensures Strays(s.(mem := Boot(s.disk)), origin)
            <= Strays(s, origin) + (if LiveRowMissed(s, origin) then {Tip(s.mem, origin).value} else {})
  {
  }

  lemma ToolStrays(s: State, e: Event, origin: string)
    requires RefsOk(s.mem) && Enabled(s, e) && (e.ToolAdd? || e.ToolDelete?)
    requires TableOk(s.disk.table)
    ensures Strays(Next(s, e), origin) <= Strays(s, origin)
  {
  }

  lemma OtherStrays(s: State, e: Event, origin: string)
    requires Shape(s.mem) && RefsOk(s.mem) && Enabled(s, e)
    requires !(e.Transact? || e.RecordOrigin? || e.Crash? || e.ToolAdd? || e.ToolDelete?)
    ensures Strays(Next(s, e), origin) == Strays(s, origin)
  {
    var t := Next(s, e);
    assert t.disk.table == s.disk.table;
    assert Tip(t.mem, origin) == Tip(s.mem, origin);
  }

  lemma StraysStep(s: State, e: Event, origin: string)
    requires QueueInv(s) && OriginInv(s) && Enabled(s, e)
    ensures RefsOk(s.mem)
    ensures |Strays(Next(s, e), origin)|
            <= |Strays(s, origin)| + (if e == Crash && LiveRowMissed(s, origin) then 1 else 0)
  {
    RefsFromInv(s);
    var t := Next(s, e);
    var live := if Tip(s.mem, origin).Some? then Tip(s.mem, origin).value else 0;
    assert e != Crash ==> Strays(t, origin) <= Strays(s, origin) by {
      if e.Transact? { TransactStrays(s, e.tx, origin); }
      else if e.RecordOrigin? { RecordStrays(s, e.outcome, origin); }
      else if e.ToolAdd? || e.ToolDelete? { ToolStrays(s, e, origin); }
      else if e != Crash { OtherStrays(s, e, origin); }
    }
    if e == Crash { CrashStrays(s, origin); }
    hide QueueInv, OriginInv, Next, Enabled, LiveRowMissed, Strays;
    CardinalityStep(Strays(s, origin), Strays(t, origin), live);
  }
}
