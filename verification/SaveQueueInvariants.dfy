/** What every reachable state of the save queue keeps, over all interleavings, faults and restarts. */
module SaveQueueInvariants {
  import opened Basics
  import opened SaveQueue

  // ---------------------------------------------------------------- the queue and its file

  /** The queue is the not yet popped tail of all jobs in creation order, and the processor holds its head. */
  ghost predicate Shape(m: Memory) {
    && |m.queue| <= |m.jobs|
    && (forall i :: 0 <= i < |m.queue| ==> m.queue[i] == |m.jobs| - |m.queue| + i)
    && (PhaseJob(m.phase).Some? ==> |m.queue| > 0 && PhaseJob(m.phase).value == m.queue[0])
    && m.current == (if m.phase.Begun? || m.phase.Looked? || m.phase.Marked? || m.phase.Committed?
                        || m.phase.Settling? || m.phase.Settled? then PhaseJob(m.phase) else None)
  }

  /** Equal up to the status fields. */
  predicate SameSave(a: Job, b: Job) {
    a.serial == b.serial && a.id == b.id && a.content == b.content
  }

  ghost predicate FileMatches(file: seq<Job>, jobs: seq<Job>, queue: seq<nat>) {
    && |file| == |queue|
    && forall i :: 0 <= i < |file| ==> queue[i] < |jobs| && SameSave(file[i], jobs[queue[i]])
  }

  predicate Original(accepted: (JobId, Content), job: Job, popped: bool) {
    job.id == accepted.0 && job.content == if popped then Wiped(accepted.1) else accepted.1
  }

  /** Jobs stay in submit order and, until popped, carry what the client submitted. */
  ghost predicate Serials(jobs: seq<Job>, popped: int, accepted: seq<(JobId, Content)>) {
    && (forall i, j :: 0 <= i < j < |jobs| ==> jobs[i].serial < jobs[j].serial)
    && (forall i :: 0 <= i < |jobs| ==>
          jobs[i].serial < |accepted| && Original(accepted[jobs[i].serial], jobs[i], i < popped))
  }

  ghost predicate InFile(file: seq<Job>, serial: nat) {
    exists i :: 0 <= i < |file| && file[i].serial == serial
  }

  ghost predicate Durable(accepted: nat, settled: set<nat>, file: seq<Job>) {
    forall n :: 0 <= n < accepted ==> n in settled || InFile(file, n)
  }

  predicate Terminal(st: Status) {
    st == Done || st == Failed
  }

  predicate HeadStatusOk(p: Phase, st: Status) {
    match p
    case Marked(_, _) => st == Adding
    case Committed(_, _) => st == Adding
    case Settling(_, verdict, _, _) => st == Adding && Terminal(verdict)
    case Settled(_) => Terminal(st)
    case Released(_) => Terminal(st)
    case _ => st == Queued
  }

  ghost predicate Statuses(jobs: seq<Job>, popped: int, phase: Phase, settled: set<nat>) {
    && (forall i :: 0 <= i < popped && i < |jobs| ==> Terminal(jobs[i].status) && jobs[i].serial in settled)
    && (forall i :: 0 <= i && popped < i < |jobs| ==> jobs[i].status == Queued)
    && (0 <= popped < |jobs| ==>
          && HeadStatusOk(phase, jobs[popped].status)
          && (phase.Settled? || phase.Released? ==> jobs[popped].serial in settled))
  }

  ghost predicate Indexed(jobs: seq<Job>, index: map<JobId, nat>) {
    && (forall id :: id in index ==> index[id] < |jobs| && jobs[index[id]].id == id)
    && (forall r :: 0 <= r < |jobs| ==> jobs[r].id in index)
  }

  /** Numbers drawn in this process are used once. */
  ghost predicate Numbered(jobs: seq<Job>, loaded: nat, saveSeq: nat, tickets: set<nat>) {
    && loaded <= |jobs|
    && (forall t :: t in tickets ==> t <= saveSeq)
    && (forall i :: loaded <= i < |jobs| ==> jobs[i].id.number <= saveSeq && jobs[i].id.number !in tickets)
    && (forall i, j :: loaded <= i < j < |jobs| ==> jobs[i].id.number != jobs[j].id.number)
  }

  /** If the processor sleeps on a non-empty queue, a poke is in the slot or still owed. */
  predicate WakeupKept(m: Memory) {
    |m.queue| > 0 && m.phase == Waiting ==> m.notify || m.booting || m.unpoked > 0
  }

  function Popped(m: Memory): int {
    |m.jobs| - |m.queue|
  }

  ghost predicate QueueInv(s: State) {
    && Shape(s.mem)
    && FileMatches(s.disk.queueFile, s.mem.jobs, s.mem.queue)
    && Serials(s.mem.jobs, Popped(s.mem), s.hist.accepted)
    && Durable(|s.hist.accepted|, s.hist.settled, s.disk.queueFile)
    && Statuses(s.mem.jobs, Popped(s.mem), s.mem.phase, s.hist.settled)
    && Indexed(s.mem.jobs, s.mem.index)
    && Numbered(s.mem.jobs, s.mem.loaded, s.mem.saveSeq, s.mem.tickets)
    && WakeupKept(s.mem)
  }

  // ---------------------------------------------------------------- how each part survives a change of the jobs

  lemma SerialsSnoc(jobs: seq<Job>, popped: int, accepted: seq<(JobId, Content)>, job: Job)
    requires Serials(jobs, popped, accepted) && popped <= |jobs| && job.serial == |accepted|
    ensures Serials(jobs + [job], popped, accepted + [(job.id, job.content)])
  {
  }

  lemma SerialsUpdate(jobs: seq<Job>, popped: int, accepted: seq<(JobId, Content)>, job: Job)
    requires Serials(jobs, popped, accepted) && 0 <= popped < |jobs| && SameSave(job, jobs[popped])
    ensures Serials(jobs[popped := job], popped, accepted)
  {
  }

  lemma SerialsPop(jobs: seq<Job>, popped: int, accepted: seq<(JobId, Content)>)
    requires Serials(jobs, popped, accepted) && 0 <= popped < |jobs|
    ensures Serials(jobs[popped := jobs[popped].(content := Wiped(jobs[popped].content))], popped + 1, accepted)
  {
  }

  lemma SerialsReload(jobs: seq<Job>, popped: int, accepted: seq<(JobId, Content)>, file: seq<Job>)
    requires Serials(jobs, popped, accepted) && 0 <= popped <= |jobs| && |file| == |jobs| - popped
    requires forall i :: 0 <= i < |file| ==> SameSave(file[i], jobs[popped + i])
    ensures Serials(Reloaded(file), 0, accepted)
  {
    var again := Reloaded(file);
    assert forall i :: 0 <= i < |again| ==> SameSave(again[i], jobs[popped + i]);
  }

  lemma DurableSubmit(accepted: nat, settled: set<nat>, file: seq<Job>, jobs: seq<Job>, queue: seq<nat>, job: Job)
    requires Durable(accepted, settled, file) && FileMatches(file, jobs, queue) && job.serial == accepted
    ensures FileMatches(FileImage(jobs + [job], queue + [|jobs|]), jobs + [job], queue + [|jobs|])
    ensures Durable(accepted + 1, settled, FileImage(jobs + [job], queue + [|jobs|]))
  {
    var file' := FileImage(jobs + [job], queue + [|jobs|]);
    forall k | 0 <= k <= accepted && k !in settled
      ensures InFile(file', k)
    {
      if k < accepted {
        var i :| 0 <= i < |file| && file[i].serial == k;
        assert file'[i].serial == k;
      } else {
        assert file'[|file|].serial == k;
      }
    }
  }

  lemma DurablePop(accepted: nat, settled: set<nat>, file: seq<Job>, jobs: seq<Job>, queue: seq<nat>, job: Job)
    requires Durable(accepted, settled, file) && FileMatches(file, jobs, queue)
    requires |queue| > 0 && job.serial == jobs[queue[0]].serial && job.serial in settled
    requires forall i :: 0 < i < |queue| ==> queue[i] != queue[0]
    ensures FileMatches(FileImage(jobs[queue[0] := job], queue[1..]), jobs[queue[0] := job], queue[1..])
    ensures Durable(accepted, settled, FileImage(jobs[queue[0] := job], queue[1..]))
  {
    var file' := FileImage(jobs[queue[0] := job], queue[1..]);
    forall k | 0 <= k < accepted && k !in settled
      ensures InFile(file', k)
    {
      var i :| 0 <= i < |file| && file[i].serial == k;
      assert file'[i - 1].serial == k;
    }
  }

  lemma FileUpdate(file: seq<Job>, jobs: seq<Job>, queue: seq<nat>, r: nat, job: Job)
    requires FileMatches(file, jobs, queue) && r < |jobs| && SameSave(job, jobs[r])
    ensures FileMatches(file, jobs[r := job], queue)
  {
  }

  lemma DurableSettle(accepted: nat, settled: set<nat>, file: seq<Job>, serial: nat)
    requires Durable(accepted, settled, file)
    ensures Durable(accepted, settled + {serial}, file)
  {
  }

  lemma StatusesSnoc(jobs: seq<Job>, popped: int, p: Phase, settled: set<nat>, job: Job)
    requires Statuses(jobs, popped, p, settled) && popped <= |jobs| && job.status == Queued
    requires popped == |jobs| ==> PhaseJob(p).None?
    ensures Statuses(jobs + [job], popped, p, settled)
  {
  }

  lemma StatusesUpdate(jobs: seq<Job>, popped: int, p: Phase, q: Phase, settled: set<nat>, settled': set<nat>, job: Job)
    requires Statuses(jobs, popped, p, settled) && 0 <= popped < |jobs| && settled <= settled'
    requires HeadStatusOk(q, job.status) && (q.Settled? || q.Released? ==> job.serial in settled')
    ensures Statuses(jobs[popped := job], popped, q, settled')
  {
  }

  lemma StatusesPop(jobs: seq<Job>, popped: int, p: Phase, settled: set<nat>, job: Job)
    requires Statuses(jobs, popped, p, settled) && 0 <= popped < |jobs| && p.Released?
    requires job.serial == jobs[popped].serial && job.status == jobs[popped].status
    ensures Statuses(jobs[popped := job], popped + 1, Checking, settled)
  {
  }

  lemma IndexedSnoc(jobs: seq<Job>, index: map<JobId, nat>, job: Job)
    requires Indexed(jobs, index)
    ensures Indexed(jobs + [job], index[job.id := |jobs|])
  {
  }

  lemma IndexedUpdate(jobs: seq<Job>, index: map<JobId, nat>, r: nat, job: Job)
    requires Indexed(jobs, index) && r < |jobs| && job.id == jobs[r].id
    ensures Indexed(jobs[r := job], index)
  {
  }

  lemma ReloadMatches(file: seq<Job>, jobs: seq<Job>, queue: seq<nat>, popped: nat)
    requires FileMatches(file, jobs, queue) && popped == |jobs| - |queue|
    requires forall i :: 0 <= i < |queue| ==> queue[i] == popped + i
    ensures |file| == |queue|
    ensures forall i :: 0 <= i < |file| ==> SameSave(file[i], jobs[popped + i])
  {
  }

  lemma {:induction false} IndexOfOk(jobs: seq<Job>)
    ensures Indexed(jobs, IndexOf(jobs))
  {
    if jobs != [] {
      IndexOfOk(jobs[..|jobs| - 1]);
    }
  }

  lemma NumberedSnoc(jobs: seq<Job>, loaded: nat, saveSeq: nat, tickets: set<nat>, job: Job)
    requires Numbered(jobs, loaded, saveSeq, tickets) && job.id.number in tickets
    ensures Numbered(jobs + [job], loaded, saveSeq, tickets - {job.id.number})
  {
  }

  lemma NumberedUpdate(jobs: seq<Job>, loaded: nat, saveSeq: nat, tickets: set<nat>, r: nat, job: Job)
    requires Numbered(jobs, loaded, saveSeq, tickets) && r < |jobs| && job.id == jobs[r].id
    ensures Numbered(jobs[r := job], loaded, saveSeq, tickets)
  {
  }

  // ---------------------------------------------------------------- one lemma a step

  lemma SubmitStep(s: State, millis: nat, number: nat, c: Content)
    requires QueueInv(s) && Enabled(s, Submit(millis, number, c))
    ensures RefsOk(s.mem) && QueueInv(DoSubmit(s, millis, number, c))
  {
    hide Serials, Durable, Statuses, Indexed, Numbered, FileMatches;
    var m := s.mem;
    var job := Job(|s.hist.accepted|, JobId(millis, number), c, Queued, "", 0);
    SerialsSnoc(m.jobs, Popped(m), s.hist.accepted, job);
    StatusesSnoc(m.jobs, Popped(m), m.phase, s.hist.settled, job);
    IndexedSnoc(m.jobs, m.index, job);
    NumberedSnoc(m.jobs, m.loaded, m.saveSeq, m.tickets, job);
    DurableSubmit(|s.hist.accepted|, s.hist.settled, s.disk.queueFile, m.jobs, m.queue, job);
  }

  /** Changing only status fields of the head keeps everything that ignores them. */
  lemma UpdateStep(s: State, job: Job, phase: Phase, settled: set<nat>)
    requires QueueInv(s) && PhaseJob(s.mem.phase).Some? && PhaseJob(phase) == PhaseJob(s.mem.phase)
    requires SameSave(job, s.mem.jobs[PhaseJob(phase).value]) && HeadStatusOk(phase, job.status)
    requires (phase.Marked? && settled == s.hist.settled)
             || (phase.Settled? && settled == s.hist.settled + {job.serial})
    requires s.mem.phase.Looked? || s.mem.phase.Settling?
    ensures QueueInv(s.(mem := s.mem.(jobs := s.mem.jobs[PhaseJob(phase).value := job], phase := phase),
                        hist := s.hist.(settled := settled)))
  {
    hide Serials, Durable, Statuses, Indexed, Numbered, FileMatches;
    var m := s.mem;
    var r := PhaseJob(phase).value;
    FileUpdate(s.disk.queueFile, m.jobs, m.queue, r, job);
    SerialsUpdate(m.jobs, Popped(m), s.hist.accepted, job);
    StatusesUpdate(m.jobs, Popped(m), m.phase, phase, s.hist.settled, settled, job);
    IndexedUpdate(m.jobs, m.index, r, job);
    NumberedUpdate(m.jobs, m.loaded, m.saveSeq, m.tickets, r, job);
    DurableSettle(|s.hist.accepted|, s.hist.settled, s.disk.queueFile, job.serial);
  }

  lemma MarkStep(s: State)
    requires QueueInv(s) && Enabled(s, Mark)
    ensures RefsOk(s.mem) && QueueInv(Next(s, Mark))
  {
    var p := s.mem.phase;
    UpdateStep(s, SetStatus(s.mem.jobs[p.job], Adding, "", 0), Marked(p.job, p.prev), s.hist.settled);
  }

  lemma SettleStep(s: State)
    requires QueueInv(s) && Enabled(s, Settle)
    ensures RefsOk(s.mem) && QueueInv(DoSettle(s))
  {
    var p := s.mem.phase;
    var job := SetStatus(s.mem.jobs[p.job], p.verdict, p.message, p.entry);
    UpdateStep(s, job, Settled(p.job), s.hist.settled + {job.serial});
  }

  /** Between fetching and the pop the head stays the head, so exactly the processed job is removed. */
  lemma PopHead(s: State)
    requires Shape(s.mem) && Enabled(s, Pop)
    ensures s.mem.phase.job == s.mem.queue[0] == Popped(s.mem)
    ensures DoPop(s).mem.queue == s.mem.queue[1..]
    ensures Shape(DoPop(s).mem)
  {
  }

  lemma HeadSettled(jobs: seq<Job>, popped: int, phase: Phase, settled: set<nat>)
    requires Statuses(jobs, popped, phase, settled) && 0 <= popped < |jobs| && phase.Released?
    ensures jobs[popped].serial in settled
  {
  }

  lemma PopStep(s: State)
    requires QueueInv(s) && Enabled(s, Pop)
    ensures QueueInv(DoPop(s)) && DoPop(s).mem.queue == s.mem.queue[1..]
  {
    hide Serials, Durable, Statuses, Indexed, Numbered, FileMatches;
    PopHead(s);
    hide Shape;
    var m := s.mem;
    var r := m.phase.job;
    var job := m.jobs[r].(content := Wiped(m.jobs[r].content));
    HeadSettled(m.jobs, r, m.phase, s.hist.settled);
    SerialsPop(m.jobs, r, s.hist.accepted);
    StatusesPop(m.jobs, r, m.phase, s.hist.settled, job);
    IndexedUpdate(m.jobs, m.index, r, job);
    NumberedUpdate(m.jobs, m.loaded, m.saveSeq, m.tickets, r, job);
    TailDistinct(m);
    DurablePop(|s.hist.accepted|, s.hist.settled, s.disk.queueFile, m.jobs, m.queue, job);
  }

  lemma TailDistinct(m: Memory)
    requires Shape(m)
    ensures forall i :: 0 < i < |m.queue| ==> m.queue[i] != m.queue[0]
  {
  }

  lemma BootOk(d: Disk, settled: set<nat>)
    ensures Shape(Boot(d)) && RefsOk(Boot(d)) && WakeupKept(Boot(d)) && Popped(Boot(d)) == 0
    ensures Indexed(Boot(d).jobs, Boot(d).index)
    ensures Numbered(Boot(d).jobs, Boot(d).loaded, Boot(d).saveSeq, Boot(d).tickets)
    ensures Statuses(Boot(d).jobs, 0, Waiting, settled)
    ensures FileMatches(d.queueFile, Boot(d).jobs, Boot(d).queue)
  {
    IndexOfOk(Reloaded(d.queueFile));
  }

  lemma BootParts(d: Disk)
    ensures Boot(d).jobs == Reloaded(d.queueFile) && Boot(d).phase == Waiting
  {
  }

  lemma CrashStep(s: State)
    requires QueueInv(s)
    ensures RefsOk(s.mem) && QueueInv(s.(mem := Boot(s.disk)))
  {
    hide Serials, Durable, Statuses, Indexed, Numbered, FileMatches, WakeupKept, Boot, Reloaded;
    var file := s.disk.queueFile;
    BootParts(s.disk);
    BootOk(s.disk, s.hist.settled);
    ReloadMatches(file, s.mem.jobs, s.mem.queue, Popped(s.mem));
    SerialsReload(s.mem.jobs, Popped(s.mem), s.hist.accepted, file);
  }

  /** Steps that leave the jobs, the queue and its file alone. */
  predicate Quiet(e: Event) {
    !(e.Submit? || e.Mark? || e.Settle? || e.Pop? || e.Crash?)
  }

  /** What a quiet step may do to the memory fields the invariant reads. */
  predicate QuietChange(m: Memory, n: Memory) {
    && n.jobs == m.jobs && n.queue == m.queue && n.index == m.index && n.loaded == m.loaded
    && ((n.saveSeq == m.saveSeq && n.tickets == m.tickets)
        || (n.saveSeq == m.saveSeq + 1 && n.tickets == m.tickets + {n.saveSeq}))
  }

  predicate PhaseChange(p: Phase, q: Phase) {
    || q == p
    || (PhaseJob(p).None? && PhaseJob(q).None?)
    || (p.Checking? && q.Fetched?)
    || (p.Fetched? && q.Begun? && q.job == p.job)
    || (p.Begun? && q.Looked? && q.job == p.job)
    || (p.Marked? && q.Committed? && q.job == p.job)
    || (p.Marked? && q.Settling? && q.job == p.job && q.verdict == Failed)
    || (p.Committed? && q.Settling? && q.job == p.job && Terminal(q.verdict))
    || (p.Settled? && q.Released? && q.job == p.job)
  }

  lemma PhaseKeepsHead(p: Phase, q: Phase, head: Status)
    requires PhaseChange(p, q) && HeadStatusOk(p, head)
    ensures HeadStatusOk(q, head) && (q.Settled? || q.Released? ==> p.Settled? || p.Released?)
  {
  }

  lemma QuietFrame(s: State, e: Event)
    requires RefsOk(s.mem) && Enabled(s, e) && Quiet(e)
    ensures QuietChange(s.mem, Next(s, e).mem) && PhaseChange(s.mem.phase, Next(s, e).mem.phase)
    ensures Next(s, e).disk.queueFile == s.disk.queueFile
    ensures Next(s, e).hist.accepted == s.hist.accepted && Next(s, e).hist.settled == s.hist.settled
  {
    if e.Transact? {
    } else if e.RecordOrigin? {
    } else {
    }
  }

  lemma ShapeFrame(m: Memory, n: Memory)
    requires Shape(m) && QuietChange(m, n) && PhaseChange(m.phase, n.phase) && CurrentChange(m, n)
    requires m.phase.Checking? && n.phase.Fetched? ==> |m.queue| > 0 && n.phase.job == m.queue[0]
    ensures Shape(n)
  {
  }

  predicate CurrentChange(m: Memory, n: Memory) {
    if m.phase.Fetched? && n.phase.Begun? then n.current == Some(n.phase.job)
    else if n.phase.Released? && m.phase.Settled? then n.current == None
    else n.current == m.current
  }

  lemma QuietCurrent(s: State, e: Event)
    requires RefsOk(s.mem) && Enabled(s, e) && Quiet(e)
    ensures CurrentChange(s.mem, Next(s, e).mem)
    ensures var n := Next(s, e).mem;
            s.mem.phase.Checking? && n.phase.Fetched? ==> |s.mem.queue| > 0 && n.phase.job == s.mem.queue[0]
  {
  }

  lemma WakeupStep(s: State, e: Event)
    requires RefsOk(s.mem) && WakeupKept(s.mem) && Enabled(s, e) && Quiet(e)
    ensures WakeupKept(Next(s, e).mem)
  {
  }

  lemma QuietNumbered(m: Memory, n: Memory)
    requires QuietChange(m, n) && Numbered(m.jobs, m.loaded, m.saveSeq, m.tickets)
    ensures Numbered(n.jobs, n.loaded, n.saveSeq, n.tickets)
  {
  }

  lemma QuietStep(s: State, e: Event)
    requires QueueInv(s) && Enabled(s, e) && Quiet(e)
    ensures RefsOk(s.mem) && QueueInv(Next(s, e))
  {
    hide Serials, Durable, Indexed, Numbered, FileMatches, Statuses;
    var m := s.mem;
    assert RefsOk(m);
    hide Shape;
    QuietFrame(s, e);
    QuietCurrent(s, e);
    WakeupStep(s, e);
    hide Next, Enabled;
    var t := Next(s, e);
    ShapeFrame(m, t.mem);
    QuietNumbered(m, t.mem);
    QuietStatuses(m.jobs, Popped(m), m.phase, t.mem.phase, s.hist.settled);
  }

  lemma QuietStatuses(jobs: seq<Job>, popped: int, p: Phase, q: Phase, settled: set<nat>)
    requires Statuses(jobs, popped, p, settled) && PhaseChange(p, q)
    ensures Statuses(jobs, popped, q, settled)
  {
    if 0 <= popped < |jobs| {
      PhaseKeepsHead(p, q, jobs[popped].status);
    }
  }

  lemma QueueStep(s: State, e: Event)
    requires QueueInv(s) && Enabled(s, e)
    ensures RefsOk(s.mem) && QueueInv(Next(s, e))
  {
    hide QueueInv;
    match e
    case Submit(millis, number, content) => SubmitStep(s, millis, number, content);
    case Mark => MarkStep(s);
    case Settle => SettleStep(s);
    case Pop => PopStep(s);
    case Crash => CrashStep(s);
    case _ => QuietStep(s, e);
  }
}
