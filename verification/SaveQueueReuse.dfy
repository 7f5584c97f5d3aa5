/** A run in which the clock is set back across a restart and a job id is drawn twice. */
module SaveQueueReuse {
  import opened Basics
  import opened SaveQueue
  import opened SaveQueueProxy
  import opened WaitForSave

  const First := Content("body", "title", [], "origin", 0)
  const Id := JobId(0, 1)
  const FileJob := Job(0, Id, First, Queued, "", 0)

  ghost predicate From(events: seq<Event>, s: State) {
    Runs(Init(), events, s) && RefsOk(s.mem)
  }

  lemma Then(events: seq<Event>, s: State, e: Event) returns (more: seq<Event>, t: State)
    requires From(events, s) && Enabled(s, e) && RefsOk(Next(s, e).mem)
    ensures t == Next(s, e) && more == events + [e] && From(more, t)
  {
    RunsThen(Init(), events, s, e);
    more, t := events + [e], Next(s, e);
  }

  lemma Accepted() returns (events: seq<Event>, s: State)
    ensures From(events, s) && s.disk.queueFile == [FileJob] && s.disk.originMap == map[]
    ensures s.hist.accepted == [(Id, First)] && s.hist.commits == map[]
  {
    events, s := [], Init();
    RunsNothing(s);
    hide Runs;
    events, s := Then(events, s, ResumePoke);
    events, s := Then(events, s, Draw);
    assert s.mem.tickets == {1} && s.mem.jobs == [] && s.mem.queue == [] && s.hist.accepted == [];
    events, s := Then(events, s, Submit(0, 1, First));
  }

  lemma Restarted() returns (events: seq<Event>, s: State)
    ensures From(events, s) && s.mem.jobs == [FileJob] && s.mem.queue == [0] && s.mem.index == map[Id := 0]
    ensures s.mem.booting && s.mem.phase == Waiting && s.mem.saveSeq == 0 && s.mem.originMap == map[]
    ensures s.hist.accepted == [(Id, First)] && s.hist.commits == map[]
  {
    hide Runs, DoSubmit;
    events, s := Accepted();
    BootsWith(s.disk);
    events, s := Then(events, s, Crash);
  }

  lemma BootsWith(d: Disk)
    requires d.queueFile == [FileJob]
    ensures Boot(d).jobs == [FileJob] && Boot(d).queue == [0] && Boot(d).index == map[Id := 0] && RefsOk(Boot(d))
  {
    assert Reloaded(d.queueFile) == [FileJob];
    assert [FileJob][..0] == [];
    assert IndexOf([FileJob]) == IndexOf([])[Id := 0];
  }

  lemma Fetching() returns (events: seq<Event>, s: State)
    ensures From(events, s) && s.mem.jobs == [FileJob] && s.mem.queue == [0] && s.mem.index == map[Id := 0]
    ensures !s.mem.booting && s.mem.phase == Fetched(0) && s.mem.saveSeq == 0 && s.mem.originMap == map[]
    ensures s.hist.accepted == [(Id, First)] && s.hist.commits == map[]
  {
    hide Runs, DoSubmit;
    events, s := Restarted();
    events, s := Then(events, s, ResumePoke);
    events, s := Then(events, s, Wake);
    events, s := Then(events, s, Check);
  }

  lemma Processing() returns (events: seq<Event>, s: State)
    ensures From(events, s) && s.mem.jobs == [FileJob.(status := Adding)] && s.mem.queue == [0] && s.mem.index == map[Id := 0]
    ensures !s.mem.booting && s.mem.saveSeq == 0 && s.mem.phase.Marked? && s.mem.phase.job == 0
    ensures s.hist.accepted == [(Id, First)] && s.hist.commits == map[]
  {
    hide Runs, DoSubmit;
    events, s := Fetching();
    events, s := Then(events, s, Begin);
    events, s := Then(events, s, LookUp);
    events, s := Then(events, s, Mark);
  }

  /** The job is being added, its id is drawn again, and a client that asks sees it queued. */
  lemma StatusGoesBack() returns (events: seq<Event>, s: State, e: Event)
    ensures Feasible(Init(), events) && s == Final(Init(), events) && RefsOk(s.mem) && Enabled(s, e)
    ensures e == Submit(0, 1, First)
    ensures SaveStatus(s.mem, Id) == Known(Adding, "", 0) && SaveStatus(Next(s, e).mem, Id) == Known(Queued, "", 0)
  {
    events, s := Processing();
    events, s := Then(events, s, Draw);
    e := Submit(0, 1, First);
  }

  // ---------------------------------------------------------------- a wait that succeeds on another save

  const Second := Content("other", "title", [], "origin", 0)
  const FirstJob := Job(0, Id, First, Queued, "", 0)
  const SecondJob := Job(1, Id, Second, Queued, "", 0)

  /** While the first save is being added, its id goes to a second one. */
  lemma DrawnAgain() returns (events: seq<Event>, s: State)
    ensures From(events, s) && s.mem.jobs == [FirstJob.(status := Adding), SecondJob] && s.mem.queue == [0, 1]
    ensures s.mem.index == map[Id := 1] && s.mem.phase.Marked? && s.mem.phase.job == 0
    ensures s.hist.accepted == [(Id, First), (Id, Second)] && s.hist.commits == map[]
  {
    hide Runs;
    events, s := Processing();
    events, s := Then(events, s, Draw);
    events, s := Then(events, s, Submit(0, 1, Second));
  }

  lemma FirstSettled() returns (events: seq<Event>, s: State)
    ensures From(events, s) && |s.mem.jobs| == 2 && s.mem.jobs[0].id == Id && s.mem.jobs[1] == SecondJob && s.mem.queue == [0, 1]
    ensures s.mem.index == map[Id := 1] && s.mem.phase == Settled(0)
    ensures s.hist.accepted == [(Id, First), (Id, Second)] && s.hist.commits == map[] && 0 in s.hist.settled
  {
    hide Runs;
    events, s := DrawnAgain();
    events, s := Then(events, s, Transact(BeginFails("busy")));
    events, s := Then(events, s, Settle);
  }

  /** The first save fails and leaves the queue. */
  lemma FirstFails() returns (events: seq<Event>, s: State)
    ensures From(events, s) && |s.mem.jobs| == 2 && s.mem.jobs[1] == SecondJob && s.mem.queue == [1]
    ensures s.mem.index == map[Id := 1] && s.mem.phase == Checking
    ensures s.hist.accepted == [(Id, First), (Id, Second)] && s.hist.commits == map[] && 0 in s.hist.settled
  {
    hide Runs, FileImage;
    events, s := FirstSettled();
    events, s := Then(events, s, Release);
    events, s := Then(events, s, Pop);
  }

  lemma SecondProcessed() returns (events: seq<Event>, s: State)
    ensures From(events, s) && |s.mem.jobs| == 2 && s.mem.jobs[1].serial == 1 && s.mem.queue == [1]
    ensures s.mem.index == map[Id := 1] && s.mem.phase.Marked? && s.mem.phase.job == 1
    ensures s.hist.accepted == [(Id, First), (Id, Second)] && s.hist.commits == map[] && 0 in s.hist.settled
  {
    hide Runs;
    events, s := FirstFails();
    events, s := Then(events, s, Check);
    events, s := Then(events, s, Begin);
    events, s := Then(events, s, LookUp);
    events, s := Then(events, s, Mark);
  }

  lemma SecondDone() returns (events: seq<Event>, s: State)
    ensures From(events, s) && SaveStatus(s.mem, Id).Known? && SaveStatus(s.mem, Id).status == Done
    ensures s.hist.accepted == [(Id, First), (Id, Second)] && 0 in s.hist.settled
    ensures forall c :: c in s.hist.commits ==> s.hist.commits[c].0 == 1
  {
    hide Runs;
    events, s := SecondProcessed();
    events, s := Then(events, s, Transact(Commits));
    events, s := Then(events, s, RecordOrigin(MapWritten));
    events, s := Then(events, s, Settle);
  }

  /** The first save failed and was never committed; who waits for it under the id drawn twice is told it is saved. */
  lemma WaitEndsOnAnotherSave() returns (events: seq<Event>, answer: Answer, entry: nat)
    ensures Feasible(Init(), events) && AnswersOf(events, [|events|], [answer], Id) && DecidedBy([answer], Saved(entry))
    ensures var h := Final(Init(), events).hist;
            && h.accepted == [(Id, First), (Id, Second)] && 0 in h.settled
            && forall c :: c in h.commits ==> h.commits[c].0 != 0
  {
    var s;
    events, s := SecondDone();
    assert events[..|events|] == events;
    answer, entry := Replied(SaveStatus(s.mem, Id)), SaveStatus(s.mem, Id).entry;
    assert AnswerAt(events, |events|, answer, Id);
  }
}
