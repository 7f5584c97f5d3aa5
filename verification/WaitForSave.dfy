/** The client's polling loop, waitForSaveJob in config/extensions/stateful-memory/memstore-client.js. */
module WaitForSave {
  import opened Basics
  import opened SaveQueue
  import opened SaveQueueInvariants
  import opened SaveQueueResults
  import opened SaveQueueTheorems
  import opened SaveQueueOrder

  /** What one status request comes to; Silent is the status timer winning the race. */
  datatype Answer = Replied(report: Report) | Errored(error: string) | Silent

  /** `start` is the clock at the top of the loop, `end` the clock when the answer is in. */
  datatype Poll = Poll(start: int, answer: Answer, end: int)

  datatype Outcome = Saved(entry: nat) | SaveFailed(error: string) | SaveUnknown | StatusError(error: string) | TimedOut | StillWaiting

  function Min(a: int, b: int): int {
    if a <= b then a else b
  }

  predicate Pending(a: Answer) {
    a.Replied? && a.report.Known? && (a.report.status == Queued || a.report.status == Adding)
  }

  /** Timers fire on time: the race ends by the deadline, and the sleep lasts as long as asked. */
  ghost predicate OnTime(polls: seq<Poll>, deadline: int, pollMs: int) {
    && (forall i :: 0 <= i < |polls| && polls[i].start < deadline ==> polls[i].start <= polls[i].end <= deadline)
    && (forall i :: 0 <= i < |polls| - 1 ==> polls[i + 1].start == polls[i].end + Min(pollMs, deadline - polls[i].end))
  }

  /** The used answers are pending except a decisive last one, which alone makes the outcome. */
  ghost predicate DecidedBy(answers: seq<Answer>, outcome: Outcome) {
    match outcome
    case TimedOut => forall i :: 0 <= i < |answers| ==> Pending(answers[i])
    case StillWaiting => forall i :: 0 <= i < |answers| ==> Pending(answers[i])
    case _ =>
      && |answers| > 0
      && (forall i :: 0 <= i < |answers| - 1 ==> Pending(answers[i]))
      && match answers[|answers| - 1]
         case Silent => false
         case Errored(error) => outcome == StatusError(error)
         case Replied(Unknown) => outcome == SaveUnknown
         case Replied(Known(Done, _, entry)) => outcome == Saved(entry)
         case Replied(Known(Failed, error, _)) => outcome == SaveFailed(error)
         case Replied(_) => false
  }

  function Answers(polls: seq<Poll>, used: nat): seq<Answer>
    requires used <= |polls|
  {
    seq(used, i requires 0 <= i < used => polls[i].answer)
  }

  /** Polls until an answer or the deadline settles it, at time `at`, having used the first `used` answers. */
  method WaitForSaveJob(polls: seq<Poll>, deadline: int, pollMs: int) returns (outcome: Outcome, at: int, used: nat)
    ensures used <= |polls| && DecidedBy(Answers(polls, used), outcome)
    ensures outcome == StillWaiting ==> used == |polls|
    ensures outcome == TimedOut && pollMs > 0 ==> at >= deadline
    ensures OnTime(polls, deadline, pollMs) && |polls| > 0 && polls[0].start <= deadline && outcome != StillWaiting ==>
              at <= deadline
    ensures (OnTime(polls, deadline, pollMs) && pollMs > 0 && |polls| > 0
             && deadline <= polls[0].start + (|polls| - 1) * pollMs) ==> outcome != StillWaiting
  {
    ghost var onTime := OnTime(polls, deadline, pollMs) && |polls| > 0;
    var i := 0;
    while i < |polls|
      invariant 0 <= i <= |polls|
      invariant forall k :: 0 <= k < i ==> Pending(polls[k].answer)
      invariant onTime && polls[0].start <= deadline && i < |polls| ==> polls[i].start <= deadline
      invariant onTime && pollMs > 0 && i < |polls| ==> polls[i].start >= Min(deadline, polls[0].start + i * pollMs)
      invariant onTime && pollMs > 0 && i == |polls| ==> polls[0].start + (i - 1) * pollMs < deadline
    {
      var poll := polls[i];
      if deadline - poll.start <= 0 {
        return TimedOut, poll.start, i;
      }
      match poll.answer {
        case Silent => return TimedOut, deadline, i;
        case Errored(error) => return StatusError(error), poll.end, i + 1;
        case Replied(Unknown) => return SaveUnknown, poll.end, i + 1;
        case Replied(Known(status, error, entry)) =>
          if status == Done {
            return Saved(entry), poll.end, i + 1;
          }
          if status == Failed {
            return SaveFailed(error), poll.end, i + 1;
          }
      }
      var wait := Min(pollMs, deadline - poll.end);
      if wait <= 0 {
        return TimedOut, poll.end, i + 1;
      }
      assert (i + 1) * pollMs == i * pollMs + pollMs;
      i := i + 1;
    }
    return StillWaiting, 0, i;
  }

  /** What the bookkeeping of a run records stays recorded. */
  lemma StepRecords(s: State, e: Event)
    requires Inv(s) && Enabled(s, e)
    ensures RefsOk(s.mem) && Grows(s.hist, Next(s, e).hist)
  {
    hide Inv, QueueInv, Grows, DoTransact;
    DonePart(s);
    RefsFromInv(s);
    if e.Transact? {
      CommitRecords(s, e.tx);
    } else {
      OtherRecords(s, e);
    }
  }

  lemma OtherRecords(s: State, e: Event)
    requires RefsOk(s.mem) && Enabled(s, e) && !e.Transact?
    ensures Grows(s.hist, Next(s, e).hist)
  {
    hide DoPop, FileImage, Boot;
    if e.Submit? {
    } else if e.RecordOrigin? {
    } else if e.Pop? {
      PopRecords(s);
    } else {
    }
  }

  lemma PopRecords(s: State)
    requires RefsOk(s.mem) && Enabled(s, Pop)
    ensures DoPop(s).hist == s.hist
  {
  }

  lemma DonePart(s: State)
    requires Inv(s)
    ensures QueueInv(s) && forall id :: id in s.hist.commits ==> id <= s.disk.table.sequence
  {
  }

  lemma CommitRecords(s: State, tx: TxOutcome)
    requires Enabled(s, Transact(tx)) && forall id :: id in s.hist.commits ==> id <= s.disk.table.sequence
    ensures Grows(s.hist, DoTransact(s, tx).hist)
  {
  }

  lemma GrowsAgain(h: History, k: History, l: History)
    requires Grows(h, k) && Grows(k, l)
    ensures Grows(h, l)
  {
    assert l.accepted[..|h.accepted|] == l.accepted[..|k.accepted|][..|h.accepted|];
  }

  lemma {:induction false} RunRecords(s: State, events: seq<Event>)
    requires Inv(s) && Feasible(s, events)
    ensures Grows(s.hist, Final(s, events).hist)
    decreases |events|
  {
    hide Inv, Grows;
    if events == [] {
      GrowsItself(s.hist);
    } else {
      StepRecords(s, events[0]);
      StepInv(s, events[0]);
      RunRecords(Next(s, events[0]), events[1..]);
      GrowsAgain(s.hist, Next(s, events[0]).hist, Final(s, events).hist);
    }
  }

  lemma GrowsItself(h: History)
    ensures Grows(h, h)
  {
  }

  lemma {:induction false} SplitRun(s: State, events: seq<Event>, n: nat)
    requires Feasible(s, events) && n <= |events|
    ensures Feasible(s, events[..n]) && Feasible(Final(s, events[..n]), events[n..])
    ensures Final(Final(s, events[..n]), events[n..]) == Final(s, events)
    decreases n
  {
    hide Next, Enabled;
    if n == 0 {
      assert events[..0] == [] && events[0..] == events;
    } else {
      SplitRun(Next(s, events[0]), events[1..], n - 1);
      assert events[..n][1..] == events[1..][..n - 1] && events[n..] == events[1..][n - 1..];
    }
  }

  /** The answers are the server's, read at successive moments of one history. */
  ghost predicate AnswersOf(history: seq<Event>, moments: seq<nat>, answers: seq<Answer>, id: JobId)
    requires Feasible(Init(), history)
  {
    && |moments| == |answers|
    && (forall i, j :: 0 <= i < j < |moments| ==> moments[i] <= moments[j])
    && (forall i :: 0 <= i < |moments| ==> moments[i] <= |history| && AnswerAt(history, moments[i], answers[i], id))
  }

  ghost predicate AnswerAt(history: seq<Event>, moment: nat, answer: Answer, id: JobId)
    requires Feasible(Init(), history) && moment <= |history|
  {
    Feasible(Init(), history[..moment]) && answer == Replied(SaveStatus(Final(Init(), history[..moment]).mem, id))
  }

  lemma StaysProven(h: History, k: History, serial: nat, entry: nat)
    requires Proven(h, serial, entry) && Grows(h, k)
    ensures Proven(k, serial, entry)
  {
    assert k.accepted[serial] == k.accepted[..|h.accepted|][serial] == h.accepted[serial];
  }

  /** No other save was accepted with the id of this one. */
  ghost predicate AcceptedOnce(h: History, n: nat, id: JobId) {
    && n < |h.accepted| && h.accepted[n].0 == id
    && forall k :: 0 <= k < |h.accepted| && k != n ==> h.accepted[k].0 != id
  }

  /**
   * If the wait succeeds on what the server answered at successive moments of its history, the latest save
   * accepted with the id by the last of them had been committed as submitted and the origin map file rewritten
   * to the returned entry; that stays recorded to the end of the history, through every restart.  It is the
   * save that was waited for if its id was given out once.
   */
  lemma SavedIsDurable(history: seq<Event>, moments: seq<nat>, answers: seq<Answer>, id: JobId, entry: nat) returns (serial: nat)
    requires Feasible(Init(), history) && AnswersOf(history, moments, answers, id) && DecidedBy(answers, Saved(entry))
    ensures var last := moments[|moments| - 1];
            && Feasible(Init(), history[..last])
            && var h := Final(Init(), history[..last]).hist;
               && Newest(h, serial, id) && Proven(h, serial, entry)
               && (forall n :: AcceptedOnce(h, n, id) ==> n == serial)
    ensures Proven(Final(Init(), history).hist, serial, entry)
  {
    var last := moments[|moments| - 1];
    assert AnswerAt(history, last, answers[|answers| - 1], id);
    hide AnswersOf, DecidedBy;
    DoneIsDurable(history[..last], id);
    var s := Final(Init(), history[..last]);
    serial := s.mem.jobs[s.mem.index[id]].serial;
    ReachableInv(history[..last]);
    SplitRun(Init(), history, last);
    hide Grows, Proven, Inv;
    RunRecords(s, history[last..]);
    StaysProven(s.hist, Final(Init(), history).hist, serial, entry);
  }
}
