/** What every answer, timer and event does to the session, in every reachable state. */
module LeaseOutcomes {
  import opened Basics
  import opened LeaseClient
  import opened LeaseSafety
  import opened LeaseTheorems

  // ---------------------------------------------------------------- the outcomes there are

  /** The session is blocked and a recovery for this very lease is under way; nothing was lost or given back. */
  predicate RecoveryFor(t: Core, s: Core, lease: nat) {
    && lease < |s.leases| && t.leases == s.leases && t.current == s.current && t.released == s.released && t.now == s.now
    && t.protection == Blocked && t.expiry.None? && t.heartbeat.None?
    && t.recovery.Some? && t.recovery.value.lease == lease
    && (if s.leases[lease].pending then t.recovery.value.phase.Reading? else t.recovery.value.phase == Gate(Recovering))
  }

  /** The session is protected by a new lease whose timers run. */
  predicate NewLease(t: Core, s: Core, pending: bool, expires: int) {
    && |t.leases| == |s.leases| + 1 && t.leases[..|s.leases|] == s.leases
    && t.leases[|s.leases|].pending == pending && t.leases[|s.leases|].expires == expires
    && t.current == Some(|s.leases|) && t.protection == Protected && t.released == s.released && t.now == s.now
    && t.heartbeat == t.current
    && t.expiry.Some? && t.expiry.value.lease == |s.leases|
    && t.expiry.value.deadline == if expires >= s.now then expires else s.now
  }

  /** Only the lease's own record changed, and its expiry timer runs for it. */
  predicate Renewed(t: Core, s: Core, lease: nat, pending: bool, expires: int) {
    && lease < |s.leases| && |t.leases| == |s.leases|
    && t.leases[lease].pending == pending && t.leases[lease].expires == expires
    && (forall k :: 0 <= k < |s.leases| && k != lease ==> t.leases[k] == s.leases[k])
    && t.current == s.current && t.protection == s.protection && t.heartbeat == s.heartbeat
    && t.recovery == s.recovery && t.released == s.released && t.now == s.now
    && t.expiry.Some? && t.expiry.value.lease == lease && t.expiry.value.deadline == if expires >= s.now then expires else s.now
  }

  /** Without a lease, timers or protection. */
  predicate GivenUp(t: Core, s: Core) {
    && t.protection == Unprotected && t.current.None? && t.expiry.None? && t.heartbeat.None?
    && t.leases == s.leases && t.released == s.released && t.now == s.now
  }

  /** All requests in flight are told to stop. */
  ghost predicate BeatsStopped(t: Beats, s: Beats) {
    && !t.running && t.controller.None? && t.made == s.made
    && forall c :: c in t.aborted <==> c in s.aborted || s.controller == Some(c)
  }

  /** Who waited for the recovery goes on, and nobody else. */
  predicate RecoveryWakes(t: seq<Task>, s: seq<Task>) {
    && |t| == |s|
    && forall i :: 0 <= i < |s| ==> if s[i].OnRecovery? then t[i] == Ready(s[i].next, true) else t[i] == s[i]
  }

  predicate LauncherWakes(t: seq<Task>, s: seq<Task>, ok: bool) {
    && |t| == |s|
    && forall i :: 0 <= i < |s| ==> if s[i].OnLauncher? then t[i] == Ready(s[i].next, ok) else t[i] == s[i]
  }

  /** The tasks but one, and one more. */
  predicate Exchanged(t: seq<Task>, s: seq<Task>, i: nat, more: seq<Task>) {
    i < |s| && t == s[..i] + s[i + 1..] + more
  }

  predicate Decided(t: State, s: State, h: Handler, through: bool) {
    && |t.decisions| == |s.decisions| + 1 && t.decisions[..|s.decisions|] == s.decisions
    && t.decisions[|s.decisions|].handler == h && t.decisions[|s.decisions|].through == through
    && t.decisions[|s.decisions|].protection == t.core.protection && (t.decisions[|s.decisions|].hadLease <==> t.core.leases != [])
  }

  /** Protected by a lease that is only a reservation. */
  predicate OnReservation(c: Core) {
    c.protection == Protected && c.current.Some? && c.current.value < |c.leases| && c.leases[c.current.value].pending
  }

  predicate Timely(s: State, lease: nat) {
    s.core.current == Some(lease) && s.core.protection == Protected
  }

  /** What the invariant says of a protected and of a recovering session. */
  lemma Facts(steps: seq<Step>, s: State)
    requires Reaches(Init, steps, s) && !s.ended
    ensures CurrentOk(s.core) && (s.core.recovery.Some? ==> s.core.protection == Blocked && s.core.recovery.value.lease < |s.core.leases|)
    ensures s.core.protection == Protected ==> s.core.current.Some? && s.core.heartbeat == s.core.current
    ensures s.core.protection == Protected ==> s.core.expiry.Some? && s.core.expiry.value.lease == s.core.current.value
    ensures s.core.expiry.Some? || s.core.heartbeat.Some? ==> s.core.protection == Protected
    ensures s.startup != Over ==> s.core.leases == [] && s.core.protection == Blocked
    ensures s.launcherGate ==> s.core.protection == Launcher
  {
    InitInv(Any);
    RunInv(Init, steps, s, Any);
  }

  // ---------------------------------------------------------------- heartbeats

  /** A tick sends one request for the current lease, unless one is on its way. */
  lemma OneHeartbeatAtATime(steps: seq<Step>, s: State)
    requires Reaches(Init, steps, s) && Possible(s, HeartbeatTick)
    ensures var t := Next(s, HeartbeatTick);
            && s.core.protection == Protected && t.core == s.core && t.decisions == s.decisions
            && (s.beats.running ==> t == s)
            && (!s.beats.running ==>
                  && t.beats.running && t.beats.controller == Some(s.beats.made) && t.beats.made > s.beats.made
                  && t.tasks == s.tasks + [Beat(s.core.current.value, s.beats.made)])
  {
    Facts(steps, s);
  }

  /** The server's answer to a heartbeat of the current lease. */
  lemma HeartbeatAnswers(steps: seq<Step>, s: State, i: nat, reply: BeatReply)
    requires Reaches(Init, steps, s) && Possible(s, BeatDone(i, reply))
    requires Timely(s, s.tasks[i].lease) && s.tasks[i].controller !in s.beats.aborted
    ensures var t := Next(s, BeatDone(i, reply));
            var lease, beater := s.tasks[i].lease, s.tasks[i].controller;
            && t.decisions == s.decisions
            && (reply.Lost? || (reply.Broken? && s.core.now >= s.core.leases[lease].expires) ==>
                  && RecoveryFor(t.core, s.core, lease) && BeatsStopped(t.beats, s.beats)
                  && Exchanged(t.tasks, s.tasks, i, [OnRecovery(BeatEnds(beater))]))
            && (reply.Broken? && s.core.now < s.core.leases[lease].expires ==>
                  t.core == s.core && !t.beats.running && Exchanged(t.tasks, s.tasks, i, []))
            && (reply.Granted? && !s.core.leases[lease].pending ==>
                  && Renewed(t.core, s.core, lease, false, reply.expires) && !t.beats.running && Exchanged(t.tasks, s.tasks, i, []))
            && (reply.Granted? && s.core.leases[lease].pending ==>
                  && t.core.leases[lease].pending && t.core.leases[lease].expires == reply.expires
                  && Timely(t, lease) && t.core.recovery == s.core.recovery && t.beats == s.beats
                  && Exchanged(t.tasks, s.tasks, i, [Read(lease, Beater(beater))]))
  {
    Facts(steps, s);
    hide Reaches;
  }

  /** The expiry timer blocks the session at once and recovers its current lease. */
  lemma ExpiryRecovers(steps: seq<Step>, s: State)
    requires Reaches(Init, steps, s) && Possible(s, ExpiryFires)
    ensures s.core.current.Some? && RecoveryFor(Next(s, ExpiryFires).core, s.core, s.core.current.value)
    ensures BeatsStopped(Next(s, ExpiryFires).beats, s.beats)
  {
    Facts(steps, s);
    hide Reaches;
  }

  // ---------------------------------------------------------------- promotion

  predicate WaitsFor(next: Then, caller: Caller) {
    if caller.Beater? then next == BeatEnds(caller.controller) else next == BoundaryFails(caller.handler)
  }

  /**
   * The session file of a reservation: while it is missing the reservation stands, when it has the lease's id
   * the server is asked to promote it, when it has another or cannot be read the lease is recovered.
   */
  lemma FileAnswers(steps: seq<Step>, s: State, i: nat, found: Found)
    requires Reaches(Init, steps, s) && Possible(s, ReadDone(i, found)) && Timely(s, s.tasks[i].lease)
    ensures var t := Next(s, ReadDone(i, found));
            var lease, caller := s.tasks[i].lease, s.tasks[i].caller;
            && (found.Same? ==> t.core == s.core && t.beats == s.beats && Exchanged(t.tasks, s.tasks, i, [Promote(lease, caller)]))
            && (found.Different? || found.Unreadable? ==>
                  && RecoveryFor(t.core, s.core, lease) && BeatsStopped(t.beats, s.beats)
                  && |t.tasks| == |s.tasks| && t.tasks[|s.tasks| - 1].OnRecovery? && WaitsFor(t.tasks[|s.tasks| - 1].next, caller))
            && (found.Missing? ==>
                  && t.core.leases == s.core.leases && Timely(t, lease) && t.core.recovery == s.core.recovery
                  && Exchanged(t.tasks, s.tasks, i, [])
                  && (caller.Boundary? && caller.handler != Background ==> Decided(t, s, caller.handler, true))
                  && (caller.Boundary? && caller.handler == Background ==> t.decisions == s.decisions)
                  && (caller.Beater? ==> !t.beats.running && t.decisions == s.decisions))
  {
    Facts(steps, s);
    hide Reaches;
  }

  /** The server's answer to the promotion of the current lease. */
  lemma PromotionAnswers(steps: seq<Step>, s: State, i: nat, granted: Option<int>)
    requires Reaches(Init, steps, s) && Possible(s, PromoteDone(i, granted)) && Timely(s, s.tasks[i].lease)
    ensures var t := Next(s, PromoteDone(i, granted));
            var lease, caller := s.tasks[i].lease, s.tasks[i].caller;
            && (granted.None? ==>
                  && RecoveryFor(t.core, s.core, lease) && BeatsStopped(t.beats, s.beats) && t.decisions == s.decisions
                  && |t.tasks| == |s.tasks| && t.tasks[|s.tasks| - 1].OnRecovery? && WaitsFor(t.tasks[|s.tasks| - 1].next, caller))
            && (granted.Some? ==>
                  && Renewed(t.core, s.core, lease, false, granted.value) && Exchanged(t.tasks, s.tasks, i, [])
                  && (caller.Boundary? && caller.handler != Background ==> Decided(t, s, caller.handler, true))
                  && (caller.Beater? ==> !t.beats.running && t.decisions == s.decisions))
  {
    Facts(steps, s);
    hide Reaches;
  }

  // ---------------------------------------------------------------- recovery

  /** What the gate of a recovery asks for: a reservation while there is no file, else a promotion; with another id it ends. */
  lemma RecoveryReads(s: State, found: Found)
    requires Possible(s, RecoveryRead(found))
    ensures var t := Next(s, RecoveryRead(found));
            && t.core.protection == s.core.protection && t.core.current == s.core.current && t.core.leases == s.core.leases
            && t.core.released == s.core.released && t.decisions == s.decisions
            && (found.Same? || found.Unreadable? || found.Missing? ==>
                  && t.core.recovery.Some? && t.core.recovery.value.lease == s.core.recovery.value.lease && t.tasks == s.tasks
                  && t.core.recovery.value.phase == Gate(if found.Missing? then Reserving else Promoting))
            && (found.Different? ==> t.core.recovery.None? && RecoveryWakes(t.tasks, s.tasks))
  {
  }

  /**
   * A claim protects the session by a new lease, which is a reservation if the gate asked for one; continuing
   * without gives the lease back first; a cancelled gate leaves the session blocked.
   */
  lemma RecoveryAnswers(steps: seq<Step>, s: State, answer: Answer)
    requires Reaches(Init, steps, s) && Possible(s, RecoveryAnswer(answer))
    ensures var t := Next(s, RecoveryAnswer(answer));
            && t.decisions == s.decisions
            && (answer.Claimed? ==>
                  && NewLease(t.core, s.core, s.core.recovery.value.phase.mode == Reserving, answer.expires)
                  && t.core.recovery.None? && RecoveryWakes(t.tasks, s.tasks) && BeatsStopped(t.beats, s.beats))
            && (answer.Continue? ==>
                  && t.core.protection == Blocked && t.core.current == s.core.current && t.core.leases == s.core.leases
                  && t.core.recovery.Some? && t.core.recovery.value.phase.Releasing? && t.tasks == s.tasks
                  && t.core.released == s.core.released + [s.core.recovery.value.lease])
            && (answer.Cancelled? ==>
                  && t.core.protection == Blocked && t.core.current == s.core.current && t.core.leases == s.core.leases
                  && t.core.released == s.core.released && t.core.recovery.None? && RecoveryWakes(t.tasks, s.tasks))
  {
    Facts(steps, s);
    hide Reaches;
  }

  /** Once it is given back the session goes on unprotected. */
  lemma ReleaseEndsUnprotected(s: State)
    requires Possible(s, RecoveryReleased)
    ensures var t := Next(s, RecoveryReleased);
            GivenUp(t.core, s.core) && t.core.recovery.None? && RecoveryWakes(t.tasks, s.tasks) && BeatsStopped(t.beats, s.beats)
  {
  }

  // ---------------------------------------------------------------- how a session begins and ends

  /** An adopted lease protects at once, a user who chose so goes on without, everybody else's file is looked at. */
  lemma SessionBegins(steps: seq<Step>, s: State, start: Start)
    requires Reaches(Init, steps, s) && Possible(s, SessionStart(start))
    ensures var t := Next(s, SessionStart(start));
            && (start.Adopt? ==> NewLease(t.core, s.core, false, start.expires) && t.startup == Over)
            && (start.Unguarded? ==> GivenUp(t.core, s.core) && t.startup == Over)
            && (start.Look? ==> t.core == s.core && t.core.protection == Blocked && t.startup == Startup.Checking)
  {
    Facts(steps, s);
    hide Reaches;
  }

  /** Without a file the session is a launcher, with one the gate is shown; until it claims or waives, the session stays blocked. */
  lemma StartAnswers(steps: seq<Step>, s: State, found: Found, answer: Answer)
    requires Reaches(Init, steps, s)
    ensures Possible(s, StartRead(found)) ==>
              var t := Next(s, StartRead(found));
              && t.core.leases == s.core.leases && t.core.current == s.core.current
              && (found.Missing? ==> t.core.protection == Launcher && t.startup == Over)
              && (!found.Missing? ==> t.core.protection == Blocked && t.startup == Asking)
    ensures Possible(s, StartAnswer(answer)) ==>
              var t := Next(s, StartAnswer(answer));
              && t.startup == Over
              && (answer.Claimed? ==> NewLease(t.core, s.core, false, answer.expires))
              && (answer.Continue? ==> GivenUp(t.core, s.core))
              && (answer.Cancelled? ==> t.core == s.core && t.core.protection == Blocked)
  {
    if !s.ended { Facts(steps, s); }
    hide Reaches;
  }

  /** The launcher's gate: a claim is a reservation and lets the waiting handlers go on, anything else stops them. */
  lemma LauncherAnswers(steps: seq<Step>, s: State, answer: Answer)
    requires Reaches(Init, steps, s) && Possible(s, LauncherAnswer(answer))
    ensures var t := Next(s, LauncherAnswer(answer));
            && !t.launcherGate && t.decisions == s.decisions
            && (answer.Claimed? ==> NewLease(t.core, s.core, true, answer.expires) && LauncherWakes(t.tasks, s.tasks, true))
            && (answer.Cancelled? ==> t.core == s.core && LauncherWakes(t.tasks, s.tasks, false))
  {
    Facts(steps, s);
    hide Reaches;
  }

  /** A session that shuts down gives its current lease back and stops its timers. */
  lemma ShutdownGivesBack(s: State)
    requires Possible(s, Shutdown)
    ensures var t := Next(s, Shutdown);
            && t.ended && t.core.current.None? && t.core.expiry.None? && t.core.heartbeat.None? && BeatsStopped(t.beats, s.beats)
            && t.core.released == s.core.released + if s.core.current.Some? then [s.core.current.value] else []
  {
  }

  // ---------------------------------------------------------------- what is let through

  /**
   * Tool calls, shell commands and prompts: protected by a granted lease or knowingly unprotected they pass;
   * blocked with a lease they wait for its recovery; a launcher's prompts and commands wait for its gate; for a
   * reservation the file is looked at first, except before a prompt.
   */
  lemma EventsAreGated(steps: seq<Step>, s: State, h: Handler)
    requires Reaches(Init, steps, s) && Possible(s, Event(h)) && h != Background
    ensures var t := Next(s, Event(h));
            var reserved := OnReservation(s.core);
            && (s.core.protection == Unprotected || (s.core.protection == Protected && (h == Input || !reserved)) ==>
                  Decided(t, s, h, true) && t.core == s.core && t.tasks == s.tasks)
            && (reserved && h != Input ==>
                  t.decisions == s.decisions && t.core == s.core && t.tasks == s.tasks + [Read(s.core.current.value, Boundary(h))])
            && (s.core.protection == Blocked && s.core.current.Some? ==>
                  && t.decisions == s.decisions && t.tasks == s.tasks + [OnRecovery(Recheck(h))]
                  && (if s.core.recovery.Some? then t.core == s.core else RecoveryFor(t.core, s.core, s.core.current.value)))
            && (s.core.protection == Blocked && s.core.current.None? ==> Decided(t, s, h, true) && t.core == s.core)
            && (s.core.protection == Launcher && h != ToolCall ==>
                  t.decisions == s.decisions && t.core == s.core && t.launcherGate && t.tasks == s.tasks + [OnLauncher(LauncherEnds(h))])
            && (s.core.protection == Launcher && h == ToolCall ==> Decided(t, s, h, true) && t.core == s.core)
  {
    Facts(steps, s);
    hide Reaches;
  }

  /** The events that let nothing through only ever look at a reservation's file. */
  lemma BackgroundEventsDecideNothing(steps: seq<Step>, s: State)
    requires Reaches(Init, steps, s) && Possible(s, Event(Background))
    ensures var t := Next(s, Event(Background));
            && t.core == s.core && t.decisions == s.decisions
            && t.tasks == s.tasks + if OnReservation(s.core) then [Read(s.core.current.value, Boundary(Background))] else []
  {
    Facts(steps, s);
    hide Reaches;
  }

  /** After a recovery what waited for it passes exactly if the session is not blocked any more. */
  lemma RecheckDecides(s: State, i: nat)
    requires Possible(s, Resume(i)) && s.tasks[i].next.Recheck?
    ensures var t := Next(s, Resume(i));
            Decided(t, s, s.tasks[i].next.handler, s.core.protection != Blocked) && t.core == s.core && Exchanged(t.tasks, s.tasks, i, [])
  {
  }

  /** After a failed promotion it passes if the recovery brought a granted lease, and is held back otherwise. */
  lemma FailedBoundaryDecides(steps: seq<Step>, s: State, i: nat)
    requires Reaches(Init, steps, s) && Possible(s, Resume(i))
    requires s.tasks[i].next.BoundaryFails? && s.tasks[i].next.handler != Background
    ensures var t := Next(s, Resume(i));
            Decided(t, s, s.tasks[i].next.handler, s.core.protection == Protected && !OnReservation(s.core)) && t.core == s.core && Exchanged(t.tasks, s.tasks, i, [])
  {
    Facts(steps, s);
    hide Reaches;
  }

  /** If the launcher's gate was not claimed, what waited for it is held back; if it was, a prompt goes on under the new lease. */
  lemma LauncherGateDecides(steps: seq<Step>, s: State, i: nat)
    requires Reaches(Init, steps, s) && Possible(s, Resume(i)) && s.tasks[i].next.LauncherEnds?
    ensures var t := Next(s, Resume(i));
            && (!s.tasks[i].ok ==> Decided(t, s, s.tasks[i].next.handler, false) && t.core == s.core)
            && (s.tasks[i].ok && s.core.protection == Protected && s.tasks[i].next.handler == Input ==>
                  Decided(t, s, Input, true) && t.core == s.core)
            && (s.tasks[i].ok && s.core.protection == Protected && s.tasks[i].next.handler != Input ==>
                  t.core == s.core
                  && if OnReservation(s.core)
                     then t.decisions == s.decisions
                          && Exchanged(t.tasks, s.tasks, i, [Read(s.core.current.value, Boundary(s.tasks[i].next.handler))])
                     else s.tasks[i].next.handler == Background || Decided(t, s, s.tasks[i].next.handler, true))
  {
    Facts(steps, s);
    hide Reaches;
  }

  /** The end of a heartbeat's wait lets the next one be sent. */
  lemma BeatEndsFreesTheNext(s: State, i: nat)
    requires Possible(s, Resume(i)) && s.tasks[i].next.BeatEnds?
    ensures var t := Next(s, Resume(i));
            && !t.beats.running && t.core == s.core && t.decisions == s.decisions
            && (s.beats.controller == Some(s.tasks[i].next.controller) ==> t.beats.controller.None?)
            && (s.beats.controller != Some(s.tasks[i].next.controller) ==> t.beats.controller == s.beats.controller)
  {
  }

  // ---------------------------------------------------------------- what comes too late

  /** A promotion granted for a lease that was replaced holds its handler back; a file still missing lets it go on to its own check. */
  lemma LateAnswersDecide(steps: seq<Step>, s: State, i: nat, expires: int)
    requires Reaches(Init, steps, s)
    ensures Possible(s, PromoteDone(i, Some(expires))) && !Timely(s, s.tasks[i].lease) ==>
              var t := Next(s, PromoteDone(i, Some(expires)));
              var caller := s.tasks[i].caller;
              && t.core == s.core && Exchanged(t.tasks, s.tasks, i, [])
              && (caller.Boundary? && caller.handler != Background ==> Decided(t, s, caller.handler, false))
              && (caller.Beater? ==> !t.beats.running && t.decisions == s.decisions)
    ensures Possible(s, ReadDone(i, Missing)) && s.tasks[i].caller.Boundary? && s.tasks[i].caller.handler != Background ==>
              var t := Next(s, ReadDone(i, Missing));
              var h := s.tasks[i].caller.handler;
              if s.core.protection == Blocked && s.core.current.Some? then
                t.decisions == s.decisions && Exchanged(t.tasks, s.tasks, i, [OnRecovery(Recheck(h))])
              else Decided(t, s, h, true) && t.core == s.core && Exchanged(t.tasks, s.tasks, i, [])
    ensures forall reply :: Possible(s, BeatDone(i, reply)) && (!Timely(s, s.tasks[i].lease) || s.tasks[i].controller in s.beats.aborted) ==>
              var t := Next(s, BeatDone(i, reply));
              t.core == s.core && !t.beats.running && t.decisions == s.decisions && Exchanged(t.tasks, s.tasks, i, [])
  {
    if !s.ended { Facts(steps, s); }
    hide Reaches;
  }
}
