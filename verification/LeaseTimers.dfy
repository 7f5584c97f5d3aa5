/**
 * When the expiry timer can be behind the latest grant: only while a heartbeat's promotion of that very
 * lease is being asked for.
 */
module LeaseTimers {
  import opened Basics
  import opened LeaseClient
  import opened LeaseSafety

  /** A promotion that a heartbeat asked for. */
  predicate Asking(t: Task, lease: nat) {
    (t.Read? || t.Promote?) && t.lease == lease && t.caller.Beater?
  }

  ghost predicate Asked(tasks: seq<Task>, lease: nat) {
    exists i :: 0 <= i < |tasks| && Asking(tasks[i], lease)
  }

  /** The controller a heartbeat's task carries. */
  function Controlling(t: Task): Option<nat> {
    if t.Beat? then Some(t.controller)
    else if (t.Read? || t.Promote?) && t.caller.Beater? then Some(t.caller.controller)
    else None
  }

  /** The timer is not the one of the latest grant. */
  predicate Behind(c: Core) {
    c.protection == Protected && CurrentOk(c) && c.current.Some? && c.expiry.Some?
    && c.expiry.value.deadline != Max(c.leases[c.current.value].expires, c.expiry.value.armedAt)
  }

  /** No heartbeat of the protected lease has been aborted. */
  ghost predicate BeatersOk(s: State) {
    && (forall id :: id in s.beats.aborted ==> id < s.beats.made)
    && (s.beats.controller.Some? ==> s.beats.controller.value < s.beats.made)
    && (s.core.protection == Protected ==>
          forall i :: 0 <= i < |s.tasks| && Controlling(s.tasks[i]).Some? && Some(s.tasks[i].lease) == s.core.current ==>
            Controlling(s.tasks[i]).value !in s.beats.aborted)
  }

  ghost predicate AskedIfBehind(s: State) {
    Behind(s.core) ==> Asked(s.tasks, s.core.current.value)
  }

  ghost predicate TimerInv(s: State) {
    BeatersOk(s) && AskedIfBehind(s)
  }

  // ---------------------------------------------------------------- steps that leave heartbeats alone

  /** Protection, if it is left, is the same as before, and no task of a heartbeat is added. */
  predicate Quiet(s: State, t: State) {
    && (t.core.protection == Protected ==>
          && s.core.protection == Protected && t.core.current == s.core.current && t.core.leases == s.core.leases
          && t.core.expiry == s.core.expiry && t.beats.aborted == s.beats.aborted)
    && t.beats.made == s.beats.made
    && (forall id :: id in t.beats.aborted ==> id in s.beats.aborted || s.beats.controller == Some(id))
    && (t.beats.controller == s.beats.controller || t.beats.controller == None)
    && s.tasks <= t.tasks && forall i :: |s.tasks| <= i < |t.tasks| ==> Controlling(t.tasks[i]).None?
  }

  lemma AskedLonger(tasks: seq<Task>, more: seq<Task>, lease: nat)
    requires Asked(tasks, lease) && tasks <= more
    ensures Asked(more, lease)
  {
    var i :| 0 <= i < |tasks| && Asking(tasks[i], lease);
    assert Asking(more[i], lease);
  }

  lemma QuietTimers(s: State, t: State)
    requires TimerInv(s) && Quiet(s, t)
    ensures TimerInv(t)
  {
    if Behind(t.core) {
      AskedLonger(s.tasks, t.tasks, t.core.current.value);
    }
    assert forall i :: 0 <= i < |s.tasks| ==> t.tasks[i] == s.tasks[i];
  }

  lemma RecoverQuiet(s: State, lease: nat)
    requires Inv(s, Any) && lease < |s.core.leases|
    ensures Quiet(s, RecoverOwnership(s, lease))
  {
  }

  lemma CheckQuiet(s: State, h: Handler)
    requires Inv(s, Any) && CurrentOk(s.core)
    ensures Quiet(s, Check(s, h))
  {
    if s.core.current.Some? { RecoverQuiet(s, s.core.current.value); }
  }

  lemma AfterBoundaryQuiet(s: State, h: Handler, ok: bool)
    requires Inv(s, Any) && CurrentOk(s.core)
    ensures Quiet(s, AfterBoundary(s, h, ok))
  {
    hide Check;
    CheckQuiet(s, h);
  }

  lemma StartBoundaryQuiet(s: State, h: Handler)
    requires Inv(s, Any) && CurrentOk(s.core)
    ensures Quiet(s, StartBoundary(s, h))
  {
    hide AfterBoundary;
    AfterBoundaryQuiet(s, h, true);
  }

  lemma HandleQuiet(s: State, h: Handler)
    requires Inv(s, Any) && CurrentOk(s.core)
    ensures Quiet(s, Handle(s, h)) && Quiet(s, LauncherPassed(s, h))
  {
    hide Check, StartBoundary;
    CheckQuiet(s, h);
    StartBoundaryQuiet(s, h);
  }

  lemma FailsQuiet(s: State, lease: nat, caller: Caller)
    requires Inv(s, Any) && lease < |s.core.leases|
    ensures Quiet(s, PromotionFails(s, lease, caller)) && PromotionFails(s, lease, caller).core.protection != Protected
  {
    RecoverQuiet(s, lease);
  }

  lemma ReadyQuiet(s: State, next: Then, ok: bool)
    requires Inv(s, Any) && CurrentOk(s.core)
    ensures Quiet(s, OnReady(s, next, ok))
  {
    hide AfterBoundary, LauncherPassed;
    match next
    case BeatEnds(controller) =>
    case BoundaryFails(h) => AfterBoundaryQuiet(s, h, s.core.protection == Protected && !HoldsReservation(s.core));
    case Recheck(h) =>
    case LauncherEnds(h) => HandleQuiet(s, h);
  }

  // ---------------------------------------------------------------- starting, waking, dropping

  lemma StartTimers(s: State, lease: Lease)
    requires Inv(s, Any) && TimerInv(s)
    ensures TimerInv(StartHeartbeat(s, lease))
  {
  }

  /** TimerInv looks at the lease, its timer, the controllers and the heartbeats' tasks only. */
  lemma SameTimers(s: State, t: State)
    requires TimerInv(s) && t.core.(now := s.core.now, recovery := s.core.recovery, released := s.core.released) == s.core
    requires t.beats == s.beats && t.tasks == s.tasks
    ensures TimerInv(t)
  {
  }

  lemma WakeTimers(s: State, ok: bool)
    requires TimerInv(s)
    ensures TimerInv(RecoveryEnds(s)) && TimerInv(LauncherGateEnds(s, ok))
  {
    WakeAsked(s, RecoveryEnds(s).tasks);
    WakeAsked(s, LauncherGateEnds(s, ok).tasks);
  }

  lemma WakeAsked(s: State, tasks: seq<Task>)
    requires TimerInv(s) && |tasks| == |s.tasks|
    requires forall i :: 0 <= i < |tasks| ==> tasks[i] == s.tasks[i] || (Controlling(tasks[i]).None? && Controlling(s.tasks[i]).None?)
    ensures TimerInv(s.(tasks := tasks))
  {
    if Behind(s.core) {
      var i :| 0 <= i < |s.tasks| && Asking(s.tasks[i], s.core.current.value);
      assert Asking(tasks[i], s.core.current.value);
    }
  }

  lemma DropBeaters(s: State, i: nat)
    requires BeatersOk(s) && i < |s.tasks|
    ensures BeatersOk(Drop(s, i))
  {
    var rest := Drop(s, i).tasks;
    assert forall k :: 0 <= k < |rest| ==> rest[k] == if k < i then s.tasks[k] else s.tasks[k + 1];
  }

  lemma DropTimers(s: State, i: nat)
    requires TimerInv(s) && i < |s.tasks|
    requires s.core.protection == Protected && s.core.current.Some? ==> !Asking(s.tasks[i], s.core.current.value)
    ensures TimerInv(Drop(s, i))
  {
    DropBeaters(s, i);
    if Behind(s.core) {
      var k :| 0 <= k < |s.tasks| && Asking(s.tasks[k], s.core.current.value);
      var rest := Drop(s, i).tasks;
      assert Asking(rest[if k < i then k else k - 1], s.core.current.value);
    }
  }

  /** Arming the timer for the current lease settles the matter. */
  lemma ArmedTimers(s: State, lease: nat)
    requires BeatersOk(s) && lease < |s.core.leases| && !Replaced(s.core, lease)
    ensures TimerInv(s.(core := Armed(s.core, lease)))
  {
  }

  lemma TailTimers(s: State, lease: nat, controller: nat)
    requires BeatersOk(s) && lease < |s.core.leases|
    requires Stale(s, lease, controller) ==> AskedIfBehind(s)
    ensures TimerInv(BeatTail(s, lease, controller))
  {
    hide Armed;
    if !Stale(s, lease, controller) { ArmedTimers(s, lease); }
    var t := if Stale(s, lease, controller) then s else s.(core := Armed(s.core, lease));
    QuietTimers(t, EndBeat(t, controller));
  }

  // ---------------------------------------------------------------- the replies

  lemma AskTimers(s: State, lease: nat, controller: nat, expires: int)
    requires BeatersOk(s) && lease < |s.core.leases| && !Stale(s, lease, controller)
    ensures TimerInv(Wait(s.(core := Extended(s.core, lease, expires)), Read(lease, Beater(controller))))
  {
    var t := Wait(s.(core := Extended(s.core, lease, expires)), Read(lease, Beater(controller)));
    assert Asking(t.tasks[|s.tasks|], lease);
  }

  lemma BeatTimers(s: State, lease: nat, controller: nat, reply: BeatReply)
    requires Inv(s, Any) && TimerInv(s) && lease < |s.core.leases|
    ensures TimerInv(OnBeatReply(s, lease, controller, reply))
  {
    hide Inv, TimerInv, BeatTail, RecoverOwnership;
    TimerParts(s);
    if Stale(s, lease, controller) {
      QuietTimers(s, EndBeat(s, controller));
    } else if reply.Granted? {
      if s.core.leases[lease].pending {
        AskTimers(s, lease, controller, reply.expires);
      } else {
        var t := s.(core := Extended(s.core, lease, reply.expires));
        TailTimers(t, lease, controller);
      }
    } else if reply.Lost? || s.core.now >= s.core.leases[lease].expires {
      RecoverQuiet(s, lease);
      QuietTimers(s, Wait(RecoverOwnership(s, lease), OnRecovery(BeatEnds(controller))));
    } else {
      QuietTimers(s, EndBeat(s, controller));
    }
  }

  lemma TimerParts(s: State)
    requires TimerInv(s)
    ensures BeatersOk(s) && AskedIfBehind(s)
  {
  }

  lemma CallerFresh(s: State, i: nat)
    requires BeatersOk(s) && i < |s.tasks| && Controlling(s.tasks[i]).Some? && !Replaced(s.core, s.tasks[i].lease)
    ensures !Stale(s, s.tasks[i].lease, Controlling(s.tasks[i]).value)
  {
  }

  /** The task leaves; unless it was the one the timer waits for, nothing changes. */
  lemma Leaving(s: State, i: nat)
    requires TimerInv(s) && i < |s.tasks| && (s.tasks[i].Read? || s.tasks[i].Promote?)
    ensures BeatersOk(Drop(s, i))
    ensures s.tasks[i].caller.Boundary? || Replaced(s.core, s.tasks[i].lease) ==> TimerInv(Drop(s, i))
    ensures s.tasks[i].caller.Beater? && !Replaced(s.core, s.tasks[i].lease) ==>
              !Stale(Drop(s, i), s.tasks[i].lease, s.tasks[i].caller.controller)
  {
    DropBeaters(s, i);
    if s.tasks[i].caller.Boundary? || Replaced(s.core, s.tasks[i].lease) {
      DropTimers(s, i);
    } else {
      CallerFresh(s, i);
    }
  }

  lemma SettleTimers(s: State, lease: nat, caller: Caller, ok: bool)
    requires Inv(s, Any) && lease < |s.core.leases| && CurrentOk(s.core) && BeatersOk(s)
    requires (caller.Beater? ==> Stale(s, lease, caller.controller)) ==> AskedIfBehind(s)
    ensures TimerInv(PromotionSettles(s, lease, caller, ok))
  {
    hide Inv, BeatTail, AfterBoundary;
    if caller.Beater? {
      TailTimers(s, lease, caller.controller);
    } else {
      AfterBoundaryQuiet(s, caller.handler, ok);
      QuietTimers(s, AfterBoundary(s, caller.handler, ok));
    }
  }

  lemma FailTimers(s: State, lease: nat, caller: Caller)
    requires Inv(s, Any) && lease < |s.core.leases| && BeatersOk(s)
    ensures TimerInv(PromotionFails(s, lease, caller))
  {
    FailsQuiet(s, lease, caller);
    var t := PromotionFails(s, lease, caller);
    assert forall i :: 0 <= i < |s.tasks| ==> t.tasks[i] == s.tasks[i];
  }

  lemma PassOn(s: State, i: nat)
    requires TimerInv(s) && i < |s.tasks| && s.tasks[i].Read?
    ensures TimerInv(Wait(Drop(s, i), Promote(s.tasks[i].lease, s.tasks[i].caller)))
  {
    Leaving(s, i);
    var t := Wait(Drop(s, i), Promote(s.tasks[i].lease, s.tasks[i].caller));
    var n := |t.tasks| - 1;
    assert t.tasks[n] == Promote(s.tasks[i].lease, s.tasks[i].caller);
    if Behind(s.core) {
      if Asking(s.tasks[i], s.core.current.value) {
        assert Asking(t.tasks[n], s.core.current.value);
      } else {
        DropTimers(s, i);
        AskedLonger(Drop(s, i).tasks, t.tasks, s.core.current.value);
      }
    }
  }

  lemma ReadTimers(s: State, i: nat, found: Found)
    requires Inv(s, Any) && TimerInv(s) && CurrentOk(s.core) && i < |s.tasks| && s.tasks[i].Read? && s.tasks[i].lease < |s.core.leases|
    ensures TimerInv(OnRead(Drop(s, i), s.tasks[i].lease, s.tasks[i].caller, found))
  {
    hide Inv, TimerInv, PromotionSettles, PromotionFails, BeatersOk, Wait;
    Leaving(s, i);
    DropInv(s, i, Any);
    var d, lease, caller := Drop(s, i), s.tasks[i].lease, s.tasks[i].caller;
    if found == Missing {
      if caller.Boundary? || Replaced(s.core, lease) { TimerParts(d); }
      SettleTimers(d, lease, caller, true);
    } else if found == Same {
      PassOn(s, i);
    } else {
      FailTimers(d, lease, caller);
    }
  }

  lemma ConfirmedTimers(s: State, lease: nat, expires: int)
    requires BeatersOk(s) && lease < |s.core.leases| && !Replaced(s.core, lease)
    ensures TimerInv(s.(core := Confirmed(s.core, lease, expires)))
  {
  }

  lemma PromotedTimers(s: State, i: nat, granted: Option<int>)
    requires Inv(s, Any) && TimerInv(s) && CurrentOk(s.core) && i < |s.tasks| && s.tasks[i].Promote? && s.tasks[i].lease < |s.core.leases|
    ensures TimerInv(OnPromoted(Drop(s, i), s.tasks[i].lease, s.tasks[i].caller, granted))
  {
    hide Inv, TimerInv, PromotionSettles, PromotionFails, BeatersOk, Confirmed;
    Leaving(s, i);
    DropInv(s, i, Any);
    var d, lease, caller := Drop(s, i), s.tasks[i].lease, s.tasks[i].caller;
    if granted.None? {
      FailTimers(d, lease, caller);
    } else if Replaced(s.core, lease) {
      TimerParts(d);
      SettleTimers(d, lease, caller, false);
    } else {
      ConfirmInv(d, lease, granted.value, Any);
      ConfirmedTimers(d, lease, granted.value);
      var e := d.(core := Confirmed(d.core, lease, granted.value));
      TimerParts(e);
      SettleTimers(e, lease, caller, true);
    }
  }

  // ---------------------------------------------------------------- every step

  lemma TickTimers(s: State)
    requires Inv(s, Any) && TimerInv(s) && s.core.heartbeat.Some? && s.core.heartbeat.value < |s.core.leases|
    ensures TimerInv(OnHeartbeatTick(s))
  {
    var t := OnHeartbeatTick(s);
    if Behind(s.core) { AskedLonger(s.tasks, t.tasks, s.core.current.value); }
  }

  lemma LauncherTimers(s: State, answer: Answer)
    requires Inv(s, Any) && TimerInv(s)
    ensures TimerInv(OnLauncherAnswer(s, answer))
  {
    hide TimerInv;
    if answer.Claimed? {
      StartTimers(s, Lease(true, answer.expires));
      WakeTimers(StartHeartbeat(s, Lease(true, answer.expires)), true);
    } else {
      WakeTimers(s, false);
    }
  }

  lemma RecoveryTimers(s: State, answer: Answer)
    requires Inv(s, Any) && TimerInv(s) && AtGate(s.core)
    ensures TimerInv(OnRecoveryAnswer(s, answer))
  {
    hide TimerInv;
    match answer
    case Claimed(expires) =>
      var lease := Lease(s.core.recovery.value.phase.mode == Reserving, expires);
      StartTimers(s, lease);
      WakeTimers(StartHeartbeat(s, lease), true);
    case Continue => SameTimers(s, OnRecoveryAnswer(s, answer));
    case Cancelled => WakeTimers(s, true);
  }

  lemma UnprotectedTimers(s: State)
    requires Inv(s, Any) && TimerInv(s)
    ensures TimerInv(SetUnprotected(s))
  {
    QuietTimers(s, SetUnprotected(s));
  }

  lemma BeginTimers(s: State, step: Step)
    requires Inv(s, Any) && TimerInv(s) && Possible(s, step) && (step.SessionStart? || step.StartRead? || step.StartAnswer?)
    ensures TimerInv(Next(s, step))
  {
    hide TimerInv;
    var t := Next(s, step);
    if (step.SessionStart? && step.start.Adopt?) || (step.StartAnswer? && step.answer.Claimed?) {
      var lease := Lease(false, if step.SessionStart? then step.start.expires else step.answer.expires);
      StartTimers(s, lease);
      SameTimers(StartHeartbeat(s, lease), t);
    } else {
      QuietTimers(s, t);
    }
  }

  lemma NextTimers(s: State, step: Step)
    requires Inv(s, Any) && TimerInv(s) && Possible(s, step) && !step.Shutdown?
    ensures TimerInv(Next(s, step))
  {
    hide Inv, TimerInv, Handle, OnStart, OnStartAnswer, OnLauncherAnswer, OnHeartbeatTick, OnExpiry, OnBeatReply, OnRead, OnPromoted,
      OnRecoveryAnswer, OnReady, RecoveryEnds, SetUnprotected;
    match step
    case Tick(to) => SameTimers(s, Next(s, step));
    case SessionStart(_) => BeginTimers(s, step);
    case StartRead(_) => BeginTimers(s, step);
    case StartAnswer(_) => BeginTimers(s, step);
    case Event(h) => HandleQuiet(s, h); QuietTimers(s, Handle(s, h));
    case LauncherAnswer(answer) => LauncherTimers(s, answer);
    case HeartbeatTick => TickTimers(s);
    case ExpiryFires => ExpiryQuiet(s); QuietTimers(s, OnExpiry(s));
    case BeatDone(i, reply) => DropTimers(s, i); DropInv(s, i, Any); BeatTimers(Drop(s, i), s.tasks[i].lease, s.tasks[i].controller, reply);
    case ReadDone(i, found) => ReadTimers(s, i, found);
    case PromoteDone(i, granted) => PromotedTimers(s, i, granted);
    case RecoveryRead(found) => if found == Different { WakeTimers(s, true); } else { SameTimers(s, Next(s, step)); }
    case RecoveryAnswer(answer) => RecoveryTimers(s, answer);
    case RecoveryReleased => UnprotectedTimers(s); WakeTimers(SetUnprotected(s), true);
    case Resume(i) =>
      DropTimers(s, i);
      DropInv(s, i, Any);
      ReadyQuiet(Drop(s, i), s.tasks[i].next, s.tasks[i].ok);
      QuietTimers(Drop(s, i), OnReady(Drop(s, i), s.tasks[i].next, s.tasks[i].ok));
  }

  lemma ExpiryQuiet(s: State)
    requires Inv(s, Any) && s.core.expiry.Some? && s.core.expiry.value.lease < |s.core.leases|
    ensures Quiet(s, OnExpiry(s))
  {
    ExpiryInv(s, Any);
  }

  lemma InitTimers()
    ensures TimerInv(Init)
  {
  }

  /** When the timer fires before the latest grant has run out, a promotion of the lease is being asked for. */
  lemma BehindWhileAsked(s: State)
    requires Inv(s, Any) && TimerInv(s) && Possible(s, ExpiryFires)
    ensures s.core.protection == Protected && s.core.current.Some?
    ensures s.core.now >= s.core.leases[s.core.current.value].expires || Asked(s.tasks, s.core.current.value)
  {
  }
}
