/**
 * What every run of the lease client keeps, and what it keeps besides when promotions do not fail too late:
 * each rule names a promise and the failures that would break it.
 */
module LeaseSafety {
  import opened Basics
  import opened LeaseClient

  // ---------------------------------------------------------------- the invariant

  /**
   * The timers run exactly while protected, for the current lease, and the deadline is not behind.  For a
   * reservation a grant may be recorded before the timer is armed for it.
   */
  predicate TimersOk(c: Core)
    requires CurrentOk(c)
  {
    && (c.expiry.Some? <==> c.protection == Protected)
    && (c.heartbeat.Some? <==> c.protection == Protected)
    && (c.protection == Protected ==>
          && c.current.Some? && c.heartbeat == c.current && c.current.value !in c.released
          && var t := c.expiry.value;
             && t.lease == c.current.value && t.armedAt <= c.now <= t.deadline
             && t.deadline <= Max(c.leases[t.lease].expires, t.armedAt)
             && (!c.leases[t.lease].pending ==> t.deadline == Max(c.leases[t.lease].expires, t.armedAt)))
  }

  predicate LeasesOk(c: Core) {
    && CurrentOk(c)
    && (c.recovery.Some? ==> c.recovery.value.lease < |c.leases|)
    && (forall id :: id in c.released ==> id < |c.leases|)
  }

  predicate StatesOk(c: Core)
    requires LeasesOk(c)
  {
    && (c.recovery.Some? ==> c.protection == Blocked)
    && (MayEndUnprotected(c) ==> !c.leases[c.recovery.value.lease].pending)
    && (c.protection == Unprotected ==> c.current.None?)
    && (c.protection == Launcher ==> c.leases == [])
  }

  /**
   * Calm: what is blocked has a lease to recover, so that no handler passes it by.
   * Timely: recovery is for the current lease.
   * Sound: a recovery that may end unprotected does not cost a reservation.
   */
  datatype Rule = Any | Calm | Timely | Sound

  predicate Attended(c: Core) {
    c.protection == Blocked && c.leases != [] ==> c.current.Some?
  }

  predicate RecoversCurrent(c: Core) {
    c.recovery.Some? ==> c.current == Some(c.recovery.value.lease)
  }

  predicate MayEndUnprotected(c: Core) {
    c.recovery.Some? && (c.recovery.value.phase == Gate(Recovering) || c.recovery.value.phase == Releasing)
  }

  predicate SparesReservations(c: Core)
    requires CurrentOk(c)
  {
    MayEndUnprotected(c) ==> !HoldsReservation(c)
  }

  predicate Kept(c: Core, rule: Rule)
    requires CurrentOk(c)
  {
    match rule
    case Any => true
    case Calm => Attended(c)
    case Timely => RecoversCurrent(c)
    case Sound => SparesReservations(c)
  }

  /** A promotion of this lease may fail now without breaking the rule. */
  predicate InTime(c: Core, lease: nat, rule: Rule)
    requires CurrentOk(c) && lease < |c.leases|
  {
    c.recovery.Some? ||
    match rule
    case Any => true
    case Calm => c.current.Some?
    case Timely => c.current == Some(lease)
    case Sound => c.leases[lease].pending || !HoldsReservation(c)
  }

  predicate CoreInv(c: Core, rule: Rule) {
    LeasesOk(c) && StatesOk(c) && TimersOk(c) && Kept(c, rule)
  }

  predicate StartOk(startup: Startup, gate: bool, protection: Protection, leases: seq<Lease>) {
    && (startup != Over ==> leases == [] && protection == Blocked && !gate)
    && (gate ==> protection == Launcher)
  }

  ghost predicate TasksOk(tasks: seq<Task>, c: Core) {
    forall i :: 0 <= i < |tasks| ==> TaskOk(tasks[i], c)
  }

  ghost predicate Guarded(decisions: seq<Decision>) {
    forall i :: 0 <= i < |decisions| && decisions[i].through && decisions[i].hadLease ==>
      decisions[i].protection == Protected || decisions[i].protection == Unprotected
  }

  ghost predicate Inv(s: State, rule: Rule) {
    && CoreInv(s.core, rule) && StartOk(s.startup, s.launcherGate, s.core.protection, s.core.leases)
    && TasksOk(s.tasks, s.core) && (rule == Calm ==> Guarded(s.decisions))
  }

  // ---------------------------------------------------------------- lease and timers

  lemma StartedInv(c: Core, lease: Lease, rule: Rule)
    requires CoreInv(c, rule)
    ensures CoreInv(Started(c, lease).(recovery := None), rule)
    ensures |Started(c, lease).leases| == |c.leases| + 1 && Started(c, lease).protection == Protected
  {
  }

  lemma UnprotectedInv(c: Core, rule: Rule)
    requires CoreInv(c, rule)
    ensures CoreInv(WithoutProtection(c).(recovery := None), rule)
  {
  }

  lemma RecoveredInv(c: Core, lease: nat, rule: Rule)
    requires CoreInv(c, rule) && lease < |c.leases|
    requires InTime(c, lease, rule)
    ensures CoreInv(Recovered(c, lease), rule) && Recovered(c, lease).protection == Blocked
  {
  }

  lemma ArmedInv(c: Core, rule: Rule)
    requires CoreInv(c, rule) && c.protection == Protected
    ensures CoreInv(Armed(c, c.current.value), rule)
  {
  }

  lemma ExtendedInv(c: Core, expires: int, rule: Rule)
    requires CoreInv(c, rule) && c.protection == Protected && expires >= c.leases[c.current.value].expires
    ensures c.leases[c.current.value].pending ==> CoreInv(Extended(c, c.current.value, expires), rule)
    ensures CoreInv(Armed(Extended(c, c.current.value, expires), c.current.value), rule)
  {
  }

  lemma ConfirmedInv(c: Core, expires: int, rule: Rule)
    requires CoreInv(c, rule) && c.protection == Protected
    ensures CoreInv(Confirmed(c, c.current.value, expires), rule)
  {
  }

  lemma NoLeaseNoRecovery(c: Core, rule: Rule)
    requires CoreInv(c, rule) && c.leases == []
    ensures c.recovery == None && c.current == None
  {
  }

  lemma RecoveryOverInv(c: Core, rule: Rule)
    requires CoreInv(c, rule)
    ensures CoreInv(c.(recovery := None), rule)
  {
  }

  // ---------------------------------------------------------------- whole states

  lemma TasksStay(tasks: seq<Task>, c: Core, d: Core)
    requires TasksOk(tasks, c) && |c.leases| <= |d.leases|
    ensures TasksOk(tasks, d)
  {
  }

  /** Only the core matters, and the number of leases. */
  lemma CoreStep(s: State, t: State, rule: Rule)
    requires Inv(s, rule) && CoreInv(t.core, rule)
    requires |s.core.leases| <= |t.core.leases| && t.tasks == s.tasks && t.decisions == s.decisions
    requires StartOk(t.startup, t.launcherGate, t.core.protection, t.core.leases)
    ensures Inv(t, rule)
  {
    TasksStay(s.tasks, s.core, t.core);
  }

  lemma WaitInv(s: State, t: Task, rule: Rule)
    requires Inv(s, rule) && TaskOk(t, s.core)
    ensures Inv(Wait(s, t), rule)
  {
  }

  lemma DropInv(s: State, i: nat, rule: Rule)
    requires Inv(s, rule) && i < |s.tasks|
    ensures Inv(Drop(s, i), rule)
  {
    var rest := s.tasks[..i] + s.tasks[i + 1..];
    assert forall k :: 0 <= k < |rest| ==> rest[k] == if k < i then s.tasks[k] else s.tasks[k + 1];
  }

  lemma WokenInv(s: State, rule: Rule, ok: bool)
    requires Inv(s, rule)
    ensures Inv(RecoveryEnds(s), rule) && Inv(LauncherGateEnds(s, ok), rule)
  {
    RecoveryOverInv(s.core, rule);
  }

  lemma RecoverInv(s: State, lease: nat, rule: Rule)
    requires Inv(s, rule) && lease < |s.core.leases|
    requires CurrentOk(s.core) && InTime(s.core, lease, rule)
    ensures Inv(RecoverOwnership(s, lease), rule)
    ensures RecoverOwnership(s, lease).core.leases == s.core.leases
  {
    if s.core.recovery.None? {
      RecoveredInv(s.core, lease, rule);
      CoreStep(s, RecoverOwnership(s, lease), rule);
    }
  }

  /** Nothing is let through with a lease in any other state; this is where an unattended block would leak. */
  lemma DecideInv(s: State, h: Handler, through: bool, rule: Rule)
    requires Inv(s, rule)
    requires rule == Calm && through && s.core.leases != [] ==> s.core.protection == Protected || s.core.protection == Unprotected
    ensures Inv(Decide(s, h, through), rule)
  {
  }

  lemma CheckInv(s: State, h: Handler, rule: Rule)
    requires Inv(s, rule)
    ensures Inv(Check(s, h), rule)
  {
    hide Inv;
    InvFacts(s, rule);
    if s.core.protection != Blocked || s.core.current.None? {
      DecideInv(s, h, true, rule);
    } else {
      RecoverInv(s, s.core.current.value, rule);
      WaitInv(RecoverOwnership(s, s.core.current.value), OnRecovery(Recheck(h)), rule);
    }
  }

  lemma InvFacts(s: State, rule: Rule)
    requires Inv(s, rule)
    ensures CurrentOk(s.core)
    ensures s.core.leases != [] ==> s.core.protection != Launcher && s.startup == Over && !s.launcherGate
    ensures rule == Calm && s.core.leases != [] && s.core.protection == Blocked ==> s.core.current.Some?
    ensures s.core.current.Some? ==> s.core.leases != []
    ensures s.core.leases == [] ==> s.core.recovery == None && s.core.current == None && s.core.protection != Protected
  {
  }

  lemma AfterBoundaryInv(s: State, h: Handler, ok: bool, rule: Rule)
    requires Inv(s, rule) && CurrentOk(s.core)
    ensures Inv(AfterBoundary(s, h, ok), rule)
  {
    hide Inv, Check, Decide, CurrentOk;
    if h != Background {
      if ok { CheckInv(s, h, rule); } else { DecideInv(s, h, false, rule); }
    }
  }

  lemma StartBoundaryInv(s: State, h: Handler, rule: Rule)
    requires Inv(s, rule) && CurrentOk(s.core)
    ensures Inv(StartBoundary(s, h), rule)
  {
    hide Inv, AfterBoundary;
    if HoldsReservation(s.core) && s.core.protection == Protected {
      WaitInv(s, Read(s.core.current.value, Boundary(h)), rule);
    } else {
      AfterBoundaryInv(s, h, true, rule);
    }
  }

  lemma LauncherPassedInv(s: State, h: Handler, rule: Rule)
    requires Inv(s, rule) && CurrentOk(s.core)
    ensures Inv(LauncherPassed(s, h), rule)
  {
    hide Inv, Check, StartBoundary, CurrentOk;
    if h == Input { CheckInv(s, h, rule); } else { StartBoundaryInv(s, h, rule); }
  }

  lemma HandleInv(s: State, h: Handler, rule: Rule)
    requires Inv(s, rule) && CurrentOk(s.core)
    ensures Inv(Handle(s, h), rule)
  {
    if h == Background || h == ToolCall {
      StartBoundaryInv(s, h, rule);
    } else if s.core.protection == Launcher {
      var t := s.(launcherGate := true);
      CoreStep(s, t, rule);
      WaitInv(t, OnLauncher(LauncherEnds(h)), rule);
    } else {
      LauncherPassedInv(s, h, rule);
    }
  }

  lemma EndBeatInv(s: State, controller: nat, rule: Rule)
    requires Inv(s, rule)
    ensures Inv(EndBeat(s, controller), rule)
  {
  }

  lemma ArmInv(s: State, lease: nat, rule: Rule)
    requires Inv(s, rule) && lease < |s.core.leases| && !Replaced(s.core, lease)
    ensures Inv(s.(core := Armed(s.core, lease)), rule)
  {
    ArmedInv(s.core, rule);
    CoreStep(s, s.(core := Armed(s.core, lease)), rule);
  }

  lemma BeatTailInv(s: State, lease: nat, controller: nat, rule: Rule)
    requires Inv(s, rule) && lease < |s.core.leases|
    ensures Inv(BeatTail(s, lease, controller), rule)
  {
    hide Inv, Armed, EndBeat;
    if Stale(s, lease, controller) {
      EndBeatInv(s, controller, rule);
    } else {
      ArmInv(s, lease, rule);
      EndBeatInv(s.(core := Armed(s.core, lease)), controller, rule);
    }
  }

  lemma GrantInv(s: State, lease: nat, expires: int, rule: Rule)
    requires Inv(s, rule) && lease < |s.core.leases| && !Replaced(s.core, lease) && expires >= s.core.leases[lease].expires
    ensures s.core.leases[lease].pending ==> Inv(s.(core := Extended(s.core, lease, expires)), rule)
    ensures Inv(s.(core := Armed(Extended(s.core, lease, expires), lease)), rule)
  {
    ExtendedInv(s.core, expires, rule);
    if s.core.leases[lease].pending {
      CoreStep(s, s.(core := Extended(s.core, lease, expires)), rule);
    }
    CoreStep(s, s.(core := Armed(Extended(s.core, lease, expires), lease)), rule);
  }

  lemma GrantTail(s: State, lease: nat, expires: int, controller: nat)
    requires lease < |s.core.leases| && !Stale(s, lease, controller)
    ensures BeatTail(s.(core := Extended(s.core, lease, expires)), lease, controller)
         == EndBeat(s.(core := Armed(Extended(s.core, lease, expires), lease)), controller)
  {
  }

  lemma BeatReplyInv(s: State, lease: nat, controller: nat, reply: BeatReply, rule: Rule)
    requires Inv(s, rule) && lease < |s.core.leases|
    requires reply.Granted? ==> reply.expires >= s.core.leases[lease].expires
    ensures Inv(OnBeatReply(s, lease, controller, reply), rule)
  {
    hide Inv, EndBeat, RecoverOwnership, BeatTail, Armed;
    if Stale(s, lease, controller) {
      EndBeatInv(s, controller, rule);
    } else if reply.Granted? {
      GrantInv(s, lease, reply.expires, rule);
      var t := s.(core := Extended(s.core, lease, reply.expires));
      if s.core.leases[lease].pending {
        WaitInv(t, Read(lease, Beater(controller)), rule);
      } else {
        GrantTail(s, lease, reply.expires, controller);
        EndBeatInv(s.(core := Armed(Extended(s.core, lease, reply.expires), lease)), controller, rule);
      }
    } else if reply.Lost? || s.core.now >= s.core.leases[lease].expires {
      RecoverInv(s, lease, rule);
      WaitInv(RecoverOwnership(s, lease), OnRecovery(BeatEnds(controller)), rule);
    } else {
      EndBeatInv(s, controller, rule);
    }
  }

  lemma PromotionFailsInv(s: State, lease: nat, caller: Caller, rule: Rule)
    requires Inv(s, rule) && lease < |s.core.leases| && CurrentOk(s.core) && InTime(s.core, lease, rule)
    ensures Inv(PromotionFails(s, lease, caller), rule)
  {
    hide Inv, RecoverOwnership;
    RecoverInv(s, lease, rule);
    WaitInv(RecoverOwnership(s, lease), OnRecovery(if caller.Beater? then BeatEnds(caller.controller) else BoundaryFails(caller.handler)), rule);
  }

  lemma PromotionSettlesInv(s: State, lease: nat, caller: Caller, ok: bool, rule: Rule)
    requires Inv(s, rule) && lease < |s.core.leases| && CurrentOk(s.core)
    ensures Inv(PromotionSettles(s, lease, caller, ok), rule)
  {
    hide Inv, BeatTail, AfterBoundary;
    if caller.Beater? {
      BeatTailInv(s, lease, caller.controller, rule);
    } else {
      AfterBoundaryInv(s, caller.handler, ok, rule);
    }
  }

  lemma ReadInv(s: State, lease: nat, caller: Caller, found: Found, rule: Rule)
    requires Inv(s, rule) && lease < |s.core.leases| && CurrentOk(s.core)
    requires found == Different || found == Unreadable ==> InTime(s.core, lease, rule)
    ensures Inv(OnRead(s, lease, caller, found), rule)
  {
    hide Inv, PromotionSettles, PromotionFails;
    if found == Missing {
      PromotionSettlesInv(s, lease, caller, true, rule);
    } else if found == Same {
      WaitInv(s, Promote(lease, caller), rule);
    } else {
      PromotionFailsInv(s, lease, caller, rule);
    }
  }

  lemma ConfirmInv(s: State, lease: nat, expires: int, rule: Rule)
    requires Inv(s, rule) && lease < |s.core.leases| && !Replaced(s.core, lease)
    ensures Inv(s.(core := Confirmed(s.core, lease, expires)), rule)
    ensures CurrentOk(Confirmed(s.core, lease, expires)) && |Confirmed(s.core, lease, expires).leases| == |s.core.leases|
  {
    ConfirmedInv(s.core, expires, rule);
    CoreStep(s, s.(core := Confirmed(s.core, lease, expires)), rule);
  }

  lemma PromotedInv(s: State, lease: nat, caller: Caller, reply: Option<int>, rule: Rule)
    requires Inv(s, rule) && lease < |s.core.leases| && CurrentOk(s.core)
    requires reply.None? ==> InTime(s.core, lease, rule)
    ensures Inv(OnPromoted(s, lease, caller, reply), rule)
  {
    hide Inv, PromotionSettles, PromotionFails, Confirmed;
    if reply.None? {
      PromotionFailsInv(s, lease, caller, rule);
    } else if Replaced(s.core, lease) {
      PromotionSettlesInv(s, lease, caller, false, rule);
    } else {
      ConfirmInv(s, lease, reply.value, rule);
      PromotionSettlesInv(s.(core := Confirmed(s.core, lease, reply.value)), lease, caller, true, rule);
    }
  }

  lemma ReadyInv(s: State, next: Then, ok: bool, rule: Rule)
    requires Inv(s, rule) && CurrentOk(s.core)
    ensures Inv(OnReady(s, next, ok), rule)
  {
    hide Inv, EndBeat, AfterBoundary, Decide, LauncherPassed;
    InvFacts(s, rule);
    match next
    case BeatEnds(controller) => EndBeatInv(s, controller, rule);
    case BoundaryFails(h) => AfterBoundaryInv(s, h, s.core.protection == Protected && !HoldsReservation(s.core), rule);
    case Recheck(h) => DecideInv(s, h, s.core.protection != Blocked, rule);
    case LauncherEnds(h) => if ok { LauncherPassedInv(s, h, rule); } else { DecideInv(s, h, false, rule); }
  }

  // ---------------------------------------------------------------- the remaining steps

  lemma BeginInv(s: State, lease: Lease, startup: Startup, rule: Rule)
    requires Inv(s, rule) && s.core.leases == [] && startup == Over
    ensures Inv(StartHeartbeat(s, lease).(startup := startup, launcherGate := false), rule)
  {
    NoLeaseNoRecovery(s.core, rule);
    StartedInv(s.core, lease, rule);
    CoreStep(s, StartHeartbeat(s, lease).(startup := startup, launcherGate := false), rule);
  }

  lemma ForgoInv(s: State, rule: Rule)
    requires Inv(s, rule) && s.core.leases == [] && s.core.protection == Blocked
    ensures Inv(SetUnprotected(s).(startup := Over), rule)
  {
    NoLeaseNoRecovery(s.core, rule);
    UnprotectedInv(s.core, rule);
    CoreStep(s, SetUnprotected(s).(startup := Over), rule);
  }

  lemma StartInv(s: State, step: Step, rule: Rule)
    requires Inv(s, rule) && Possible(s, step) && (step.SessionStart? || step.StartRead? || step.StartAnswer?)
    ensures Inv(Next(s, step), rule)
  {
    assert s.core.leases == [] && s.core.protection == Blocked && !s.launcherGate;
    if (step.SessionStart? && step.start.Adopt?) || (step.StartAnswer? && step.answer.Claimed?) {
      var lease := if step.SessionStart? then Lease(false, step.start.expires) else Lease(false, step.answer.expires);
      BeginInv(s, lease, Over, rule);
    } else if (step.SessionStart? && step.start.Unguarded?) || (step.StartAnswer? && step.answer.Continue?) {
      ForgoInv(s, rule);
    } else {
      CoreStep(s, Next(s, step), rule);
    }
  }

  lemma LauncherAnswerInv(s: State, answer: Answer, rule: Rule)
    requires Inv(s, rule) && s.launcherGate
    ensures Inv(OnLauncherAnswer(s, answer), rule)
  {
    if answer.Claimed? {
      var t := StartHeartbeat(s, Lease(true, answer.expires)).(startup := s.startup, launcherGate := false);
      BeginInv(s, Lease(true, answer.expires), s.startup, rule);
      WokenInv(t, rule, true);
      assert OnLauncherAnswer(s, answer) == LauncherGateEnds(t, true);
    } else {
      WokenInv(s, rule, false);
    }
  }

  lemma HeartbeatTickInv(s: State, rule: Rule)
    requires Inv(s, rule) && s.core.heartbeat.Some? && s.core.heartbeat.value < |s.core.leases|
    ensures Inv(OnHeartbeatTick(s), rule)
  {
    var lease := s.core.heartbeat.value;
    if !s.beats.running && !Replaced(s.core, lease) {
      var t := s.(beats := s.beats.(running := true, controller := Some(s.beats.made), made := s.beats.made + 1));
      CoreStep(s, t, rule);
      WaitInv(t, Beat(lease, s.beats.made), rule);
    }
  }

  /** When the timer fires the lease is still current: blocking is never late. */
  lemma ExpiryInv(s: State, rule: Rule)
    requires Inv(s, rule) && s.core.expiry.Some? && s.core.expiry.value.lease < |s.core.leases|
    ensures Inv(OnExpiry(s), rule) && OnExpiry(s).core.protection == Blocked
    ensures OnExpiry(s).core.recovery.Some?
  {
    var lease := s.core.expiry.value.lease;
    assert !Replaced(s.core, lease) && s.core.recovery.None?;
    RecoveredInv(s.core, lease, rule);
    assert OnExpiry(s).core == Recovered(s.core, lease);
    CoreStep(s, OnExpiry(s), rule);
  }

  lemma PhaseInv(s: State, phase: Phase, rule: Rule)
    requires Inv(s, rule) && s.core.recovery.Some? && phase != Gate(Recovering) && phase != Releasing
    ensures Inv(AtPhase(s, phase), rule)
  {
    CoreStep(s, AtPhase(s, phase), rule);
  }

  lemma RecoveryReadInv(s: State, found: Found, rule: Rule)
    requires Inv(s, rule) && s.core.recovery.Some?
    ensures Inv(OnRecoveryRead(s, found), rule)
  {
    hide Inv, AtPhase, RecoveryEnds;
    if found == Different {
      WokenInv(s, rule, true);
    } else {
      PhaseInv(s, if found == Missing then Gate(Reserving) else Gate(Promoting), rule);
    }
  }

  lemma RecoveryClaimInv(s: State, lease: Lease, rule: Rule)
    requires Inv(s, rule) && s.core.recovery.Some?
    ensures Inv(RecoveryEnds(StartHeartbeat(s, lease)), rule)
  {
    InvFacts(s, rule);
    StartedInv(s.core, lease, rule);
    var t := StartHeartbeat(s, lease).(core := Started(s.core, lease).(recovery := None));
    CoreStep(s, t, rule);
    WokenInv(t, rule, true);
    assert RecoveryEnds(t) == RecoveryEnds(StartHeartbeat(s, lease));
  }

  lemma RecoveryForgoInv(s: State, rule: Rule)
    requires Inv(s, rule) && s.core.recovery.Some?
    ensures Inv(RecoveryEnds(SetUnprotected(s)), rule)
  {
    InvFacts(s, rule);
    UnprotectedInv(s.core, rule);
    var t := SetUnprotected(s).(core := WithoutProtection(s.core).(recovery := None));
    CoreStep(s, t, rule);
    WokenInv(t, rule, true);
    assert RecoveryEnds(t) == RecoveryEnds(SetUnprotected(s));
  }

  lemma RecoveryAnswerInv(s: State, answer: Answer, rule: Rule)
    requires Inv(s, rule) && AtGate(s.core) && (answer == Continue ==> s.core.recovery.value.phase.mode == Recovering)
    ensures Inv(OnRecoveryAnswer(s, answer), rule)
  {
    match answer
    case Claimed(expires) => RecoveryClaimInv(s, Lease(s.core.recovery.value.phase.mode == Reserving, expires), rule);
    case Continue => CoreStep(s, OnRecoveryAnswer(s, answer), rule);
    case Cancelled => WokenInv(s, rule, true);
  }

  lemma TickInv(s: State, to: int, rule: Rule)
    requires Inv(s, rule) && Possible(s, Tick(to))
    ensures Inv(Next(s, Tick(to)), rule)
  {
    CoreStep(s, Next(s, Tick(to)), rule);
  }

  // ---------------------------------------------------------------- every step

  /** The reply makes promoteIfMaterialized throw. */
  predicate FailsPromotion(step: Step) {
    (step.ReadDone? && (step.found == Different || step.found == Unreadable)) || (step.PromoteDone? && step.granted.None?)
  }

  /** The step is no failure of a promotion, or one that the rule bears. */
  predicate Obeys(s: State, step: Step, rule: Rule)
    requires Possible(s, step)
  {
    match step
    case ReadDone(i, _) => FailsPromotion(step) ==> InTime(s.core, s.tasks[i].lease, rule)
    case PromoteDone(i, _) => FailsPromotion(step) ==> InTime(s.core, s.tasks[i].lease, rule)
    case _ => true
  }

  lemma NextInv(s: State, step: Step, rule: Rule)
    requires Inv(s, rule) && Possible(s, step) && Obeys(s, step, rule) && !step.Shutdown?
    ensures Inv(Next(s, step), rule)
  {
    hide Inv, Handle, OnStart, OnStartAnswer, OnLauncherAnswer, OnHeartbeatTick, OnExpiry, OnBeatReply, OnRead, OnPromoted,
      OnRecoveryRead, OnRecoveryAnswer, OnReady, RecoveryEnds, SetUnprotected;
    match step
    case Tick(to) => TickInv(s, to, rule);
    case SessionStart(_) => StartInv(s, step, rule);
    case StartRead(_) => StartInv(s, step, rule);
    case StartAnswer(_) => StartInv(s, step, rule);
    case Event(h) => HandleInv(s, h, rule);
    case LauncherAnswer(answer) => LauncherAnswerInv(s, answer, rule);
    case HeartbeatTick => HeartbeatTickInv(s, rule);
    case ExpiryFires => ExpiryInv(s, rule);
    case BeatDone(i, reply) => DropInv(s, i, rule); BeatReplyInv(Drop(s, i), s.tasks[i].lease, s.tasks[i].controller, reply, rule);
    case ReadDone(i, found) => DropInv(s, i, rule); ReadInv(Drop(s, i), s.tasks[i].lease, s.tasks[i].caller, found, rule);
    case PromoteDone(i, granted) => DropInv(s, i, rule); PromotedInv(Drop(s, i), s.tasks[i].lease, s.tasks[i].caller, granted, rule);
    case RecoveryRead(found) => RecoveryReadInv(s, found, rule);
    case RecoveryAnswer(answer) => RecoveryAnswerInv(s, answer, rule);
    case RecoveryReleased => RecoveryForgoInv(s, rule);
    case Resume(i) => DropInv(s, i, rule); ReadyInv(Drop(s, i), s.tasks[i].next, s.tasks[i].ok, rule);
  }
}
