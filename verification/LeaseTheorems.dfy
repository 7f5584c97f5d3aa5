/** What the lease client guarantees, and the one kind of reply that breaks it. */
module LeaseTheorems {
  import opened Basics
  import opened LeaseClient
  import opened LeaseSafety
  import opened LeaseTimers

  // ---------------------------------------------------------------- runs

  /** A run in which every failure of a promotion is one the rule bears. */
  ghost predicate Obeying(s: State, steps: seq<Step>, rule: Rule)
    decreases |steps|
  {
    steps == [] || (Possible(s, steps[0]) && Obeys(s, steps[0], rule) && Obeying(Next(s, steps[0]), steps[1..], rule))
  }

  lemma InitInv(rule: Rule)
    ensures Inv(Init, rule)
  {
  }

  lemma EndedStays(s: State, steps: seq<Step>, t: State)
    requires s.ended && Reaches(s, steps, t)
    ensures s == t
  {
  }

  lemma {:induction false} RunInv(s: State, steps: seq<Step>, t: State, rule: Rule)
    requires Inv(s, rule) && !s.ended && Reaches(s, steps, t) && (rule == Any || Obeying(s, steps, rule))
    ensures !t.ended ==> Inv(t, rule)
    ensures rule == Calm ==> Guarded(t.decisions)
    decreases |steps|
  {
    if steps != [] {
      var next := Next(s, steps[0]);
      if steps[0].Shutdown? {
        EndedStays(next, steps[1..], t);
      } else {
        NotEnded(s, steps[0]);
        NextInv(s, steps[0], rule);
        RunInv(next, steps[1..], t, rule);
      }
    }
  }

  lemma NotEnded(s: State, step: Step)
    requires Possible(s, step) && !step.Shutdown?
    ensures !Next(s, step).ended
  {
    hide Check, StartBoundary;
    forall h: Handler, t: State | CurrentOk(t.core)
      ensures Check(t, h).ended == t.ended && AfterBoundary(t, h, true).ended == t.ended
      ensures StartBoundary(t, h).ended == t.ended
    {
      HandlersKeepGoing(t, h);
    }
  }

  lemma HandlersKeepGoing(s: State, h: Handler)
    requires CurrentOk(s.core)
    ensures Check(s, h).ended == s.ended && AfterBoundary(s, h, true).ended == s.ended
    ensures StartBoundary(s, h).ended == s.ended
  {
  }

  // ---------------------------------------------------------------- protection

  /** A current lease that was not given back, its timer armed, and no time past the timer. */
  predicate Held(c: Core)
    requires CurrentOk(c)
  {
    && c.current.Some? && c.current.value !in c.released
    && c.expiry.Some? && c.expiry.value.lease == c.current.value
    && c.now <= c.expiry.value.deadline
    && c.expiry.value.armedAt <= c.now
    && c.expiry.value.deadline <= Max(c.leases[c.current.value].expires, c.expiry.value.armedAt)
  }

  /**
   * Protected means held; and it is past the latest expiry only at the very instant at which a grant came
   * that had already run out.
   */
  lemma ProtectedIsHeld(steps: seq<Step>, s: State)
    requires Reaches(Init, steps, s) && !s.ended && s.core.protection == Protected
    ensures CurrentOk(s.core) && Held(s.core)
    ensures var expires := s.core.leases[s.core.current.value].expires;
            s.core.now > expires <==> s.core.now == s.core.expiry.value.armedAt > expires
  {
    InitInv(Any);
    RunInv(Init, steps, s, Any);
  }

  lemma {:induction false} RunTimers(s: State, steps: seq<Step>, t: State)
    requires Inv(s, Any) && TimerInv(s) && !s.ended && Reaches(s, steps, t)
    ensures !t.ended ==> TimerInv(t)
    decreases |steps|
  {
    hide Inv, TimerInv, Next, Possible;
    if steps != [] {
      var next := Next(s, steps[0]);
      if steps[0].Shutdown? {
        AfterShutdown(s);
        EndedStays(next, steps[1..], t);
      } else {
        NextInvAny(s, steps[0]);
        NextTimers(s, steps[0]);
        RunTimers(next, steps[1..], t);
      }
    }
  }

  /** And never blocked by the timer while its grant lasts, unless a heartbeat is asking for its promotion. */
  lemma ExpiryIsDue(steps: seq<Step>, s: State)
    requires Reaches(Init, steps, s) && Possible(s, ExpiryFires)
    ensures s.core.protection == Protected && s.core.current.Some?
    ensures s.core.now >= s.core.leases[s.core.current.value].expires || Asked(s.tasks, s.core.current.value)
  {
    InitInv(Any);
    InitTimers();
    RunInv(Init, steps, s, Any);
    RunTimers(Init, steps, s);
    BehindWhileAsked(s);
  }

  /** While a recovery is under way nothing is protected, and no timer runs. */
  lemma RecoveryBlocks(steps: seq<Step>, s: State)
    requires Reaches(Init, steps, s) && !s.ended && s.core.recovery.Some?
    ensures s.core.protection == Blocked && s.core.expiry.None? && s.core.heartbeat.None?
  {
    InitInv(Any);
    RunInv(Init, steps, s, Any);
  }

  // ---------------------------------------------------------------- replies that come too late

  predicate IsReply(step: Step) {
    step.BeatDone? || step.ReadDone? || step.PromoteDone?
  }

  function TaskOf(s: State, step: Step): Task
    requires Possible(s, step) && IsReply(step)
  {
    match step
    case BeatDone(i, _) => s.tasks[i]
    case ReadDone(i, _) => s.tasks[i]
    case PromoteDone(i, _) => s.tasks[i]
  }

  /** The handler that waited goes on to its own check, and that check starts a recovery of the current lease. */
  predicate ChecksOnItsOwn(s: State, step: Step)
    requires Possible(s, step)
  {
    && step.ReadDone? && step.found == Missing
    && s.tasks[step.task].caller.Boundary? && s.tasks[step.task].caller.handler != Background
    && s.core.protection == Blocked && s.core.current.Some?
  }

  lemma CheckCore(s: State, h: Handler)
    requires CurrentOk(s.core)
    ensures Check(s, h).core
         == if s.core.protection == Blocked && s.core.current.Some? then RecoverOwnership(s, s.core.current.value).core else s.core
  {
  }

  lemma RecoverCore(s: State, lease: nat)
    requires lease < |s.core.leases|
    ensures RecoverOwnership(s, lease).core == s.core <==> s.core.recovery.Some?
  {
  }

  /**
   * A reply for a lease that was replaced or blocked leaves lease, timers and state alone, exactly unless it
   * is a failed promotion with no recovery under way.
   */
  lemma LateReply(s: State, step: Step)
    requires Possible(s, step) && IsReply(step) && Replaced(s.core, TaskOf(s, step).lease)
    ensures Next(s, step).core == s.core
       <==> s.core.recovery.Some? || !(FailsPromotion(step) || ChecksOnItsOwn(s, step))
  {
    var task := TaskOf(s, step);
    hide Check, RecoverOwnership;
    match step
    case BeatDone(i, reply) =>
    case ReadDone(i, found) =>
      var t := Drop(s, i);
      if FailsPromotion(step) {
        RecoverCore(t, task.lease);
      } else if found == Missing && task.caller.Boundary? && task.caller.handler != Background {
        CheckCore(t, task.caller.handler);
        if t.core.current.Some? { RecoverCore(t, t.core.current.value); }
      }
    case PromoteDone(i, granted) =>
      if granted.None? { RecoverCore(Drop(s, i), task.lease); }
  }

  /** A failure with no recovery under way starts one for its own lease, whichever is current. */
  lemma FailureBlocks(s: State, step: Step)
    requires Possible(s, step) && FailsPromotion(step) && s.core.recovery.None?
    ensures var c := Next(s, step).core;
            var lease := TaskOf(s, step).lease;
            && c == Recovered(s.core, lease) && c.protection == Blocked && !Next(s, step).ended
            && c.recovery == Some(Recovery(lease, if s.core.leases[lease].pending then Reading else Gate(Recovering)))
  {
  }

  /** So one that comes after its lease was replaced blocks the session for the sake of a lease it no longer has. */
  lemma LateFailureBlocks(s: State, step: Step)
    requires Possible(s, step) && !Obeys(s, step, Timely)
    ensures Next(s, step).core.protection == Blocked && !RecoversCurrent(Next(s, step).core)
    ensures Next(s, step).core.current == s.core.current
    ensures Next(s, step).core.leases == s.core.leases
  {
    FailureBlocks(s, step);
  }

  /** If the user had chosen to continue unprotected, the next tool call runs while the session counts as blocked. */
  lemma LateFailureExposes(s: State, step: Step)
    requires Inv(s, Any) && Possible(s, step) && FailsPromotion(step) && s.core.protection == Unprotected
    ensures var t := Next(s, step);
            && Possible(t, Event(ToolCall))
            && Next(t, Event(ToolCall)).decisions == t.decisions + [Decision(ToolCall, true, Blocked, true)]
  {
    FailureBlocks(s, step);
    var t := Next(s, step);
    hide Next, Inv;
    assert t.core.current.None? && t.core.leases != [];
    NoCurrentPasses(t);
  }

  lemma NoCurrentPasses(t: State)
    requires !t.ended && t.core.current.None? && t.core.protection == Blocked && t.core.leases != []
    ensures Possible(t, Event(ToolCall))
    ensures Next(t, Event(ToolCall)).decisions == t.decisions + [Decision(ToolCall, true, Blocked, true)]
  {
  }

  // ---------------------------------------------------------------- recovery and the current lease

  /** In every state of the run a recovery is for the current lease. */
  ghost predicate AlwaysRecoversCurrent(s: State, steps: seq<Step>)
    decreases |steps|
  {
    && (s.ended || RecoversCurrent(s.core))
    && (steps == [] || (Possible(s, steps[0]) && AlwaysRecoversCurrent(Next(s, steps[0]), steps[1..])))
  }

  lemma {:induction false} RecoversCurrentIfTimely(s: State, steps: seq<Step>)
    requires !s.ended && Inv(s, Timely) && Obeying(s, steps, Timely)
    ensures AlwaysRecoversCurrent(s, steps)
    decreases |steps|
  {
    hide Inv, Next, Obeys, Possible, RecoversCurrent;
    KeptNow(s, Timely);
    if steps != [] {
      var next := Next(s, steps[0]);
      if steps[0].Shutdown? {
        AfterShutdown(s);
        assert steps[1..] == [] by {
          if steps[1..] != [] { NothingAfter(next, steps[1..][0]); }
        }
      } else {
        NotEnded(s, steps[0]);
        NextInv(s, steps[0], Timely);
        RecoversCurrentIfTimely(next, steps[1..]);
      }
    }
  }

  lemma KeptNow(s: State, rule: Rule)
    requires Inv(s, rule)
    ensures CurrentOk(s.core) && Kept(s.core, rule)
  {
  }

  lemma {:induction false} TimelyIfRecoversCurrent(s: State, steps: seq<Step>)
    requires AlwaysRecoversCurrent(s, steps)
    ensures Obeying(s, steps, Timely)
    decreases |steps|
  {
    hide Next, Possible, Obeys, RecoversCurrent;
    if steps != [] {
      var next := Next(s, steps[0]);
      TimelyIfRecoversCurrent(next, steps[1..]);
      if !Obeys(s, steps[0], Timely) {
        LateFailureBlocks(s, steps[0]);
        FailuresGoOn(s, steps[0], Timely);
        assert false;
      }
    }
  }

  lemma FailuresGoOn(s: State, step: Step, rule: Rule)
    requires Possible(s, step) && !Obeys(s, step, rule)
    ensures FailsPromotion(step) && s.core.recovery.None? && !Next(s, step).ended
  {
    NotEnded(s, step);
  }

  /** Recovery is always for the current lease exactly if no promotion fails after its lease was replaced. */
  lemma RecoversCurrentExactlyWhenTimely(steps: seq<Step>, s: State)
    requires Reaches(Init, steps, s)
    ensures AlwaysRecoversCurrent(Init, steps) <==> Obeying(Init, steps, Timely)
  {
    InitInv(Timely);
    if Obeying(Init, steps, Timely) { RecoversCurrentIfTimely(Init, steps); }
    if AlwaysRecoversCurrent(Init, steps) { TimelyIfRecoversCurrent(Init, steps); }
  }

  lemma AfterShutdown(s: State)
    requires Possible(s, Shutdown)
    ensures Next(s, Shutdown).ended
  {
  }

  lemma NothingAfter(s: State, step: Step)
    requires s.ended
    ensures !Possible(s, step)
  {
  }

  // ---------------------------------------------------------------- what is let through

  /** No promotion fails while the session is unprotected. */
  ghost predicate CalmRun(s: State, steps: seq<Step>)
    decreases |steps|
  {
    || steps == []
    || (Possible(s, steps[0]) && (FailsPromotion(steps[0]) ==> s.core.protection != Unprotected)
        && CalmRun(Next(s, steps[0]), steps[1..]))
  }

  /** While only such runs lie behind, the rule breaks nowhere else. */
  lemma CalmIsUnprotected(s: State, step: Step)
    requires Inv(s, Calm) && Possible(s, step) && FailsPromotion(step)
    ensures Obeys(s, step, Calm) <==> s.core.protection != Unprotected
  {
  }

  lemma {:induction false} CalmObeys(s: State, steps: seq<Step>)
    requires !s.ended && Inv(s, Calm) && CalmRun(s, steps)
    ensures Obeying(s, steps, Calm)
    decreases |steps|
  {
    hide Inv, Next, Obeys, Possible;
    if steps != [] {
      var next := Next(s, steps[0]);
      if FailsPromotion(steps[0]) { CalmIsUnprotected(s, steps[0]); } else { NoFailureObeys(s, steps[0], Calm); }
      if steps[0].Shutdown? {
        AfterShutdown(s);
        if steps[1..] != [] { NothingAfter(next, steps[1..][0]); }
      } else {
        NotEnded(s, steps[0]);
        NextInv(s, steps[0], Calm);
        CalmObeys(next, steps[1..]);
      }
    }
  }

  lemma NoFailureObeys(s: State, step: Step, rule: Rule)
    requires Possible(s, step) && !FailsPromotion(step)
    ensures Obeys(s, step, rule)
  {
  }

  /** However the run goes on, as long as it is calm: prompts and tools get through only protected or unprotected. */
  ghost predicate SafeFrom(s: State) {
    forall more, t {:trigger Reaches(s, more, t)} :: Reaches(s, more, t) && CalmRun(s, more) ==> Guarded(t.decisions)
  }

  ghost predicate AlwaysSafe(s: State, steps: seq<Step>)
    decreases |steps|
  {
    SafeFrom(s) && (steps == [] || (Possible(s, steps[0]) && AlwaysSafe(Next(s, steps[0]), steps[1..])))
  }

  lemma SafeNow(s: State)
    requires if s.ended then Guarded(s.decisions) else Inv(s, Calm)
    ensures SafeFrom(s)
  {
    hide Inv, Guarded;
    forall more, t | Reaches(s, more, t) && CalmRun(s, more)
      ensures Guarded(t.decisions)
    {
      if s.ended {
        EndedStays(s, more, t);
      } else {
        CalmObeys(s, more);
        RunInv(s, more, t, Calm);
      }
    }
  }

  lemma {:induction false} SafeIfCalm(s: State, steps: seq<Step>)
    requires CalmRun(s, steps) && if s.ended then Guarded(s.decisions) else Inv(s, Calm)
    ensures AlwaysSafe(s, steps)
    decreases |steps|
  {
    hide Inv, Next, Guarded, SafeFrom, Possible;
    SafeNow(s);
    if steps != [] {
      var next := Next(s, steps[0]);
      if s.ended {
        NothingAfter(s, steps[0]);
      } else {
        CalmObeys(s, steps);
        OneStepSafe(s, steps[0]);
        SafeIfCalm(next, steps[1..]);
      }
    }
  }

  lemma OneStepSafe(s: State, step: Step)
    requires Inv(s, Calm) && Possible(s, step) && Obeys(s, step, Calm)
    ensures if Next(s, step).ended then Guarded(Next(s, step).decisions) else Inv(Next(s, step), Calm)
  {
    hide Inv, Guarded;
    if step.Shutdown? {
      GuardedNow(s);
    } else {
      NotEnded(s, step);
      NextInv(s, step, Calm);
    }
  }

  lemma GuardedNow(s: State)
    requires Inv(s, Calm)
    ensures Guarded(s.decisions)
  {
  }

  lemma NotGuarded(decisions: seq<Decision>)
    ensures !Guarded(decisions + [Decision(ToolCall, true, Blocked, true)])
  {
    var all := decisions + [Decision(ToolCall, true, Blocked, true)];
    assert all[|decisions|].through;
  }

  lemma {:induction false} CalmIfSafe(s: State, steps: seq<Step>)
    requires AlwaysSafe(s, steps) && (s.ended || Inv(s, Any))
    ensures CalmRun(s, steps)
    decreases |steps|
  {
    hide Inv, Next, Guarded, SafeFrom, Possible;
    if steps != [] {
      var next := Next(s, steps[0]);
      if s.ended {
        NothingAfter(s, steps[0]);
      } else {
        if steps[0].Shutdown? { AfterShutdown(s); } else { NextInvAny(s, steps[0]); }
        CalmIfSafe(next, steps[1..]);
        if FailsPromotion(steps[0]) && s.core.protection == Unprotected {
          NotSafeBehind(s, steps[0]);
          assert false;
        }
      }
    }
  }

  lemma NextInvAny(s: State, step: Step)
    requires Inv(s, Any) && Possible(s, step) && !step.Shutdown?
    ensures Inv(Next(s, step), Any) && !Next(s, step).ended
  {
    hide Inv;
    NotEnded(s, step);
    AnyObeys(s, step);
    NextInv(s, step, Any);
  }

  lemma AnyObeys(s: State, step: Step)
    requires Possible(s, step)
    ensures Obeys(s, step, Any)
  {
  }

  lemma NotSafeBehind(s: State, step: Step)
    requires Inv(s, Any) && Possible(s, step) && FailsPromotion(step) && s.core.protection == Unprotected
    ensures !SafeFrom(Next(s, step))
  {
    hide Inv, Next, Guarded, Possible;
    LateFailureExposes(s, step);
    var t := Next(s, step);
    var u := Next(t, Event(ToolCall));
    assert [Event(ToolCall)][1..] == [];
    assert Reaches(u, [], u) && Reaches(t, [Event(ToolCall)], u);
    assert CalmRun(u, []) && CalmRun(t, [Event(ToolCall)]);
    NotGuarded(t.decisions);
  }

  /**
   * No continuation of a run without another such failure lets a prompt or tool through in the wrong state
   * if and only if no promotion of the run failed while the session was unprotected.
   */
  lemma GatedExactlyWhenCalm(steps: seq<Step>, s: State)
    requires Reaches(Init, steps, s)
    ensures AlwaysSafe(Init, steps) <==> CalmRun(Init, steps)
  {
    hide Inv, AlwaysSafe, CalmRun;
    InitInv(Calm);
    InitInv(Any);
    if CalmRun(Init, steps) { SafeIfCalm(Init, steps); }
    if AlwaysSafe(Init, steps) { CalmIfSafe(Init, steps); }
  }

  /** Once there has been a lease, prompts and tools get through only when protected or deliberately unprotected. */
  lemma WorkIsGated(steps: seq<Step>, s: State)
    requires Reaches(Init, steps, s) && CalmRun(Init, steps)
    ensures forall i :: 0 <= i < |s.decisions| && s.decisions[i].through && s.decisions[i].hadLease ==>
              s.decisions[i].protection == Protected || s.decisions[i].protection == Unprotected
  {
    InitInv(Calm);
    CalmObeys(Init, steps);
    RunInv(Init, steps, s, Calm);
  }

  // ---------------------------------------------------------------- what is given up

  /** The session becomes unprotected while its current lease is still a reservation. */
  predicate GivesUp(s: State, step: Step)
    requires Possible(s, step)
  {
    HoldsReservation(s.core) && Next(s, step).core.protection == Unprotected
  }

  ghost predicate NeverGivesUp(s: State, steps: seq<Step>)
    decreases |steps|
  {
    steps == [] || (Possible(s, steps[0]) && !GivesUp(s, steps[0]) && NeverGivesUp(Next(s, steps[0]), steps[1..]))
  }

  /** However the run goes on without such a failure. */
  ghost predicate SparesFrom(s: State) {
    forall more {:trigger Obeying(s, more, Sound)} :: Obeying(s, more, Sound) ==> NeverGivesUp(s, more)
  }

  ghost predicate AlwaysSpares(s: State, steps: seq<Step>)
    decreases |steps|
  {
    SparesFrom(s) && (steps == [] || (Possible(s, steps[0]) && AlwaysSpares(Next(s, steps[0]), steps[1..])))
  }

  /** What leads to unprotected with a lease is the release at the end of a recovery. */
  lemma OnlyReleaseGivesUp(s: State, step: Step)
    requires Inv(s, Any) && Possible(s, step) && GivesUp(s, step)
    ensures step.RecoveryReleased?
  {
    InvFacts(s, Any);
    assert s.core.protection != Unprotected && s.core.leases != [];
    OnlyReleaseUnprotects(s, step);
  }

  lemma OnlyReleaseUnprotects(s: State, step: Step)
    requires Inv(s, Any) && Possible(s, step) && s.core.leases != []
    requires Next(s, step).core.protection == Unprotected && s.core.protection != Unprotected
    ensures step.RecoveryReleased?
  {
    hide Check, StartBoundary, AfterBoundary;
    match step
    case Event(h) => HandlersKeepAway(s, h, true);
    case ReadDone(i, found) =>
      if s.tasks[i].caller.Boundary? { HandlersKeepAway(Drop(s, i), s.tasks[i].caller.handler, true); }
    case PromoteDone(i, granted) =>
      if s.tasks[i].caller.Boundary? && granted.Some? {
        var h := s.tasks[i].caller.handler;
        HandlersKeepAway(Drop(s, i), h, false);
        if !Replaced(s.core, s.tasks[i].lease) {
          ConfirmInv(s, s.tasks[i].lease, granted.value, Any);
          HandlersKeepAway(Drop(s, i).(core := Confirmed(s.core, s.tasks[i].lease, granted.value)), h, true);
        }
      }
    case Resume(i) =>
      var t, next := Drop(s, i), s.tasks[i].next;
      if next.LauncherEnds? { HandlersKeepAway(t, next.handler, true); }
      if next.BoundaryFails? { HandlersKeepAway(t, next.handler, t.core.protection == Protected && !HoldsReservation(t.core)); }
    case SessionStart(_) => InvFacts(s, Any);
    case StartAnswer(_) => InvFacts(s, Any);
    case _ =>
  }

  lemma WeakerInv(s: State, rule: Rule)
    requires Inv(s, rule)
    ensures Inv(s, Any)
  {
  }

  lemma SoundStep(s: State, step: Step)
    requires Inv(s, Sound) && Possible(s, step)
    ensures !GivesUp(s, step)
  {
    hide Inv, Next;
    if GivesUp(s, step) {
      WeakerInv(s, Sound);
      OnlyReleaseGivesUp(s, step);
      KeptNow(s, Sound);
      assert false;
    }
  }

  lemma {:induction false} SoundNeverGivesUp(s: State, steps: seq<Step>)
    requires !s.ended && Inv(s, Sound) && Obeying(s, steps, Sound)
    ensures NeverGivesUp(s, steps)
    decreases |steps|
  {
    hide Inv, Next, Possible, Obeys, GivesUp;
    if steps != [] {
      var next := Next(s, steps[0]);
      SoundStep(s, steps[0]);
      if steps[0].Shutdown? {
        AfterShutdown(s);
        if steps[1..] != [] { NothingAfter(next, steps[1..][0]); }
      } else {
        NotEnded(s, steps[0]);
        NextInv(s, steps[0], Sound);
        SoundNeverGivesUp(next, steps[1..]);
      }
    }
  }

  lemma SparesNow(s: State)
    requires s.ended || Inv(s, Sound)
    ensures SparesFrom(s)
  {
    hide Inv, Possible, Obeys, Next, GivesUp;
    forall more | Obeying(s, more, Sound)
      ensures NeverGivesUp(s, more)
    {
      if s.ended {
        if more != [] { NothingAfter(s, more[0]); }
      } else {
        SoundNeverGivesUp(s, more);
      }
    }
  }

  lemma {:induction false} SparesIfSound(s: State, steps: seq<Step>)
    requires (s.ended || Inv(s, Sound)) && Obeying(s, steps, Sound)
    ensures AlwaysSpares(s, steps)
    decreases |steps|
  {
    hide Inv, Next, Possible, Obeys, SparesFrom;
    SparesNow(s);
    if steps != [] {
      if s.ended {
        NothingAfter(s, steps[0]);
      } else {
        if steps[0].Shutdown? { AfterShutdown(s); } else { NextInv(s, steps[0], Sound); }
        SparesIfSound(Next(s, steps[0]), steps[1..]);
      }
    }
  }

  /** After such a failure the user may answer that the session goes on unprotected. */
  lemma NotSparedBehind(s: State, step: Step)
    requires Possible(s, step) && !Obeys(s, step, Sound)
    ensures !SparesFrom(Next(s, step))
  {
    FailureBlocks(s, step);
    var t := Next(s, step);
    assert HoldsReservation(t.core) && t.core.recovery.value.phase == Gate(Recovering);
    hide Next, Obeys;
    ContinueGivesUp(t);
    var more := [RecoveryAnswer(Continue), RecoveryReleased];
    assert Obeying(t, more, Sound) && !NeverGivesUp(t, more);
  }

  lemma ContinueGivesUp(t: State)
    requires !t.ended && CurrentOk(t.core) && HoldsReservation(t.core)
    requires t.core.recovery.Some? && t.core.recovery.value.phase == Gate(Recovering)
    ensures var more := [RecoveryAnswer(Continue), RecoveryReleased];
            Obeying(t, more, Sound) && !NeverGivesUp(t, more)
  {
    var more := [RecoveryAnswer(Continue), RecoveryReleased];
    var u := Next(t, RecoveryAnswer(Continue));
    assert Possible(u, RecoveryReleased) && GivesUp(u, RecoveryReleased);
    assert more[1..] == [RecoveryReleased] && more[1..][1..] == [];
    assert Obeying(u, [RecoveryReleased], Sound) && !NeverGivesUp(u, [RecoveryReleased]);
  }

  lemma {:induction false} SoundIfSpares(s: State, steps: seq<Step>)
    requires AlwaysSpares(s, steps)
    ensures Obeying(s, steps, Sound)
    decreases |steps|
  {
    hide Next, Possible, Obeys, SparesFrom;
    if steps != [] {
      SoundIfSpares(Next(s, steps[0]), steps[1..]);
      if !Obeys(s, steps[0], Sound) {
        NotSparedBehind(s, steps[0]);
        assert false;
      }
    }
  }

  /**
   * No continuation of a run without another such failure gives up a reservation if and only if no promotion
   * of the run failed, with no recovery under way, for a lease already promoted while a reservation was current.
   */
  lemma ReservationsSparedExactlyWhenSound(steps: seq<Step>, s: State)
    requires Reaches(Init, steps, s)
    ensures AlwaysSpares(Init, steps) <==> Obeying(Init, steps, Sound)
  {
    hide Inv, AlwaysSpares, Obeying;
    InitInv(Sound);
    if Obeying(Init, steps, Sound) { SparesIfSound(Init, steps); }
    if AlwaysSpares(Init, steps) { SoundIfSpares(Init, steps); }
  }

  /** Only a real lease is ever given up for running unprotected, never a reservation. */
  lemma ReservationIsNeverGivenUp(steps: seq<Step>, s: State, step: Step)
    requires Reaches(Init, steps, s) && Obeying(Init, steps, Sound) && !s.ended
    requires Possible(s, step) && Next(s, step).core.protection == Unprotected
    ensures CurrentOk(s.core) && !HoldsReservation(s.core)
  {
    InitInv(Sound);
    RunInv(Init, steps, s, Sound);
    hide Inv, Next;
    SoundStep(s, step);
  }

  predicate KeepsAway(s: State, t: State) {
    t.core.protection == Unprotected ==> s.core.protection == Unprotected
  }

  lemma HandlersKeepAway(s: State, h: Handler, ok: bool)
    requires CurrentOk(s.core)
    ensures KeepsAway(s, Check(s, h)) && KeepsAway(s, AfterBoundary(s, h, ok)) && KeepsAway(s, StartBoundary(s, h))
  {
  }

  // ---------------------------------------------------------------- the late failure happens

  lemma {:induction false} OneMore(s: State, steps: seq<Step>, t: State, step: Step)
    requires Reaches(s, steps, t) && Possible(t, step)
    ensures Reaches(s, steps + [step], Next(t, step))
    decreases |steps|
  {
    if steps == [] {
      assert [step][1..] == [];
    } else {
      OneMore(Next(s, steps[0]), steps[1..], t, step);
      assert (steps + [step])[1..] == steps[1..] + [step];
    }
  }

  function Protecting(now: int, leases: seq<Lease>, deadline: int, armedAt: int): Core
    requires leases != []
  {
    var id := |leases| - 1;
    Core(now, Protected, Some(id), leases, Some(Timer(id, deadline, armedAt)), Some(id), None, [])
  }

  const LateRead := Read(0, Boundary(Background))
  const InputTask := Ready(LauncherEnds(Input), true)

  lemma Take(steps: seq<Step>, s: State, step: Step) returns (more: seq<Step>, t: State)
    requires Reaches(Init, steps, s) && Possible(s, step)
    ensures t == Next(s, step) && Reaches(Init, more, t) && more == steps + [step]
  {
    more, t := steps + [step], Next(s, step);
    OneMore(Init, steps, s, step);
  }

  /** A run that got to this core and these tasks and has not ended. */
  ghost predicate At(steps: seq<Step>, s: State, core: Core, tasks: seq<Task>) {
    Reaches(Init, steps, s) && !s.ended && s.core == core && s.tasks == tasks
  }

  function InRecovery(now: int, lease: nat, leases: seq<Lease>, phase: Phase): Core {
    Core(now, Blocked, Some(lease), leases, None, None, Some(Recovery(lease, phase)), [])
  }

  lemma Launched() returns (steps: seq<Step>, s: State)
    ensures At(steps, s, Init.core.(protection := Launcher), [OnLauncher(LauncherEnds(Input))]) && s.launcherGate
  {
    hide Reaches;
    steps, s := Start();
    steps, s := Take(steps, s, SessionStart(Look));
    steps, s := Take(steps, s, StartRead(Missing));
    steps, s := Take(steps, s, Event(Input));
  }

  lemma Start() returns (steps: seq<Step>, s: State)
    ensures steps == [] && s == Init && Reaches(Init, steps, s)
  {
    steps, s := [], Init;
  }

  lemma ReadingStarts() returns (steps: seq<Step>, s: State)
    ensures At(steps, s, Protecting(0, [Lease(true, 100)], 100, 0), [InputTask, LateRead])
  {
    hide Reaches;
    steps, s := Launched();
    steps, s := Take(steps, s, LauncherAnswer(Claimed(100)));
    assert s.tasks == [InputTask];
    steps, s := Take(steps, s, Event(Background));
  }

  /** The reservation runs out meanwhile, and the gate hands out another one. */
  lemma Replacement() returns (steps: seq<Step>, s: State)
    ensures At(steps, s, Protecting(100, [Lease(true, 100), Lease(true, 200)], 200, 100), [InputTask, LateRead])
  {
    hide Reaches;
    steps, s := ReadingStarts();
    steps, s := Take(steps, s, Tick(100));
    steps, s := Take(steps, s, ExpiryFires);
    assert s.core == InRecovery(100, 0, [Lease(true, 100)], Reading);
    steps, s := Take(steps, s, RecoveryRead(Missing));
    steps, s := Take(steps, s, RecoveryAnswer(Claimed(200)));
    assert s.tasks == [InputTask, LateRead];
  }

  /** The late reading fails: a session whose lease is good for another hundred is blocked. */
  lemma ProtectedSessionBlocked() returns (steps: seq<Step>, s: State, step: Step)
    ensures Reaches(Init, steps, s) && Possible(s, step) && IsReply(step)
    ensures s.core.protection == Protected && s.core.current == Some(1) && s.core.leases[1].expires == s.core.now + 100
    ensures TaskOf(s, step).lease == 0 && Next(s, step).core.protection == Blocked
    ensures Next(s, step).core.recovery == Some(Recovery(0, Reading))
  {
    steps, s := Replacement();
    step := ReadDone(1, Unreadable);
  }

  lemma Promotion() returns (steps: seq<Step>, s: State)
    ensures At(steps, s, Protecting(100, [Lease(true, 100), Lease(false, 200)], 200, 100), [InputTask, LateRead])
  {
    hide Reaches;
    steps, s := Replacement();
    steps, s := Take(steps, s, Event(Background));
    assert s.tasks == [InputTask, LateRead, Read(1, Boundary(Background))];
    steps, s := Take(steps, s, ReadDone(2, Same));
    assert s.tasks == [InputTask, LateRead, Promote(1, Boundary(Background))];
    steps, s := Take(steps, s, PromoteDone(2, Some(200)));
    assert s.tasks == [InputTask, LateRead];
  }

  lemma GivingUp() returns (steps: seq<Step>, s: State)
    ensures At(steps, s, Core(200, Unprotected, None, [Lease(true, 100), Lease(false, 200)], None, None, None, [1]), [InputTask, LateRead])
  {
    hide Reaches;
    steps, s := Promotion();
    steps, s := Take(steps, s, Tick(200));
    steps, s := Take(steps, s, ExpiryFires);
    assert s.core == InRecovery(200, 1, [Lease(true, 100), Lease(false, 200)], Gate(Recovering));
    steps, s := Take(steps, s, RecoveryAnswer(Continue));
    steps, s := Take(steps, s, RecoveryReleased);
    assert s.tasks == [InputTask, LateRead];
  }

  /** Or it fails when the user has come to run unprotected: then a tool call passes a blocked session. */
  lemma BlockedSessionLetsToolsThrough() returns (steps: seq<Step>, s: State)
    ensures Reaches(Init, steps, s)
    ensures s.decisions != [] && s.decisions[|s.decisions| - 1] == Decision(ToolCall, true, Blocked, true)
  {
    hide Reaches;
    steps, s := GivingUp();
    steps, s := Take(steps, s, ReadDone(1, Unreadable));
    NoCurrentPasses(s);
    steps, s := Take(steps, s, Event(ToolCall));
  }

  lemma NewReservation() returns (steps: seq<Step>, s: State)
    ensures At(steps, s, Protecting(100, [Lease(true, 100), Lease(false, 300), Lease(true, 400)], 400, 100),
               [InputTask, Read(1, Boundary(Background)), Ready(BoundaryFails(Background), true)])
  {
    hide Reaches;
    steps, s := TwoReadings();
    steps, s := Take(steps, s, ReadDone(1, Unreadable));
    assert s.core == InRecovery(100, 0, [Lease(true, 100), Lease(false, 300)], Reading).(current := Some(1));
    steps, s := Take(steps, s, RecoveryRead(Missing));
    steps, s := Take(steps, s, RecoveryAnswer(Claimed(400)));
    assert s.tasks == [InputTask, Read(1, Boundary(Background)), Ready(BoundaryFails(Background), true)];
  }

  lemma TwoReadings() returns (steps: seq<Step>, s: State)
    ensures At(steps, s, Protecting(100, [Lease(true, 100), Lease(false, 300)], 300, 100),
               [InputTask, LateRead, Read(1, Boundary(Background))])
  {
    hide Reaches;
    steps, s := Replacement();
    var reading := Read(1, Boundary(Background));
    steps, s := Take(steps, s, Event(Background));
    steps, s := Take(steps, s, Event(Background));
    assert s.tasks == [InputTask, LateRead, reading, reading];
    steps, s := Take(steps, s, ReadDone(2, Same));
    assert s.tasks == [InputTask, LateRead, reading, Promote(1, Boundary(Background))];
    steps, s := Take(steps, s, PromoteDone(3, Some(300)));
    assert s.tasks == [InputTask, LateRead, reading];
  }

  /** Late failures for two leases in turn: the session ends unprotected and gives up a reservation it holds. */
  lemma ReservationGivenUp() returns (steps: seq<Step>, s: State)
    ensures Reaches(Init, steps, s) && Possible(s, RecoveryReleased) && GivesUp(s, RecoveryReleased)
    ensures s.core.current == Some(2) && 2 !in s.core.released
  {
    hide Reaches;
    steps, s := NewReservation();
    steps, s := Take(steps, s, ReadDone(1, Unreadable));
    assert s.core.recovery == Some(Recovery(1, Gate(Recovering))) && s.core.current == Some(2);
    steps, s := Take(steps, s, RecoveryAnswer(Continue));
  }

  /** A grant that has run out when the gate returns it: protected, and past its expiry, until the timer fires. */
  lemma ProtectedPastExpiry() returns (steps: seq<Step>, s: State)
    ensures Reaches(Init, steps, s) && !s.ended && s.core.protection == Protected && s.core.current == Some(0)
    ensures s.core.leases == [Lease(false, -1)] && s.core.now > s.core.leases[0].expires
  {
    hide Reaches;
    steps, s := Start();
    steps, s := Take(steps, s, SessionStart(Look));
    steps, s := Take(steps, s, StartRead(Same));
    steps, s := Take(steps, s, StartAnswer(Claimed(-1)));
  }
}
