/**
 * The extension of config/extensions/00-session-ownership.ts with its closure variables as fields.  A
 * method is what runs between two awaits; each does to the fields what the step of the lease client does.
 */
module SessionOwnership {
  import opened Basics
  import opened LeaseClient
  import opened LeaseSafety
  import opened LeaseTimers
  import opened LeaseTheorems

  class Extension {
    var now: int
    var currentLease: Option<nat>
    var heartbeatTimer: Option<nat>
    var expiryTimer: Option<Timer>
    var heartbeatController: Option<nat>
    var heartbeatRunning: bool
    var protectionState: Protection
    var launcherPromise: bool
    var recoveryPromise: Option<Recovery>
    /** The lease objects met so far, and the abort controllers. */
    var leases: seq<Lease>
    var released: seq<nat>
    var controllersMade: nat
    var abortedControllers: set<nat>
    var startup: Startup
    var tasks: seq<Task>
    var decisions: seq<Decision>
    var ended: bool

    ghost function Snapshot(): State
      reads this
    {
      State(Core(now, protectionState, currentLease, leases, expiryTimer, heartbeatTimer, recoveryPromise, released),
            Beats(heartbeatRunning, heartbeatController, controllersMade, abortedControllers),
            startup, launcherPromise, tasks, decisions, ended)
    }

    /** What every dispatched event keeps until the session is shut down. */
    ghost predicate Valid()
      reads this
    {
      ended || (Inv(Snapshot(), Any) && TimerInv(Snapshot()))
    }

    /** Protected: a lease that was not given back, its timer armed, and no time past the timer. */
    lemma ProtectedFields()
      requires Valid() && !ended && protectionState == Protected
      ensures currentLease.Some? && currentLease.value < |leases| && currentLease.value !in released
      ensures expiryTimer.Some? && expiryTimer.value.lease == currentLease.value && heartbeatTimer == currentLease
      ensures now <= expiryTimer.value.deadline && recoveryPromise.None?
      ensures now > leases[currentLease.value].expires ==> now == expiryTimer.value.armedAt
      ensures leases[currentLease.value].pending ||
              expiryTimer.value.deadline == Max(leases[currentLease.value].expires, expiryTimer.value.armedAt)
    {
      assert TimersOk(Snapshot().core);
    }

    constructor ()
      ensures Snapshot() == Init && Valid()
    {
      now, currentLease, heartbeatTimer, expiryTimer, heartbeatController, heartbeatRunning := 0, None, None, None, None, false;
      protectionState, launcherPromise, recoveryPromise := Blocked, false, None;
      leases, released, controllersMade, abortedControllers := [], [], 0, {};
      startup, tasks, decisions, ended := NotStarted, [], [], false;
      new;
      InitInv(Any);
      InitTimers();
    }

    // -------------------------------------------------------------- timers

    method StopHeartbeat()
      modifies this
      ensures Snapshot() == LeaseClient.StopHeartbeat(old(Snapshot()))
    {
      heartbeatTimer := None;
      expiryTimer := None;
      if heartbeatController.Some? {
        abortedControllers := abortedControllers + {heartbeatController.value};
      }
      heartbeatController := None;
      heartbeatRunning := false;
    }

    method SetUnprotected()
      modifies this
      ensures Snapshot() == LeaseClient.SetUnprotected(old(Snapshot()))
    {
      StopHeartbeat();
      currentLease := None;
      protectionState := Unprotected;
    }

    method ScheduleExpiry(lease: nat)
      requires lease < |leases|
      modifies this
      ensures Snapshot() == old(Snapshot()).(core := Armed(old(Snapshot()).core, lease))
    {
      var delay := Max(0, leases[lease].expires - now);
      expiryTimer := Some(Timer(lease, now + delay, now));
    }

    method StartHeartbeat(lease: Lease)
      modifies this
      ensures Snapshot() == LeaseClient.StartHeartbeat(old(Snapshot()), lease)
    {
      StopHeartbeat();
      var id := |leases|;
      leases := leases + [lease];
      currentLease := Some(id);
      protectionState := Protected;
      ScheduleExpiry(id);
      heartbeatTimer := Some(id);
    }

    method RecoverOwnership(lease: nat)
      requires lease < |leases|
      modifies this
      ensures Snapshot() == LeaseClient.RecoverOwnership(old(Snapshot()), lease)
    {
      if recoveryPromise.Some? {
        return;
      }
      protectionState := Blocked;
      StopHeartbeat();
      recoveryPromise := Some(Recovery(lease, if leases[lease].pending then Reading else Gate(Recovering)));
    }

    method Await(task: Task)
      modifies this`tasks
      ensures Snapshot() == Wait(old(Snapshot()), task)
    {
      tasks := tasks + [task];
    }

    /** The expiry timer goes off. */
    method ExpiryCallback()
      requires expiryTimer.Some? && expiryTimer.value.lease < |leases|
      modifies this
      ensures Snapshot() == OnExpiry(old(Snapshot()))
    {
      var lease := expiryTimer.value.lease;
      expiryTimer := None;
      if currentLease != Some(lease) || protectionState != Protected {
        return;
      }
      RecoverOwnership(lease);
    }

    // -------------------------------------------------------------- recovery

    method FinishRecovery()
      modifies this
      ensures Snapshot() == RecoveryEnds(old(Snapshot()))
    {
      recoveryPromise := None;
      var waiting := tasks;
      tasks := seq(|waiting|, i requires 0 <= i < |waiting| => WokenByRecovery(waiting[i]));
    }

    method RecoveryHeaderRead(found: Found)
      requires recoveryPromise.Some?
      modifies this
      ensures Snapshot() == OnRecoveryRead(old(Snapshot()), found)
    {
      match found
      case Same => recoveryPromise := Some(recoveryPromise.value.(phase := Gate(Promoting)));
      case Missing => recoveryPromise := Some(recoveryPromise.value.(phase := Gate(Reserving)));
      case Unreadable => recoveryPromise := Some(recoveryPromise.value.(phase := Gate(Promoting)));
      case Different => FinishRecovery();
    }

    method RecoveryGateAnswered(answer: Answer)
      requires AtGate(Snapshot().core)
      modifies this
      ensures Snapshot() == OnRecoveryAnswer(old(Snapshot()), answer)
    {
      match answer
      case Claimed(expires) =>
        StartHeartbeat(Lease(recoveryPromise.value.phase.mode == Reserving, expires));
        FinishRecovery();
      case Continue =>
        released := released + [recoveryPromise.value.lease];
        recoveryPromise := Some(recoveryPromise.value.(phase := Releasing));
      case Cancelled =>
        FinishRecovery();
    }

    method RecoveryLeaseReleased()
      modifies this
      ensures Snapshot() == RecoveryEnds(LeaseClient.SetUnprotected(old(Snapshot())))
    {
      SetUnprotected();
      FinishRecovery();
    }

    // -------------------------------------------------------------- handlers

    method Return(h: Handler, through: bool)
      modifies this
      ensures Snapshot() == Decide(old(Snapshot()), h, through)
    {
      decisions := decisions + [Decision(h, through, protectionState, leases != [])];
    }

    method LetThroughOrRecover(h: Handler)
      requires CurrentOk(Snapshot().core)
      modifies this
      ensures Snapshot() == Check(old(Snapshot()), h)
    {
      if protectionState != Blocked || currentLease.None? {
        Return(h, true);
        return;
      }
      RecoverOwnership(currentLease.value);
      Await(OnRecovery(Recheck(h)));
    }

    method BoundaryReturned(h: Handler, ok: bool)
      requires CurrentOk(Snapshot().core)
      modifies this
      ensures Snapshot() == AfterBoundary(old(Snapshot()), h, ok)
    {
      if h == Background {
        return;
      }
      if !ok {
        Return(h, false);
        return;
      }
      LetThroughOrRecover(h);
    }

    method PromoteAtPersistedBoundary(h: Handler)
      requires CurrentOk(Snapshot().core)
      modifies this
      ensures Snapshot() == StartBoundary(old(Snapshot()), h)
    {
      if currentLease.None? || !leases[currentLease.value].pending || protectionState != Protected {
        BoundaryReturned(h, true);
        return;
      }
      Await(Read(currentLease.value, Boundary(h)));
    }

    method EnsureLauncherOwnership(h: Handler) returns (passed: bool)
      modifies this
      ensures passed <==> old(protectionState) != Launcher
      ensures Snapshot() == if passed then old(Snapshot()) else Wait(old(Snapshot()).(launcherGate := true), OnLauncher(LauncherEnds(h)))
    {
      if protectionState != Launcher {
        return true;
      }
      launcherPromise := true;
      Await(OnLauncher(LauncherEnds(h)));
      passed := false;
    }

    method OnEvent(h: Handler)
      requires CurrentOk(Snapshot().core)
      modifies this
      ensures Snapshot() == Handle(old(Snapshot()), h)
    {
      match h
      case Background => PromoteAtPersistedBoundary(h);
      case ToolCall => PromoteAtPersistedBoundary(h);
      case UserBash =>
        var passed := EnsureLauncherOwnership(h);
        if passed {
          PromoteAtPersistedBoundary(h);
        }
      case Input =>
        var passed := EnsureLauncherOwnership(h);
        if passed {
          LetThroughOrRecover(h);
        }
    }

    method LauncherGateAnswered(answer: Answer)
      modifies this
      ensures Snapshot() == OnLauncherAnswer(old(Snapshot()), answer)
    {
      if answer.Claimed? {
        StartHeartbeat(Lease(true, answer.expires));
      }
      launcherPromise := false;
      var waiting := tasks;
      tasks := seq(|waiting|, i requires 0 <= i < |waiting| => WokenByLauncher(waiting[i], answer.Claimed?));
    }

    // -------------------------------------------------------------- heartbeat

    method Heartbeat()
      requires heartbeatTimer.Some?
      modifies this
      ensures Snapshot() == OnHeartbeatTick(old(Snapshot()))
    {
      var lease := heartbeatTimer.value;
      if heartbeatRunning || currentLease != Some(lease) || protectionState != Protected {
        return;
      }
      heartbeatRunning := true;
      var controller := controllersMade;
      controllersMade := controllersMade + 1;
      heartbeatController := Some(controller);
      Await(Beat(lease, controller));
    }

    method HeartbeatFinally(controller: nat)
      modifies this
      ensures Snapshot() == EndBeat(old(Snapshot()), controller)
    {
      if heartbeatController == Some(controller) {
        heartbeatController := None;
      }
      heartbeatRunning := false;
    }

    method HeartbeatConfirmed(lease: nat, controller: nat)
      requires lease < |leases|
      modifies this
      ensures Snapshot() == BeatTail(old(Snapshot()), lease, controller)
    {
      if !(controller in abortedControllers || currentLease != Some(lease) || protectionState != Protected) {
        ScheduleExpiry(lease);
      }
      HeartbeatFinally(controller);
    }

    method HeartbeatReplied(lease: nat, controller: nat, reply: BeatReply)
      requires lease < |leases|
      modifies this
      ensures Snapshot() == OnBeatReply(old(Snapshot()), lease, controller, reply)
    {
      if controller in abortedControllers || currentLease != Some(lease) || protectionState != Protected {
        HeartbeatFinally(controller);
        return;
      }
      if reply.Granted? {
        leases := leases[lease := leases[lease].(expires := reply.expires)];
        if leases[lease].pending {
          Await(Read(lease, Beater(controller)));
        } else {
          HeartbeatConfirmed(lease, controller);
        }
      } else if reply.Lost? || now >= leases[lease].expires {
        RecoverOwnership(lease);
        Await(OnRecovery(BeatEnds(controller)));
      } else {
        HeartbeatFinally(controller);
      }
    }

    // -------------------------------------------------------------- promotion

    method PromotionThrew(lease: nat, caller: Caller)
      requires lease < |leases|
      modifies this
      ensures Snapshot() == PromotionFails(old(Snapshot()), lease, caller)
    {
      RecoverOwnership(lease);
      match caller
      case Beater(controller) => Await(OnRecovery(BeatEnds(controller)));
      case Boundary(h) => Await(OnRecovery(BoundaryFails(h)));
    }

    method PromotionReturned(lease: nat, caller: Caller, ok: bool)
      requires lease < |leases| && CurrentOk(Snapshot().core)
      modifies this
      ensures Snapshot() == PromotionSettles(old(Snapshot()), lease, caller, ok)
    {
      match caller
      case Beater(controller) => HeartbeatConfirmed(lease, controller);
      case Boundary(h) => BoundaryReturned(h, ok);
    }

    method PromotionHeaderRead(lease: nat, caller: Caller, found: Found)
      requires lease < |leases| && CurrentOk(Snapshot().core)
      modifies this
      ensures Snapshot() == OnRead(old(Snapshot()), lease, caller, found)
    {
      match found
      case Missing => PromotionReturned(lease, caller, true);
      case Same => Await(Promote(lease, caller));
      case Different => PromotionThrew(lease, caller);
      case Unreadable => PromotionThrew(lease, caller);
    }

    method PromotionReplied(lease: nat, caller: Caller, reply: Option<int>)
      requires lease < |leases| && CurrentOk(Snapshot().core)
      modifies this
      ensures Snapshot() == OnPromoted(old(Snapshot()), lease, caller, reply)
    {
      if reply.None? {
        PromotionThrew(lease, caller);
        return;
      }
      if currentLease != Some(lease) || protectionState != Protected {
        PromotionReturned(lease, caller, false);
        return;
      }
      leases := leases[lease := Lease(false, reply.value)];
      ScheduleExpiry(lease);
      PromotionReturned(lease, caller, true);
    }

    // -------------------------------------------------------------- resuming, starting, stopping

    method Proceed(next: Then, ok: bool)
      requires CurrentOk(Snapshot().core)
      modifies this
      ensures Snapshot() == OnReady(old(Snapshot()), next, ok)
    {
      match next
      case BeatEnds(controller) => HeartbeatFinally(controller);
      case BoundaryFails(h) =>
        BoundaryReturned(h, protectionState == Protected && !(currentLease.Some? && leases[currentLease.value].pending));
      case Recheck(h) => Return(h, protectionState != Blocked);
      case LauncherEnds(h) =>
        if !ok {
          Return(h, false);
        } else if h == Input {
          LetThroughOrRecover(h);
        } else {
          PromoteAtPersistedBoundary(h);
        }
    }

    method SessionStart(start: Start)
      modifies this
      ensures Snapshot() == OnStart(old(Snapshot()), start)
    {
      match start
      case Adopt(expires) => StartHeartbeat(Lease(false, expires)); startup := Over;
      case Unguarded => SetUnprotected(); startup := Over;
      case Look => startup := Checking;
    }

    method SessionShutdown()
      modifies this
      ensures Snapshot() == OnShutdown(old(Snapshot()))
    {
      var lease := currentLease;
      currentLease := None;
      StopHeartbeat();
      if lease.Some? {
        released := released + [lease.value];
      }
      ended := true;
    }

    // -------------------------------------------------------------- the event loop

    method DropTask(i: nat) returns (task: Task)
      requires i < |tasks|
      modifies this`tasks
      ensures task == old(tasks[i]) && Snapshot() == Drop(old(Snapshot()), i)
    {
      task := tasks[i];
      tasks := tasks[..i] + tasks[i + 1..];
    }

    /** Whatever happens next is one step of the lease client. */
    method Dispatch(step: Step)
      requires Valid() && Possible(Snapshot(), step)
      modifies this
      ensures Valid() && Snapshot() == Next(old(Snapshot()), step)
    {
      Perform(step);
      StepKeepsValid(old(Snapshot()), step);
    }

    static lemma StepKeepsValid(s: State, step: Step)
      requires !s.ended && Inv(s, Any) && TimerInv(s) && Possible(s, step)
      ensures Next(s, step).ended || (Inv(Next(s, step), Any) && TimerInv(Next(s, step)))
    {
      hide Inv, TimerInv, Next;
      if step.Shutdown? {
        AfterShutdown(s);
      } else {
        NextInvAny(s, step);
        NextTimers(s, step);
      }
    }

    method Perform(step: Step)
      requires Possible(Snapshot(), step)
      modifies this
      ensures Snapshot() == Next(old(Snapshot()), step)
    {
      hide Handle, OnStart, OnLauncherAnswer, OnHeartbeatTick, OnExpiry, OnBeatReply, OnRead, OnPromoted,
        OnRecoveryRead, OnRecoveryAnswer, OnReady, RecoveryEnds, LeaseClient.SetUnprotected, OnShutdown,
        LeaseClient.StartHeartbeat;
      match step
      case Tick(to) => now := to;
      case SessionStart(start) => SessionStart(start);
      case StartRead(found) =>
        if found == Missing {
          protectionState := Launcher;
          startup := Over;
        } else {
          startup := Asking;
        }
      case StartAnswer(answer) =>
        if answer.Claimed? {
          StartHeartbeat(Lease(false, answer.expires));
        } else if answer == Continue {
          SetUnprotected();
        }
        startup := Over;
      case Event(h) => OnEvent(h);
      case LauncherAnswer(answer) => LauncherGateAnswered(answer);
      case HeartbeatTick => Heartbeat();
      case ExpiryFires => ExpiryCallback();
      case BeatDone(i, reply) => var task := DropTask(i); HeartbeatReplied(task.lease, task.controller, reply);
      case ReadDone(i, found) => var task := DropTask(i); PromotionHeaderRead(task.lease, task.caller, found);
      case PromoteDone(i, granted) => var task := DropTask(i); PromotionReplied(task.lease, task.caller, granted);
      case RecoveryRead(found) => RecoveryHeaderRead(found);
      case RecoveryAnswer(answer) => RecoveryGateAnswered(answer);
      case RecoveryReleased => RecoveryLeaseReleased();
      case Resume(i) => var task := DropTask(i); Proceed(task.next, task.ok);
      case Shutdown => SessionShutdown();
    }
  }
}
