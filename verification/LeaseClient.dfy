/**
 * The session lease client of config/extensions/00-session-ownership.ts, one runtime of it: every
 * stretch of code between two awaits is one step, and what is awaited is a task.
 */
module LeaseClient {
  import opened Basics

  datatype Protection = Launcher | Protected | Blocked | Unprotected

  /** A lease object; `pending` while it is only a reservation.  Its index in `leases` is its identity. */
  datatype Lease = Lease(pending: bool, expires: int)

  datatype Timer = Timer(lease: nat, deadline: int, armedAt: int)

  /** What the gate of a recovery asks for; only `Recovering` offers to continue unprotected. */
  datatype Mode = Recovering | Reserving | Promoting

  datatype Phase = Reading | Gate(mode: Mode) | Releasing

  datatype Recovery = Recovery(lease: nat, phase: Phase)

  datatype Core = Core(
    now: int,
    protection: Protection,
    current: Option<nat>,
    leases: seq<Lease>,
    expiry: Option<Timer>,
    heartbeat: Option<nat>,
    recovery: Option<Recovery>,
    released: seq<nat>)

  /** heartbeatRunning, heartbeatController and the controllers whose signal is aborted. */
  datatype Beats = Beats(running: bool, controller: Option<nat>, made: nat, aborted: set<nat>)

  /** `Background` stands for the boundary events that let nothing through themselves. */
  datatype Handler = Background | ToolCall | UserBash | Input

  /** Who called promoteIfMaterialized. */
  datatype Caller = Beater(controller: nat) | Boundary(handler: Handler)

  datatype Then = BeatEnds(controller: nat) | BoundaryFails(handler: Handler) | Recheck(handler: Handler) | LauncherEnds(handler: Handler)

  datatype Task =
    | Beat(lease: nat, controller: nat)
    | Read(lease: nat, caller: Caller)
    | Promote(lease: nat, caller: Caller)
    | OnRecovery(next: Then)
    | OnLauncher(next: Then)
    | Ready(next: Then, ok: bool)

  datatype Startup = NotStarted | Checking | Asking | Over

  /** A handler let its prompt or tool through, or held it back. */
  datatype Decision = Decision(handler: Handler, through: bool, protection: Protection, hadLease: bool)

  datatype State = State(
    core: Core,
    beats: Beats,
    startup: Startup,
    launcherGate: bool,
    tasks: seq<Task>,
    decisions: seq<Decision>,
    ended: bool)

  const Init := State(Core(0, Blocked, None, [], None, None, None, []), Beats(false, None, 0, {}), NotStarted, false, [], [], false)

  function Max(a: int, b: int): int { if a >= b then a else b }

  // ---------------------------------------------------------------- the lease and its timers

  function Halted(c: Core): Core {
    c.(expiry := None, heartbeat := None)
  }

  function Armed(c: Core, lease: nat): Core
    requires lease < |c.leases|
  {
    c.(expiry := Some(Timer(lease, Max(c.leases[lease].expires, c.now), c.now)))
  }

  function Started(c: Core, lease: Lease): Core {
    var id := |c.leases|;
    var d := Halted(c).(leases := c.leases + [lease], current := Some(id), protection := Protected);
    Armed(d, id).(heartbeat := Some(id))
  }

  function WithoutProtection(c: Core): Core {
    Halted(c).(current := None, protection := Unprotected)
  }

  function Recovered(c: Core, lease: nat): Core
    requires lease < |c.leases|
  {
    if c.recovery.Some? then c
    else
      Halted(c).(protection := Blocked,
                 recovery := Some(Recovery(lease, if c.leases[lease].pending then Reading else Gate(Recovering))))
  }

  function Stopped(b: Beats): Beats {
    b.(running := false, controller := None, aborted := b.aborted + if b.controller.Some? then {b.controller.value} else {})
  }

  function StopHeartbeat(s: State): State {
    s.(core := Halted(s.core), beats := Stopped(s.beats))
  }

  function StartHeartbeat(s: State, lease: Lease): State {
    s.(core := Started(s.core, lease), beats := Stopped(s.beats))
  }

  function SetUnprotected(s: State): State {
    s.(core := WithoutProtection(s.core), beats := Stopped(s.beats))
  }

  /** Nothing when a recovery is under way already. */
  function RecoverOwnership(s: State, lease: nat): State
    requires lease < |s.core.leases|
  {
    if s.core.recovery.Some? then s else s.(core := Recovered(s.core, lease), beats := Stopped(s.beats))
  }

  function Wait(s: State, t: Task): State {
    s.(tasks := s.tasks + [t])
  }

  function WokenByRecovery(t: Task): Task {
    if t.OnRecovery? then Ready(t.next, true) else t
  }

  function WokenByLauncher(t: Task, ok: bool): Task {
    if t.OnLauncher? then Ready(t.next, ok) else t
  }

  function RecoveryEnds(s: State): State {
    s.(core := s.core.(recovery := None), tasks := seq(|s.tasks|, i requires 0 <= i < |s.tasks| => WokenByRecovery(s.tasks[i])))
  }

  function LauncherGateEnds(s: State, ok: bool): State {
    s.(launcherGate := false, tasks := seq(|s.tasks|, i requires 0 <= i < |s.tasks| => WokenByLauncher(s.tasks[i], ok)))
  }

  // ---------------------------------------------------------------- handlers

  function Decide(s: State, h: Handler, through: bool): State {
    s.(decisions := s.decisions + [Decision(h, through, s.core.protection, s.core.leases != [])])
  }

  predicate CurrentOk(c: Core) {
    c.current.Some? ==> c.current.value < |c.leases|
  }

  function Check(s: State, h: Handler): State
    requires CurrentOk(s.core)
  {
    if s.core.protection != Blocked || s.core.current.None? then Decide(s, h, true)
    else Wait(RecoverOwnership(s, s.core.current.value), OnRecovery(Recheck(h)))
  }

  function AfterBoundary(s: State, h: Handler, ok: bool): State
    requires CurrentOk(s.core)
  {
    if h == Background then s else if !ok then Decide(s, h, false) else Check(s, h)
  }

  predicate HoldsReservation(c: Core)
    requires CurrentOk(c)
  {
    c.current.Some? && c.leases[c.current.value].pending
  }

  function StartBoundary(s: State, h: Handler): State
    requires CurrentOk(s.core)
  {
    if HoldsReservation(s.core) && s.core.protection == Protected then Wait(s, Read(s.core.current.value, Boundary(h)))
    else AfterBoundary(s, h, true)
  }

  function LauncherPassed(s: State, h: Handler): State
    requires CurrentOk(s.core)
  {
    if h == Input then Check(s, h) else StartBoundary(s, h)
  }

  function Handle(s: State, h: Handler): State
    requires CurrentOk(s.core)
  {
    if h == Background || h == ToolCall then StartBoundary(s, h)
    else if s.core.protection == Launcher then Wait(s.(launcherGate := true), OnLauncher(LauncherEnds(h)))
    else LauncherPassed(s, h)
  }

  // ---------------------------------------------------------------- heartbeat and promotion

  predicate Replaced(c: Core, lease: nat) {
    c.current != Some(lease) || c.protection != Protected
  }

  function EndBeat(s: State, controller: nat): State {
    s.(beats := s.beats.(running := false, controller := if s.beats.controller == Some(controller) then None else s.beats.controller))
  }

  predicate Stale(s: State, lease: nat, controller: nat) {
    controller in s.beats.aborted || Replaced(s.core, lease)
  }

  function BeatTail(s: State, lease: nat, controller: nat): State
    requires lease < |s.core.leases|
  {
    EndBeat(if Stale(s, lease, controller) then s else s.(core := Armed(s.core, lease)), controller)
  }

  datatype BeatReply = Granted(expires: int) | Lost | Broken

  function Extended(c: Core, lease: nat, expires: int): Core
    requires lease < |c.leases|
  {
    c.(leases := c.leases[lease := c.leases[lease].(expires := expires)])
  }

  function OnBeatReply(s: State, lease: nat, controller: nat, reply: BeatReply): State
    requires lease < |s.core.leases|
  {
    if Stale(s, lease, controller) then EndBeat(s, controller)
    else if reply.Granted? then
      var t := s.(core := Extended(s.core, lease, reply.expires));
      if s.core.leases[lease].pending then Wait(t, Read(lease, Beater(controller))) else BeatTail(t, lease, controller)
    else if reply.Lost? || s.core.now >= s.core.leases[lease].expires then
      Wait(RecoverOwnership(s, lease), OnRecovery(BeatEnds(controller)))
    else EndBeat(s, controller)
  }

  /** The catch blocks around promoteIfMaterialized ask nothing before they start a recovery. */
  function PromotionFails(s: State, lease: nat, caller: Caller): State
    requires lease < |s.core.leases|
  {
    Wait(RecoverOwnership(s, lease), OnRecovery(if caller.Beater? then BeatEnds(caller.controller) else BoundaryFails(caller.handler)))
  }

  function PromotionSettles(s: State, lease: nat, caller: Caller, ok: bool): State
    requires lease < |s.core.leases| && CurrentOk(s.core)
  {
    if caller.Beater? then BeatTail(s, lease, caller.controller) else AfterBoundary(s, caller.handler, ok)
  }

  /** The session file holds the lease's id, does not exist, holds another id, or cannot be read. */
  datatype Found = Same | Missing | Different | Unreadable

  function OnRead(s: State, lease: nat, caller: Caller, found: Found): State
    requires lease < |s.core.leases| && CurrentOk(s.core)
  {
    match found
    case Missing => PromotionSettles(s, lease, caller, true)
    case Same => Wait(s, Promote(lease, caller))
    case _ => PromotionFails(s, lease, caller)
  }

  function Confirmed(c: Core, lease: nat, expires: int): Core
    requires lease < |c.leases|
  {
    Armed(c.(leases := c.leases[lease := Lease(false, expires)]), lease)
  }

  /** None: the request failed. */
  function OnPromoted(s: State, lease: nat, caller: Caller, reply: Option<int>): State
    requires lease < |s.core.leases| && CurrentOk(s.core)
  {
    if reply.None? then PromotionFails(s, lease, caller)
    else if Replaced(s.core, lease) then PromotionSettles(s, lease, caller, false)
    else PromotionSettles(s.(core := Confirmed(s.core, lease, reply.value)), lease, caller, true)
  }

  function OnReady(s: State, next: Then, ok: bool): State
    requires CurrentOk(s.core)
  {
    match next
    case BeatEnds(controller) => EndBeat(s, controller)
    case BoundaryFails(h) => AfterBoundary(s, h, s.core.protection == Protected && !HoldsReservation(s.core))
    case Recheck(h) => Decide(s, h, s.core.protection != Blocked)
    case LauncherEnds(h) => if ok then LauncherPassed(s, h) else Decide(s, h, false)
  }

  // ---------------------------------------------------------------- steps

  datatype Answer = Claimed(expires: int) | Continue | Cancelled

  /** Adopt: a prepared lease is waiting.  Unguarded: the user chose so before the switch.  Look: neither. */
  datatype Start = Adopt(expires: int) | Unguarded | Look

  datatype Step =
    | Tick(to: int)
    | SessionStart(start: Start)
    | StartRead(found: Found)
    | StartAnswer(answer: Answer)
    | Event(handler: Handler)
    | LauncherAnswer(answer: Answer)
    | HeartbeatTick
    | ExpiryFires
    | BeatDone(task: nat, reply: BeatReply)
    | ReadDone(task: nat, found: Found)
    | PromoteDone(task: nat, granted: Option<int>)
    | RecoveryRead(found: Found)
    | RecoveryAnswer(answer: Answer)
    | RecoveryReleased
    | Resume(task: nat)
    | Shutdown

  predicate AtGate(c: Core) {
    c.recovery.Some? && c.recovery.value.phase.Gate?
  }

  predicate TaskOk(t: Task, c: Core) {
    t.Beat? || t.Read? || t.Promote? ==> t.lease < |c.leases|
  }

  predicate Possible(s: State, step: Step) {
    && !s.ended && CurrentOk(s.core)
    && match step
       case Tick(to) => to >= s.core.now && (s.core.expiry.Some? ==> to <= s.core.expiry.value.deadline)
       case SessionStart(_) => s.startup == NotStarted
       case StartRead(_) => s.startup == Checking
       case StartAnswer(_) => s.startup == Asking
       case Event(_) => true
       case LauncherAnswer(answer) => s.launcherGate && answer != Continue
       case HeartbeatTick => s.core.heartbeat.Some? && s.core.heartbeat.value < |s.core.leases|
       case ExpiryFires => s.core.expiry.Some? && s.core.now >= s.core.expiry.value.deadline && s.core.expiry.value.lease < |s.core.leases|
       case BeatDone(i, reply) =>
         // the server never moves an expiry backwards
         && i < |s.tasks| && s.tasks[i].Beat? && TaskOk(s.tasks[i], s.core)
         && (reply.Granted? ==> reply.expires >= s.core.leases[s.tasks[i].lease].expires)
       case ReadDone(i, _) => i < |s.tasks| && s.tasks[i].Read? && TaskOk(s.tasks[i], s.core)
       case PromoteDone(i, _) => i < |s.tasks| && s.tasks[i].Promote? && TaskOk(s.tasks[i], s.core)
       case RecoveryRead(_) => s.core.recovery.Some? && s.core.recovery.value.phase.Reading?
       case RecoveryAnswer(answer) => AtGate(s.core) && (answer == Continue ==> s.core.recovery.value.phase.mode == Recovering)
       case RecoveryReleased => s.core.recovery.Some? && s.core.recovery.value.phase.Releasing?
       case Resume(i) => i < |s.tasks| && s.tasks[i].Ready?
       case Shutdown => true
  }

  function Drop(s: State, i: nat): State
    requires i < |s.tasks|
  {
    s.(tasks := s.tasks[..i] + s.tasks[i + 1..])
  }

  function OnStart(s: State, start: Start): State {
    match start
    case Adopt(expires) => StartHeartbeat(s, Lease(false, expires)).(startup := Over)
    case Unguarded => SetUnprotected(s).(startup := Over)
    case Look => s.(startup := Checking)
  }

  function OnStartAnswer(s: State, answer: Answer): State {
    match answer
    case Claimed(expires) => StartHeartbeat(s, Lease(false, expires)).(startup := Over)
    case Continue => SetUnprotected(s).(startup := Over)
    case Cancelled => s.(startup := Over)
  }

  function OnLauncherAnswer(s: State, answer: Answer): State {
    if answer.Claimed? then LauncherGateEnds(StartHeartbeat(s, Lease(true, answer.expires)), true)
    else LauncherGateEnds(s, false)
  }

  function OnHeartbeatTick(s: State): State
    requires s.core.heartbeat.Some?
  {
    var lease := s.core.heartbeat.value;
    if s.beats.running || Replaced(s.core, lease) then s
    else
      var id := s.beats.made;
      Wait(s.(beats := s.beats.(running := true, controller := Some(id), made := id + 1)), Beat(lease, id))
  }

  function OnExpiry(s: State): State
    requires s.core.expiry.Some? && s.core.expiry.value.lease < |s.core.leases|
  {
    var lease := s.core.expiry.value.lease;
    var t := s.(core := s.core.(expiry := None));
    if Replaced(s.core, lease) then t else RecoverOwnership(t, lease)
  }

  function AtPhase(s: State, phase: Phase): State
    requires s.core.recovery.Some?
  {
    s.(core := s.core.(recovery := Some(s.core.recovery.value.(phase := phase))))
  }

  function OnRecoveryRead(s: State, found: Found): State
    requires s.core.recovery.Some?
  {
    match found
    case Same => AtPhase(s, Gate(Promoting))
    case Missing => AtPhase(s, Gate(Reserving))
    case Unreadable => AtPhase(s, Gate(Promoting))
    case Different => RecoveryEnds(s)
  }

  function OnRecoveryAnswer(s: State, answer: Answer): State
    requires AtGate(s.core)
  {
    match answer
    case Claimed(expires) => RecoveryEnds(StartHeartbeat(s, Lease(s.core.recovery.value.phase.mode == Reserving, expires)))
    case Continue =>
      s.(core := s.core.(recovery := Some(s.core.recovery.value.(phase := Releasing)),
                         released := s.core.released + [s.core.recovery.value.lease]))
    case Cancelled => RecoveryEnds(s)
  }

  function OnShutdown(s: State): State {
    var t := StopHeartbeat(s);
    t.(core := t.core.(current := None, released := if s.core.current.Some? then s.core.released + [s.core.current.value] else s.core.released),
       ended := true)
  }

  function Next(s: State, step: Step): State
    requires Possible(s, step)
  {
    match step
    case Tick(to) => s.(core := s.core.(now := to))
    case SessionStart(start) => OnStart(s, start)
    case StartRead(found) => if found.Missing? then s.(startup := Over, core := s.core.(protection := Launcher)) else s.(startup := Asking)
    case StartAnswer(answer) => OnStartAnswer(s, answer)
    case Event(h) => Handle(s, h)
    case LauncherAnswer(answer) => OnLauncherAnswer(s, answer)
    case HeartbeatTick => OnHeartbeatTick(s)
    case ExpiryFires => OnExpiry(s)
    case BeatDone(i, reply) => OnBeatReply(Drop(s, i), s.tasks[i].lease, s.tasks[i].controller, reply)
    case ReadDone(i, found) => OnRead(Drop(s, i), s.tasks[i].lease, s.tasks[i].caller, found)
    case PromoteDone(i, granted) => OnPromoted(Drop(s, i), s.tasks[i].lease, s.tasks[i].caller, granted)
    case RecoveryRead(found) => OnRecoveryRead(s, found)
    case RecoveryAnswer(answer) => OnRecoveryAnswer(s, answer)
    case RecoveryReleased => RecoveryEnds(SetUnprotected(s))
    case Resume(i) => OnReady(Drop(s, i), s.tasks[i].next, s.tasks[i].ok)
    case Shutdown => OnShutdown(s)
  }

  ghost predicate Reaches(s: State, steps: seq<Step>, t: State)
    decreases |steps|
  {
    if steps == [] then s == t else Possible(s, steps[0]) && Reaches(Next(s, steps[0]), steps[1..], t)
  }
}
