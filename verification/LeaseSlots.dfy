/**
 * The two slots that carry a lease from one runtime to the next in
 * config/extensions/00-session-ownership.ts.
 */
module LeaseSlots {
  import opened Basics

  /** A lease as the gate of /resume obtained it; the token is its own. */
  datatype Lease = Lease(token: nat, sessionId: string, sessionFile: string, expires: int)

  /** With the release timer armed for `deadline`. */
  datatype Slot = Slot(lease: Lease, placedAt: int, deadline: int)

  datatype Adoption = Adoption(lease: Lease, sessionId: string, at: int)

  datatype Shared = Shared(
    now: int,
    prepared: Option<Slot>,
    handoff: Option<Slot>,
    unprotected: Option<string>,
    placed: seq<Lease>,
    adopted: seq<Adoption>,
    released: seq<Lease>)

  const Init := Shared(0, None, None, None, [], [], [])

  const PreparedLeaseMax := 30_000

  function Min(a: int, b: int): int { if a <= b then a else b }
  function Max(a: int, b: int): int { if a >= b then a else b }

  function Deadline(lease: Lease, now: int): int {
    now + Min(PreparedLeaseMax, Max(0, lease.expires - now))
  }

  function ReleaseOf(slot: Option<Slot>): seq<Lease> {
    if slot.Some? then [slot.value.lease] else []
  }

  /** The /resume gate claimed a lease. */
  function DoPrepare(s: Shared, lease: Lease): Shared {
    s.(prepared := Some(Slot(lease, s.now, Deadline(lease, s.now))), handoff := None,
       placed := s.placed + [lease], released := s.released + ReleaseOf(s.prepared) + ReleaseOf(s.handoff))
  }

  /** A release timer fires: it looks for its lease in both slots. */
  function DoTimer(s: Shared, lease: Lease): Shared {
    if s.prepared.Some? && s.prepared.value.lease == lease then s.(prepared := None, released := s.released + [lease])
    else if s.handoff.Some? && s.handoff.value.lease == lease then s.(handoff := None, released := s.released + [lease])
    else s
  }

  predicate Names(slot: Option<Slot>, sessionId: string) {
    slot.Some? && slot.value.lease.sessionId == sessionId
  }

  /** What a starting session finds. */
  datatype Found = AdoptedLease(lease: Lease) | ContinueUnprotected | Nothing

  function StartFinds(s: Shared, sessionId: string): Found {
    if Names(s.handoff, sessionId) || Names(s.prepared, sessionId) then
      if s.handoff.Some? then AdoptedLease(s.handoff.value.lease) else AdoptedLease(s.prepared.value.lease)
    else if s.unprotected == Some(sessionId) then ContinueUnprotected
    else Nothing
  }

  function DoStart(s: Shared, sessionId: string): Shared {
    match StartFinds(s, sessionId)
    case AdoptedLease(lease) =>
      var t := s.(adopted := s.adopted + [Adoption(lease, sessionId, s.now)]);
      if s.handoff.Some? then t.(handoff := None) else t.(prepared := None)
    case ContinueUnprotected => s.(unprotected := None)
    case Nothing => s
  }

  predicate IsHandoff(s: Shared, resume: bool, target: Option<string>) {
    resume && s.prepared.Some? && target == Some(s.prepared.value.lease.sessionFile)
  }

  /** Shutdown up to its release of an orphan: a /resume destination moves over, anything else is let go. */
  function DoHandOver(s: Shared, resume: bool, target: Option<string>): Shared {
    if IsHandoff(s, resume, target) then s.(handoff := s.prepared, prepared := None)
    else s.(prepared := None, released := s.released + ReleaseOf(s.prepared))
  }

  /** The rest of a shutdown that handed nothing over. */
  function DoDropHandoff(s: Shared): Shared {
    s.(handoff := None, released := s.released + ReleaseOf(s.handoff))
  }

  datatype Step =
    | Tick(to: int)
    | Prepare(lease: Lease)
    | ChooseUnprotected(sessionId: string)
    | TimerFires(lease: Lease)
    | Start(sessionId: string)
    | HandOver(resume: bool, target: Option<string>)
    | DropHandoff

  predicate Due(slot: Option<Slot>, lease: Lease, now: int) {
    slot.Some? && slot.value.lease == lease && slot.value.deadline <= now
  }

  predicate NotBefore(slot: Option<Slot>, to: int) {
    slot.Some? ==> to <= slot.value.deadline
  }

  /** Tokens are new, timers fire when due, and clearing a slot disarms its timer. */
  predicate Possible(s: Shared, step: Step) {
    match step
    case Tick(to) => to >= s.now && NotBefore(s.prepared, to) && NotBefore(s.handoff, to)
    case Prepare(lease) => forall i :: 0 <= i < |s.placed| ==> s.placed[i].token != lease.token
    case TimerFires(lease) => Due(s.prepared, lease, s.now) || Due(s.handoff, lease, s.now)
    case _ => true
  }

  function Next(s: Shared, step: Step): Shared
    requires Possible(s, step)
  {
    match step
    case Tick(to) => s.(now := to)
    case Prepare(lease) => DoPrepare(s, lease)
    case ChooseUnprotected(sessionId) => s.(unprotected := Some(sessionId))
    case TimerFires(lease) => DoTimer(s, lease)
    case Start(sessionId) => DoStart(s, sessionId)
    case HandOver(resume, target) => DoHandOver(s, resume, target)
    case DropHandoff => DoDropHandoff(s)
  }

  ghost predicate Reaches(s: Shared, steps: seq<Step>, t: Shared)
    decreases |steps|
  {
    if steps == [] then s == t else Possible(s, steps[0]) && Reaches(Next(s, steps[0]), steps[1..], t)
  }

  // ---------------------------------------------------------------- the shared object

  class SharedState {
    var now: int
    var prepared: Option<Slot>
    var handoff: Option<Slot>
    var continueUnprotectedSessionId: Option<string>
    ghost var placed: seq<Lease>
    ghost var adopted: seq<Adoption>
    var released: seq<Lease>

    ghost function State(): Shared
      reads this
    {
      Shared(now, prepared, handoff, continueUnprotectedSessionId, placed, adopted, released)
    }

    constructor ()
      ensures State() == Init
    {
      now, prepared, handoff, continueUnprotectedSessionId := 0, None, None, None;
      placed, adopted, released := [], [], [];
    }

    method ClearPreparedLease() returns (lease: Option<Lease>)
      modifies this`prepared
      ensures prepared == None
      ensures lease == if old(prepared).Some? then Some(old(prepared).value.lease) else None
    {
      if prepared.None? {
        return None;
      }
      lease := Some(prepared.value.lease);
      prepared := None;
    }

    method ClearHandoffLease() returns (lease: Option<Lease>)
      modifies this`handoff
      ensures handoff == None
      ensures lease == if old(handoff).Some? then Some(old(handoff).value.lease) else None
    {
      if handoff.None? {
        return None;
      }
      lease := Some(handoff.value.lease);
      handoff := None;
    }

    method ReleaseLease(lease: Lease)
      modifies this`released
      ensures released == old(released) + [lease]
    {
      released := released + [lease];
    }

    method PrepareLease(lease: Lease)
      modifies this
      ensures State() == DoPrepare(old(State()), lease)
    {
      var previous := ClearPreparedLease();
      var staleHandoff := ClearHandoffLease();
      if previous.Some? {
        ReleaseLease(previous.value);
      }
      if staleHandoff.Some? {
        ReleaseLease(staleHandoff.value);
      }
      var remaining := Max(0, lease.expires - now);
      prepared := Some(Slot(lease, now, now + Min(PreparedLeaseMax, remaining)));
      placed := placed + [lease];
    }

    method OnReleaseTimer(lease: Lease)
      modifies this
      ensures State() == DoTimer(old(State()), lease)
    {
      if prepared.Some? && prepared.value.lease == lease {
        prepared := None;
      } else if handoff.Some? && handoff.value.lease == lease {
        handoff := None;
      } else {
        return;
      }
      ReleaseLease(lease);
    }

    method OnSessionStart(sessionId: string) returns (found: Found)
      modifies this
      ensures found == StartFinds(old(State()), sessionId)
      ensures State() == DoStart(old(State()), sessionId)
    {
      if Names(handoff, sessionId) || Names(prepared, sessionId) {
        var lease := ClearHandoffLease();
        if lease.None? {
          lease := ClearPreparedLease();
        }
        adopted := adopted + [Adoption(lease.value, sessionId, now)];
        return AdoptedLease(lease.value);
      }
      if continueUnprotectedSessionId == Some(sessionId) {
        continueUnprotectedSessionId := None;
        return ContinueUnprotected;
      }
      found := Nothing;
    }

    /** Up to the release of an orphan. */
    method OnSessionShutdown(resume: bool, targetSessionFile: Option<string>) returns (isResumeHandoff: bool)
      modifies this
      ensures isResumeHandoff == IsHandoff(old(State()), resume, targetSessionFile)
      ensures State() == DoHandOver(old(State()), resume, targetSessionFile)
    {
      isResumeHandoff := resume && prepared.Some? && targetSessionFile == Some(prepared.value.lease.sessionFile);
      if isResumeHandoff {
        handoff := prepared;
        prepared := None;
      }
      var orphan := ClearPreparedLease();
      if orphan.Some? {
        ReleaseLease(orphan.value);
      }
    }

    /** After it, unless a lease was handed over. */
    method OnOrphanReleased()
      modifies this
      ensures State() == DoDropHandoff(old(State()))
    {
      var staleHandoff := ClearHandoffLease();
      if staleHandoff.Some? {
        ReleaseLease(staleHandoff.value);
      }
    }
  }

  // ---------------------------------------------------------------- what every run keeps

  predicate SlotOk(slot: Option<Slot>, now: int) {
    slot.Some? ==>
      slot.value.placedAt <= now <= slot.value.deadline && slot.value.deadline == Deadline(slot.value.lease, slot.value.placedAt)
  }

  function LeasesOf(adopted: seq<Adoption>): seq<Lease> {
    if adopted == [] then [] else LeasesOf(adopted[..|adopted| - 1]) + [adopted[|adopted| - 1].lease]
  }

  predicate OwnOnly(adopted: seq<Adoption>) {
    forall i :: 0 <= i < |adopted| ==> adopted[i].sessionId == adopted[i].lease.sessionId
  }

  ghost predicate Distinct(placed: seq<Lease>) {
    forall i, j :: 0 <= i < j < |placed| ==> placed[i].token != placed[j].token
  }

  /** Everything placed is in one slot, or was adopted or released. */
  ghost predicate Conserved(s: Shared) {
    multiset(s.placed)
      == multiset(ReleaseOf(s.prepared)) + multiset(ReleaseOf(s.handoff)) + multiset(LeasesOf(s.adopted)) + multiset(s.released)
  }

  ghost predicate Inv(s: Shared) {
    && !(s.prepared.Some? && s.handoff.Some?)
    && SlotOk(s.prepared, s.now) && SlotOk(s.handoff, s.now)
    && OwnOnly(s.adopted) && Distinct(s.placed) && Conserved(s)
  }

  lemma AdoptedSnoc(adopted: seq<Adoption>, a: Adoption)
    ensures LeasesOf(adopted + [a]) == LeasesOf(adopted) + [a.lease]
  {
    assert (adopted + [a])[..|adopted|] == adopted;
  }

  lemma PrepareInv(s: Shared, lease: Lease)
    requires Inv(s) && Possible(s, Prepare(lease))
    ensures Inv(DoPrepare(s, lease))
  {
  }

  lemma TimerInv(s: Shared, lease: Lease)
    requires Inv(s)
    ensures Inv(DoTimer(s, lease))
  {
  }

  lemma AdoptConserves(s: Shared, a: Adoption)
    requires Conserved(s)
    ensures s.handoff.Some? && a.lease == s.handoff.value.lease ==> Conserved(s.(adopted := s.adopted + [a], handoff := None))
    ensures s.prepared.Some? && a.lease == s.prepared.value.lease ==> Conserved(s.(adopted := s.adopted + [a], prepared := None))
  {
    AdoptedSnoc(s.adopted, a);
  }

  /** With one slot empty, the lease found is the one the session was looking for. */
  lemma StartInv(s: Shared, sessionId: string)
    requires Inv(s)
    ensures Inv(DoStart(s, sessionId))
    ensures StartFinds(s, sessionId).AdoptedLease? ==> StartFinds(s, sessionId).lease.sessionId == sessionId
  {
    hide Distinct, LeasesOf, Deadline, Conserved;
    if StartFinds(s, sessionId).AdoptedLease? {
      AdoptConserves(s, Adoption(StartFinds(s, sessionId).lease, sessionId, s.now));
    } else {
      SameConserved(s, None);
    }
  }

  lemma SameConserved(s: Shared, unprotected: Option<string>)
    ensures Conserved(s.(unprotected := unprotected)) <==> Conserved(s)
  {
  }

  lemma HandOverInv(s: Shared, resume: bool, target: Option<string>)
    requires Inv(s)
    ensures Inv(DoHandOver(s, resume, target)) && Inv(DoDropHandoff(s))
  {
  }

  lemma NextInv(s: Shared, step: Step)
    requires Inv(s) && Possible(s, step)
    ensures Inv(Next(s, step))
  {
    match step
    case Tick(to) =>
    case Prepare(lease) => PrepareInv(s, lease);
    case ChooseUnprotected(sessionId) =>
    case TimerFires(lease) => TimerInv(s, lease);
    case Start(sessionId) => StartInv(s, sessionId);
    case HandOver(resume, target) => HandOverInv(s, resume, target);
    case DropHandoff => HandOverInv(s, false, None);
  }

  lemma {:induction false} RunInv(s: Shared, steps: seq<Step>, t: Shared)
    requires Inv(s) && Reaches(s, steps, t)
    ensures Inv(t)
    decreases |steps|
  {
    if steps != [] {
      NextInv(s, steps[0]);
      RunInv(Next(s, steps[0]), steps[1..], t);
    }
  }

  lemma InitInv()
    ensures Inv(Init)
  {
  }

  /** Never two leases in the slots, and a session only ever adopts its own. */
  lemma SlotsAreExclusive(steps: seq<Step>, s: Shared)
    requires Reaches(Init, steps, s)
    ensures !(s.prepared.Some? && s.handoff.Some?) && OwnOnly(s.adopted)
    ensures forall sessionId :: StartFinds(s, sessionId).AdoptedLease? ==> StartFinds(s, sessionId).lease.sessionId == sessionId
  {
    InitInv();
    RunInv(Init, steps, s);
  }

  /** Past its thirty seconds, or past its expiry, a lease is in no slot. */
  lemma SlotsEmptyInTime(steps: seq<Step>, s: Shared, slot: Slot)
    requires Reaches(Init, steps, s) && (s.prepared == Some(slot) || s.handoff == Some(slot))
    ensures slot.placedAt <= s.now <= slot.placedAt + 30_000
    ensures s.now <= slot.lease.expires || s.now == slot.placedAt
  {
    InitInv();
    RunInv(Init, steps, s);
  }

  function Count(leases: seq<Lease>, lease: Lease): nat {
    multiset(leases)[lease]
  }

  lemma {:induction false} DistinctOnce(placed: seq<Lease>, lease: Lease)
    requires Distinct(placed)
    ensures Count(placed, lease) == if lease in placed then 1 else 0
  {
    if placed != [] {
      var n := |placed| - 1;
      assert placed == placed[..n] + [placed[n]];
      DistinctOnce(placed[..n], lease);
      assert forall i :: 0 <= i < n ==> placed[i].token != placed[n].token;
    }
  }

  /** A lease that was placed is in one slot or has left it once, adopted or released; no other lease is met. */
  lemma LeavesOnce(steps: seq<Step>, s: Shared, lease: Lease)
    requires Reaches(Init, steps, s)
    ensures Count(ReleaseOf(s.prepared), lease) + Count(ReleaseOf(s.handoff), lease)
            + Count(LeasesOf(s.adopted), lease) + Count(s.released, lease)
         == if lease in s.placed then 1 else 0
  {
    InitInv();
    RunInv(Init, steps, s);
    DistinctOnce(s.placed, lease);
    assert multiset(s.placed)[lease]
        == (multiset(ReleaseOf(s.prepared)) + multiset(ReleaseOf(s.handoff)) + multiset(LeasesOf(s.adopted)) + multiset(s.released))[lease];
  }

  // ---------------------------------------------------------------- what becomes of a prepared lease

  /** The lease is in a slot, for the next session with its id. */
  predicate Waits(s: Shared, lease: Lease) {
    (s.prepared.Some? && s.prepared.value.lease == lease) || (s.handoff.Some? && s.handoff.value.lease == lease)
  }

  /** Steps that do not concern a waiting lease: no newer one, no timer of its own, no start of its session, and no runtime that gives it up. */
  predicate LeavesWaiting(s: Shared, step: Step, lease: Lease) {
    match step
    case Prepare(_) => false
    case TimerFires(fired) => fired != lease
    case Start(sessionId) => sessionId != lease.sessionId
    case HandOver(resume, target) => s.prepared.None? || (resume && target == Some(lease.sessionFile))
    case DropHandoff => s.handoff.None?
    case _ => true
  }

  ghost predicate AllLeaveWaiting(s: Shared, steps: seq<Step>, lease: Lease)
    decreases |steps|
  {
    steps != [] ==> Possible(s, steps[0]) && LeavesWaiting(s, steps[0], lease) && AllLeaveWaiting(Next(s, steps[0]), steps[1..], lease)
  }

  lemma StaysWaiting(s: Shared, step: Step, lease: Lease)
    requires Inv(s) && Possible(s, step) && Waits(s, lease) && LeavesWaiting(s, step, lease)
    ensures Waits(Next(s, step), lease)
  {
    hide Distinct, LeasesOf, Deadline, Conserved;
  }

  lemma {:induction false} WaitsThrough(s: Shared, steps: seq<Step>, t: Shared, lease: Lease)
    requires Inv(s) && Reaches(s, steps, t) && AllLeaveWaiting(s, steps, lease) && Waits(s, lease)
    ensures Inv(t) && Waits(t, lease)
    decreases |steps|
  {
    hide Inv, Waits, LeavesWaiting, Next, Possible;
    if steps != [] {
      NextInv(s, steps[0]);
      StaysWaiting(s, steps[0], lease);
      WaitsThrough(Next(s, steps[0]), steps[1..], t, lease);
    }
  }

  /**
   * A lease that the gate of a resume claimed is adopted by the next start of its session, through the handover
   * of the old runtime to its file and whatever else happens, unless its timer fires, another lease is prepared,
   * or a runtime shuts down for another reason.
   */
  lemma PreparedIsAdopted(before: seq<Step>, s: Shared, lease: Lease, steps: seq<Step>, t: Shared)
    requires Reaches(Init, before, s) && Possible(s, Prepare(lease))
    requires Reaches(Next(s, Prepare(lease)), steps, t) && AllLeaveWaiting(Next(s, Prepare(lease)), steps, lease)
    ensures StartFinds(t, lease.sessionId) == AdoptedLease(lease)
    ensures var u := Next(t, Start(lease.sessionId));
            && u.adopted == t.adopted + [Adoption(lease, lease.sessionId, t.now)]
            && u.prepared.None? && u.handoff.None? && u.released == t.released
  {
    InitInv();
    RunInv(Init, before, s);
    NextInv(s, Prepare(lease));
    WaitsThrough(Next(s, Prepare(lease)), steps, t, lease);
  }

  /** Its timer is due after thirty seconds or at its expiry, whichever is first, and at once if it has run out. */
  lemma PreparedUntil(s: Shared, lease: Lease)
    requires Possible(s, Prepare(lease))
    ensures var slot := Next(s, Prepare(lease)).prepared;
            && slot.Some? && slot.value.lease == lease && slot.value.placedAt == s.now
            && (lease.expires >= s.now + 30_000 ==> slot.value.deadline == s.now + 30_000)
            && (s.now <= lease.expires <= s.now + 30_000 ==> slot.value.deadline == lease.expires)
            && (lease.expires <= s.now ==> slot.value.deadline == s.now)
  {
  }

  /** The handover of a resume to the prepared lease's file keeps it for the next runtime, and nothing is released. */
  lemma ResumeHandsOver(before: seq<Step>, s: Shared, slot: Slot)
    requires Reaches(Init, before, s) && s.prepared == Some(slot)
    ensures var t := Next(s, HandOver(true, Some(slot.lease.sessionFile)));
            t.handoff == Some(slot) && t.prepared.None? && t.released == s.released
    ensures StartFinds(Next(s, HandOver(true, Some(slot.lease.sessionFile))), slot.lease.sessionId) == AdoptedLease(slot.lease)
  {
    InitInv();
    RunInv(Init, before, s);
  }

  /** Any other shutdown gives both slots back. */
  lemma OtherShutdownsRelease(before: seq<Step>, s: Shared, resume: bool, target: Option<string>)
    requires Reaches(Init, before, s)
    requires !resume || s.prepared.None? || target != Some(s.prepared.value.lease.sessionFile)
    ensures var t := Next(Next(s, HandOver(resume, target)), DropHandoff);
            && t.prepared.None? && t.handoff.None? && t.adopted == s.adopted
            && Next(s, HandOver(resume, target)).handoff == s.handoff
            && (s.prepared.Some? ==> t.released == s.released + [s.prepared.value.lease])
            && (s.handoff.Some? ==> t.released == s.released + [s.handoff.value.lease])
            && (s.prepared.None? && s.handoff.None? ==> t.released == s.released)
  {
    hide Reaches, Inv, Names, StartFinds;
    SlotsAreExclusive(before, s);
    NothingToRelease(s);
  }

  lemma NothingToRelease(s: Shared)
    ensures s.prepared.None? ==> s.released + ReleaseOf(s.prepared) == s.released
    ensures s.handoff.None? ==> s.released + ReleaseOf(s.handoff) == s.released
  {
  }

  /** A timer that fires gives its lease back, a user's choice to go on without is taken once, by the session chosen. */
  lemma TimersAndChoices(before: seq<Step>, s: Shared, lease: Lease, sessionId: string)
    requires Reaches(Init, before, s)
    ensures Possible(s, TimerFires(lease)) ==>
              var t := Next(s, TimerFires(lease));
              !Waits(t, lease) && t.released == s.released + [lease] && t.adopted == s.adopted
    ensures s.prepared.None? && s.handoff.None? ==>
              var t := Next(s, ChooseUnprotected(sessionId));
              && StartFinds(t, sessionId) == ContinueUnprotected
              && (forall other :: other != sessionId ==> StartFinds(t, other) == Nothing)
              && StartFinds(Next(t, Start(sessionId)), sessionId) == Nothing
  {
    hide Reaches, Inv;
    SlotsAreExclusive(before, s);
  }
}
