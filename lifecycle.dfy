/** The lifecycle of one soft knuckles device, abstracted from the class to
    the three facts its operations test and set: whether the device has been
    activated (m_activated), whether its publisher should run (m_running), and
    whether the std::thread slot m_pose_thread holds a joinable thread.

    Assigning a new std::thread to a slot that still holds a joinable one calls
    std::terminate, so "every spawn goes into an empty slot" is what makes a
    device own at most one publisher thread. */
module Lifecycle {
  import opened OpenVr

  datatype Slot = Slot(activated: bool, running: bool, joinable: bool)

  /** The lifecycle operations of the device's public interface */
  datatype Op = Activate | Deactivate | EnterStandby | Reactivate

  /** The state the constructor leaves */
  const Initial: Slot := Slot(false, false, false)

  /** The device's object invariant: the running flag is set exactly when the
      slot holds a publisher thread. */
  predicate OnePublisher(s: Slot) {
    s.running == s.joinable
  }

  /** Deactivate and EnterStandby share this body: when running, clear the
      flag and join the publisher; otherwise do nothing. */
  function Stop(s: Slot): (r: Slot)
    ensures !r.running && r.activated == s.activated
    ensures !s.running ==> r == s
    ensures OnePublisher(s) ==> !r.joinable && OnePublisher(r)
  {
    if s.running then Slot(s.activated, false, false) else s
  }

  /** Reactivate: start a publisher unless one is running */
  function Restart(s: Slot): (r: Slot)
    ensures r.running && r.activated == s.activated
    ensures s.running ==> r == s
    ensures OnePublisher(s) ==> r.joinable && OnePublisher(r)
  {
    if s.running then s else Slot(s.activated, true, true)
  }

  /** Activate, guarded the way Reactivate is: a first Activate marks the
      device activated and running, and starts a publisher only when none is
      running; a second Activate changes nothing. */
  function ActivateGuarded(s: Slot): (r: Slot)
    ensures s.activated ==> r == s
    ensures !s.activated ==> r.activated && r.running
    ensures OnePublisher(s) ==> OnePublisher(r)
  {
    if s.activated then s
    else Slot(true, true, if s.running then s.joinable else true)
  }

  /** Activate as the source writes it: it never looks at m_running, so it
      assigns a new thread even when Reactivate already started one. */
  function ActivateAsWritten(s: Slot): Slot
  {
    if s.activated then s else Slot(true, true, true)
  }

  /** The status Activate returns: VRInitError_Driver_Failed on a second call */
  function ActivateStatus(s: Slot): (e: InitError)
    ensures e == DriverFailed <==> s.activated
  {
    if s.activated then DriverFailed else InitErrorNone
  }

  function Step(s: Slot, op: Op): Slot
  {
    match op
    case Activate => ActivateGuarded(s)
    case Deactivate => Stop(s)
    case EnterStandby => Stop(s)
    case Reactivate => Restart(s)
  }

  /** Whether op, applied in s, assigns a new thread to the slot */
  function Spawns(s: Slot, op: Op): bool
  {
    match op
    case Activate => !s.activated && !s.running
    case Reactivate => !s.running
    case _ => false
  }

  function Run(s: Slot, ops: seq<Op>): Slot
    decreases |ops|
  {
    if ops == [] then s else Run(Step(s, ops[0]), ops[1..])
  }

  /** No operation of the trace assigns a thread to a slot that is still joinable */
  predicate SpawnsOnlyIntoEmptySlot(s: Slot, ops: seq<Op>)
    decreases |ops|
  {
    ops == [] ||
    ((Spawns(s, ops[0]) ==> !s.joinable) && SpawnsOnlyIntoEmptySlot(Step(s, ops[0]), ops[1..]))
  }

  /** The invariant holds after any sequence of lifecycle operations. */
  lemma {:induction false} RunKeepsOnePublisher(s: Slot, ops: seq<Op>)
    requires OnePublisher(s)
    ensures OnePublisher(Run(s, ops))
    decreases |ops|
  {
    if ops != [] {
      RunKeepsOnePublisher(Step(s, ops[0]), ops[1..]);
    }
  }

  /** From any state satisfying the invariant, no sequence of operations ever
      assigns a publisher thread over a live one: a device owns at most one
      publisher at a time. */
  lemma {:induction false} NeverSpawnsOverLiveThread(s: Slot, ops: seq<Op>)
    requires OnePublisher(s)
    ensures SpawnsOnlyIntoEmptySlot(s, ops)
    decreases |ops|
  {
    if ops != [] {
      NeverSpawnsOverLiveThread(Step(s, ops[0]), ops[1..]);
    }
  }

  /** Nothing clears m_activated: once a device is activated, Activate fails
      after any sequence of operations, Deactivate and EnterStandby included. */
  lemma {:induction false} ActivationIsPermanent(s: Slot, ops: seq<Op>)
    requires s.activated
    ensures Run(s, ops).activated
    ensures ActivateStatus(Run(s, ops)) == DriverFailed
    decreases |ops|
  {
    if ops != [] {
      ActivationIsPermanent(Step(s, ops[0]), ops[1..]);
    }
  }

  /** Deactivate and EnterStandby are idempotent, and so is Reactivate */
  lemma StopAndRestartAreIdempotent(s: Slot)
    ensures Stop(Stop(s)) == Stop(s)
    ensures Restart(Restart(s)) == Restart(s)
  {
  }

  /** After a trace that ends with Deactivate or EnterStandby, no publisher is
      running and none is left joinable. */
  lemma {:induction false} StopLeavesNoPublisher(s: Slot, ops: seq<Op>, last: Op)
    requires OnePublisher(s)
    requires last == Deactivate || last == EnterStandby
    ensures !Run(s, ops + [last]).running && !Run(s, ops + [last]).joinable
    decreases |ops|
  {
    if ops == [] {
      assert Run(s, [last]) == Run(Step(s, last), []);
    } else {
      assert (ops + [last])[1..] == ops[1..] + [last];
      StopLeavesNoPublisher(Step(s, ops[0]), ops[1..], last);
    }
  }

  // ---- The source's Activate, which does not guard the thread assignment ----

  function StepAsWritten(s: Slot, op: Op): Slot
  {
    if op == Activate then ActivateAsWritten(s) else Step(s, op)
  }

  function SpawnsAsWritten(s: Slot, op: Op): bool
  {
    if op == Activate then !s.activated else Spawns(s, op)
  }

  function RunAsWritten(s: Slot, ops: seq<Op>): Slot
    decreases |ops|
  {
    if ops == [] then s else RunAsWritten(StepAsWritten(s, ops[0]), ops[1..])
  }

  /** On a freshly constructed device, Reactivate followed by Activate makes the
      unguarded Activate assign a second thread to a slot whose thread is still
      joinable. */
  lemma ReactivateThenActivateAssignsOverLiveThread()
    ensures var s := StepAsWritten(Initial, Reactivate);
            s.joinable && SpawnsAsWritten(s, Activate)
  {
  }

  /** Only a Reactivate before the first Activate tells the two apart: from a
      state where an inactive device is not running, every trace without
      Reactivate (the only traces the provider produces) ends in the same
      state under both, and the unguarded Activate spawns exactly when the
      guarded one does. */
  lemma {:induction false} AsWrittenAgreesWithoutReactivate(s: Slot, ops: seq<Op>)
    requires !s.activated ==> !s.running
    requires forall i :: 0 <= i < |ops| ==> ops[i] != Reactivate
    ensures RunAsWritten(s, ops) == Run(s, ops)
    ensures forall i :: 0 <= i < |ops| ==>
              SpawnsAsWritten(Run(s, ops[..i]), ops[i]) == Spawns(Run(s, ops[..i]), ops[i])
    decreases |ops|
  {
    if ops != [] {
      var t := Step(s, ops[0]);
      AsWrittenAgreesWithoutReactivate(t, ops[1..]);
      forall i | 0 <= i < |ops|
        ensures SpawnsAsWritten(Run(s, ops[..i]), ops[i]) == Spawns(Run(s, ops[..i]), ops[i])
      {
        if i > 0 {
          assert ops[..i][1..] == ops[1..][..i - 1];
          assert ops[i] == ops[1..][i - 1];
        }
      }
    }
  }
}
