/**
 The driver-monitoring policy: how awareness is spent and restored, which policy counts it down,
 and when repeated offences lock the driver out. What the camera model and the car report is a
 `Frame`, arbitrary at every step; awareness is a real number.
 */
module DriverMonitoring {
  import opened Reals

  const DT_DMON := 0.05
  const RECOVERY_FACTOR_MAX := 5.0
  const RECOVERY_FACTOR_MIN := 1.25
  const MAX_ALERT_3 := 2
  const MAX_NO_RESPONSE := 1
  const AWARENESS_FLOOR := -0.1
  /** Five seconds of steps. */
  const NO_RESPONSE_TIMEOUT := 100
  /** One, five, fifteen and thirty minutes of steps. */
  const LOCKOUT_TIMES: seq<nat> := [1200, 6000, 18000, 36000]

  datatype Policy = Vision | Wheeltouch

  datatype AlertLevel = NoAlert | One | Two | Three

  /** Seconds of distraction until each alert. */
  datatype Timeouts = Timeouts(alert1: real, alert2: real, alert3: real)

  function TimeoutsOf(policy: Policy): (t: Timeouts)
    ensures 0.0 < t.alert1 < t.alert2 < t.alert3
  {
    match policy
    case Vision => Timeouts(5.0, 8.0, 13.0)
    case Wheeltouch => Timeouts(5.0, 15.0, 25.0)
  }

  function Threshold1(policy: Policy): real {
    1.0 - TimeoutsOf(policy).alert1 / TimeoutsOf(policy).alert3
  }

  function Threshold2(policy: Policy): real {
    1.0 - TimeoutsOf(policy).alert2 / TimeoutsOf(policy).alert3
  }

  function StepOf(policy: Policy): real {
    DT_DMON / TimeoutsOf(policy).alert3
  }

  /** What one step is given: the camera's findings (`complete` when its message was complete) and the car's state. */
  datatype Frame = Frame(
    complete: bool, faceDetected: bool, lowStd: bool, distracted: bool, filtered: real, uncertain: bool,
    alwaysOn: bool, driverEngaged: bool, opEngaged: bool, lowspeed: bool, wrongGear: bool)

  datatype State = State(
    awareness: real, lastVision: real, lastWheeltouch: real,
    policy: Policy, stepChange: real, threshold1: real, threshold2: real,
    alert: AlertLevel, alert3Cnt: nat, cntSinceAlert3: nat, noResponseCnt: nat,
    lockoutActive: bool, lockoutCount: nat, lockoutDuration: nat, lockoutElapsed: nat)

  function LockoutTime(count: nat): (d: nat)
    ensures d in LOCKOUT_TIMES
  {
    if count <= 1 then LOCKOUT_TIMES[0] else if count >= 4 then LOCKOUT_TIMES[3] else LOCKOUT_TIMES[count - 1]
  }

  // ----- One step as a function -----

  function ResetAwareness(s: State): State {
    s.(awareness := 1.0, lastVision := 1.0, lastWheeltouch := 1.0)
  }

  /** Turning to a policy: its thresholds and step, and its own awareness when the other one was counting. */
  function TurnTo(s: State, target: Policy): State {
    var a := if s.policy == target then s.awareness else if target == Vision then s.lastVision else s.lastWheeltouch;
    s.(awareness := a,
       lastWheeltouch := if target == Vision && s.policy == Wheeltouch then s.awareness else s.lastWheeltouch,
       lastVision := if target == Wheeltouch && s.policy == Vision then s.awareness else s.lastVision,
       policy := target, stepChange := StepOf(target),
       threshold1 := Threshold1(target), threshold2 := Threshold2(target))
  }

  function SetPolicy(s: State, target: Policy): State {
    if s.policy == Vision && s.awareness <= s.threshold2 then
      s.(stepChange := if target == Vision then StepOf(Vision) else 0.0)
    else if s.awareness <= 0.0 then s
    else TurnTo(s, target)
  }

  function TargetOf(f: Frame): Policy {
    if f.faceDetected && !f.uncertain then Vision else Wheeltouch
  }

  function UpdatePolicy(s: State, f: Frame): State {
    if f.complete then SetPolicy(s, TargetOf(f)) else s
  }

  predicate Offended(s: State) {
    s.alert3Cnt >= MAX_ALERT_3 || s.noResponseCnt >= MAX_NO_RESPONSE
  }

  function EnterLockout(s: State): State {
    if Offended(s) && !s.lockoutActive then
      s.(lockoutActive := true, lockoutCount := s.lockoutCount + 1, lockoutDuration := LockoutTime(s.lockoutCount + 1))
    else s
  }

  function UpdateLockout(s: State): State {
    var e := EnterLockout(s);
    if !e.lockoutActive then e
    else if e.lockoutElapsed < e.lockoutDuration then e.(lockoutElapsed := e.lockoutElapsed + 1)
    else e.(lockoutActive := false, alert3Cnt := 0, cntSinceAlert3 := 0, noResponseCnt := 0, lockoutElapsed := 0)
  }

  predicate AlwaysOnValid(f: Frame) {
    f.alwaysOn && !f.wrongGear
  }

  /** The driver's hand on the wheel while the wheel is being watched, or disengaging, clears everything. */
  predicate Clears(s: State, f: Frame) {
    || (f.driverEngaged && s.awareness > 0.0 && s.policy == Wheeltouch)
    || (!AlwaysOnValid(f) && !f.opEngaged)
    || (AlwaysOnValid(f) && !f.opEngaged && s.awareness <= 0.0)
  }

  predicate LowspeedExempt(s: State, f: Frame) {
    f.lowspeed && s.awareness - s.stepChange <= s.threshold1
  }

  predicate AlwaysOnExempt(s: State, f: Frame) {
    AlwaysOnValid(f) && !f.opEngaged && s.awareness - s.stepChange <= 0.0
  }

  predicate Recovers(s: State, f: Frame) {
    s.awareness > 0.0 && ((f.filtered < 0.37 && f.faceDetected && f.lowStd) || LowspeedExempt(s, f))
  }

  function Recovered(awareness: real, stepChange: real): real {
    var factor := (RECOVERY_FACTOR_MAX - RECOVERY_FACTOR_MIN) * (1.0 - awareness) + RECOVERY_FACTOR_MIN;
    Min(awareness + factor * stepChange, 1.0)
  }

  function Recover(s: State): State {
    var a := Recovered(s.awareness, s.stepChange);
    s.(awareness := a,
       lastWheeltouch := if a == 1.0 then Min(s.lastWheeltouch + s.stepChange, 1.0) else s.lastWheeltouch)
  }

  predicate CountsDown(s: State, f: Frame) {
    && ((f.filtered > 0.63 && f.distracted && f.faceDetected) || f.uncertain || !f.faceDetected)
    && !LowspeedExempt(s, f) && !AlwaysOnExempt(s, f)
  }

  /** The alert for an awareness, and the offence counters when it is the terminal one. */
  function Raise(s: State, wasPositive: bool): State {
    if s.awareness <= 0.0 then
      var since := if wasPositive then 0 else s.cntSinceAlert3 + 1;
      s.(alert := Three,
         alert3Cnt := if wasPositive then s.alert3Cnt + 1 else s.alert3Cnt,
         cntSinceAlert3 := since,
         noResponseCnt := if since == NO_RESPONSE_TIMEOUT then s.noResponseCnt + 1 else s.noResponseCnt)
    else
      s.(alert := if s.awareness <= s.threshold2 then Two else if s.awareness <= s.threshold1 then One else NoAlert)
  }

  /** The countdown; `lowspeed` and `alwaysOn` exemptions and the sign were judged before any recovery. */
  function CountDown(before: State, s: State, f: Frame): State {
    var counted :=
      if CountsDown(before, f) then s.(awareness := Max(s.awareness - s.stepChange, AWARENESS_FLOOR)) else s;
    Raise(counted, before.awareness > 0.0)
  }

  function UpdateAwareness(s: State, f: Frame): State {
    if Clears(s, f) || (Recovers(s, f) && f.driverEngaged) then ResetAwareness(s)
    else if Recovers(s, f) then
      var r := Recover(s);
      if r.awareness > r.threshold2 then r else CountDown(s, r, f)
    else CountDown(s, s, f)
  }

  function UpdateEvents(s: State, f: Frame): State {
    UpdateAwareness(UpdateLockout(s.(alert := NoAlert)), f)
  }

  /** One step of the monitor. */
  function Step(s: State, f: Frame): State {
    UpdateEvents(UpdatePolicy(s, f), f)
  }

  /** The state of a new monitor, given what the parameters remember of earlier lockouts. */
  function Initial(lockoutActive: bool, lockoutCount: nat): State {
    State(1.0, 1.0, 1.0, Vision, StepOf(Vision), Threshold1(Vision), Threshold2(Vision),
          NoAlert, 0, 0, 0, lockoutActive, lockoutCount, LockoutTime(lockoutCount), 0)
  }

  // ----- The monitor as it runs -----

  class Monitor {
    var awareness: real
    var lastVision: real
    var lastWheeltouch: real
    var activePolicy: Policy
    var stepChange: real
    var threshold1: real
    var threshold2: real
    var alertLevel: AlertLevel
    var alert3Cnt: nat
    var cntSinceAlert3: nat
    var noResponseCnt: nat
    var lockoutActive: bool
    var lockoutCount: nat
    var lockoutDuration: nat
    var lockoutElapsed: nat

    function Snapshot(): State
      reads this
    {
      State(awareness, lastVision, lastWheeltouch, activePolicy, stepChange, threshold1, threshold2,
            alertLevel, alert3Cnt, cntSinceAlert3, noResponseCnt,
            lockoutActive, lockoutCount, lockoutDuration, lockoutElapsed)
    }

    constructor (tooDistracted: bool, savedLockoutCount: nat)
      ensures Snapshot() == Initial(tooDistracted, savedLockoutCount)
    {
      alertLevel, alert3Cnt, cntSinceAlert3, noResponseCnt := NoAlert, 0, 0, 0;
      lockoutActive, lockoutCount, lockoutElapsed := tooDistracted, savedLockoutCount, 0;
      lockoutDuration := LockoutTime(savedLockoutCount);
      stepChange, activePolicy, threshold1, threshold2 := 0.0, Vision, 0.0, 0.0;
      new;
      Reset();
      ChoosePolicy(Vision);
    }

    method Reset()
      modifies this
      ensures Snapshot() == ResetAwareness(old(Snapshot()))
    {
      awareness, lastVision, lastWheeltouch := 1.0, 1.0, 1.0;
    }

    method ChoosePolicy(target: Policy)
      modifies this
      ensures Snapshot() == SetPolicy(old(Snapshot()), target)
    {
      if activePolicy == Vision && awareness <= threshold2 {
        if target == Vision {
          stepChange := StepOf(Vision);
        } else {
          stepChange := 0.0;
        }
        return;
      } else if awareness <= 0.0 {
        return;
      }
      if target == Vision {
        if activePolicy != Vision {
          lastWheeltouch := awareness;
          awareness := lastVision;
        }
        threshold1, threshold2, stepChange := Threshold1(Vision), Threshold2(Vision), StepOf(Vision);
        activePolicy := Vision;
      } else {
        if activePolicy == Vision {
          lastVision := awareness;
          awareness := lastWheeltouch;
        }
        threshold1, threshold2, stepChange := Threshold1(Wheeltouch), Threshold2(Wheeltouch), StepOf(Wheeltouch);
        activePolicy := Wheeltouch;
      }
    }

    method CheckOffences()
      modifies this
      ensures Snapshot() == EnterLockout(old(Snapshot()))
    {
      if alert3Cnt >= MAX_ALERT_3 || noResponseCnt >= MAX_NO_RESPONSE {
        if !lockoutActive {
          lockoutCount := lockoutCount + 1;
          lockoutDuration := LockoutTime(lockoutCount);
        }
        lockoutActive := true;
      }
    }

    method StepLockout()
      modifies this
      ensures Snapshot() == UpdateLockout(old(Snapshot()))
    {
      CheckOffences();
      if lockoutActive {
        lockoutElapsed := lockoutElapsed + 1;
        if lockoutElapsed > lockoutDuration {
          lockoutActive := false;
          alert3Cnt, cntSinceAlert3, noResponseCnt, lockoutElapsed := 0, 0, 0, 0;
        }
      }
    }

    /** The end of a step that neither cleared nor recovered past orange; `awarenessPrev` is from before it. */
    method RaiseAlert(awarenessPrev: real)
      requires alertLevel == NoAlert
      modifies this
      ensures Snapshot() == Raise(old(Snapshot()), awarenessPrev > 0.0)
    {
      if awareness <= 0.0 {
        alertLevel := Three;
        if awarenessPrev > 0.0 {
          alert3Cnt := alert3Cnt + 1;
          cntSinceAlert3 := 0;
        } else {
          cntSinceAlert3 := cntSinceAlert3 + 1;
        }
        if cntSinceAlert3 == NO_RESPONSE_TIMEOUT {
          noResponseCnt := noResponseCnt + 1;
        }
      } else if awareness <= threshold2 {
        alertLevel := Two;
      } else if awareness <= threshold1 {
        alertLevel := One;
      }
    }

    /** The countdown of one step; the exemptions were judged on the state `before` it. */
    method Spend(f: Frame, awarenessPrev: real, lowspeedExemption: bool, alwaysOnExemption: bool, ghost before: State)
      requires alertLevel == NoAlert && awarenessPrev == before.awareness
      requires lowspeedExemption == LowspeedExempt(before, f) && alwaysOnExemption == AlwaysOnExempt(before, f)
      modifies this
      ensures Snapshot() == CountDown(before, old(Snapshot()), f)
    {
      var certainlyDistracted := f.filtered > 0.63 && f.distracted && f.faceDetected;
      var maybeDistracted := f.uncertain || !f.faceDetected;
      if certainlyDistracted || maybeDistracted {
        if !(lowspeedExemption || alwaysOnExemption) {
          awareness := Max(awareness - stepChange, AWARENESS_FLOOR);
        }
      }
      RaiseAlert(awarenessPrev);
    }

    /** The rest of a step whose clearing conditions did not apply. */
    method StepAwareness(f: Frame, alwaysOnValid: bool)
      requires alertLevel == NoAlert && alwaysOnValid == AlwaysOnValid(f) && !Clears(Snapshot(), f)
      modifies this
      ensures Snapshot() == UpdateAwareness(old(Snapshot()), f)
    {
      ghost var before := Snapshot();
      var awarenessPrev := awareness;
      var reachingAlert1 := awareness - stepChange <= threshold1;
      var reachingAlert3 := awareness - stepChange <= 0.0;
      var lowspeedExemption := f.lowspeed && reachingAlert1;
      var alwaysOnExemption := alwaysOnValid && !f.opEngaged && reachingAlert3;
      if awareness > 0.0 && ((f.filtered < 0.37 && f.faceDetected && f.lowStd) || lowspeedExemption) {
        assert Recovers(before, f);
        if f.driverEngaged {
          Reset();
          return;
        }
        awareness := Recovered(awareness, stepChange);
        if awareness == 1.0 {
          lastWheeltouch := Min(lastWheeltouch + stepChange, 1.0);
        }
        assert Snapshot() == Recover(before);
        if awareness > threshold2 {
          return;
        }
      }
      Spend(f, awarenessPrev, lowspeedExemption, alwaysOnExemption, before);
    }

    method StepEvents(f: Frame)
      modifies this
      ensures Snapshot() == UpdateEvents(old(Snapshot()), f)
    {
      alertLevel := NoAlert;
      StepLockout();
      var alwaysOnValid := f.alwaysOn && !f.wrongGear;
      if (f.driverEngaged && awareness > 0.0 && activePolicy == Wheeltouch) || (!alwaysOnValid && !f.opEngaged) ||
         (alwaysOnValid && !f.opEngaged && awareness <= 0.0) {
        Reset();
        return;
      }
      StepAwareness(f, alwaysOnValid);
    }

    /** The two updates of one step; an incomplete camera message leaves the policy alone. */
    method RunStep(f: Frame)
      modifies this
      ensures Snapshot() == Step(old(Snapshot()), f)
    {
      if f.complete {
        ChoosePolicy(if f.faceDetected && !f.uncertain then Vision else Wheeltouch);
      }
      StepEvents(f);
    }
  }
}
