/**
 What one step of the driver-monitoring policy does to awareness and the alert, by the state and the frame before
 it: when awareness is restored at once, when it rises, falls or stands, and which alert is shown.
 */
module MonitoringSteps {
  import opened DriverMonitoring
  import opened MonitoringRuns
  import opened Reals

  /** The driver attends to the road as the camera sees it, or is excused at low speed near the first alert. */
  predicate Excused(p: State, f: Frame) {
    || (f.filtered < 0.37 && f.faceDetected && f.lowStd)
    || (f.lowspeed && p.awareness - p.stepChange <= p.threshold1)
  }

  /** Disengaged with monitoring off, or from used-up awareness with it on. */
  predicate LetsGo(p: State, f: Frame) {
    !f.opEngaged && (!f.alwaysOn || f.wrongGear || p.awareness <= 0.0)
  }

  /** A hand on the wheel while awareness is left: where the wheel is what is watched, or by a driver who is excused. */
  predicate Touches(p: State, f: Frame) {
    f.driverEngaged && p.awareness > 0.0 && (p.policy == Wheeltouch || Excused(p, f))
  }

  /** The steps that restore awareness at once, by the policy in force after the frame's own policy choice. */
  predicate Resets(s: State, f: Frame) {
    var p := UpdatePolicy(s, f);
    LetsGo(p, f) || Touches(p, f)
  }

  /** What the step comes to for awareness once policy and lockout are settled; neither shows an alert. */
  lemma StepIsUpdate(s: State, f: Frame) returns (l: State)
    requires Inv(s)
    ensures var p := UpdatePolicy(s, f);
            && l == p.(alert := NoAlert, alert3Cnt := l.alert3Cnt, cntSinceAlert3 := l.cntSinceAlert3,
                       noResponseCnt := l.noResponseCnt, lockoutActive := l.lockoutActive,
                       lockoutCount := l.lockoutCount, lockoutDuration := l.lockoutDuration,
                       lockoutElapsed := l.lockoutElapsed)
            && Inv(l) && Step(s, f) == UpdateAwareness(l, f)
  {
    PolicyKeeps(s, f);
    LockoutKeeps(UpdatePolicy(s, f).(alert := NoAlert));
    l := UpdateLockout(UpdatePolicy(s, f).(alert := NoAlert));
  }

  /** A hand on the watched wheel, and disengaging, give all awareness back, the saved ones too, and no alert shows. */
  lemma ResetRestores(s: State, f: Frame)
    requires Inv(s) && Resets(s, f)
    ensures Rested(Step(s, f)) && Step(s, f).alert == NoAlert
  {
    var l := StepIsUpdate(s, f);
  }

  /** Nothing else does: what is saved for vision stays as it is. */
  lemma OnlyResetsRestore(s: State, f: Frame)
    requires Inv(s) && !Resets(s, f)
    ensures Step(s, f).lastVision == UpdatePolicy(s, f).lastVision
  {
    var l := StepIsUpdate(s, f);
    assert !Clears(l, f) && !(Recovers(l, f) && f.driverEngaged);
  }

  /** With something left to restore, a step restores all exactly if it is one of these. */
  lemma ResetIff(s: State, f: Frame)
    requires Inv(s) && UpdatePolicy(s, f).lastVision < 1.0
    ensures Rested(Step(s, f)) <==> Resets(s, f)
  {
    if Resets(s, f) {
      ResetRestores(s, f);
    } else {
      OnlyResetsRestore(s, f);
    }
  }

  // ----- Which policy is in force -----

  /** No switching: without a complete frame, once orange under vision, and once awareness is used up. */
  predicate Frozen(s: State, f: Frame) {
    !f.complete || (s.policy == Vision && s.awareness <= Threshold2(Vision)) || s.awareness <= 0.0
  }

  /**
   Vision is in force exactly for a face that is seen for certain, unless frozen; each policy keeps its own awareness,
   the one not in force as saved; and frames without a certain face cost nothing once orange under vision.
   */
  lemma PolicyInForce(s: State, f: Frame)
    requires Inv(s)
    ensures var p := UpdatePolicy(s, f);
            && p.policy == (if Frozen(s, f) then s.policy
                            else if f.faceDetected && !f.uncertain then Vision else Wheeltouch)
            && (p.policy == s.policy ==>
                  p.awareness == s.awareness && p.lastVision == s.lastVision && p.lastWheeltouch == s.lastWheeltouch)
            && (p.policy == Vision && s.policy == Wheeltouch ==>
                  p.awareness == s.lastVision && p.lastVision == s.lastVision && p.lastWheeltouch == s.awareness)
            && (p.policy == Wheeltouch && s.policy == Vision ==>
                  && p.awareness == s.lastWheeltouch && p.lastVision == s.awareness
                  && p.lastWheeltouch == s.lastWheeltouch)
  {
  }

  /** A step costs a share of its policy's time, but none for a face not seen for certain once orange under vision. */
  lemma PolicyPace(s: State, f: Frame)
    requires Inv(s) && f.complete
    ensures UpdatePolicy(s, f).stepChange ==
            if s.policy == Vision && s.awareness <= Threshold2(Vision)
            then (if f.faceDetected && !f.uncertain then StepOf(Vision) else 0.0)
            else StepOf(UpdatePolicy(s, f).policy)
  {
    StepsPositive(Vision);
  }

  // ----- Lockouts in numbers -----

  /** The second terminal alert, or one that goes unanswered, locks the driver out a step later; nothing else does. */
  lemma LocksOut(s: State, f: Frame)
    requires Inv(s) && !s.lockoutActive
    ensures Step(s, f).lockoutActive <==> s.alert3Cnt >= 2 || s.noResponseCnt >= 1
    ensures Step(s, f).lockoutActive ==>
              && Step(s, f).lockoutCount == s.lockoutCount + 1
              && Step(s, f).lockoutDuration == LockoutTime(s.lockoutCount + 1)
  {
    PolicyKeeps(s, f);
    var p := UpdatePolicy(s, f).(alert := NoAlert);
    LockoutKeeps(p);
    AwarenessKeeps(UpdateLockout(p), f);
  }

  /** One minute, then five, then fifteen, and half an hour from the fourth lockout on. */
  lemma LockoutMinutes(count: nat)
    requires count > 0
    ensures LockoutTime(count) as real * DT_DMON ==
            60.0 * (if count == 1 then 1.0 else if count == 2 then 5.0 else if count == 3 then 15.0 else 30.0)
  {
  }

  // ----- Rising and falling -----

  /** The driver is seen to be distracted, or cannot be seen. */
  predicate Distracted(f: Frame) {
    (f.filtered > 0.63 && f.distracted && f.faceDetected) || f.uncertain || !f.faceDetected
  }

  /** Held: at low speed near the first alert, or at the terminal one while only monitoring. */
  predicate Held(p: State, f: Frame) {
    || (f.lowspeed && p.awareness - p.stepChange <= p.threshold1)
    || (f.alwaysOn && !f.wrongGear && !f.opEngaged && p.awareness - p.stepChange <= 0.0)
  }

  /** The monitor's step for a driver who is excused, but has not touched. */
  lemma ExcusedStep(s: State, f: Frame)
    requires Inv(s) && !Resets(s, f)
    requires UpdatePolicy(s, f).awareness > 0.0 && Excused(UpdatePolicy(s, f), f)
    ensures var p, n := UpdatePolicy(s, f), Step(s, f);
            && n.awareness >= p.awareness
            && (n.awareness > p.awareness <==> p.awareness < 1.0 && p.stepChange > 0.0)
  {
    var l := StepIsUpdate(s, f);
    StepsPositive(l.policy);
    RecoveryRate(l.awareness, l.stepChange);
  }

  lemma UnexcusedStep(s: State, f: Frame)
    requires Inv(s) && !Resets(s, f)
    requires !(UpdatePolicy(s, f).awareness > 0.0 && Excused(UpdatePolicy(s, f), f))
    ensures var p, n := UpdatePolicy(s, f), Step(s, f);
            n.awareness == if Distracted(f) && !Held(p, f) then Max(p.awareness - p.stepChange, AWARENESS_FLOOR)
                           else p.awareness
  {
    var l := StepIsUpdate(s, f);
  }

  /** A step takes awareness exactly from a driver who is distracted and neither excused nor held, a step at most. */
  lemma FallsIff(s: State, f: Frame)
    requires Inv(s)
    ensures var p, n := UpdatePolicy(s, f), Step(s, f);
            && (n.awareness < p.awareness <==>
                  && !Resets(s, f) && Distracted(f) && !Held(p, f) && !(p.awareness > 0.0 && Excused(p, f))
                  && p.stepChange > 0.0 && p.awareness > AWARENESS_FLOOR)
            && (n.awareness < p.awareness ==> n.awareness == Max(p.awareness - p.stepChange, AWARENESS_FLOOR))
  {
    MovesAtAll(s, f);
  }

  /** And gives some back exactly by a reset, or to a driver who is excused before awareness is used up. */
  lemma RisesIff(s: State, f: Frame)
    requires Inv(s)
    ensures var p, n := UpdatePolicy(s, f), Step(s, f);
            n.awareness > p.awareness <==>
              && p.awareness < 1.0
              && (Resets(s, f) || (p.awareness > 0.0 && Excused(p, f) && p.stepChange > 0.0))
  {
    MovesAtAll(s, f);
  }

  lemma MovesAtAll(s: State, f: Frame)
    requires Inv(s)
    ensures Inv(UpdatePolicy(s, f))
    ensures var p, n := UpdatePolicy(s, f), Step(s, f);
            if Resets(s, f) then n.awareness == 1.0
            else if p.awareness > 0.0 && Excused(p, f) then
              && n.awareness >= p.awareness
              && (n.awareness > p.awareness <==> p.awareness < 1.0 && p.stepChange > 0.0)
            else
              n.awareness == if Distracted(f) && !Held(p, f) then Max(p.awareness - p.stepChange, AWARENESS_FLOOR)
                             else p.awareness
  {
    PolicyKeeps(s, f);
    var p := UpdatePolicy(s, f);
    if Resets(s, f) {
      ResetRestores(s, f);
    } else if p.awareness > 0.0 && Excused(p, f) {
      ExcusedStep(s, f);
    } else {
      UnexcusedStep(s, f);
    }
  }

  /** The alert shown, both ways, when nothing was reset: by awareness, but not the first to a driver who is excused. */
  lemma AlertIff(s: State, f: Frame)
    requires Inv(s) && !Resets(s, f)
    ensures var p, n := UpdatePolicy(s, f), Step(s, f);
            && (n.alert == Three <==> n.awareness <= 0.0)
            && (n.alert == Two <==> 0.0 < n.awareness <= p.threshold2)
            && (n.alert == One <==>
                  p.threshold2 < n.awareness <= p.threshold1 && !(p.awareness > 0.0 && Excused(p, f)))
  {
    var l := StepIsUpdate(s, f);
    StepsPositive(l.policy);
    if l.awareness > 0.0 && Excused(l, f) {
      RecoveryRate(l.awareness, l.stepChange);
    }
  }

  // ----- A driver who keeps a hand near the wheel -----

  /** The wheel is what is watched: engaged, with no face to be seen. */
  predicate WatchesWheel(f: Frame) {
    f.complete && f.opEngaged && !f.faceDetected
  }

  /** Steps since the wheel was touched last, or since the start. */
  function Since(run: seq<Frame>, k: nat): nat
    requires k <= |run|
  {
    if k == 0 || run[k - 1].driverEngaged then 0 else Since(run, k - 1) + 1
  }

  /** At least what is left after so many untouched steps. */
  predicate LeftAfter(s: State, since: nat) {
    && s.awareness >= 1.0 - since as real * StepOf(Wheeltouch)
    && (s.policy == Wheeltouch || Rested(s))
  }

  lemma WatchedStep(s: State, f: Frame, since: nat)
    requires Inv(s) && WatchesWheel(f) && LeftAfter(s, since) && since < StepsTo(Wheeltouch, One)
    ensures var later := if f.driverEngaged then 0 else since + 1;
            && LeftAfter(Step(s, f), later)
            && (later < StepsTo(Wheeltouch, One) ==> Step(s, f).alert == NoAlert)
  {
    var p := WatchedPolicy(s, f, since);
    if Resets(s, f) {
      ResetRestores(s, f);
      PolicyStays(s, f);
    } else {
      FallsIff(s, f);
      AlertIff(s, f);
      PolicyStays(s, f);
    }
  }

  lemma WatchedPolicy(s: State, f: Frame, since: nat) returns (p: State)
    requires Inv(s) && WatchesWheel(f) && LeftAfter(s, since) && since < StepsTo(Wheeltouch, One)
    ensures p == UpdatePolicy(s, f) && p.policy == Wheeltouch && p.stepChange == StepOf(Wheeltouch)
    ensures p.threshold1 == Threshold1(Wheeltouch) && p.threshold2 == Threshold2(Wheeltouch)
    ensures p.awareness >= 1.0 - since as real * StepOf(Wheeltouch) && p.awareness > 0.0
    ensures f.driverEngaged <==> Resets(s, f)
  {
    p := UpdatePolicy(s, f);
    StepsPositive(Vision);
  }

  lemma PolicyStays(s: State, f: Frame)
    requires Inv(s)
    ensures Step(s, f).policy == UpdatePolicy(s, f).policy
  {
    var l := StepIsUpdate(s, f);
  }

  /** A driver whose wheel is watched and who touches it before every hundredth step never sees an alert. */
  lemma {:induction false} TouchingKeepsQuiet(trace: seq<State>, run: seq<Frame>, k: nat)
    requires IsRun(trace, run) && Rested(trace[0]) && k <= |run|
    requires forall n :: 0 <= n < k ==> WatchesWheel(run[n])
    requires forall n :: 0 <= n <= k ==> Since(run, n) < StepsTo(Wheeltouch, One)
    ensures LeftAfter(trace[k], Since(run, k)) && (k > 0 ==> trace[k].alert == NoAlert)
  {
    if k > 0 {
      TouchingKeepsQuiet(trace, run, k - 1);
      RunInv(trace, run, k - 1);
      assert Next(trace, run, k - 1);
      WatchedStep(trace[k - 1], run[k - 1], Since(run, k - 1));
    }
  }

  // ----- What attention restores beside awareness -----

  /** The saved wheel-touch awareness gains a step exactly when an excused driver's own awareness is full after it. */
  lemma SavedWheel(s: State, f: Frame)
    requires Inv(s) && !Resets(s, f)
    ensures var p, n := UpdatePolicy(s, f), Step(s, f);
            n.lastWheeltouch == if p.awareness > 0.0 && Excused(p, f) && n.awareness == 1.0
                                then Min(p.lastWheeltouch + p.stepChange, 1.0)
                                else p.lastWheeltouch
  {
    var l := StepIsUpdate(s, f);
    StepsPositive(l.policy);
  }

  /** With awareness full again, attention under vision gives the saved wheel-touch awareness back step by step. */
  lemma {:induction false} AttentionRestoresWheel(trace: seq<State>, run: seq<Frame>, k: nat)
    requires IsRun(trace, run) && trace[0].policy == Vision && trace[0].awareness == 1.0 && k <= |run|
    requires forall n :: 0 <= n < k ==> Attends(run[n]) && !run[n].driverEngaged
    ensures trace[k].policy == Vision && trace[k].awareness == 1.0
    ensures trace[k].lastWheeltouch == Min(trace[0].lastWheeltouch + k as real * StepOf(Vision), 1.0)
  {
    RunInv(trace, run, 0);
    if k > 0 {
      AttentionRestoresWheel(trace, run, k - 1);
      RunInv(trace, run, k - 1);
      assert Next(trace, run, k - 1);
      FullStep(trace[k - 1], run[k - 1]);
      StepsPositive(Vision);
    }
  }

  lemma FullStep(s: State, f: Frame)
    requires Inv(s) && s.policy == Vision && s.awareness == 1.0 && Attends(f) && !f.driverEngaged
    ensures var n := Step(s, f);
            && n.policy == Vision && n.awareness == 1.0
            && n.lastWheeltouch == Min(s.lastWheeltouch + StepOf(Vision), 1.0)
  {
    var l := StepIsUpdate(s, f);
    StepsPositive(Vision);
    RecoveredBounds(1.0, l.stepChange);
  }
}
