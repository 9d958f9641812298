/**
 What the driver-monitoring policy keeps over whole runs: bounds on awareness, the terminal alert,
 the offence count, lockouts and the timetable of a distracted driver.
 */
module MonitoringRuns {
  import opened DriverMonitoring
  import opened Reals

  // ----- The invariant of every run -----

  predicate AwarenessBounded(s: State) {
    && AWARENESS_FLOOR <= s.awareness <= 1.0 && 0.0 < s.lastVision <= 1.0 && 0.0 < s.lastWheeltouch <= 1.0
    && s.threshold1 == Threshold1(s.policy) && s.threshold2 == Threshold2(s.policy)
    && (s.stepChange == StepOf(s.policy) || (s.policy == Vision && s.stepChange == 0.0))
  }

  predicate LockoutTimed(s: State) {
    && s.lockoutDuration == LockoutTime(s.lockoutCount)
    && s.lockoutElapsed <= s.lockoutDuration && (!s.lockoutActive ==> s.lockoutElapsed == 0)
  }

  predicate Inv(s: State) {
    AwarenessBounded(s) && LockoutTimed(s)
  }

  lemma StepsPositive(policy: Policy)
    ensures 0.0 < StepOf(policy) <= 0.005
    ensures 0.0 < Threshold2(policy) < Threshold1(policy) < 0.9
  {
  }

  lemma RecoveredBounds(a: real, d: real)
    requires AWARENESS_FLOOR <= a <= 1.0 && d >= 0.0
    ensures a <= Recovered(a, d) <= 1.0
  {
    var factor := (RECOVERY_FACTOR_MAX - RECOVERY_FACTOR_MIN) * (1.0 - a) + RECOVERY_FACTOR_MIN;
    assert factor * d >= 0.0;
  }

  lemma PolicyKeeps(s: State, f: Frame)
    requires Inv(s)
    ensures var p := UpdatePolicy(s, f);
            && Inv(p) && (p.awareness <= 0.0 <==> s.awareness <= 0.0)
            && (s.awareness <= 0.0 ==> p.awareness == s.awareness)
            && p == s.(awareness := p.awareness, lastVision := p.lastVision, lastWheeltouch := p.lastWheeltouch,
                       policy := p.policy,
                       stepChange := p.stepChange, threshold1 := p.threshold1, threshold2 := p.threshold2)
  {
    StepsPositive(Vision);
    StepsPositive(Wheeltouch);
  }

  lemma LockoutKeeps(s: State)
    requires Inv(s)
    ensures var l := UpdateLockout(s);
            && Inv(l)
            && l == s.(alert3Cnt := l.alert3Cnt, cntSinceAlert3 := l.cntSinceAlert3, noResponseCnt := l.noResponseCnt,
                       lockoutActive := l.lockoutActive, lockoutCount := l.lockoutCount,
                       lockoutDuration := l.lockoutDuration,
                       lockoutElapsed := l.lockoutElapsed)
  {
  }

  lemma AwarenessKeeps(s: State, f: Frame)
    requires Inv(s)
    ensures var a := UpdateAwareness(s, f);
            && Inv(a)
            && a == s.(awareness := a.awareness, lastVision := a.lastVision, lastWheeltouch := a.lastWheeltouch,
                       alert := a.alert,
                       alert3Cnt := a.alert3Cnt, cntSinceAlert3 := a.cntSinceAlert3, noResponseCnt := a.noResponseCnt)
  {
    StepsPositive(s.policy);
    RecoveredBounds(s.awareness, s.stepChange);
    if !Clears(s, f) && Recovers(s, f) && !f.driverEngaged {
      assert AwarenessBounded(Recover(s));
      CountDownKeeps(s, Recover(s), f);
    } else if !Clears(s, f) && !Recovers(s, f) {
      CountDownKeeps(s, s, f);
    }
  }

  lemma CountDownKeeps(before: State, s: State, f: Frame)
    requires Inv(s)
    ensures var a := CountDown(before, s, f);
            && Inv(a)
            && a == s.(awareness := a.awareness, alert := a.alert,
                       alert3Cnt := a.alert3Cnt, cntSinceAlert3 := a.cntSinceAlert3, noResponseCnt := a.noResponseCnt)
  {
    StepsPositive(s.policy);
  }

  /** Every new monitor is sound, whatever lockout it remembers. */
  lemma InitialInv(lockoutActive: bool, lockoutCount: nat)
    ensures Inv(Initial(lockoutActive, lockoutCount))
  {
  }

  lemma StepInv(s: State, f: Frame)
    requires Inv(s)
    ensures Inv(Step(s, f))
  {
    PolicyKeeps(s, f);
    var p := UpdatePolicy(s, f);
    LockoutKeeps(p.(alert := NoAlert));
    AwarenessKeeps(UpdateLockout(p.(alert := NoAlert)), f);
  }

  // ----- One step, observed -----

  /** A lockout that has been active for all of its duration. */
  predicate Served(s: State) {
    s.lockoutActive && s.lockoutElapsed == s.lockoutDuration
  }

  predicate Enters(s: State) {
    !s.lockoutActive && Offended(s)
  }

  /** Used-up awareness comes back exactly by disengaging; until then every step raises the terminal alert. */
  lemma RedStep(s: State, f: Frame)
    requires Inv(s)
    ensures Step(s, f).alert == Three <==> Step(s, f).awareness <= 0.0
    ensures s.awareness <= 0.0 ==> (Step(s, f).awareness > 0.0 <==> !f.opEngaged)
  {
    PolicyKeeps(s, f);
    var p := UpdatePolicy(s, f).(alert := NoAlert);
    LockoutKeeps(p);
    AwarenessEnd(UpdateLockout(p), f);
  }

  lemma AwarenessEnd(s: State, f: Frame)
    requires Inv(s) && s.alert == NoAlert
    ensures UpdateAwareness(s, f).alert == Three <==> UpdateAwareness(s, f).awareness <= 0.0
    ensures s.awareness <= 0.0 ==> (UpdateAwareness(s, f).awareness > 0.0 <==> !f.opEngaged)
  {
    StepsPositive(s.policy);
  }

  /** What the end of a step does to the counters, by where it leaves awareness. */
  /** What becomes of the offence counters when awareness goes from `before` to where it is in `a`. */
  predicate Counts(before: real, s: State, a: State) {
    && a.alert3Cnt == s.alert3Cnt + (if before > 0.0 && a.awareness <= 0.0 then 1 else 0)
    && a.cntSinceAlert3 == (if a.awareness > 0.0 then s.cntSinceAlert3
                            else if before > 0.0 then 0 else s.cntSinceAlert3 + 1)
    && a.noResponseCnt ==
       s.noResponseCnt + (if a.awareness <= 0.0 && a.cntSinceAlert3 == NO_RESPONSE_TIMEOUT then 1 else 0)
  }

  lemma CountDownCounts(before: State, s: State, f: Frame)
    ensures Counts(before.awareness, s, CountDown(before, s, f))
  {
  }

  lemma AwarenessCounts(s: State, f: Frame)
    requires Inv(s)
    ensures Counts(s.awareness, s, UpdateAwareness(s, f))
  {
    StepsPositive(s.policy);
    CountDownCounts(s, s, f);
    CountDownCounts(s, Recover(s), f);
  }

  /**
   One step's bookkeeping: a lockout is entered exactly after an offence and left exactly when served; entering
   adds one to its count; serving wipes the offences; and crossing adds one, on that very step too.
   */
  lemma StepBooks(s: State, f: Frame)
    requires Inv(s)
    ensures Books(s, f, Step(s, f))
  {
    RedStep(s, f);
    PolicyKeeps(s, f);
    var p := UpdatePolicy(s, f).(alert := NoAlert);
    LockoutKeeps(p);
    AwarenessKeeps(UpdateLockout(p), f);
    AwarenessCounts(UpdateLockout(p), f);
  }

  // ----- Runs -----

  predicate Next(trace: seq<State>, run: seq<Frame>, k: nat)
    requires k < |run| < |trace|
  {
    trace[k + 1] == Step(trace[k], run[k])
  }

  /** The states of a run, one more than its frames; it starts in a new monitor's state or one as sound. */
  predicate IsRun(trace: seq<State>, run: seq<Frame>) {
    |trace| == |run| + 1 && Inv(trace[0]) && forall k :: 0 <= k < |run| ==> Next(trace, run, k)
  }

  /** Every run keeps awareness in [-0.1, 1] and the lockout's clock within its duration. */
  lemma {:induction false} RunInv(trace: seq<State>, run: seq<Frame>, k: nat)
    requires IsRun(trace, run) && k <= |run|
    ensures Inv(trace[k])
  {
    if k > 0 {
      RunInv(trace, run, k - 1);
      assert Next(trace, run, k - 1);
      StepInv(trace[k - 1], run[k - 1]);
    }
  }

  /** What a step of a run does, with nothing of how it does it. */
  predicate Books(s: State, f: Frame, n: State) {
    && n.lockoutActive == ((s.lockoutActive && !Served(s)) || Enters(s))
    && n.lockoutElapsed == (if n.lockoutActive then s.lockoutElapsed + 1 else 0)
    && n.lockoutCount == s.lockoutCount + (if Enters(s) then 1 else 0)
    && n.alert3Cnt ==
       (if Served(s) then 0 else s.alert3Cnt) + (if s.awareness > 0.0 && n.awareness <= 0.0 then 1 else 0)
    && n.cntSinceAlert3 == (if n.awareness > 0.0 then if Served(s) then 0 else s.cntSinceAlert3
                            else if s.awareness > 0.0 then 0
                            else if Served(s) then 1 else s.cntSinceAlert3 + 1)
    && n.noResponseCnt == (if Served(s) then 0 else s.noResponseCnt)
                          + (if n.awareness <= 0.0 && n.cntSinceAlert3 == NO_RESPONSE_TIMEOUT then 1 else 0)
    && (n.alert == Three <==> n.awareness <= 0.0)
    && (s.awareness <= 0.0 ==> (n.awareness > 0.0 <==> !f.opEngaged))
  }

  lemma RunBooks(trace: seq<State>, run: seq<Frame>, k: nat)
    requires IsRun(trace, run) && k < |run|
    ensures Inv(trace[k]) && Inv(trace[k + 1]) && Books(trace[k], run[k], trace[k + 1])
  {
    RunInv(trace, run, k);
    RunInv(trace, run, k + 1);
    assert Next(trace, run, k);
    StepBooks(trace[k], run[k]);
  }

  // ----- The terminal alert over a run -----

  /** Engaged with awareness used up: awareness stays used up and every step raises the terminal alert. */
  lemma {:induction false} RedStaysRed(trace: seq<State>, run: seq<Frame>, i: nat, j: nat)
    requires IsRun(trace, run) && i < j <= |run| && trace[i].awareness <= 0.0
    requires forall k :: i <= k < j ==> run[k].opEngaged
    ensures trace[j].awareness <= 0.0 && trace[j].alert == Three
  {
    if i < j - 1 {
      RedStaysRed(trace, run, i, j - 1);
    }
    RunBooks(trace, run, j - 1);
  }

  /** The step into a state takes awareness from positive to used up. */
  predicate CrossesInto(trace: seq<State>, k: nat)
    requires 0 < k < |trace|
  {
    trace[k - 1].awareness > 0.0 && trace[k].awareness <= 0.0
  }

  /** How often a stretch of a run crosses. */
  function Crossings(trace: seq<State>, i: nat, j: nat): nat
    requires i <= j < |trace|
    decreases j
  {
    if i == j then 0 else Crossings(trace, i, j - 1) + (if CrossesInto(trace, j) then 1 else 0)
  }

  /** Until a lockout is served the offence count is the number of crossings. */
  lemma {:induction false} OffencesAreCrossings(trace: seq<State>, run: seq<Frame>, i: nat, j: nat)
    requires IsRun(trace, run) && i <= j <= |run|
    requires forall k :: i <= k < j ==> !Served(trace[k])
    ensures trace[j].alert3Cnt == trace[i].alert3Cnt + Crossings(trace, i, j)
    decreases j
  {
    if i < j {
      OffencesAreCrossings(trace, run, i, j - 1);
      RunBooks(trace, run, j - 1);
    }
  }

  // ----- Lockouts over a run -----

  /** A lockout entered by step `i` is active in exactly `lockoutDuration` states in a row, counted once. */
  lemma {:induction false} LockoutLasts(trace: seq<State>, run: seq<Frame>, i: nat, k: nat)
    requires IsRun(trace, run) && i + 1 + k <= |run|
    requires !trace[i].lockoutActive && trace[i + 1].lockoutActive && k <= trace[i + 1].lockoutDuration
    ensures var d := trace[i + 1].lockoutDuration;
            var later := trace[i + 1 + k];
            && later.lockoutActive == (k < d)
            && later.lockoutDuration == d && later.lockoutCount == trace[i].lockoutCount + 1
            && (k < d ==> later.lockoutElapsed == k + 1)
  {
    RunBooks(trace, run, i);
    if k > 0 {
      LockoutLasts(trace, run, i, k - 1);
      RunBooks(trace, run, i + k);
    }
  }

  /**
   A lockout restored from the parameters is active from the start through as many steps as its count prescribes, and
   over in the next; it is not counted again.
   */
  lemma {:induction false} RestoredLockoutLasts(trace: seq<State>, run: seq<Frame>, count: nat, k: nat)
    requires IsRun(trace, run) && trace[0] == Initial(true, count)
    requires k <= |run| && k <= LockoutTime(count) + 1
    ensures trace[k].lockoutCount == count
    ensures if k <= LockoutTime(count) then trace[k].lockoutActive && trace[k].lockoutElapsed == k
            else !trace[k].lockoutActive
  {
    if k > 0 {
      RestoredLockoutLasts(trace, run, count, k - 1);
      RunBooks(trace, run, k - 1);
    }
  }

  lemma LockoutTimesGrow(m: nat, n: nat)
    requires m <= n
    ensures LockoutTime(m) <= LockoutTime(n)
  {
  }

  /** Neither the number of lockouts nor their duration ever goes down. */
  lemma {:induction false} LockoutsEscalate(trace: seq<State>, run: seq<Frame>, i: nat, j: nat)
    requires IsRun(trace, run) && i <= j <= |run|
    ensures trace[i].lockoutCount <= trace[j].lockoutCount && trace[i].lockoutDuration <= trace[j].lockoutDuration
    decreases j
  {
    if i < j {
      LockoutsEscalate(trace, run, i, j - 1);
      RunBooks(trace, run, j - 1);
      LockoutTimesGrow(trace[j - 1].lockoutCount, trace[j].lockoutCount);
    }
  }

  /** How many lockouts a run enters in its first `k` steps. */
  function Entries(trace: seq<State>, k: nat): nat
    requires k < |trace|
  {
    if k == 0 then 0
    else Entries(trace, k - 1) + (if !trace[k - 1].lockoutActive && trace[k].lockoutActive then 1 else 0)
  }

  lemma {:induction false} LockoutsAreCounted(trace: seq<State>, run: seq<Frame>, k: nat)
    requires IsRun(trace, run) && k <= |run|
    ensures trace[k].lockoutCount == trace[0].lockoutCount + Entries(trace, k)
  {
    if k > 0 {
      LockoutsAreCounted(trace, run, k - 1);
      RunBooks(trace, run, k - 1);
    }
  }

  /**
   The input that takes positive awareness to used up: the policy in force after the frame's own policy choice counts
   down from at most one step above zero, and neither recovery nor a hand on a watched wheel comes first.
   */
  predicate WillCross(s: State, f: Frame) {
    var p := UpdatePolicy(s, f);
    && f.opEngaged && 0.0 < p.awareness <= p.stepChange
    && !(f.driverEngaged && p.policy == Wheeltouch) && !Recovers(p, f) && CountsDown(p, f)
  }

  /** Awareness is used up by a step exactly on that input. */
  lemma AwarenessCrosses(s: State, f: Frame)
    requires Inv(s) && s.awareness > 0.0
    ensures UpdateAwareness(s, f).awareness <= 0.0
      <==> f.opEngaged && s.awareness <= s.stepChange && !(f.driverEngaged && s.policy == Wheeltouch)
           && !Recovers(s, f) && CountsDown(s, f)
  {
    StepsPositive(s.policy);
    if !Clears(s, f) && Recovers(s, f) && !f.driverEngaged {
      RecoveryRate(s.awareness, s.stepChange);
    } else if !f.opEngaged {
      ExemptionsHold(s, f);
    }
  }

  lemma CrossingInput(s: State, f: Frame)
    requires Inv(s)
    ensures s.awareness > 0.0 && Step(s, f).awareness <= 0.0 <==> WillCross(s, f)
  {
    PolicyKeeps(s, f);
    var p := UpdatePolicy(s, f).(alert := NoAlert);
    LockoutKeeps(p);
    if p.awareness > 0.0 {
      AwarenessCrosses(UpdateLockout(p), f);
    }
  }

  /**
   A served lockout ends with the next step, whatever the input, and with the no-response count at zero; the alert
   count is then zero exactly when the input is not one that uses awareness up.
   */
  lemma CountersAtLockoutEnd(s: State, f: Frame)
    requires Inv(s) && Served(s)
    ensures !Step(s, f).lockoutActive && Step(s, f).noResponseCnt == 0
    ensures Step(s, f).alert3Cnt == 0 <==> !WillCross(s, f)
  {
    StepBooks(s, f);
    CrossingInput(s, f);
  }

  /** Lockouts end in no other way than by being served. */
  lemma OnlyServedEnd(s: State, f: Frame)
    requires Inv(s) && s.lockoutActive
    ensures !Step(s, f).lockoutActive <==> Served(s)
  {
    StepBooks(s, f);
  }

  /** Used-up awareness followed by a hundred and one engaged steps, whatever driver and camera do, is a lockout. */
  lemma {:induction false} SustainedRed(trace: seq<State>, run: seq<Frame>, i: nat, k: nat)
    requires IsRun(trace, run) && 0 < i && i + k <= |run| && k <= NO_RESPONSE_TIMEOUT + 1
    requires CrossesInto(trace, i) && !trace[i].lockoutActive
    requires forall n :: i <= n < i + k ==> run[n].opEngaged
    ensures var later := trace[i + k];
            && later.awareness <= 0.0
            && (if later.lockoutActive then later.lockoutElapsed <= k
                else (k <= NO_RESPONSE_TIMEOUT && later.cntSinceAlert3 == k &&
                      (k == NO_RESPONSE_TIMEOUT ==> later.noResponseCnt >= 1)))
  {
    if k == 0 {
      RunBooks(trace, run, i - 1);
    } else {
      SustainedRed(trace, run, i, k - 1);
      RunBooks(trace, run, i + k - 1);
    }
  }

  // ----- The timetable of a distracted driver -----

  /** Full awareness, under either policy. */
  predicate Rested(s: State) {
    s.awareness == 1.0 && s.lastVision == 1.0 && s.lastWheeltouch == 1.0
  }

  /** A frame that counts down under the given policy, engaged and at speed. */
  predicate Distracts(f: Frame, policy: Policy) {
    && f.complete && f.opEngaged && !f.lowspeed
    && match policy
       case Vision => f.faceDetected && !f.uncertain && f.distracted && f.filtered > 0.63
       case Wheeltouch => !f.faceDetected && !f.driverEngaged
  }

  /** Steps until each alert. */
  function StepsTo(policy: Policy, level: AlertLevel): nat {
    match level
    case NoAlert => 0
    case One => 100
    case Two => if policy == Vision then 160 else 300
    case Three => if policy == Vision then 260 else 500
  }

  function LevelAfter(policy: Policy, k: nat): AlertLevel {
    if k >= StepsTo(policy, Three) then Three
    else if k >= StepsTo(policy, Two) then Two
    else if k >= StepsTo(policy, One) then One
    else NoAlert
  }

  predicate Counting(s: State, policy: Policy, k: nat) {
    s.policy == policy && s.stepChange == StepOf(policy) && s.awareness == 1.0 - k as real * StepOf(policy)
  }

  lemma FirstCount(s: State, f: Frame, policy: Policy)
    requires Inv(s) && Rested(s) && Distracts(f, policy)
    ensures Counting(Step(s, f), policy, 1) && Step(s, f).alert == NoAlert
  {
    PolicyKeeps(s, f);
    var p := UpdatePolicy(s, f).(alert := NoAlert);
    LockoutKeeps(p);
  }

  lemma NextCount(s: State, f: Frame, policy: Policy, k: nat)
    requires Inv(s) && Counting(s, policy, k) && k < StepsTo(policy, Three) && Distracts(f, policy)
    ensures Counting(Step(s, f), policy, k + 1) && Step(s, f).alert == LevelAfter(policy, k + 1)
  {
    PolicyKeeps(s, f);
    var p := UpdatePolicy(s, f).(alert := NoAlert);
    LockoutKeeps(p);
    CountedDown(UpdateLockout(p), f, policy, k);
  }

  lemma CountedDown(s: State, f: Frame, policy: Policy, k: nat)
    requires Inv(s) && Counting(s, policy, k) && k < StepsTo(policy, Three) && Distracts(f, policy)
    ensures var a := UpdateAwareness(s.(alert := NoAlert), f);
            Counting(a, policy, k + 1) && a.alert == LevelAfter(policy, k + 1)
  {
    assert !Clears(s, f) && !Recovers(s, f) && CountsDown(s, f);
  }

  /** From full awareness the alerts come after exactly their timeouts, in steps. */
  lemma {:induction false} Timetable(trace: seq<State>, run: seq<Frame>, policy: Policy, k: nat)
    requires IsRun(trace, run) && Rested(trace[0]) && 0 < k <= |run| && k <= StepsTo(policy, Three)
    requires forall n :: 0 <= n < k ==> Distracts(run[n], policy)
    ensures Counting(trace[k], policy, k) && trace[k].alert == LevelAfter(policy, k)
  {
    assert Next(trace, run, k - 1);
    if k == 1 {
      FirstCount(trace[0], run[0], policy);
    } else {
      Timetable(trace, run, policy, k - 1);
      RunInv(trace, run, k - 1);
      NextCount(trace[k - 1], run[k - 1], policy, k - 1);
    }
  }

  /** Before the terminal alert is due, nothing has happened to a monitor without offences. */
  lemma {:induction false} NoEarlyLockout(trace: seq<State>, run: seq<Frame>, policy: Policy, k: nat)
    requires IsRun(trace, run) && Rested(trace[0]) && k <= |run| && k <= StepsTo(policy, Three)
    requires !trace[0].lockoutActive && !Offended(trace[0])
    requires forall n :: 0 <= n < k ==> Distracts(run[n], policy)
    ensures !trace[k].lockoutActive && (k < StepsTo(policy, Three) ==> trace[k].awareness > 0.0 && !Offended(trace[k]))
  {
    if k > 0 {
      NoEarlyLockout(trace, run, policy, k - 1);
      RunBooks(trace, run, k - 1);
      Timetable(trace, run, policy, k);
    }
  }

  /** Distracted until the terminal alert and engaged for 101 steps more, however attentive: locked out. */
  lemma DistractedLockout(trace: seq<State>, run: seq<Frame>, policy: Policy)
    requires IsRun(trace, run) && Rested(trace[0]) && !trace[0].lockoutActive && !Offended(trace[0])
    requires |run| == StepsTo(policy, Three) + NO_RESPONSE_TIMEOUT + 1
    requires forall n :: 0 <= n < StepsTo(policy, Three) ==> Distracts(run[n], policy)
    requires forall n :: StepsTo(policy, Three) <= n < |run| ==> run[n].opEngaged
    ensures trace[|run|].lockoutActive
  {
    var red := StepsTo(policy, Three);
    NoEarlyLockout(trace, run, policy, red - 1);
    NoEarlyLockout(trace, run, policy, red);
    Timetable(trace, run, policy, red);
    RunBooks(trace, run, red - 1);
    SustainedRed(trace, run, red, NO_RESPONSE_TIMEOUT + 1);
  }

  // ----- A distracted driver who comes and goes -----

  /** How many of the first frames show the face. */
  function Seen(run: seq<Frame>, k: nat): (n: nat)
    requires k <= |run|
    ensures n <= k
  {
    if k == 0 then 0 else Seen(run, k - 1) + (if run[k - 1].faceDetected then 1 else 0)
  }

  function Hidden(run: seq<Frame>, k: nat): nat
    requires k <= |run|
  {
    k - Seen(run, k)
  }

  predicate NeverAttends(f: Frame) {
    Distracts(f, Vision) || Distracts(f, Wheeltouch)
  }

  /**
   After so many frames seen and hidden, with awareness left: each policy has counted its own frames, unless vision has
   reached its second alert, from where on it stays in force and a hidden frame counts nothing.
   */
  predicate Mixed(s: State, seen: nat, hidden: nat) {
    && AwarenessBounded(s) && seen < StepsTo(Vision, Three)
    && if seen < StepsTo(Vision, Two) then
         && hidden < StepsTo(Wheeltouch, Three)
         && (if s.policy == Vision then s.awareness else s.lastVision) == 1.0 - seen as real * StepOf(Vision)
         && (if s.policy == Vision then s.lastWheeltouch else s.awareness) == 1.0 - hidden as real * StepOf(Wheeltouch)
       else s.policy == Vision && s.awareness == 1.0 - seen as real * StepOf(Vision)
  }

  /** Awareness is used up by these counts: all of vision's steps, or all of wheel touch's before vision's orange. */
  predicate UsedUpAt(seen: nat, hidden: nat) {
    || seen >= StepsTo(Vision, Three)
    || (seen < StepsTo(Vision, Two) && hidden >= StepsTo(Wheeltouch, Three))
  }

  lemma MixedPolicy(s: State, f: Frame, seen: nat, hidden: nat)
    requires Mixed(s, seen, hidden) && NeverAttends(f)
    ensures var p := UpdatePolicy(s, f);
            && Mixed(p, seen, hidden)
            && (seen < StepsTo(Vision, Two) ==> p.policy == TargetOf(f) && p.stepChange == StepOf(TargetOf(f)))
            && (seen >= StepsTo(Vision, Two) ==> p.stepChange == if f.faceDetected then StepOf(Vision) else 0.0)
  {
  }

  lemma MixedCount(s: State, f: Frame, seen: nat, hidden: nat)
    requires Mixed(s, seen, hidden) && NeverAttends(f)
    requires if seen < StepsTo(Vision, Two) then s.policy == TargetOf(f) && s.stepChange == StepOf(TargetOf(f))
             else s.stepChange == if f.faceDetected then StepOf(Vision) else 0.0
    ensures var a := UpdateAwareness(s, f);
            var seen' := if f.faceDetected then seen + 1 else seen;
            var hidden' := if f.faceDetected then hidden else hidden + 1;
            if UsedUpAt(seen', hidden') then a.awareness <= 0.0 else Mixed(a, seen', hidden') && a.awareness > 0.0
  {
    assert s.awareness > 0.0;
    assert !Clears(s, f) && !Recovers(s, f) && CountsDown(s, f);
  }

  lemma MixedStep(s: State, f: Frame, seen: nat, hidden: nat, seen': nat, hidden': nat)
    requires Inv(s) && Mixed(s, seen, hidden) && NeverAttends(f)
    requires if f.faceDetected then seen' == seen + 1 && hidden' == hidden
             else seen' == seen && hidden' == hidden + 1
    ensures Step(s, f).awareness <= 0.0 <==> UsedUpAt(seen', hidden')
    ensures Step(s, f).awareness > 0.0 ==> Mixed(Step(s, f), seen', hidden')
  {
    MixedPolicy(s, f, seen, hidden);
    PolicyKeeps(s, f);
    var p := UpdatePolicy(s, f).(alert := NoAlert);
    LockoutKeeps(p);
    MixedCount(UpdateLockout(p), f, seen, hidden);
  }

  /** Some moment so far used awareness up. */
  ghost predicate RanOut(run: seq<Frame>, k: nat)
    requires k <= |run|
  {
    exists j :: 0 <= j <= k && UsedUpAt(Seen(run, j), Hidden(run, j))
  }

  /**
   When a driver who never attends reaches the terminal alert, however the face comes and goes: after 260 frames
   seen, or 500 hidden of which the last comes before the 160th seen. Once orange under vision, hidden frames count
   nothing at all.
   */
  lemma {:induction false} MixedTimetable(trace: seq<State>, run: seq<Frame>, k: nat)
    requires IsRun(trace, run) && Rested(trace[0]) && k <= |run|
    requires forall n :: 0 <= n < k ==> NeverAttends(run[n])
    ensures trace[k].awareness <= 0.0 <==> RanOut(run, k)
    ensures !RanOut(run, k) ==> Mixed(trace[k], Seen(run, k), Hidden(run, k))
  {
    if k == 0 {
      assert Mixed(trace[0], 0, 0) && !UsedUpAt(0, 0);
    } else {
      MixedTimetable(trace, run, k - 1);
      RanOutStep(run, k);
      if RanOut(run, k - 1) {
        RunBooks(trace, run, k - 1);
      } else {
        MixedNext(trace, run, k);
      }
    }
  }

  lemma RanOutStep(run: seq<Frame>, k: nat)
    requires 0 < k <= |run|
    ensures RanOut(run, k) <==> RanOut(run, k - 1) || UsedUpAt(Seen(run, k), Hidden(run, k))
  {
  }

  lemma MixedNext(trace: seq<State>, run: seq<Frame>, k: nat)
    requires IsRun(trace, run) && 0 < k <= |run| && NeverAttends(run[k - 1])
    requires Mixed(trace[k - 1], Seen(run, k - 1), Hidden(run, k - 1))
    ensures trace[k].awareness <= 0.0 <==> UsedUpAt(Seen(run, k), Hidden(run, k))
    ensures trace[k].awareness > 0.0 ==> Mixed(trace[k], Seen(run, k), Hidden(run, k))
  {
    RunInv(trace, run, k - 1);
    assert Next(trace, run, k - 1);
    SeenNext(run, k);
    MixedStep(trace[k - 1], run[k - 1], Seen(run, k - 1), Hidden(run, k - 1), Seen(run, k), Hidden(run, k));
  }

  lemma SeenNext(run: seq<Frame>, k: nat)
    requires 0 < k <= |run|
    ensures var seen, hidden := Seen(run, k - 1), Hidden(run, k - 1);
            if run[k - 1].faceDetected then Seen(run, k) == seen + 1 && Hidden(run, k) == hidden
            else Seen(run, k) == seen && Hidden(run, k) == hidden + 1
  {
  }

  /** Orange under vision and then out of sight: awareness stands still, and the terminal alert never comes. */
  lemma {:induction false} HidingFreezesOrange(trace: seq<State>, run: seq<Frame>, i: nat, j: nat)
    requires IsRun(trace, run) && i <= j <= |run|
    requires trace[i].policy == Vision && 0.0 < trace[i].awareness <= Threshold2(Vision)
    requires forall n :: i <= n < j ==> run[n].complete && run[n].opEngaged && !run[n].lowspeed && !run[n].faceDetected
    ensures trace[j].policy == Vision && trace[j].awareness == trace[i].awareness
    ensures i < j ==> trace[j].alert == Two
    decreases j
  {
    if i < j {
      HidingFreezesOrange(trace, run, i, j - 1);
      RunInv(trace, run, j - 1);
      assert Next(trace, run, j - 1);
      FrozenStep(trace[j - 1], run[j - 1]);
    }
  }

  lemma FrozenStep(s: State, f: Frame)
    requires Inv(s) && s.policy == Vision && 0.0 < s.awareness <= Threshold2(Vision)
    requires f.complete && f.opEngaged && !f.lowspeed && !f.faceDetected
    ensures Step(s, f).policy == Vision && Step(s, f).awareness == s.awareness && Step(s, f).alert == Two
  {
    PolicyKeeps(s, f);
    var p := UpdatePolicy(s, f).(alert := NoAlert);
    LockoutKeeps(p);
  }

  /** An attentive driver at the camera, whatever the hands do. */
  predicate Attends(f: Frame) {
    f.complete && f.opEngaged && f.faceDetected && !f.uncertain && f.lowStd && f.filtered < 0.37
  }

  lemma AttentiveStep(s: State, f: Frame)
    requires Inv(s) && Rested(s) && Attends(f)
    ensures Rested(Step(s, f)) && Step(s, f).alert == NoAlert
  {
    PolicyKeeps(s, f);
    var p := UpdatePolicy(s, f).(alert := NoAlert);
    LockoutKeeps(p);
    RecoveredBounds(1.0, p.stepChange);
  }

  lemma {:induction false} AttentiveIsLeftAlone(trace: seq<State>, run: seq<Frame>, k: nat)
    requires IsRun(trace, run) && Rested(trace[0]) && k <= |run|
    requires forall n :: 0 <= n < k ==> Attends(run[n])
    ensures Rested(trace[k]) && (k > 0 ==> trace[k].alert == NoAlert)
  {
    if k > 0 {
      AttentiveIsLeftAlone(trace, run, k - 1);
      RunInv(trace, run, k - 1);
      assert Next(trace, run, k - 1);
      AttentiveStep(trace[k - 1], run[k - 1]);
    }
  }

  // ----- Recovery -----

  /** An attentive step restores between 1.25 and 5 times what a distracted one takes, up to full awareness. */
  lemma RecoveryRate(a: real, d: real)
    requires 0.0 < a <= 1.0 && d >= 0.0
    ensures Recovered(a, d) == 1.0 || a + 1.25 * d <= Recovered(a, d) <= a + 5.0 * d
  {
    var factor := (RECOVERY_FACTOR_MAX - RECOVERY_FACTOR_MIN) * (1.0 - a) + RECOVERY_FACTOR_MIN;
    assert (factor - 1.25) * d >= 0.0 && (5.0 - factor) * d >= 0.0;
    assert (factor - 1.25) * d == factor * d - 1.25 * d && (5.0 - factor) * d == 5.0 * d - factor * d;
  }

  lemma AttentiveGain(s: State, f: Frame)
    requires Inv(s) && s.policy == Vision && s.awareness > 0.0 && Attends(f)
    ensures var n := Step(s, f);
            n.policy == Vision && n.awareness >= Min(1.0, s.awareness + 1.25 * StepOf(Vision))
  {
    PolicyKeeps(s, f);
    var p := UpdatePolicy(s, f).(alert := NoAlert);
    LockoutKeeps(p);
    assert p.awareness == s.awareness && p.stepChange == StepOf(Vision);
    RecoveryRate(p.awareness, p.stepChange);
    var l := UpdateLockout(p);
    assert Clears(l, f) || (Recovers(l, f) && !CountsDown(l, f));
  }

  /** Attention under vision restores awareness at 1.25 times the pace it is lost or more: 208 steps from anywhere. */
  lemma {:induction false} AttentiveRecovers(trace: seq<State>, run: seq<Frame>, k: nat)
    requires IsRun(trace, run) && trace[0].policy == Vision && trace[0].awareness > 0.0 && k <= |run|
    requires forall n :: 0 <= n < k ==> Attends(run[n])
    ensures trace[k].policy == Vision && trace[k].awareness >= Min(1.0, trace[0].awareness + Gain(k))
    ensures k >= 208 ==> trace[k].awareness == 1.0
  {
    RunInv(trace, run, k);
    if k > 0 {
      AttentiveRecovers(trace, run, k - 1);
      AttentiveNext(trace, run, k - 1);
    }
  }

  lemma AttentiveNext(trace: seq<State>, run: seq<Frame>, k: nat)
    requires IsRun(trace, run) && k < |run| && Attends(run[k]) && trace[k].policy == Vision && trace[k].awareness > 0.0
    ensures trace[k + 1].policy == Vision && trace[k + 1].awareness >= Min(1.0, trace[k].awareness + Gain(1))
  {
    RunInv(trace, run, k);
    assert Next(trace, run, k);
    AttentiveGain(trace[k], run[k]);
  }

  /** At least this much comes back in so many attentive steps. */
  function Gain(steps: nat): real {
    steps as real * (1.25 * StepOf(Vision))
  }

  // ----- Exemptions -----

  lemma ExemptionsHold(s: State, f: Frame)
    requires Inv(s)
    ensures !f.opEngaged ==> UpdateAwareness(s, f).awareness > 0.0
    ensures f.lowspeed && s.awareness > 0.0 ==>
      UpdateAwareness(s, f).awareness > s.threshold1 || UpdateAwareness(s, f).awareness >= s.awareness
  {
    StepsPositive(s.policy);
    RecoveredBounds(s.awareness, s.stepChange);
  }

  /** The terminal alert is never raised while not engaged, always-on monitoring included. */
  lemma RedNeedsEngagement(s: State, f: Frame)
    requires Inv(s) && !f.opEngaged
    ensures Step(s, f).awareness > 0.0 && Step(s, f).alert != Three
  {
    RedStep(s, f);
    PolicyKeeps(s, f);
    var p := UpdatePolicy(s, f).(alert := NoAlert);
    LockoutKeeps(p);
    ExemptionsHold(UpdateLockout(p), f);
  }

  /** At low speed a step never takes awareness down to an alert: it stays above the first one or does not fall. */
  lemma LowspeedNeverAlarms(s: State, f: Frame)
    requires Inv(s) && f.lowspeed && s.awareness > 0.0
    ensures var p := UpdatePolicy(s, f);
            Step(s, f).awareness > p.threshold1 || Step(s, f).awareness >= p.awareness
  {
    PolicyKeeps(s, f);
    var p := UpdatePolicy(s, f).(alert := NoAlert);
    LockoutKeeps(p);
    ExemptionsHold(UpdateLockout(p), f);
  }

  // ----- A lockout that ends on an offence -----

  function Trace(s: State, run: seq<Frame>): (trace: seq<State>)
    ensures |trace| == |run| + 1 && trace[0] == s
    decreases |run|
  {
    if run == [] then [s] else [s] + Trace(Step(s, run[0]), run[1..])
  }

  lemma {:induction false} TraceIsRun(s: State, run: seq<Frame>)
    requires Inv(s)
    ensures IsRun(Trace(s, run), run)
    decreases |run|
  {
    if run != [] {
      var n := Step(s, run[0]);
      var rest := Trace(n, run[1..]);
      StepInv(s, run[0]);
      TraceIsRun(n, run[1..]);
      forall k | 0 <= k < |run|
        ensures Next(Trace(s, run), run, k)
      {
        assert k > 0 ==> Next(rest, run[1..], k - 1);
      }
    }
  }

  lemma LaterRun(trace: seq<State>, run: seq<Frame>, i: nat)
    requires IsRun(trace, run) && i <= |run|
    ensures IsRun(trace[i..], run[i..])
  {
    RunInv(trace, run, i);
    forall k | 0 <= k < |run| - i
      ensures Next(trace[i..], run[i..], k)
    {
      assert Next(trace, run, i + k);
    }
  }

  /** It happens: a run in which the lockout ends on the step that crosses, so the alert count starts over at one. */
  lemma LockoutEndsWithAnOffence()
    returns (trace: seq<State>, run: seq<Frame>)
    ensures IsRun(trace, run) && trace[0] == Initial(true, 0) && |run| == LOCKOUT_TIMES[0] + 1
    ensures trace[|run| - 1].lockoutActive && !trace[|run|].lockoutActive && trace[|run|].alert3Cnt == 1
  {
    var attentive := Frame(true, true, true, false, 0.0, false, false, false, true, false, false);
    var distracted := attentive.(distracted := true, filtered := 1.0);
    var n := LOCKOUT_TIMES[0] + 1 - StepsTo(Vision, Three);
    run := seq(LOCKOUT_TIMES[0] + 1, i => if i < n then attentive else distracted);
    trace := Trace(Initial(true, 0), run);
    InitialInv(true, 0);
    TraceIsRun(Initial(true, 0), run);
    RestoredLockoutLasts(trace, run, 0, |run| - 1);
    RestoredLockoutLasts(trace, run, 0, |run|);
    AttentiveIsLeftAlone(trace, run, n);
    LaterRun(trace, run, n);
    Timetable(trace[n..], run[n..], Vision, StepsTo(Vision, Three));
    Timetable(trace[n..], run[n..], Vision, StepsTo(Vision, Three) - 1);
    RunBooks(trace, run, |run| - 1);
  }
}
