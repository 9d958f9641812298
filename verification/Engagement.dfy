/**
 The engagement state machine: which event types engage, hold and disengage the controls, and the
 soft-disable timer. One update is given the set of event types its events contain.
 */
module Engagement {
  datatype EventType =
    | Enable | PreEnable | OverrideLateral | OverrideLongitudinal | NoEntry
    | Warning | UserDisable | SoftDisable | ImmediateDisable | Permanent

  datatype Mode = Disabled | PreEnabled | Enabled | SoftDisabling | Overriding

  type Events = set<EventType>

  /** Three seconds of updates. */
  const SOFT_DISABLE_STEPS := 300

  datatype State = State(mode: Mode, timer: nat, alerts: seq<EventType>)

  predicate IsEnabled(mode: Mode) {
    mode != Disabled
  }

  predicate IsActive(mode: Mode) {
    mode == Enabled || mode == SoftDisabling || mode == Overriding
  }

  predicate Overrides(e: Events) {
    OverrideLateral in e || OverrideLongitudinal in e
  }

  const OVERRIDE_ALERTS: seq<EventType> := [OverrideLateral, OverrideLongitudinal]

  // ----- One update as a function -----

  function EnterSoftDisable(s: State): State {
    s.(mode := SoftDisabling, timer := SOFT_DISABLE_STEPS, alerts := s.alerts + [SoftDisable])
  }

  /** A mode other than disabled, with neither of the two disabling events that take priority. */
  function Hold(s: State, e: Events): State {
    match s.mode
    case Disabled => s
    case PreEnabled =>
      if PreEnable in e then s.(alerts := s.alerts + [PreEnable]) else s.(mode := Enabled)
    case Enabled =>
      if SoftDisable in e then EnterSoftDisable(s)
      else if Overrides(e) then s.(mode := Overriding, alerts := s.alerts + OVERRIDE_ALERTS)
      else s
    case Overriding =>
      if SoftDisable in e then EnterSoftDisable(s)
      else if Overrides(e) then s.(alerts := s.alerts + OVERRIDE_ALERTS)
      else s.(mode := Enabled)
    case SoftDisabling =>
      if SoftDisable !in e then s.(mode := Enabled)
      else if s.timer > 0 then s.(alerts := s.alerts + [SoftDisable])
      else s.(mode := Disabled)
  }

  function Engage(s: State, e: Events): State {
    if Enable !in e then s
    else if NoEntry in e then s.(alerts := s.alerts + [NoEntry])
    else
      s.(mode := if PreEnable in e then PreEnabled else if Overrides(e) then Overriding else Enabled,
         alerts := s.alerts + [Enable])
  }

  function Move(s: State, e: Events): State {
    if s.mode == Disabled then Engage(s, e)
    else if ImmediateDisable in e then s.(mode := Disabled, alerts := s.alerts + [ImmediateDisable])
    else if UserDisable in e then s.(mode := Disabled, alerts := s.alerts + [UserDisable])
    else Hold(s, e)
  }

  function Update(s: State, e: Events): State {
    var m := Move(s.(timer := if s.timer > 0 then s.timer - 1 else 0, alerts := [Permanent]), e);
    if IsActive(m.mode) then m.(alerts := m.alerts + [Warning]) else m
  }

  const INITIAL := State(Disabled, 0, [Permanent])

  // ----- The machine as it runs -----

  class StateMachine {
    var currentAlertTypes: seq<EventType>
    var state: Mode
    var softDisableTimer: nat

    function Snapshot(): State
      reads this
    {
      State(state, softDisableTimer, currentAlertTypes)
    }

    constructor ()
      ensures Snapshot() == INITIAL
    {
      currentAlertTypes, state, softDisableTimer := [Permanent], Disabled, 0;
    }

    method Step(events: Events) returns (enabled: bool, active: bool)
      modifies this
      ensures Snapshot() == Update(old(Snapshot()), events)
      ensures enabled == IsEnabled(state) && active == IsActive(state)
    {
      softDisableTimer := if softDisableTimer - 1 > 0 then softDisableTimer - 1 else 0;
      currentAlertTypes := [Permanent];
      if state != Disabled {
        if ImmediateDisable in events {
          state := Disabled;
          currentAlertTypes := currentAlertTypes + [ImmediateDisable];
        } else if UserDisable in events {
          state := Disabled;
          currentAlertTypes := currentAlertTypes + [UserDisable];
        } else if state == Enabled {
          if SoftDisable in events {
            state, softDisableTimer := SoftDisabling, SOFT_DISABLE_STEPS;
            currentAlertTypes := currentAlertTypes + [SoftDisable];
          } else if OverrideLateral in events || OverrideLongitudinal in events {
            state := Overriding;
            currentAlertTypes := currentAlertTypes + [OverrideLateral, OverrideLongitudinal];
          }
        } else if state == SoftDisabling {
          if SoftDisable !in events {
            state := Enabled;
          } else if softDisableTimer > 0 {
            currentAlertTypes := currentAlertTypes + [SoftDisable];
          } else {
            state := Disabled;
          }
        } else if state == PreEnabled {
          if PreEnable !in events {
            state := Enabled;
          } else {
            currentAlertTypes := currentAlertTypes + [PreEnable];
          }
        } else {
          if SoftDisable in events {
            state, softDisableTimer := SoftDisabling, SOFT_DISABLE_STEPS;
            currentAlertTypes := currentAlertTypes + [SoftDisable];
          } else if !(OverrideLateral in events || OverrideLongitudinal in events) {
            state := Enabled;
          } else {
            currentAlertTypes := currentAlertTypes + [OverrideLateral, OverrideLongitudinal];
          }
        }
      } else if Enable in events {
        if NoEntry in events {
          currentAlertTypes := currentAlertTypes + [NoEntry];
        } else {
          if PreEnable in events {
            state := PreEnabled;
          } else if OverrideLateral in events || OverrideLongitudinal in events {
            state := Overriding;
          } else {
            state := Enabled;
          }
          currentAlertTypes := currentAlertTypes + [Enable];
        }
      }
      enabled, active := IsEnabled(state), IsActive(state);
      if active {
        currentAlertTypes := currentAlertTypes + [Warning];
      }
    }
  }

  // ----- One update, observed -----

  /** A disabled machine is let in. */
  predicate Admits(e: Events) {
    Enable in e && NoEntry !in e
  }

  predicate Stops(e: Events) {
    ImmediateDisable in e || UserDisable in e
  }

  /** The soft-disable timer runs only while soft disabling. */
  predicate Timed(s: State) {
    s.mode == SoftDisabling ==> 1 <= s.timer <= SOFT_DISABLE_STEPS
  }

  /** When an update lets in, when it throws out, and what the timer does, without the rest of the table. */
  predicate Observed(s: State, e: Events, n: State) {
    && Timed(n)
    && (s.mode == Disabled ==> (n.mode != Disabled <==> Admits(e)))
    && (s.mode != Disabled ==>
        (n.mode == Disabled <==> Stops(e) || (s.mode == SoftDisabling && SoftDisable in e && s.timer == 1)))
    && (n.mode == SoftDisabling <==>
        !Stops(e) && SoftDisable in e &&
        (s.mode == Enabled || s.mode == Overriding || (s.mode == SoftDisabling && s.timer > 1)))
    && (n.mode == SoftDisabling ==> n.timer == if s.mode == SoftDisabling then s.timer - 1 else SOFT_DISABLE_STEPS)
  }

  lemma UpdateObserved(s: State, e: Events)
    requires Timed(s)
    ensures Observed(s, e, Update(s, e))
  {
  }

  /** Pre-enabled: let in or already so, while PRE_ENABLE holds. */
  predicate GoesPreEnabled(s: State, e: Events) {
    PreEnable in e && ((s.mode == Disabled && Admits(e)) || (s.mode == PreEnabled && !Stops(e)))
  }

  /** Overriding: let in without PRE_ENABLE, or enabled or overriding without SOFT_DISABLE, while an override holds. */
  predicate GoesOverriding(s: State, e: Events) {
    && Overrides(e)
    && ((s.mode == Disabled && Admits(e) && PreEnable !in e) ||
        ((s.mode == Enabled || s.mode == Overriding) && !Stops(e) && SoftDisable !in e))
  }

  /** Nothing that a mode other than disabled waits for still holds. */
  predicate Releases(mode: Mode, e: Events) {
    match mode
    case Disabled => false
    case PreEnabled => PreEnable !in e
    case SoftDisabling => SoftDisable !in e
    case _ => SoftDisable !in e && !Overrides(e)
  }

  /** Enabled: let in with neither, or not stopped when what the mode waits for has ended. */
  predicate GoesEnabled(s: State, e: Events) {
    || (s.mode == Disabled && Admits(e) && PreEnable !in e && !Overrides(e))
    || (!Stops(e) && Releases(s.mode, e))
  }

  /** Where every update leads, mode by mode and both ways; Observed has the two that are left. */
  lemma UpdateModes(s: State, e: Events)
    requires Timed(s)
    ensures Update(s, e).mode == PreEnabled <==> GoesPreEnabled(s, e)
    ensures Update(s, e).mode == Overriding <==> GoesOverriding(s, e)
    ensures Update(s, e).mode == Enabled <==> GoesEnabled(s, e)
  {
  }

  /** The alert types tell the outcome of an update to a disabled machine. */
  predicate TellsEntry(s: State, e: Events, n: State) {
    && (Enable in n.alerts <==> s.mode == Disabled && n.mode != Disabled)
    && (NoEntry in n.alerts <==> s.mode == Disabled && Enable in e && NoEntry in e)
  }

  /** And of an update to one that is not: what stops it, and what holds it back. */
  predicate TellsStop(s: State, e: Events, n: State) {
    && (ImmediateDisable in n.alerts <==> s.mode != Disabled && ImmediateDisable in e)
    && (UserDisable in n.alerts <==> s.mode != Disabled && UserDisable in e && ImmediateDisable !in e)
  }

  predicate TellsMode(s: State, e: Events, n: State) {
    && (Warning in n.alerts <==> IsActive(n.mode))
    && (SoftDisable in n.alerts <==> n.mode == SoftDisabling)
    && (PreEnable in n.alerts <==> s.mode == PreEnabled && n.mode == PreEnabled)
    && (OverrideLateral in n.alerts <==> n.mode == Overriding && (s.mode == Enabled || s.mode == Overriding))
    && (OverrideLongitudinal in n.alerts <==> OverrideLateral in n.alerts)
  }

  /** What an update appends to the list, before the warning: at most one type, or the two overrides. */
  function Told(s: State, e: Events): seq<EventType> {
    match s.mode
    case Disabled => if Enable !in e then [] else if NoEntry in e then [NoEntry] else [Enable]
    case _ =>
      if ImmediateDisable in e then [ImmediateDisable]
      else if UserDisable in e then [UserDisable]
      else match s.mode
        case PreEnabled => if PreEnable in e then [PreEnable] else []
        case SoftDisabling => if SoftDisable in e && s.timer > 1 then [SoftDisable] else []
        case _ => if SoftDisable in e then [SoftDisable] else if Overrides(e) then OVERRIDE_ALERTS else []
  }

  lemma AlertsAreTold(s: State, e: Events)
    requires Timed(s)
    ensures var n := Update(s, e);
            n.alerts == [Permanent] + Told(s, e) + (if IsActive(n.mode) then [Warning] else [])
  {
  }

  /** The alert types tell the outcome: which of them are listed, every one of them, for every state and event set. */
  lemma AlertsTellOutcome(s: State, e: Events)
    requires Timed(s)
    ensures Permanent in Update(s, e).alerts
    ensures TellsEntry(s, e, Update(s, e)) && TellsStop(s, e, Update(s, e)) && TellsMode(s, e, Update(s, e))
  {
    EntryIsTold(s, e);
    StopIsTold(s, e);
    ModeIsTold(s, e);
  }

  lemma EntryIsTold(s: State, e: Events)
    requires Timed(s)
    ensures TellsEntry(s, e, Update(s, e)) && Permanent in Update(s, e).alerts
  {
    AlertsAreTold(s, e);
    UpdateObserved(s, e);
  }

  lemma StopIsTold(s: State, e: Events)
    requires Timed(s)
    ensures TellsStop(s, e, Update(s, e))
  {
    AlertsAreTold(s, e);
  }

  lemma ModeIsTold(s: State, e: Events)
    requires Timed(s)
    ensures TellsMode(s, e, Update(s, e))
  {
    AlertsAreTold(s, e);
    UpdateObserved(s, e);
    UpdateModes(s, e);
  }

  // ----- Runs -----

  predicate Next(trace: seq<State>, run: seq<Events>, k: nat)
    requires k < |run| < |trace|
  {
    trace[k + 1] == Update(trace[k], run[k])
  }

  predicate IsRun(trace: seq<State>, run: seq<Events>) {
    |trace| == |run| + 1 && trace[0] == INITIAL && forall k :: 0 <= k < |run| ==> Next(trace, run, k)
  }

  lemma {:induction false} RunTimed(trace: seq<State>, run: seq<Events>, k: nat)
    requires IsRun(trace, run) && k <= |run|
    ensures Timed(trace[k])
  {
    if k > 0 {
      RunTimed(trace, run, k - 1);
      assert Next(trace, run, k - 1);
      UpdateObserved(trace[k - 1], run[k - 1]);
    }
  }

  lemma RunObserved(trace: seq<State>, run: seq<Events>, k: nat)
    requires IsRun(trace, run) && k < |run|
    ensures Observed(trace[k], run[k], trace[k + 1])
  {
    RunTimed(trace, run, k);
    assert Next(trace, run, k);
    UpdateObserved(trace[k], run[k]);
  }

  /** Engaged since step `i`: let in there, and since then neither stopped nor out. */
  predicate EngagedSince(trace: seq<State>, run: seq<Events>, i: nat, k: nat)
    requires i < k <= |run| < |trace|
  {
    && trace[i].mode == Disabled && Admits(run[i])
    && (forall j :: i < j < k ==> !Stops(run[j]))
    && (forall j :: i < j <= k ==> trace[j].mode != Disabled)
  }

  /** Every engaged state was let in by ENABLE without NO_ENTRY and not stopped since. */
  lemma {:induction false} EngagedHasCause(trace: seq<State>, run: seq<Events>, k: nat) returns (i: nat)
    requires IsRun(trace, run) && k <= |run| && trace[k].mode != Disabled
    ensures i < k && EngagedSince(trace, run, i, k)
  {
    RunObserved(trace, run, k - 1);
    if trace[k - 1].mode == Disabled {
      i := k - 1;
    } else {
      i := EngagedHasCause(trace, run, k - 1);
    }
  }

  /** The controls become active only through an update without PRE_ENABLE since the machine was let in. */
  lemma {:induction false} ActiveHasCause(trace: seq<State>, run: seq<Events>, k: nat) returns (i: nat, j: nat)
    requires IsRun(trace, run) && k <= |run| && IsActive(trace[k].mode)
    ensures i <= j < k && EngagedSince(trace, run, i, k) && PreEnable !in run[j]
  {
    RunTimed(trace, run, k - 1);
    RunObserved(trace, run, k - 1);
    RunModes(trace, run, k - 1);
    if IsActive(trace[k - 1].mode) {
      i, j := ActiveHasCause(trace, run, k - 1);
    } else {
      i := EngagedHasCause(trace, run, k);
      j := k - 1;
    }
  }

  lemma RunModes(trace: seq<State>, run: seq<Events>, k: nat)
    requires IsRun(trace, run) && k < |run|
    ensures trace[k + 1].mode == PreEnabled <==> GoesPreEnabled(trace[k], run[k])
    ensures trace[k + 1].mode == Overriding <==> GoesOverriding(trace[k], run[k])
    ensures trace[k + 1].mode == Enabled <==> GoesEnabled(trace[k], run[k])
  {
    RunTimed(trace, run, k);
    assert Next(trace, run, k);
    UpdateModes(trace[k], run[k]);
  }

  /** Let in with PRE_ENABLE, and with it ever since: enabled but not active, for as long as nothing stops it. */
  lemma {:induction false} PreEnableHolds(trace: seq<State>, run: seq<Events>, i: nat, k: nat)
    requires IsRun(trace, run) && i < k <= |run| && trace[i].mode == Disabled && Admits(run[i])
    requires forall j :: i <= j < k ==> PreEnable in run[j]
    requires forall j :: i < j < k ==> !Stops(run[j])
    ensures trace[k].mode == PreEnabled && IsEnabled(trace[k].mode) && !IsActive(trace[k].mode)
  {
    if k > i + 1 {
      PreEnableHolds(trace, run, i, k - 1);
    }
    RunModes(trace, run, k - 1);
  }

  /** A machine that is held in any way is enabled by the first update in which what holds it has ended. */
  lemma ReleaseEnables(trace: seq<State>, run: seq<Events>, k: nat)
    requires IsRun(trace, run) && k < |run| && !Stops(run[k]) && Releases(trace[k].mode, run[k])
    ensures trace[k + 1].mode == Enabled && IsActive(trace[k + 1].mode)
  {
    RunModes(trace, run, k);
  }

  /** A timer value says how long SOFT_DISABLE has held, and what the machine was doing before. */
  lemma {:induction false} TimerTellsHistory(trace: seq<State>, run: seq<Events>, k: nat)
    requires IsRun(trace, run) && k <= |run| && trace[k].mode == SoftDisabling
    ensures 1 <= trace[k].timer <= SOFT_DISABLE_STEPS
    ensures var i := k - (SOFT_DISABLE_STEPS + 1 - trace[k].timer);
            && 0 <= i && (trace[i].mode == Enabled || trace[i].mode == Overriding)
            && (forall j :: i <= j < k ==> SoftDisable in run[j] && !Stops(run[j]))
            && (forall j :: i < j <= k ==> trace[j].mode == SoftDisabling)
  {
    RunTimed(trace, run, k);
    RunObserved(trace, run, k - 1);
    if trace[k - 1].mode == SoftDisabling {
      TimerTellsHistory(trace, run, k - 1);
    }
  }

  /** A machine that falls out was stopped, or had SOFT_DISABLE in each of its last 301 updates. */
  lemma DisengagingHasCause(trace: seq<State>, run: seq<Events>, k: nat)
    requires IsRun(trace, run) && k < |run| && trace[k].mode != Disabled && trace[k + 1].mode == Disabled
    ensures Stops(run[k]) ||
            (SOFT_DISABLE_STEPS <= k && forall j :: k - SOFT_DISABLE_STEPS <= j <= k ==> SoftDisable in run[j])
  {
    RunObserved(trace, run, k);
    if !Stops(run[k]) {
      TimerTellsHistory(trace, run, k);
    }
  }

  /** Continuous SOFT_DISABLE from its entry: soft disabling for 300 updates, disabled by the next one. */
  lemma {:induction false} SoftDisableRunsOut(trace: seq<State>, run: seq<Events>, i: nat, k: nat)
    requires IsRun(trace, run) && i < k <= |run| && k <= i + SOFT_DISABLE_STEPS + 1
    requires trace[i].mode == Enabled || trace[i].mode == Overriding
    requires forall j :: i <= j < k ==> SoftDisable in run[j] && !Stops(run[j])
    ensures if k <= i + SOFT_DISABLE_STEPS
            then trace[k].mode == SoftDisabling && trace[k].timer == SOFT_DISABLE_STEPS + 1 - (k - i)
            else trace[k].mode == Disabled
  {
    RunObserved(trace, run, k - 1);
    if k > i + 1 {
      SoftDisableRunsOut(trace, run, i, k - 1);
    }
  }
}
