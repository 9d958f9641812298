/**
 The OBD-multiplexing handshake of one onroad session. The car process asks for a multiplexing mode
 through the shared parameters and waits; pandad polls them, commands the panda and answers. Both are
 broken into their single parameter accesses and panda commands, and interleave freely.
 */
module ObdHandshake {
  /** What pandad tells the panda: the ELM327 model with a parameter, or the car's alternative experience or model. */
  datatype Command = Elm(param: nat) | Experience(carParams: string) | CarModel(carParams: string)

  function ParamFor(multiplexing: bool): nat {
    if multiplexing then 0 else 1
  }

  /** Where the car process is in `set_obd_multiplexing(m)`. */
  datatype CardAt = Idle | Checking(m: bool) | Removing(m: bool) | Putting(m: bool) | Waiting(m: bool)

  /** The firmware query, during which the calls are made, and what the car process publishes after it. */
  datatype Phase = Querying | Queried | Written

  /** Where pandad is in `configureSafetyMode`. */
  datatype PandadAt =
    | Top | Reading | Commanding(r: bool) | Flagging | ReadFirmware | ReadControls | ReadParams
    | SettingExperience(cp: string) | SettingModel(cp: string)

  /** What pandad keeps, and all it has told the panda. */
  datatype Pandad = Pandad(at: PandadAt, initialized: bool, prev: bool, configured: bool, log: seq<Command>)

  /** The shared parameters, and the two sides. */
  datatype System = System(
    enabled: bool, changed: bool, firmwareQueryDone: bool, controlsReady: bool, carParams: string,
    card: CardAt, phase: Phase, pandad: Pandad)

  // ----- The steps -----

  datatype Action = Call(m: bool) | CardStep | FinishQuery | WriteParams(cp: string) | RaiseControls | PandadStep

  predicate Enabled(s: System, a: Action) {
    match a
    case Call(m) => s.card == Idle && s.phase == Querying
    case CardStep => s.card != Idle && (s.card.Waiting? ==> s.changed)
    case FinishQuery => s.card == Idle && s.phase == Querying
    case WriteParams(cp) => s.phase == Queried
    case RaiseControls => s.phase == Written
    case PandadStep => true
  }

  function StepCard(s: System): System {
    match s.card
    case Idle => s
    case Checking(m) => s.(card := if s.enabled != m then Removing(m) else Idle)
    case Removing(m) => s.(changed := false, card := Putting(m))
    case Putting(m) => s.(enabled := m, card := Waiting(m))
    case Waiting(m) => s.(card := Idle)
  }

  /** Where one shared access or command takes pandad. */
  function PandadNext(p: Pandad, s: System): Pandad {
    match p.at
    case Top =>
      if p.configured then p
      else if !p.initialized then p.(prev := false, log := p.log + [Elm(1)], initialized := true, at := Reading)
      else p.(at := Reading)
    case Reading => p.(at := if s.enabled != p.prev then Commanding(s.enabled) else ReadFirmware)
    case Commanding(r) => p.(log := p.log + [Elm(ParamFor(r))], prev := r, at := Flagging)
    case Flagging => p.(at := ReadFirmware)
    case ReadFirmware => p.(at := if s.firmwareQueryDone then ReadControls else Top)
    case ReadControls => p.(at := if s.controlsReady then ReadParams else Top)
    case ReadParams => p.(at := if s.carParams != "" then SettingExperience(s.carParams) else Top)
    case SettingExperience(cp) => p.(log := p.log + [Experience(cp)], at := SettingModel(cp))
    case SettingModel(cp) => p.(log := p.log + [CarModel(cp)], configured := true, at := Top)
  }

  /** The one parameter pandad writes is the answer. */
  function StepPandad(s: System): System {
    s.(pandad := PandadNext(s.pandad, s), changed := s.changed || s.pandad.at == Flagging)
  }

  function Apply(s: System, a: Action): System {
    match a
    case Call(m) => s.(card := Checking(m))
    case CardStep => StepCard(s)
    case FinishQuery => s.(firmwareQueryDone := true, phase := Queried)
    case WriteParams(cp) => s.(carParams := cp, phase := Written)
    case RaiseControls => s.(controlsReady := true)
    case PandadStep => StepPandad(s)
  }

  /**
   Any start with the query still to be made and pandad reset: `stale` is what pandad last compared with, and the rest
   is what is found in the parameters, the request and its answer first.
   */
  function Start(
    stale: bool, left: bool, changed: bool, firmwareQueryDone: bool, controlsReady: bool, carParams: string): System
  {
    System(left, changed, firmwareQueryDone, controlsReady, carParams,
           Idle, Querying, Pandad(Top, false, stale, false, []))
  }

  predicate Next(trace: seq<System>, run: seq<Action>, k: nat)
    requires k < |run| < |trace|
  {
    Enabled(trace[k], run[k]) && trace[k + 1] == Apply(trace[k], run[k])
  }

  /** Any interleaving of the two from some state. */
  predicate IsRun(trace: seq<System>, run: seq<Action>) {
    |trace| == |run| + 1 && forall k :: 0 <= k < |run| ==> Next(trace, run, k)
  }

  /** A run from a start with all but the answer cleared. */
  predicate IsSession(trace: seq<System>, run: seq<Action>) {
    IsRun(trace, run) && exists stale, changed :: trace[0] == Start(stale, false, changed, false, false, "")
  }

  // ----- pandad's object -----

  /** pandad alone for `n` steps. */
  function Alone(s: System, n: nat): System
    decreases n
  {
    if n == 0 then s else Alone(StepPandad(s), n - 1)
  }

  /** The mode brought up to date with the request. */
  function AfterUpdate(s: System): System {
    var p, change := s.pandad, s.enabled != Compared(s);
    var first, told := if p.initialized then [] else [Elm(1)], if change then [Elm(ParamFor(s.enabled))] else [];
    s.(pandad := p.(initialized := true, prev := s.enabled, log := p.log + first + told),
       changed := s.changed || change)
  }

  function AfterFetch(s: System): System {
    if s.firmwareQueryDone && s.controlsReady && s.carParams != "" then AfterSetting(s, s.carParams) else s
  }

  function AfterSetting(s: System, cp: string): System {
    s.(pandad := s.pandad.(log := s.pandad.log + [Experience(cp), CarModel(cp)], configured := true))
  }

  /** A whole turn of pandad that nothing interrupts. */
  function Turn(s: System): System {
    if s.pandad.configured then s else AfterFetch(AfterUpdate(s))
  }

  function MovedTo(s: System, at: PandadAt): System {
    s.(pandad := s.pandad.(at := at))
  }

  lemma UpdateIsSteps(s: System) returns (n: nat)
    requires s.pandad.at == Top && !s.pandad.configured
    ensures Alone(s, n) == MovedTo(AfterUpdate(s), ReadFirmware)
  {
    var r := StepPandad(s);
    var c := StepPandad(r);
    if c.pandad.at == ReadFirmware {
      n := 2;
      assert Alone(r, 1) == Alone(c, 0) == c;
    } else {
      n := 4;
      var f := StepPandad(c);
      var d := StepPandad(f);
      assert Alone(c, 2) == Alone(f, 1) == Alone(d, 0) == d;
      assert Alone(r, 3) == Alone(c, 2);
    }
    assert Alone(s, n) == Alone(r, n - 1);
  }

  lemma FetchIsSteps(s: System) returns (n: nat)
    requires s.pandad.at == ReadFirmware
    ensures Alone(s, n) == MovedTo(AfterFetch(s), Top)
  {
    if !s.firmwareQueryDone {
      n := 1;
      assert Alone(s, 1) == Alone(StepPandad(s), 0);
    } else if !s.controlsReady {
      n := 2;
      assert Alone(StepPandad(s), 1) == Alone(StepPandad(StepPandad(s)), 0);
    } else {
      var p := StepPandad(StepPandad(s));
      var t := StepPandad(p);
      n := if s.carParams == "" then 3 else 5;
      if s.carParams == "" {
        assert Alone(p, 1) == Alone(t, 0);
      } else {
        SettingIsSteps(t, s.carParams);
        assert Alone(p, 3) == Alone(t, 2);
      }
      assert Alone(s, n) == Alone(StepPandad(s), n - 1) == Alone(p, n - 2);
    }
  }

  lemma {:induction false} SettingIsSteps(s: System, cp: string)
    requires s.pandad.at == SettingExperience(cp)
    ensures Alone(s, 2) == MovedTo(AfterSetting(s, cp), Top)
  {
    var t := StepPandad(s);
    assert Alone(s, 2) == Alone(t, 1) == Alone(StepPandad(t), 0);
    assert s.pandad.log + [Experience(cp)] + [CarModel(cp)] == s.pandad.log + [Experience(cp), CarModel(cp)];
  }

  lemma {:induction false} AloneAdds(s: System, m: nat, n: nat)
    ensures Alone(s, m + n) == Alone(Alone(s, m), n)
    decreases m
  {
    if m > 0 {
      AloneAdds(StepPandad(s), m - 1, n);
    }
  }

  /** The whole turn is what pandad's steps do, one after the other, from the top back to the top. */
  lemma TurnIsSteps(s: System) returns (n: nat)
    requires s.pandad.at == Top
    ensures Alone(s, n) == Turn(s) && Turn(s).pandad.at == Top
  {
    if s.pandad.configured {
      n := 0;
    } else {
      var m := UpdateIsSteps(s);
      var k := FetchIsSteps(MovedTo(AfterUpdate(s), ReadFirmware));
      AloneAdds(s, m, k);
      n := m + k;
    }
  }

  class PandaSafety {
    var initialized: bool
    var safetyConfigured: bool
    var prevObdMultiplexing: bool
    /** What the panda was sent. */
    var sent: seq<Command>

    constructor ()
      ensures !initialized && !safetyConfigured && sent == []
    {
      initialized, safetyConfigured, prevObdMultiplexing, sent := false, false, false, [];
    }

    /** `s` is any system this object is part of. */
    ghost predicate IsIn(s: System)
      reads this
    {
      && s.pandad.initialized == initialized && s.pandad.configured == safetyConfigured
      && s.pandad.prev == prevObdMultiplexing && s.pandad.log == sent
    }

    /** The result says whether the change was answered. */
    method UpdateMultiplexingMode(requested: bool) returns (answered: bool)
      modifies this
      ensures initialized && safetyConfigured == old(safetyConfigured)
      ensures var prev := old(initialized) && old(prevObdMultiplexing);
              && answered == (requested != prev) && prevObdMultiplexing == requested
              && sent == old(sent) + (if old(initialized) then [] else [Elm(1)])
                                   + (if requested != prev then [Elm(ParamFor(requested))] else [])
    {
      if !initialized {
        prevObdMultiplexing := false;
        sent := sent + [Elm(1)];
        initialized := true;
      }
      answered := requested != prevObdMultiplexing;
      if answered {
        sent := sent + [Elm(if requested then 0 else 1)];
        prevObdMultiplexing := requested;
      }
    }

    /** Empty until the firmware query is done and the controls are ready. */
    method FetchCarParams(firmwareQueryDone: bool, controlsReady: bool, carParams: string) returns (cp: string)
      ensures cp == if firmwareQueryDone && controlsReady then carParams else ""
    {
      if !firmwareQueryDone {
        return "";
      }
      if !controlsReady {
        return "";
      }
      return carParams;
    }

    method SetSafetyMode(cp: string)
      modifies this
      ensures sent == old(sent) + [Experience(cp), CarModel(cp)]
      ensures initialized == old(initialized) && safetyConfigured == old(safetyConfigured)
      ensures prevObdMultiplexing == old(prevObdMultiplexing)
    {
      sent := sent + [Experience(cp)];
      sent := sent + [CarModel(cp)];
    }

    /** A call that nothing interrupts is one turn of pandad in any system it is part of; going offroad resets it. */
    method ConfigureSafetyMode(
      isOnroad: bool, ghost s: System, requested: bool, firmwareQueryDone: bool, controlsReady: bool, carParams: string)
      returns (answered: bool)
      requires IsIn(s) && s.pandad.at == Top && s.enabled == requested
      requires s.firmwareQueryDone == firmwareQueryDone && s.controlsReady == controlsReady && s.carParams == carParams
      modifies this
      ensures !isOnroad ==> !initialized && !safetyConfigured && sent == old(sent) && !answered
      ensures isOnroad ==> IsIn(Turn(s)) && Turn(s).changed == (s.changed || answered)
    {
      answered := false;
      if isOnroad && !safetyConfigured {
        answered := UpdateMultiplexingMode(requested);
        var cp := FetchCarParams(firmwareQueryDone, controlsReady, carParams);
        if cp != "" {
          SetSafetyMode(cp);
          safetyConfigured := true;
        }
      } else if !isOnroad {
        initialized, safetyConfigured := false, false;
      }
    }
  }

  // ----- The invariant -----

  /** What pandad compares the next request with. */
  function Compared(s: System): bool {
    s.pandad.initialized && s.pandad.prev
  }

  predicate CardInv(s: System) {
    match s.card
    case Waiting(m) => s.enabled == m && (Compared(s) != m ==> !s.changed) && (s.pandad.initialized || m)
    case Putting(m) => s.enabled == Compared(s) && s.enabled != m && !s.changed
    case Removing(m) => s.enabled == Compared(s) && s.enabled != m
    case _ => s.enabled == Compared(s)
  }

  /** pandad around the handshake. */
  predicate AnswerInv(s: System) {
    && (s.pandad.at != Top ==> s.pandad.initialized && !s.pandad.configured)
    && (s.pandad.at.Commanding? ==> s.card == Waiting(s.pandad.at.r) && s.pandad.prev != s.pandad.at.r)
    && (s.pandad.at == Flagging ==> s.card == Waiting(s.pandad.prev) && !s.changed)
    && (s.card.Waiting? && Compared(s) == s.card.m && !s.changed ==> s.pandad.at == Flagging)
  }

  /** The two sides together; this needs nothing of the other parameters. */
  predicate HandshakeInv(s: System) {
    CardInv(s) && AnswerInv(s)
  }

  lemma HandshakeKeeps(s: System, a: Action)
    requires HandshakeInv(s) && Enabled(s, a)
    ensures HandshakeInv(Apply(s, a))
  {
    if a == PandadStep {
      PandadKeepsCard(s);
      PandadKeepsAnswer(s);
    }
  }

  lemma PandadKeepsCard(s: System)
    requires HandshakeInv(s)
    ensures CardInv(StepPandad(s))
  {
  }

  lemma PandadKeepsAnswer(s: System)
    requires HandshakeInv(s)
    ensures AnswerInv(StepPandad(s))
  {
  }

  /** pandad on its way to the car's model, and there. */
  predicate FetchInv(s: System) {
    (s.pandad.configured ==> s.pandad.initialized && Ready(s)) &&
    match s.pandad.at
    case ReadControls => s.firmwareQueryDone
    case ReadParams => s.firmwareQueryDone && s.controlsReady
    case SettingExperience(cp) => Ready(s) && cp == s.carParams
    case SettingModel(cp) => Ready(s) && cp == s.carParams
    case _ => true
  }

  /** All that pandad waits for before it sets the car's model. */
  predicate Ready(s: System) {
    s.firmwareQueryDone && s.controlsReady && s.carParams != ""
  }

  predicate PhaseInv(s: System) {
    && (s.card != Idle ==> s.phase == Querying)
    && (s.firmwareQueryDone <==> s.phase != Querying)
    && (s.controlsReady || s.carParams != "" ==> s.phase == Written)
  }

  predicate AllElm(log: seq<Command>) {
    forall i :: 0 <= i < |log| ==> log[i].Elm?
  }

  /** The log ends in the given commands, and all before them are for the ELM327. */
  predicate EndsIn(log: seq<Command>, last: seq<Command>) {
    |last| <= |log| && log[|log| - |last|..] == last && AllElm(log[..|log| - |last|])
  }

  /** What the log must end in: the car's two commands once configured, and before them the mode's. */
  function LastOf(s: System): seq<Command> {
    if s.pandad.configured then [Experience(s.carParams), CarModel(s.carParams)]
    else if s.pandad.at.SettingModel? then [Experience(s.pandad.at.cp)]
    else if s.pandad.initialized then [Elm(ParamFor(s.pandad.prev))]
    else []
  }

  predicate LogInv(s: System) {
    EndsIn(s.pandad.log, LastOf(s))
  }

  predicate Inv(s: System) {
    HandshakeInv(s) && FetchInv(s) && PhaseInv(s) && LogInv(s)
  }

  lemma LogGrows(log: seq<Command>, last: seq<Command>, c: Command)
    requires EndsIn(log, last)
    ensures EndsIn(log + [c], last + [c])
    ensures AllElm(last) ==> EndsIn(log + [c], [c])
  {
    var n := |log| - |last|;
    assert (log + [c])[..n] == log[..n] && (log + [c])[n..] == last + [c];
    assert (log + [c])[..|log|] == log && log == log[..n] + log[n..];
  }

  lemma TailOf(log: seq<Command>, last: seq<Command>, i: nat)
    requires EndsIn(log, last) && i < |log|
    ensures var n := |log| - |last|;
            if i < n then log[i].Elm? else log[i] == last[i - n]
  {
    var n := |log| - |last|;
    assert i < n ==> log[..n][i] == log[i];
    assert i >= n ==> log[n..][i - n] == log[i];
  }

  /** A step sends nothing and expects the same ending, or sends what ends the log, alone or after the last. */
  predicate Sends(s: System, n: System) {
    || (n.pandad.log == s.pandad.log && LastOf(n) == LastOf(s))
    || (&& |n.pandad.log| == |s.pandad.log| + 1
        && var c := n.pandad.log[|s.pandad.log|];
           && n.pandad.log == s.pandad.log + [c]
           && ((AllElm(LastOf(s)) && LastOf(n) == [c]) || LastOf(n) == LastOf(s) + [c]))
  }

  lemma PandadSends(s: System)
    requires Inv(s)
    ensures Sends(s, StepPandad(s))
  {
    match s.pandad.at
    case Top => assert StepPandad(s).pandad.log == s.pandad.log || StepPandad(s).pandad.log == s.pandad.log + [Elm(1)];
    case Commanding(r) => assert StepPandad(s).pandad.log == s.pandad.log + [Elm(ParamFor(r))];
    case SettingExperience(cp) => assert StepPandad(s).pandad.log == s.pandad.log + [Experience(cp)];
    case SettingModel(cp) => assert LastOf(StepPandad(s)) == LastOf(s) + [CarModel(cp)];
    case _ =>
  }

  lemma PandadKeepsLog(s: System, n: System)
    requires EndsIn(s.pandad.log, LastOf(s)) && Sends(s, n)
    ensures EndsIn(n.pandad.log, LastOf(n))
  {
    if n.pandad.log != s.pandad.log {
      LogGrows(s.pandad.log, LastOf(s), n.pandad.log[|s.pandad.log|]);
    }
  }

  lemma KeepsPhase(s: System, a: Action)
    requires PhaseInv(s) && Enabled(s, a)
    ensures PhaseInv(Apply(s, a))
  {
  }

  lemma KeepsFetch(s: System, a: Action)
    requires AnswerInv(s) && FetchInv(s) && PhaseInv(s) && Enabled(s, a)
    ensures FetchInv(Apply(s, a))
  {
  }

  /** Nothing but pandad sends, and what the log must end in stays while others step. */
  lemma OthersKeepLog(s: System, a: Action)
    requires FetchInv(s) && PhaseInv(s) && Enabled(s, a) && a != PandadStep
    ensures Apply(s, a).pandad.log == s.pandad.log && LastOf(Apply(s, a)) == LastOf(s)
  {
  }

  /** Every step of either side, in any order, keeps the invariant. */
  lemma StepKeeps(s: System, a: Action)
    requires Inv(s) && Enabled(s, a)
    ensures Inv(Apply(s, a))
  {
    HandshakeKeeps(s, a);
    KeepsPhase(s, a);
    KeepsFetch(s, a);
    if a == PandadStep {
      PandadSends(s);
      PandadKeepsLog(s, StepPandad(s));
    } else {
      OthersKeepLog(s, a);
    }
  }

  lemma {:induction false} SessionInv(trace: seq<System>, run: seq<Action>, k: nat)
    requires IsSession(trace, run) && k <= |run|
    ensures Inv(trace[k])
  {
    if k > 0 {
      SessionInv(trace, run, k - 1);
      assert Next(trace, run, k - 1);
      StepKeeps(trace[k - 1], run[k - 1]);
    }
  }

  // ----- What a session guarantees -----

  /** The step in which a waiting call returns. */
  predicate Wakes(s: System, a: Action) {
    a == CardStep && s.card.Waiting?
  }

  /** The mode was the last thing the panda was told. */
  predicate LastToldMode(s: System, m: bool) {
    s.pandad.log != [] && s.pandad.log[|s.pandad.log| - 1] == Elm(ParamFor(m))
  }

  /**
   The car's model is set at most once, after the alternative experience, as the last command, and with both flags
   raised and its parameters there.
   */
  lemma CarModelOnceAndLast(trace: seq<System>, run: seq<Action>, k: nat, i: nat)
    requires IsSession(trace, run) && k <= |run| && i < |trace[k].pandad.log| && trace[k].pandad.log[i].CarModel?
    ensures i == |trace[k].pandad.log| - 1 && 0 < i && trace[k].pandad.log[i - 1] == Experience(trace[k].carParams)
    ensures Ready(trace[k]) && trace[k].pandad.log[i] == CarModel(trace[k].carParams)
  {
    SessionInv(trace, run, k);
    CarModelState(trace[k], i);
  }

  lemma CarModelState(s: System, i: nat)
    requires Inv(s) && i < |s.pandad.log| && s.pandad.log[i].CarModel?
    ensures s.pandad.configured && i == |s.pandad.log| - 1 && 0 < i && Ready(s)
    ensures s.pandad.log[i - 1] == Experience(s.carParams) && s.pandad.log[i] == CarModel(s.carParams)
  {
    TailOf(s.pandad.log, LastOf(s), i);
    if s.pandad.configured {
      TailOf(s.pandad.log, LastOf(s), |s.pandad.log| - 2);
    }
  }

  /** Once the car's model is set no further command follows in the session. */
  lemma {:induction false} NothingAfterCarModel(trace: seq<System>, run: seq<Action>, i: nat, j: nat)
    requires IsSession(trace, run) && i <= j <= |run| && trace[i].pandad.configured
    ensures trace[j].pandad.configured && trace[j].pandad.log == trace[i].pandad.log
    decreases j
  {
    if i < j {
      NothingAfterCarModel(trace, run, i, j - 1);
      NextConfigured(trace, run, j - 1);
    }
  }

  lemma NextConfigured(trace: seq<System>, run: seq<Action>, k: nat)
    requires IsSession(trace, run) && k < |run| && trace[k].pandad.configured
    ensures trace[k + 1].pandad.configured && trace[k + 1].pandad.log == trace[k].pandad.log
  {
    SessionInv(trace, run, k);
    assert Next(trace, run, k);
    ConfiguredStays(trace[k], run[k]);
  }

  lemma ConfiguredStays(s: System, a: Action)
    requires Inv(s) && s.pandad.configured
    ensures Apply(s, a).pandad.configured && Apply(s, a).pandad.log == s.pandad.log
  {
  }

  // ----- The car's model is set -----

  /** pandad's steps until the car's model is set, once all it waits for is there. */
  function StepsToModel(s: System): nat {
    if s.pandad.configured then 0
    else match s.pandad.at
    case SettingModel(_) => 1
    case SettingExperience(_) => 2
    case ReadParams => 3
    case ReadControls => 4
    case ReadFirmware => 5
    case Reading => 6
    case Top => 7
    case _ => 8
  }

  /** Once it is there it stays, and each step of pandad brings the car's model nearer; no other step moves it away. */
  lemma ModelComesNearer(s: System, a: Action)
    requires Inv(s) && Ready(s) && Enabled(s, a)
    ensures var n := Apply(s, a);
            && Ready(n) && n.carParams == s.carParams
            && StepsToModel(n) == StepsToModel(s) - (if a == PandadStep && !s.pandad.configured then 1 else 0)
  {
  }

  lemma ModelBound(s: System)
    requires Inv(s) && Ready(s)
    ensures StepsToModel(s) <= 7
  {
  }

  /** How many steps of pandad there are from `i` to `j`. */
  function PandadSteps(run: seq<Action>, i: nat, j: nat): nat
    requires i <= j <= |run|
  {
    if i == j then 0 else PandadSteps(run, i, j - 1) + (if run[j - 1] == PandadStep then 1 else 0)
  }

  lemma {:induction false} ModelDraws(trace: seq<System>, run: seq<Action>, i: nat, j: nat)
    requires IsSession(trace, run) && i <= j <= |run| && Ready(trace[i])
    ensures Ready(trace[j]) && trace[j].carParams == trace[i].carParams
    ensures var left := StepsToModel(trace[i]) - PandadSteps(run, i, j);
            StepsToModel(trace[j]) == if left > 0 then left else 0
    decreases j
  {
    if i < j {
      ModelDraws(trace, run, i, j - 1);
      SessionInv(trace, run, j - 1);
      assert Next(trace, run, j - 1);
      ModelComesNearer(trace[j - 1], run[j - 1]);
    }
  }

  /**
   In every session, once the firmware query is done, the controls are ready and the parameters are there, the car's
   model is set within seven steps of pandad, after the alternative experience and from those parameters, whatever is
   requested and however the steps interleave.
   */
  lemma {:induction false} CarModelIsSet(trace: seq<System>, run: seq<Action>, i: nat, j: nat)
    requires IsSession(trace, run) && i <= j <= |run| && Ready(trace[i]) && PandadSteps(run, i, j) >= 7
    ensures trace[j].pandad.configured
    ensures var log, cp := trace[j].pandad.log, trace[i].carParams;
            |log| >= 2 && log[|log| - 2..] == [Experience(cp), CarModel(cp)]
  {
    ModelDraws(trace, run, i, j);
    SessionInv(trace, run, i);
    SessionInv(trace, run, j);
    ModelBound(trace[i]);
    ModelWaits(trace[j]);
  }

  lemma ModelWaits(s: System)
    requires Inv(s) && Ready(s) && StepsToModel(s) == 0
    ensures s.pandad.configured && EndsIn(s.pandad.log, [Experience(s.carParams), CarModel(s.carParams)])
  {
  }

  // ----- Which starts are good -----

  /** From this start, in every interleaving, a waiting call returns only with its mode the last thing told. */
  ghost predicate AnswersRight(start: System) {
    forall trace: seq<System>, run: seq<Action>, k: nat ::
      IsRun(trace, run) && trace[0] == start && k < |run| && Wakes(trace[k], run[k]) ==>
        LastToldMode(trace[k], trace[k].card.m)
  }

  /** While the query is being made pandad has not got as far as the car's model, and last told the panda a mode. */
  predicate QueryInv(s: System) {
    && (s.card != Idle ==> s.phase == Querying)
    && (s.pandad.at == ReadControls ==> s.firmwareQueryDone)
    && (s.pandad.at == ReadParams ==> s.firmwareQueryDone && s.controlsReady)
    && (s.phase == Querying ==>
          && !Ready(s) && !s.pandad.configured && !s.pandad.at.SettingExperience? && !s.pandad.at.SettingModel?
          && (s.pandad.initialized ==> LastToldMode(s, s.pandad.prev)))
  }

  lemma QueryKeeps(s: System, a: Action)
    requires AnswerInv(s) && QueryInv(s) && Enabled(s, a)
    ensures QueryInv(Apply(s, a))
  {
    if a == PandadStep {
      PandadKeepsQuery(s);
    }
  }

  lemma PandadKeepsQuery(s: System)
    requires AnswerInv(s) && QueryInv(s)
    ensures QueryInv(StepPandad(s))
  {
  }

  /** The request is cleared, and the rest is not all there from before. */
  predicate IsGood(start: System) {
    !start.enabled && !Ready(start)
  }

  predicate IsStart(s: System) {
    s == Start(s.pandad.prev, s.enabled, s.changed, s.firmwareQueryDone, s.controlsReady, s.carParams)
  }

  predicate IsGoodRun(trace: seq<System>, run: seq<Action>) {
    IsRun(trace, run) && IsStart(trace[0]) && IsGood(trace[0])
  }

  lemma {:induction false} GoodRunInv(trace: seq<System>, run: seq<Action>, k: nat)
    requires IsGoodRun(trace, run) && k <= |run|
    ensures HandshakeInv(trace[k]) && QueryInv(trace[k])
  {
    if k > 0 {
      GoodRunInv(trace, run, k - 1);
      assert Next(trace, run, k - 1);
      HandshakeKeeps(trace[k - 1], run[k - 1]);
      QueryKeeps(trace[k - 1], run[k - 1]);
    }
  }

  /** When a waiting call returns, the last thing the panda was told is the mode it asked for. */
  lemma WakeMeansCommanded(trace: seq<System>, run: seq<Action>, k: nat)
    requires IsGoodRun(trace, run) && k < |run| && Wakes(trace[k], run[k])
    ensures LastToldMode(trace[k], trace[k].card.m) && trace[k + 1].enabled == trace[k].card.m
  {
    GoodRunInv(trace, run, k);
    assert Next(trace, run, k);
  }

  /** pandad's steps until a waiting call is answered, from wherever it is. */
  function StepsToAnswer(s: System): nat {
    if s.changed then 0
    else match s.pandad.at
    case Flagging => 1
    case Commanding(_) => 2
    case Reading => 3
    case Top => 4
    case ReadControls => if s.controlsReady then 6 else 5
    case ReadFirmware => if !s.firmwareQueryDone then 5 else if s.controlsReady then 7 else 6
    case _ => 5
  }

  /** A waiting call is the only thing the car process does, and each step of pandad brings its answer nearer. */
  lemma WaitIsAnswered(s: System, a: Action)
    requires HandshakeInv(s) && QueryInv(s) && s.card.Waiting? && !s.changed && Enabled(s, a)
    ensures a == PandadStep && Apply(s, a).card == s.card && StepsToAnswer(Apply(s, a)) == StepsToAnswer(s) - 1
  {
  }

  lemma WaitBound(trace: seq<System>, run: seq<Action>, k: nat)
    requires IsGoodRun(trace, run) && k <= |run| && trace[k].card.Waiting? && !trace[k].changed
    ensures 0 < StepsToAnswer(trace[k]) <= if trace[k].firmwareQueryDone then 7 else 5
  {
    GoodRunInv(trace, run, k);
  }

  lemma WaitStep(trace: seq<System>, run: seq<Action>, k: nat)
    requires IsGoodRun(trace, run) && k < |run| && trace[k].card.Waiting? && !trace[k].changed
    ensures StepsToAnswer(trace[k + 1]) == StepsToAnswer(trace[k]) - 1
  {
    GoodRunInv(trace, run, k);
    assert Next(trace, run, k);
    WaitIsAnswered(trace[k], run[k]);
  }

  /** In any run from a good start a call waits for at most five steps of pandad, or seven if it must look further. */
  lemma {:induction false} NoLostWakeup(trace: seq<System>, run: seq<Action>, i: nat, j: nat)
    requires IsGoodRun(trace, run) && i <= j <= |run|
    requires forall k :: i <= k <= j ==> trace[k].card.Waiting? && !trace[k].changed
    ensures j - i == StepsToAnswer(trace[i]) - StepsToAnswer(trace[j])
    ensures j - i < if trace[i].firmwareQueryDone then 7 else 5
    decreases j
  {
    WaitBound(trace, run, i);
    WaitBound(trace, run, j);
    if i < j {
      NoLostWakeup(trace, run, i, j - 1);
      WaitStep(trace, run, j - 1);
    }
  }

  lemma Further(trace: seq<System>, run: seq<Action>, a: Action) returns (t: seq<System>, r: seq<Action>, s: System)
    requires IsRun(trace, run) && Enabled(trace[|run|], a)
    ensures IsRun(t, r) && t == trace + [s] && r == run + [a] && s == Apply(trace[|run|], a)
  {
    s := Apply(trace[|run|], a);
    t, r := trace + [s], run + [a];
    forall k | 0 <= k < |r|
      ensures Next(t, r, k)
    {
      assert k < |run| ==> Next(trace, run, k);
    }
  }

  /** A call from the start up to its waiting, when it asks for another mode than is left. */
  lemma Asks(start: System, m: bool) returns (t: seq<System>, r: seq<Action>, s: System)
    requires IsStart(start) && start.enabled != m
    ensures IsRun(t, r) && t[0] == start && s == t[|r|]
    ensures s == start.(changed := false, card := Putting(m))
  {
    t, r, s := Further([start], [], Call(m));
    t, r, s := Further(t, r, CardStep);
    t, r, s := Further(t, r, CardStep);
  }

  /** With a request left over, pandad serves it while a first call is about to withdraw it. */
  lemma LeftOverWakes(start: System) returns (t: seq<System>, r: seq<Action>, s: System)
    requires IsStart(start) && start.enabled
    ensures IsRun(t, r) && t[0] == start && s == t[|r|]
    ensures s.card == Waiting(false) && s.changed && LastToldMode(s, true)
  {
    t, r, s := Asks(start, false);
    t, r, s := Further(t, r, PandadStep);
    t, r, s := Further(t, r, PandadStep);
    t, r, s := Further(t, r, CardStep);
    t, r, s := Further(t, r, PandadStep);
    t, r, s := Further(t, r, PandadStep);
  }

  /** pandad's answer to a first call for multiplexing. */
  lemma Answered(start: System) returns (t: seq<System>, r: seq<Action>, s: System)
    requires IsStart(start) && !start.enabled
    ensures IsRun(t, r) && t[0] == start && s == t[|r|]
    ensures s == start.(enabled := true, changed := true, card := Waiting(true),
                        pandad := Pandad(ReadFirmware, true, true, false, s.pandad.log))
  {
    t, r, s := Asks(start, true);
    t, r, s := Further(t, r, CardStep);
    t, r, s := Further(t, r, PandadStep);
    t, r, s := Further(t, r, PandadStep);
    t, r, s := Further(t, r, PandadStep);
    t, r, s := Further(t, r, PandadStep);
  }

  /** With the rest left over, pandad goes on from its answer to set the car's model before the call returns. */
  lemma ReadyWakes(start: System) returns (t: seq<System>, r: seq<Action>, s: System)
    requires IsStart(start) && !start.enabled && Ready(start)
    ensures IsRun(t, r) && t[0] == start && s == t[|r|]
    ensures s.card == Waiting(true) && s.changed && !LastToldMode(s, true)
  {
    t, r, s := Answered(start);
    t, r, s := Further(t, r, PandadStep);
    t, r, s := Further(t, r, PandadStep);
    t, r, s := Further(t, r, PandadStep);
    t, r, s := Further(t, r, PandadStep);
  }

  /**
   Which parameters a session must find cleared: the request, and one of the three that pandad waits for before it sets
   the car's model. With these cleared every waiting call of every run returns right, whatever else is left over, and
   without either some interleaving returns wrong.
   */
  lemma GoodStarts(
    stale: bool, left: bool, changed: bool, firmwareQueryDone: bool, controlsReady: bool, carParams: string)
    ensures AnswersRight(Start(stale, left, changed, firmwareQueryDone, controlsReady, carParams))
       <==> !left && !(firmwareQueryDone && controlsReady && carParams != "")
  {
    var start := Start(stale, left, changed, firmwareQueryDone, controlsReady, carParams);
    if IsGood(start) {
      forall trace: seq<System>, run: seq<Action>, k: nat |
        IsRun(trace, run) && trace[0] == start && k < |run| && Wakes(trace[k], run[k])
        ensures LastToldMode(trace[k], trace[k].card.m)
      {
        WakeMeansCommanded(trace, run, k);
      }
    } else {
      var t, r, s;
      if left {
        t, r, s := LeftOverWakes(start);
      } else {
        t, r, s := ReadyWakes(start);
      }
      var t2, r2, s2 := Further(t, r, CardStep);
      assert Wakes(t2[|r|], r2[|r|]) && t2[|r|] == s && !LastToldMode(s, s.card.m);
    }
  }
}
