/**
 The alert sounds: filling audio callbacks of any size from the current alert's sound, looping or a number of
 times, and switching alerts. The slice copies of a callback refine playing one frame at a time, and the volume
 scales what they copy.
 */
module Soundd {
  import opened Reals
  import opened Wrappers

  datatype Alert =
    | NoAlert | Engage | Disengage | Refuse | Prompt | PromptRepeat | PromptDistracted
    | PreAlert | Complete | WarningSoft | WarningImmediate

  /** How often an alert's sound is played; none is without end. */
  function PlayCount(a: Alert): Option<nat> {
    match a
    case PromptRepeat => None
    case PromptDistracted => None
    case WarningSoft => None
    case WarningImmediate => None
    case _ => Some(1)
  }

  predicate Loops(a: Alert) {
    a != NoAlert && PlayCount(a) == None
  }

  const MIN_VOLUME := 0.1

  /** The loaded sounds, none of them empty: playing one divides by its length. */
  type Sounds = f: Alert -> seq<real> | forall a :: |f(a)| > 0 witness (_ => [0.0])

  datatype State = State(alert: Alert, frame: nat, pendingStop: bool)

  // ----- One frame at a time -----

  /** The frame is to be heard: an alert is current and its play count not used up. */
  predicate Sounding(snd: Sounds, st: State) {
    st.alert != NoAlert && (PlayCount(st.alert) == None || st.frame / |snd(st.alert)| < PlayCount(st.alert).value)
  }

  function FrameAt(snd: Sounds, st: State): real {
    if Sounding(snd, st) then snd(st.alert)[st.frame % |snd(st.alert)|] else 0.0
  }

  /** A pending stop takes effect when the frame just played completes a loop. */
  function AfterFrame(snd: Sounds, st: State): State {
    if !Sounding(snd, st) then st
    else if st.pendingStop && (st.frame + 1) % |snd(st.alert)| == 0 then State(NoAlert, st.frame + 1, false)
    else st.(frame := st.frame + 1)
  }

  function Output(snd: Sounds, st: State, frames: nat): seq<real>
    decreases frames
  {
    if frames == 0 then [] else [FrameAt(snd, st)] + Output(snd, AfterFrame(snd, st), frames - 1)
  }

  function After(snd: Sounds, st: State, frames: nat): State
    decreases frames
  {
    if frames == 0 then st else After(snd, AfterFrame(snd, st), frames - 1)
  }

  lemma {:induction false} OutputLength(snd: Sounds, st: State, frames: nat)
    ensures |Output(snd, st, frames)| == frames
    decreases frames
  {
    if frames > 0 {
      OutputLength(snd, AfterFrame(snd, st), frames - 1);
    }
  }

  /** Cutting a stretch of frames into two callbacks changes nothing. */
  lemma {:induction false} PlaySplits(snd: Sounds, st: State, m: nat, n: nat)
    ensures Output(snd, st, m + n) == Output(snd, st, m) + Output(snd, After(snd, st, m), n)
    ensures After(snd, st, m + n) == After(snd, After(snd, st, m), n)
    decreases m
  {
    if m > 0 {
      PlaySplits(snd, AfterFrame(snd, st), m - 1, n);
    }
  }

  function Total(callbacks: seq<nat>): nat {
    if callbacks == [] then 0 else callbacks[0] + Total(callbacks[1..])
  }

  function OutputOf(snd: Sounds, st: State, callbacks: seq<nat>): seq<real>
    decreases |callbacks|
  {
    if callbacks == [] then []
    else Output(snd, st, callbacks[0]) + OutputOf(snd, After(snd, st, callbacks[0]), callbacks[1..])
  }

  /** However the frames are cut into callbacks, what is heard depends on their number only. */
  lemma {:induction false} PartitionIsInaudible(snd: Sounds, st: State, callbacks: seq<nat>)
    ensures OutputOf(snd, st, callbacks) == Output(snd, st, Total(callbacks))
    decreases |callbacks|
  {
    if callbacks != [] {
      PartitionIsInaudible(snd, After(snd, st, callbacks[0]), callbacks[1..]);
      PlaySplits(snd, st, callbacks[0], Total(callbacks[1..]));
    }
  }

  // ----- A stretch of one sound -----

  /** Adding inside a loop, and up to its end. */
  lemma WithinLoop(pos: nat, k: nat, len: nat)
    requires 0 < len && pos % len + k <= len
    ensures if pos % len + k < len then (pos + k) / len == pos / len && (pos + k) % len == pos % len + k
            else (pos + k) / len == pos / len + 1 && (pos + k) % len == 0
  {
    var q, r := pos / len, pos % len;
    if r + k < len {
      Quotient(pos + k, len, q, r + k);
    } else {
      assert (q + 1) * len == q * len + len;
      Quotient(pos + k, len, q + 1, 0);
    }
  }

  lemma Quotient(n: nat, len: nat, q: nat, r: nat)
    requires n == q * len + r && r < len
    ensures n / len == q && n % len == r
  {
    var q1, r1 := n / len, n % len;
    assert n == q1 * len + r1;
    if q > q1 {
      AtLeastOnce(q, q1, len);
    } else if q < q1 {
      AtLeastOnce(q1, q, len);
    }
  }

  lemma AtLeastOnce(a: nat, b: nat, len: nat)
    requires a > b
    ensures a * len >= b * len + len
  {
    assert a * len == b * len + (a - b) * len;
    assert (a - b) * len == len + (a - b - 1) * len;
  }

  function ChunkEnd(st: State, n: nat, len: nat): State
    requires 0 < len
  {
    if st.pendingStop && n > 0 && (st.frame + n) % len == 0 then State(NoAlert, st.frame + n, false)
    else st.(frame := st.frame + n)
  }

  /** One frame of a chunk, which ends no loop unless it is the last. */
  lemma ChunkFrame(snd: Sounds, st: State, n: nat)
    requires Sounding(snd, st) && 0 < n <= |snd(st.alert)| - st.frame % |snd(st.alert)|
    ensures n > 1 ==> AfterFrame(snd, st) == st.(frame := st.frame + 1) && Sounding(snd, AfterFrame(snd, st))
    ensures n > 1 ==> (st.frame + 1) % |snd(st.alert)| == st.frame % |snd(st.alert)| + 1
    ensures n == 1 ==> AfterFrame(snd, st) == ChunkEnd(st, 1, |snd(st.alert)|)
  {
    WithinLoop(st.frame, 1, |snd(st.alert)|);
  }

  lemma SliceFront(s: seq<real>, at: nat, n: nat)
    requires 0 < n && at + n <= |s|
    ensures [s[at]] + s[at + 1..at + n] == s[at..at + n]
  {
  }

  /** One chunk of a callback: up to the end of the sound or of the callback. */
  lemma {:induction false} Chunk(snd: Sounds, st: State, n: nat)
    requires Sounding(snd, st) && n <= |snd(st.alert)| - st.frame % |snd(st.alert)|
    ensures var at := st.frame % |snd(st.alert)|;
            Output(snd, st, n) == snd(st.alert)[at..at + n]
    ensures After(snd, st, n) == ChunkEnd(st, n, |snd(st.alert)|)
    decreases n
  {
    if n > 0 {
      ChunkFrame(snd, st, n);
      SliceFront(snd(st.alert), st.frame % |snd(st.alert)|, n);
      if n > 1 {
        Chunk(snd, AfterFrame(snd, st), n - 1);
      } else {
        assert Output(snd, AfterFrame(snd, st), 0) == [];
      }
    }
  }

  lemma {:induction false} Silence(snd: Sounds, st: State, n: nat)
    requires !Sounding(snd, st)
    ensures Output(snd, st, n) == seq(n, _ => 0.0) && After(snd, st, n) == st
    decreases n
  {
    if n > 0 {
      Silence(snd, st, n - 1);
    }
  }

  // ----- What is heard -----

  /** A looping sound without a pending stop goes round and round, and its position counts the frames. */
  lemma {:induction false} LoopingOutput(snd: Sounds, st: State, n: nat)
    requires Loops(st.alert) && !st.pendingStop
    ensures Output(snd, st, n) == seq(n, i => snd(st.alert)[(st.frame + i) % |snd(st.alert)|])
    ensures After(snd, st, n) == st.(frame := st.frame + n)
    decreases n
  {
    if n > 0 {
      LoopingOutput(snd, st.(frame := st.frame + 1), n - 1);
      RoundAndRound(snd(st.alert), st.frame, n);
      assert AfterFrame(snd, st) == st.(frame := st.frame + 1);
    }
  }

  lemma RoundAndRound(s: seq<real>, pos: nat, n: nat)
    requires 0 < |s| && 0 < n
    ensures seq(n, i => s[(pos + i) % |s|]) == [s[pos % |s|]] + seq(n - 1, i => s[(pos + 1 + i) % |s|])
  {
    var all, rest := seq(n, i => s[(pos + i) % |s|]), seq(n - 1, i => s[(pos + 1 + i) % |s|]);
    forall i | 0 <= i < n - 1
      ensures all[i + 1] == rest[i]
    {
      assert pos + (i + 1) == pos + 1 + i;
    }
    assert all[0] == s[(pos + 0) % |s|];
  }

  lemma LoopsLeft(pos: nat, len: nat, plays: nat)
    requires 0 < len
    ensures pos / len < plays <==> pos < plays * len
  {
    if pos / len < plays {
      AtLeastOnceOrEqual(plays, pos / len + 1, len);
      assert (pos / len + 1) * len == pos / len * len + len;
    } else {
      AtLeastOnceOrEqual(pos / len, plays, len);
    }
  }

  lemma AtLeastOnceOrEqual(a: nat, b: nat, len: nat)
    requires a >= b
    ensures a * len >= b * len
  {
    if a > b {
      AtLeastOnce(a, b, len);
    }
  }

  /** So many frames of a sound from a position on, and silence from its last play's end on. */
  function Counted(s: seq<real>, from: nat, end: nat, n: nat): seq<real>
    requires s != []
  {
    seq(n, i requires 0 <= i < n => if from + i < end then s[(from + i) % |s|] else 0.0)
  }

  lemma CountedStep(s: seq<real>, from: nat, end: nat, n: nat)
    requires s != [] && n > 0
    ensures var next := if from < end then from + 1 else from;
            Counted(s, from, end, n) == [if from < end then s[from % |s|] else 0.0] + Counted(s, next, end, n - 1)
  {
  }

  /** A sound with a play count is heard so often and then silence, and its position stops at its end. */
  lemma {:induction false} CountedOutput(snd: Sounds, st: State, n: nat)
    requires st.alert != NoAlert && PlayCount(st.alert).Some? && !st.pendingStop
    ensures var s, end := snd(st.alert), PlayCount(st.alert).value * |snd(st.alert)|;
            && Output(snd, st, n) == Counted(s, st.frame, end, n)
            && After(snd, st, n) ==
               st.(frame := if st.frame >= end then st.frame else if st.frame + n < end then st.frame + n else end)
    decreases n
  {
    if n > 0 {
      var s := snd(st.alert);
      LoopsLeft(st.frame, |s|, PlayCount(st.alert).value);
      CountedOutput(snd, AfterFrame(snd, st), n - 1);
      CountedStep(s, st.frame, PlayCount(st.alert).value * |s|, n);
    }
  }

  lemma {:induction false} StoppingLoop(snd: Sounds, st: State, n: nat)
    requires Loops(st.alert) && st.pendingStop && n <= |snd(st.alert)| - st.frame % |snd(st.alert)|
    ensures var at := st.frame % |snd(st.alert)|;
            var left := |snd(st.alert)| - at;
            && Output(snd, st, n) == snd(st.alert)[at..at + n]
            && After(snd, st, n) == (if n < left then st.(frame := st.frame + n)
                                     else State(NoAlert, st.frame + left, false))
            && (st.frame + left) % |snd(st.alert)| == 0
  {
    var len := |snd(st.alert)|;
    WithinLoop(st.frame, len - st.frame % len, len);
    WithinLoop(st.frame, n, len);
    Chunk(snd, st, n);
  }

  /** With a pending stop a looping sound is heard to the end of its loop, and there the alert ends. */
  lemma {:induction false} StoppingOutput(snd: Sounds, st: State, n: nat)
    requires Loops(st.alert) && st.pendingStop
    ensures var at := st.frame % |snd(st.alert)|;
            var left := |snd(st.alert)| - at;
            && Output(snd, st, n) == (if n <= left then snd(st.alert)[at..at + n]
                                      else snd(st.alert)[at..] + seq(n - left, _ => 0.0))
            && After(snd, st, n) == (if n < left then st.(frame := st.frame + n)
                                     else State(NoAlert, st.frame + left, false))
            && (st.frame + left) % |snd(st.alert)| == 0
  {
    var s := snd(st.alert);
    var at := st.frame % |s|;
    var left := |s| - at;
    if n <= left {
      StoppingLoop(snd, st, n);
    } else {
      StoppingLoop(snd, st, left);
      PlaySplits(snd, st, left, n - left);
      Silence(snd, After(snd, st, left), n - left);
      assert s[at..at + left] == s[at..];
    }
  }

  // ----- Switching alerts -----

  /** The repeated prompts and the two warnings loop; every other sound is played once. */
  lemma WhichLoop(a: Alert)
    ensures Loops(a) <==> a == PromptRepeat || a == PromptDistracted || a == WarningSoft || a == WarningImmediate
    ensures !Loops(a) ==> PlayCount(a) == Some(1)
  {
  }

  predicate PlayedOnce(snd: Sounds, st: State) {
    st.alert == NoAlert || st.frame >= |snd(st.alert)|
  }

  function UpdateAlert(snd: Sounds, st: State, newAlert: Alert): State {
    if newAlert == NoAlert && Loops(st.alert) then
      if PlayedOnce(snd, st) then st.(pendingStop := true) else State(NoAlert, 0, st.pendingStop)
    else if st.alert != newAlert && (newAlert != NoAlert || PlayedOnce(snd, st)) then State(newAlert, 0, false)
    else st.(pendingStop := false)
  }

  datatype Event = Callback(frames: nat) | NewAlert(alert: Alert)

  function Step(snd: Sounds, st: State, e: Event): State {
    match e
    case Callback(frames) => After(snd, st, frames)
    case NewAlert(alert) => UpdateAlert(snd, st, alert)
  }

  function StepAll(snd: Sounds, st: State, events: seq<Event>): State {
    if events == [] then st else Step(snd, StepAll(snd, st, events[..|events| - 1]), events[|events| - 1])
  }

  const INITIAL := State(NoAlert, 0, false)

  /** Only a looping alert that has played once can be waiting to stop. */
  predicate Inv(snd: Sounds, st: State) {
    st.pendingStop ==> Loops(st.alert) && st.frame >= |snd(st.alert)|
  }

  lemma {:induction false} CallbackKeeps(snd: Sounds, st: State, frames: nat)
    requires Inv(snd, st)
    ensures Inv(snd, After(snd, st, frames))
  {
    if st.pendingStop {
      StoppingOutput(snd, st, frames);
    } else {
      NeverStartsStopping(snd, st, frames);
    }
  }

  lemma {:induction false} NeverStartsStopping(snd: Sounds, st: State, frames: nat)
    requires !st.pendingStop
    ensures !After(snd, st, frames).pendingStop && After(snd, st, frames).alert == st.alert
    decreases frames
  {
    if frames > 0 {
      NeverStartsStopping(snd, AfterFrame(snd, st), frames - 1);
    }
  }

  lemma {:induction false} RunInv(snd: Sounds, events: seq<Event>)
    ensures Inv(snd, StepAll(snd, INITIAL, events))
  {
    if events != [] {
      var st := StepAll(snd, INITIAL, events[..|events| - 1]);
      RunInv(snd, events[..|events| - 1]);
      match events[|events| - 1]
      case Callback(frames) => CallbackKeeps(snd, st, frames);
      case NewAlert(_) =>
    }
  }

  /** In every run a callback ends an alert only where its sound's loop ends, and only when it was told to. */
  lemma {:induction false} StopsAtLoopEnd(snd: Sounds, events: seq<Event>, frames: nat)
    ensures var st := StepAll(snd, INITIAL, events);
            var later := After(snd, st, frames);
            later.alert != st.alert ==>
              && st.pendingStop && Loops(st.alert) && later.alert == NoAlert && !later.pendingStop
              && later.frame % |snd(st.alert)| == 0 && st.frame < later.frame <= st.frame + |snd(st.alert)|
  {
    var st := StepAll(snd, INITIAL, events);
    RunInv(snd, events);
    if st.pendingStop {
      StoppingOutput(snd, st, frames);
    } else {
      NeverStartsStopping(snd, st, frames);
    }
  }

  /** Silencing a looping alert cuts it off at once exactly when its sound has not been played through yet. */
  lemma SilencingLoops(snd: Sounds, st: State)
    requires Loops(st.alert)
    ensures UpdateAlert(snd, st, NoAlert).alert == NoAlert <==> st.frame < |snd(st.alert)|
    ensures UpdateAlert(snd, st, NoAlert).alert != NoAlert ==> UpdateAlert(snd, st, NoAlert) == st.(pendingStop := true)
  {
  }

  /** Another alert starts at once and from its beginning, whatever is being heard; the same one goes on as it was. */
  lemma AlertsTakeOver(snd: Sounds, st: State, newAlert: Alert)
    requires newAlert != NoAlert
    ensures UpdateAlert(snd, st, newAlert) ==
            if newAlert != st.alert then State(newAlert, 0, false) else State(st.alert, st.frame, false)
  {
  }

  /** A sound that loops and has been played through: silenced, heard for part of a loop, and called for again. */
  lemma {:induction false} WithdrawnStopIsInaudible(snd: Sounds, st: State, n: nat)
    requires Loops(st.alert) && PlayedOnce(snd, st) && !st.pendingStop
    requires st.frame % |snd(st.alert)| + n < |snd(st.alert)|
    ensures var stopping := UpdateAlert(snd, st, NoAlert);
            && Output(snd, stopping, n) == Output(snd, st, n)
            && UpdateAlert(snd, After(snd, stopping, n), st.alert) == After(snd, st, n)
  {
    var stopping := UpdateAlert(snd, st, NoAlert);
    WithinLoop(st.frame, n, |snd(st.alert)|);
    Chunk(snd, stopping, n);
    Chunk(snd, st, n);
  }

  /** Everything heard over a run of callbacks and alert changes. */
  function Heard(snd: Sounds, st: State, events: seq<Event>): seq<real>
    decreases |events|
  {
    if events == [] then []
    else
      (match events[0]
       case Callback(frames) => Output(snd, st, frames)
       case NewAlert(_) => []) + Heard(snd, Step(snd, st, events[0]), events[1..])
  }

  function Frames(events: seq<Event>): nat {
    if events == [] then 0
    else (if events[0].Callback? then events[0].frames else 0) + Frames(events[1..])
  }

  predicate OnlySilences(events: seq<Event>) {
    forall i :: 0 <= i < |events| ==> events[i].Callback? || events[i] == NewAlert(NoAlert)
  }

  /** A sound that is played once is not cut off by silence: it is heard to its end, however it is silenced and cut. */
  lemma {:induction false} OnceIsHeardOut(snd: Sounds, st: State, events: seq<Event>)
    requires !Loops(st.alert) && !st.pendingStop && OnlySilences(events)
    ensures Heard(snd, st, events) == Output(snd, st, Frames(events))
    decreases |events|
  {
    if events != [] {
      var next := Step(snd, st, events[0]);
      match events[0]
      case Callback(frames) =>
        OncePlays(snd, st, frames);
        OnceIsHeardOut(snd, next, events[1..]);
        PlaySplits(snd, st, frames, Frames(events[1..]));
      case NewAlert(_) =>
        OnceIsHeardOut(snd, next, events[1..]);
        SilencedOnce(snd, st, Frames(events[1..]));
    }
  }

  lemma {:induction false} OncePlays(snd: Sounds, st: State, frames: nat)
    requires !Loops(st.alert) && !st.pendingStop
    ensures After(snd, st, frames).alert == st.alert && !After(snd, st, frames).pendingStop
    decreases frames
  {
    if frames > 0 {
      OncePlays(snd, AfterFrame(snd, st), frames - 1);
    }
  }

  /** Silencing it changes nothing that is heard: it goes on, or is over. */
  lemma {:induction false} SilencedOnce(snd: Sounds, st: State, n: nat)
    requires !Loops(st.alert) && !st.pendingStop
    ensures var next := UpdateAlert(snd, st, NoAlert);
            && !Loops(next.alert) && !next.pendingStop && Output(snd, next, n) == Output(snd, st, n)
            && next == if PlayedOnce(snd, st) && st.alert != NoAlert then State(NoAlert, 0, false) else st
  {
    var next := UpdateAlert(snd, st, NoAlert);
    if next != st {
      OnceThrough(st.frame, |snd(st.alert)|);
      Silence(snd, st, n);
      Silence(snd, next, n);
    }
  }

  lemma OnceThrough(n: nat, len: nat)
    requires 0 < len <= n
    ensures n / len >= 1
  {
    var q := n / len;
    assert n == q * len + n % len;
  }

  /** A new alert that is heard for `n` frames and then silenced. */
  function SilencedAfter(snd: Sounds, alert: Alert, n: nat): State {
    StepAll(snd, INITIAL, [NewAlert(alert), Callback(n), NewAlert(NoAlert)])
  }

  /** How many frames are left to be heard then: none before the first full play, later the rest of the loop. */
  function LeftAfter(len: nat, n: nat): nat
    requires 0 < len
  {
    if n < len then 0 else len - n % len
  }

  lemma SilencedState(snd: Sounds, alert: Alert, n: nat)
    requires Loops(alert)
    ensures SilencedAfter(snd, alert, n) == UpdateAlert(snd, State(alert, n, false), NoAlert)
  {
    var started := State(alert, 0, false);
    var events := [NewAlert(alert), Callback(n), NewAlert(NoAlert)];
    assert events[..2] == [NewAlert(alert), Callback(n)] && events[..2][..1] == [NewAlert(alert)];
    assert StepAll(snd, INITIAL, []) == INITIAL;
    assert StepAll(snd, INITIAL, events[..2][..1]) == started;
    assert StepAll(snd, INITIAL, events[..2]) == After(snd, started, n);
    LoopingOutput(snd, started, n);
  }

  /**
   What is heard of a silenced looping alert, in the run that starts and silences it: if its sound has not been played
   through, nothing more, else the rest of the loop, or all of the next one when a loop has just ended.
   */
  lemma {:induction false} SilencedRun(snd: Sounds, alert: Alert, n: nat, m: nat)
    requires Loops(alert) && |snd(alert)| <= m
    ensures var s := snd(alert);
            var left := LeftAfter(|s|, n);
            && Output(snd, SilencedAfter(snd, alert, n), m) == s[|s| - left..] + seq(m - left, _ => 0.0)
            && After(snd, SilencedAfter(snd, alert, n), m).alert == NoAlert
  {
    SilencedState(snd, alert, n);
    RestAfter(snd, alert, n, m, UpdateAlert(snd, State(alert, n, false), NoAlert));
  }

  lemma {:induction false} RestAfter(snd: Sounds, alert: Alert, n: nat, m: nat, st: State)
    requires Loops(alert) && |snd(alert)| <= m
    requires st == if n < |snd(alert)| then State(NoAlert, 0, false) else State(alert, n, true)
    ensures var s := snd(alert);
            var left := LeftAfter(|s|, n);
            && Output(snd, st, m) == s[|s| - left..] + seq(m - left, _ => 0.0)
            && After(snd, st, m).alert == NoAlert
  {
    var s := snd(alert);
    if n < |s| {
      Silence(snd, st, m);
      assert s[|s|..] + seq(m, _ => 0.0) == seq(m, _ => 0.0);
    } else {
      StoppingOutput(snd, st, m);
      RestOfLoop(s, n % |s|, m);
    }
  }

  lemma RestOfLoop(s: seq<real>, at: nat, m: nat)
    requires at < |s| <= m
    ensures (if m <= |s| - at then s[at..at + m] else s[at..] + seq(m - (|s| - at), _ => 0.0))
         == s[|s| - (|s| - at)..] + seq(m - (|s| - at), _ => 0.0)
  {
  }

  /** A silenced looping alert ends in the middle of its sound exactly when it is silenced during its first play. */
  lemma EndsMidLoop(len: nat, n: nat)
    requires 0 < len
    ensures (n + LeftAfter(len, n)) % len != 0 <==> 0 < n < len
  {
    if n < len {
      Quotient(n, len, 0, n);
    } else {
      WithinLoop(n, len - n % len, len);
    }
  }

  // ----- The daemon's object -----

  /** The first `written` frames are what `st` plays, `now` is the state after them, and the rest is silent so far. */
  predicate Played(snd: Sounds, st: State, ret: seq<real>, written: nat, now: State) {
    && written <= |ret| && ret == Output(snd, st, written) + seq(|ret| - written, _ => 0.0)
    && now == After(snd, st, written)
  }

  /** A chunk copied after what is played is played too. */
  lemma PlayedMore(snd: Sounds, st: State, ret: seq<real>, written: nat, now: State, n: nat)
    requires Played(snd, st, ret, written, now) && Sounding(snd, now)
    requires written + n <= |ret| && n <= |snd(now.alert)| - now.frame % |snd(now.alert)|
    ensures var at := now.frame % |snd(now.alert)|;
            Played(snd, st, ret[..written] + snd(now.alert)[at..at + n] + ret[written + n..], written + n,
                   ChunkEnd(now, n, |snd(now.alert)|))
  {
    Chunk(snd, now, n);
    PlaySplits(snd, st, written, n);
    OutputLength(snd, st, written);
    var at := now.frame % |snd(now.alert)|;
    assert ret[..written] == Output(snd, st, written);
    assert ret[written + n..] == seq(|ret| - written - n, _ => 0.0);
    assert snd(now.alert)[at..at + n] == Output(snd, now, n);
  }

  /** Silence needs no copying. */
  lemma {:induction false} PlayedOut(snd: Sounds, st: State, ret: seq<real>, written: nat, now: State)
    requires Played(snd, st, ret, written, now) && (written == |ret| || !Sounding(snd, now))
    ensures ret == Output(snd, st, |ret|) && now == After(snd, st, |ret|)
  {
    if written < |ret| {
      Silence(snd, now, |ret| - written);
      PlaySplits(snd, st, written, |ret| - written);
    } else {
      assert ret == Output(snd, st, written) + [];
    }
  }

  function Scaled(s: seq<real>, volume: real): seq<real> {
    seq(|s|, i requires 0 <= i < |s| => Prod(s[i], volume))
  }

  method Scale(a: array<real>, volume: real)
    modifies a
    ensures a[..] == Scaled(old(a[..]), volume)
  {
    forall k | 0 <= k < a.Length {
      a[k] := Prod(a[k], volume);
    }
  }

  /** A slice assignment. */
  method CopySlice(ret: array<real>, at: nat, chunk: seq<real>)
    requires at + |chunk| <= ret.Length
    modifies ret
    ensures ret[..] == old(ret[..at]) + chunk + old(ret[at + |chunk|..])
  {
    forall k | 0 <= k < |chunk| {
      ret[at + k] := chunk[k];
    }
  }

  class Soundd {
    var currentAlert: Alert
    var currentSoundFrame: nat
    var pendingStop: bool
    var currentVolume: real
    var rampStartVolume: real
    var rampStartTime: real
    const loadedSounds: Sounds

    function Snapshot(): State
      reads this
    {
      State(currentAlert, currentSoundFrame, pendingStop)
    }

    constructor (snd: Sounds)
      ensures Snapshot() == INITIAL && loadedSounds == snd
      ensures currentVolume == rampStartVolume == MIN_VOLUME && rampStartTime == 0.0
    {
      currentAlert, currentSoundFrame, pendingStop, loadedSounds := NoAlert, 0, false, snd;
      currentVolume, rampStartVolume, rampStartTime := MIN_VOLUME, MIN_VOLUME, 0.0;
    }

    /** The frames of one callback, at the current volume. */
    method GetSoundData(frames: nat) returns (ret: array<real>)
      modifies this`currentAlert, this`currentSoundFrame, this`pendingStop
      ensures fresh(ret) && ret[..] == Scaled(Output(loadedSounds, old(Snapshot()), frames), currentVolume)
      ensures Snapshot() == After(loadedSounds, old(Snapshot()), frames)
    {
      ret := FillFrames(frames);
      Scale(ret, currentVolume);
    }

    /** The frames of one callback, before the volume. */
    method FillFrames(frames: nat) returns (ret: array<real>)
      modifies this`currentAlert, this`currentSoundFrame, this`pendingStop
      ensures fresh(ret) && ret[..] == Output(loadedSounds, old(Snapshot()), frames)
      ensures Snapshot() == After(loadedSounds, old(Snapshot()), frames)
    {
      ret := new real[frames](_ => 0.0);
      ghost var st := Snapshot();
      var written := 0;
      assert ret[..] == [] + seq(frames, _ => 0.0);
      if currentAlert != NoAlert {
        var numLoops := PlayCount(currentAlert);
        var sound := loadedSounds(currentAlert);
        var current := currentSoundFrame % |sound|;
        var loops := currentSoundFrame / |sound|;
        while written < frames && (numLoops == None || loops < numLoops.value)
          invariant written <= frames && currentAlert != NoAlert && fresh(ret)
          invariant numLoops == PlayCount(currentAlert) && sound == loadedSounds(currentAlert)
          invariant current == currentSoundFrame % |sound| && loops == currentSoundFrame / |sound|
          invariant Played(loadedSounds, st, ret[..], written, Snapshot())
        {
          var n, stopped := WriteChunk(ret, written, current, st);
          written := written + n;
          if stopped {
            break;
          }
          current := currentSoundFrame % |sound|;
          loops := currentSoundFrame / |sound|;
        }
      }
      PlayedOut(loadedSounds, st, ret[..], written, Snapshot());
    }

    /** One turn of the loop: as much as sound and callback have left, and the alert's end if it was waited for. */
    method WriteChunk(ret: array<real>, written: nat, current: nat, ghost st: State) returns (n: nat, stopped: bool)
      requires Played(loadedSounds, st, ret[..], written, Snapshot()) && Sounding(loadedSounds, Snapshot())
      requires written < ret.Length && current == currentSoundFrame % |loadedSounds(currentAlert)|
      modifies this`currentAlert, this`currentSoundFrame, this`pendingStop, ret
      ensures 0 < n && Played(loadedSounds, st, ret[..], written + n, Snapshot())
      ensures if stopped then currentAlert == NoAlert else currentAlert == old(currentAlert)
    {
      var sound := loadedSounds(currentAlert);
      var available := |sound| - current;
      n := if available < ret.Length - written then available else ret.Length - written;
      PlayedMore(loadedSounds, st, ret[..], written, Snapshot(), n);
      CopySlice(ret, written, sound[current..current + n]);
      stopped := Advance(n, |sound|);
    }

    /** The position moved past a chunk; a pending stop takes effect at the end of the loop. */
    method Advance(n: nat, len: nat) returns (stopped: bool)
      requires 0 < n && 0 < len && currentAlert != NoAlert
      modifies this`currentAlert, this`currentSoundFrame, this`pendingStop
      ensures Snapshot() == ChunkEnd(old(Snapshot()), n, len)
      ensures if stopped then currentAlert == NoAlert else currentAlert == old(currentAlert)
    {
      currentSoundFrame := currentSoundFrame + n;
      stopped := pendingStop && currentSoundFrame % len == 0;
      if stopped {
        currentAlert := NoAlert;
        pendingStop := false;
      }
    }

    /** An immediate warning that is new also starts the ramp of the volume. */
    method ChangeAlert(newAlert: Alert, now: real)
      modifies this
      ensures Snapshot() == UpdateAlert(loadedSounds, old(Snapshot()), newAlert) && currentVolume == old(currentVolume)
      ensures if newAlert == WarningImmediate && old(currentAlert) != WarningImmediate then
                rampStartVolume == currentVolume && rampStartTime == now
              else
                rampStartVolume == old(rampStartVolume) && rampStartTime == old(rampStartTime)
    {
      var playedOnce := currentAlert == NoAlert || currentSoundFrame >= |loadedSounds(currentAlert)|;
      if newAlert == NoAlert && currentAlert != NoAlert && PlayCount(currentAlert) == None {
        if playedOnce {
          pendingStop := true;
        } else {
          currentAlert := NoAlert;
          currentSoundFrame := 0;
        }
        return;
      }
      pendingStop := false;
      if currentAlert != newAlert && (newAlert != NoAlert || playedOnce) {
        if newAlert == WarningImmediate {
          rampStartVolume := currentVolume;
          rampStartTime := now;
        }
        currentAlert := newAlert;
        currentSoundFrame := 0;
      }
    }
  }
}
