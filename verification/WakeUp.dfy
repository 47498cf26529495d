/// Waiting for a flag with an event: `CloseSignal::closed` and `Window::ready`.
///
/// A waiter registers a listener, checks the flag, and parks; a closer sets the flag and notifies
/// whoever is registered at that moment. All of these are separate steps here.

module WakeUps {

  /// `Heard` after the index means the listener has been notified.
  datatype Waiter =
    | Idle
    | Listening(heard: bool)
    | Checked
    | Parked(heard: bool)
    | Through

  datatype Closer = Before | Flagged | Finished

  /// `swaps`: only the closer that flips the flag notifies (`CloseSignal::close`); otherwise every
  /// closer does (`Window::push`, `Window::close`).
  /// `listensFirst`: the listener is created before the flag is checked.
  datatype Config = Config(swaps: bool, listensFirst: bool)

  datatype World = World(flag: bool, waiters: seq<Waiter>, closers: seq<Closer>)

  datatype Step =
    | NewWaiter
    | NewCloser
    | First(w: nat)
    | Second(w: nat)
    | Wake(w: nat)
    | TimeOut(w: nat)
    | SetFlag(c: nat)
    | Notify(c: nat)
    | SelfSeal(w: nat)

  predicate CanStep(s: World, step: Step) {
    match step
    case NewWaiter => true
    case NewCloser => true
    case First(w) => w < |s.waiters| && s.waiters[w].Idle?
    case Second(w) => w < |s.waiters| && (s.waiters[w].Listening? || s.waiters[w].Checked?)
    case Wake(w) => w < |s.waiters| && s.waiters[w].Parked? && s.waiters[w].heard
    case TimeOut(w) => w < |s.waiters| && s.waiters[w].Parked?
    case SetFlag(c) => c < |s.closers| && s.closers[c].Before?
    case Notify(c) => c < |s.closers| && s.closers[c].Flagged?
    // `Window::seal` sets the flag without notifying: its only caller is the window's one waiter,
    // when its own wait is over.
    case SelfSeal(w) => w < |s.waiters| && s.waiters[w].Through? && |s.waiters| == 1
  }

  function Told(w: Waiter): Waiter {
    match w
    case Listening(_) => Listening(true)
    case Parked(_) => Parked(true)
    case _ => w
  }

  function Apply(cfg: Config, s: World, step: Step): World
    requires CanStep(s, step)
  {
    match step
    case NewWaiter => s.(waiters := s.waiters + [Idle])
    case NewCloser => s.(closers := s.closers + [Before])
    case First(w) =>
      if cfg.listensFirst then s.(waiters := s.waiters[w := Listening(false)])
      else s.(waiters := s.waiters[w := if s.flag then Through else Checked])
    case Second(w) =>
      if s.waiters[w].Listening? then
        s.(waiters := s.waiters[w := if s.flag then Through else Parked(s.waiters[w].heard)])
      else s.(waiters := s.waiters[w := Parked(false)])
    case Wake(w) => s.(waiters := s.waiters[w := Through])
    case TimeOut(w) => s.(waiters := s.waiters[w := Through])
    case SetFlag(c) =>
      World(true, s.waiters, s.closers[c := if cfg.swaps && s.flag then Finished else Flagged])
    case Notify(c) =>
      World(s.flag, seq(|s.waiters|, i requires 0 <= i < |s.waiters| => Told(s.waiters[i])), s.closers[c := Finished])
    case SelfSeal(_) => s.(flag := true)
  }

  ghost predicate IsRun(cfg: Config, s: World, steps: seq<Step>)
    decreases |steps|
  {
    |steps| > 0 ==> CanStep(s, steps[0]) && IsRun(cfg, Apply(cfg, s, steps[0]), steps[1..])
  }

  ghost function End(cfg: Config, s: World, steps: seq<Step>): World
    requires IsRun(cfg, s, steps)
    decreases |steps|
  {
    if |steps| == 0 then s else End(cfg, Apply(cfg, s, steps[0]), steps[1..])
  }

  const START := World(false, [], [])

  /// A waiter sleeps although the flag is set and no closer is left that would notify it.
  ghost predicate Lost(s: World, w: nat) {
    && w < |s.waiters| && s.waiters[w] == Parked(false) && s.flag
    && (forall c :: 0 <= c < |s.closers| ==> !s.closers[c].Flagged?)
  }

  ghost predicate LosesFrom(cfg: Config, s: World, steps: seq<Step>, w: nat) {
    IsRun(cfg, s, steps) && Lost(End(cfg, s, steps), w)
  }

  ghost predicate LosesWakeUp(cfg: Config, steps: seq<Step>, w: nat) {
    LosesFrom(cfg, START, steps, w)
  }

  /// An unnotified sleeper is always covered: the flag is not set, or its setter is about to notify.
  ghost predicate Covered(s: World) {
    && (forall w {:trigger s.waiters[w]} :: 0 <= w < |s.waiters| ==> !s.waiters[w].Checked?)
    && ((exists w {:trigger s.waiters[w]} :: 0 <= w < |s.waiters| && s.waiters[w] == Parked(false)) && s.flag ==>
          exists c {:trigger s.closers[c]} :: 0 <= c < |s.closers| && s.closers[c].Flagged?)
  }

  lemma {:induction false} CoveredStep(cfg: Config, s: World, step: Step)
    requires cfg.listensFirst && Covered(s) && CanStep(s, step)
    ensures Covered(Apply(cfg, s, step))
  {
    var s' := Apply(cfg, s, step);
    if w :| 0 <= w < |s'.waiters| && s'.waiters[w] == Parked(false) && s'.flag {
      match step {
        case SetFlag(c) =>
          if cfg.swaps && s.flag {
            assert s.waiters[w] == Parked(false);
            var d :| 0 <= d < |s.closers| && s.closers[d].Flagged?;
            assert s'.closers[d].Flagged?;
          } else {
            assert s'.closers[c].Flagged?;
          }
        case NewWaiter =>
          assert s.waiters[w] == Parked(false);
        case NewCloser =>
          assert s.waiters[w] == Parked(false);
          var d :| 0 <= d < |s.closers| && s.closers[d].Flagged?;
          assert s'.closers[d].Flagged?;
        case SelfSeal(v) =>
          assert s.waiters[w] == Parked(false);
        case Notify(_) =>
        case First(v) =>
          assert w != v && s.waiters[w] == Parked(false);
        case Second(v) =>
          assert w != v && s.waiters[w] == Parked(false);
        case Wake(v) =>
          assert w != v && s.waiters[w] == Parked(false);
        case TimeOut(v) =>
          assert w != v && s.waiters[w] == Parked(false);
      }
    }
  }

  lemma {:induction false} CoveredRun(cfg: Config, s: World, steps: seq<Step>)
    requires cfg.listensFirst && Covered(s) && IsRun(cfg, s, steps)
    ensures Covered(End(cfg, s, steps))
    decreases |steps|
  {
    if |steps| > 0 {
      CoveredStep(cfg, s, steps[0]);
      CoveredRun(cfg, Apply(cfg, s, steps[0]), steps[1..]);
    }
  }

  /// Check, then listen: the order in which `PriorityQueue::dequeue` waits for `close`, which notifies
  /// everybody. What `enqueue`'s `notify(1)` and the loop around the wait add is in DequeueWaits.
  const LATE_LISTENER := [NewWaiter, NewCloser, First(0), SetFlag(0), Notify(0), Second(0)]

  lemma {:induction false} LateListenerSleeps(swaps: bool)
    ensures var cfg := Config(swaps, false);
            IsRun(cfg, START, LATE_LISTENER) && Lost(End(cfg, START, LATE_LISTENER), 0)
  {
    var cfg := Config(swaps, false);
    var s1 := Apply(cfg, START, NewWaiter);
    var s2 := Apply(cfg, s1, NewCloser);
    var s3 := Apply(cfg, s2, First(0));
    var s4 := Apply(cfg, s3, SetFlag(0));
    var s5 := Apply(cfg, s4, Notify(0));
    var s6 := Apply(cfg, s5, Second(0));
    assert s6.waiters == [Parked(false)] && s6.closers == [Finished];
    var steps := LATE_LISTENER;
    assert steps[1..][1..][1..][1..][1..][1..] == [];
    assert IsRun(cfg, s6, steps[6..]) && steps[5..][1..] == steps[6..];
    assert IsRun(cfg, s5, steps[5..]) && steps[4..][1..] == steps[5..];
    assert IsRun(cfg, s4, steps[4..]) && steps[3..][1..] == steps[4..];
    assert IsRun(cfg, s3, steps[3..]) && steps[2..][1..] == steps[3..];
    assert IsRun(cfg, s2, steps[2..]) && steps[1..][1..] == steps[2..];
    assert IsRun(cfg, s1, steps[1..]);
  }

  /// A waiter that checks first, and has found or will find the flag set.
  ghost predicate PassesThrough(s: World, w: nat) {
    s.flag && w < |s.waiters| && (s.waiters[w].Idle? || s.waiters[w].Through?)
  }

  lemma {:induction false} NeverParks(cfg: Config, s: World, steps: seq<Step>, w: nat)
    requires !cfg.listensFirst && PassesThrough(s, w) && IsRun(cfg, s, steps)
    ensures PassesThrough(End(cfg, s, steps), w)
    decreases |steps|
  {
    if |steps| > 0 {
      NeverParks(cfg, Apply(cfg, s, steps[0]), steps[1..], w);
    }
  }

  lemma {:induction false} Prepend(cfg: Config, s: World, step: Step, rest: seq<Step>)
    requires CanStep(s, step) && IsRun(cfg, Apply(cfg, s, step), rest)
    ensures IsRun(cfg, s, [step] + rest) && End(cfg, s, [step] + rest) == End(cfg, Apply(cfg, s, step), rest)
  {
    assert ([step] + rest)[1..] == rest;
  }

  /// A flag that is set, and a closer that is done, between the check and the listener.
  lemma {:induction false} LosingRun(cfg: Config, s: World, w: nat) returns (steps: seq<Step>)
    requires !cfg.listensFirst && !s.flag && w < |s.waiters| && s.waiters[w].Idle?
    requires forall c :: 0 <= c < |s.closers| ==> !s.closers[c].Flagged?
    ensures IsRun(cfg, s, steps) && Lost(End(cfg, s, steps), w)
  {
    var c := |s.closers|;
    var s1 := Apply(cfg, s, NewCloser);
    var s2 := Apply(cfg, s1, First(w));
    var s3 := Apply(cfg, s2, SetFlag(c));
    var s4 := Apply(cfg, s3, Notify(c));
    steps := [];
    Prepend(cfg, s4, Second(w), steps);
    steps := [Second(w)] + steps;
    Prepend(cfg, s3, Notify(c), steps);
    steps := [Notify(c)] + steps;
    Prepend(cfg, s2, SetFlag(c), steps);
    steps := [SetFlag(c)] + steps;
    Prepend(cfg, s1, First(w), steps);
    steps := [First(w)] + steps;
    Prepend(cfg, s, NewCloser, steps);
    steps := [NewCloser] + steps;
  }

  /// Waiter by waiter: one that checks before it listens can lose its wake-up exactly when the flag is
  /// not set yet as it starts.
  lemma {:induction false} WhenALateListenerIsSafe(cfg: Config, s: World, w: nat)
    requires !cfg.listensFirst && w < |s.waiters| && s.waiters[w].Idle?
    requires forall c :: 0 <= c < |s.closers| && s.closers[c].Flagged? ==> s.flag
    ensures (exists steps :: LosesFrom(cfg, s, steps, w)) <==> !s.flag
  {
    if s.flag {
      forall steps
        ensures !LosesFrom(cfg, s, steps, w)
      {
        if IsRun(cfg, s, steps) {
          NeverParks(cfg, s, steps, w);
        }
      }
    } else {
      var steps := LosingRun(cfg, s, w);
      assert LosesFrom(cfg, s, steps, w);
    }
  }

  /// No run loses a wake-up exactly when the listener is created before the flag is read; how
  /// closers decide to notify makes no difference.
  lemma {:induction false} NoLostWakeUp(cfg: Config)
    ensures cfg.listensFirst <==>
              (forall steps: seq<Step>, w: nat :: !LosesWakeUp(cfg, steps, w))
  {
    if cfg.listensFirst {
      forall steps: seq<Step>, w: nat
        ensures !LosesWakeUp(cfg, steps, w)
      {
        if IsRun(cfg, START, steps) {
          CoveredRun(cfg, START, steps);
        }
      }
    } else {
      LateListenerSleeps(cfg.swaps);
      assert cfg == Config(cfg.swaps, false);
      assert LosesWakeUp(cfg, LATE_LISTENER, 0);
    }
  }
}
