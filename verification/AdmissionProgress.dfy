/// Every caller gets its answer: runs without new arrivals are short, and one that has come to a stop
/// has answered everybody.

module AdmissionProgress {
  import opened Admission
  import opened AdmissionInvariant
  import AdmissionLock
  import opened AdmissionTheorems

  /// How far a caller still has to go at most; opening a window also pays for that window's own steps.
  function Rank(pc: Pc): nat {
    match pc
    case Start => 17
    case Locked => 16
    case Pushing(_, _) => 15
    case Opening(_) => 14
    case Pushed(_, _, _) => 10
    case Opened(_, _) => 10
    case Discarding(_, _) => 9
    case AbandoningDiscard(_, _) => 8
    case Waiting(_) => 7
    case Recording(_, _) => 6
    case Finishing(_, _) => 5
    case Abandoning(_, _) => 1
    case Finished(_, _) => 0
    case Withdrawn => 0
  }

  /// A window's job is shown at most once and sealed at most once.
  function WinRank(rec: WindowRec): nat {
    (if rec.submission.InFlight? then 1 else 0) + (if rec.taken.None? then 1 else 0)
  }

  function CallersLeft(callers: seq<Caller>): nat {
    if |callers| == 0 then 0
    else CallersLeft(callers[..|callers| - 1]) + Rank(callers[|callers| - 1].pc)
  }

  function WinsLeft(wins: seq<WindowRec>): nat {
    if |wins| == 0 then 0
    else WinsLeft(wins[..|wins| - 1]) + WinRank(wins[|wins| - 1])
  }

  function StepsLeft(s: State): nat {
    CallersLeft(s.callers) + WinsLeft(s.wins)
  }

  lemma {:induction false} CallersUpdate(callers: seq<Caller>, c: nat, x: Caller)
    requires c < |callers|
    ensures CallersLeft(callers[c := x]) + Rank(callers[c].pc) == CallersLeft(callers) + Rank(x.pc)
  {
    var last := |callers| - 1;
    if c == last {
      assert callers[c := x][..last] == callers[..last];
    } else {
      assert callers[c := x][..last] == callers[..last][c := x];
      CallersUpdate(callers[..last], c, x);
    }
  }

  lemma {:induction false} WinsUpdate(wins: seq<WindowRec>, w: nat, x: WindowRec)
    requires w < |wins|
    ensures WinsLeft(wins[w := x]) + WinRank(wins[w]) == WinsLeft(wins) + WinRank(x)
  {
    var last := |wins| - 1;
    if w == last {
      assert wins[w := x][..last] == wins[..last];
    } else {
      assert wins[w := x][..last] == wins[..last][w := x];
      WinsUpdate(wins[..last], w, x);
    }
  }

  lemma {:induction false} WinsAppend(wins: seq<WindowRec>, x: WindowRec)
    ensures WinsLeft(wins + [x]) == WinsLeft(wins) + WinRank(x)
  {
    assert (wins + [x])[..|wins|] == wins;
  }

  /// A step moves caller `c` forward, and leaves every window's rank alone but that of `w`.
  lemma {:induction false} Descends(s: State, s': State, c: nat, w: nat)
    requires c < |s.callers| == |s'.callers| && s'.callers == s.callers[c := s'.callers[c]]
    requires |s'.wins| == |s.wins| && (w < |s.wins| ==> s'.wins == s.wins[w := s'.wins[w]])
    requires w >= |s.wins| ==> s'.wins == s.wins
    requires Rank(s'.callers[c].pc) + (if w < |s.wins| then WinRank(s'.wins[w]) else 0)
           < Rank(s.callers[c].pc) + (if w < |s.wins| then WinRank(s.wins[w]) else 0)
    ensures StepsLeft(s') < StepsLeft(s)
  {
    CallersUpdate(s.callers, c, s'.callers[c]);
    if w < |s.wins| {
      WinsUpdate(s.wins, w, s'.wins[w]);
    }
  }

  lemma {:induction false} OwnerDescends(s: State, step: Step)
    requires Shape(s) && Enabled(s, step)
    requires step.Inspect? || step.Push? || step.Reinsert? || step.Publish?
    ensures StepsLeft(Apply(s, step)) < StepsLeft(s)
  {
    match step
    case Inspect(c) => Descends(s, Apply(s, step), c, if s.slot.Some? then s.slot.value.win else |s.wins|);
    case Push(c) => Descends(s, Apply(s, step), c, PcOf(s, c).entry.win);
    case Reinsert(c) => Descends(s, Apply(s, step), c, |s.wins|);
    case Publish(c) => Descends(s, Apply(s, step), c, |s.wins|);
  }

  lemma {:induction false} CreateDescends(s: State, c: nat)
    requires Shape(s) && Enabled(s, Create(c))
    ensures StepsLeft(Apply(s, Create(c))) < StepsLeft(s)
  {
    var s' := Apply(s, Create(c));
    CallersUpdate(s.callers, c, s'.callers[c]);
    WinsAppend(s.wins, s'.wins[|s.wins|]);
  }

  lemma {:induction false} WindowDescends(s: State, step: Step)
    requires Shape(s) && Enabled(s, step) && (step.Show? || step.Seal?)
    ensures StepsLeft(Apply(s, step)) < StepsLeft(s)
  {
    var w := if step.Seal? then step.w else PcOf(s, step.c).win;
    WinsUpdate(s.wins, w, Apply(s, step).wins[w]);
  }

  lemma {:induction false} CallbackDescends(s: State, step: Step)
    requires Shape(s) && Enabled(s, step)
    requires step.Withdraw? || step.Acquire? || step.Observe? || step.Abandon? || step.AbandonDiscard?
    ensures StepsLeft(Apply(s, step)) < StepsLeft(s)
  {
    Descends(s, Apply(s, step), step.c, |s.wins|);
  }

  lemma {:induction false} WaiterDescends(s: State, step: Step)
    requires Shape(s) && Enabled(s, step)
    requires step.Discard? || step.Return? || step.Record? || step.Drop? || step.Cancel?
    ensures StepsLeft(Apply(s, step)) < StepsLeft(s)
  {
    var w := if step.Discard? then PcOf(s, step.c).discarded else PcOf(s, step.c).win;
    Descends(s, Apply(s, step), step.c, w);
  }

  /// Every step but an arrival brings the end nearer.
  lemma {:induction false} StepDescends(s: State, step: Step)
    requires Shape(s) && Enabled(s, step) && !step.Arrive?
    ensures StepsLeft(Apply(s, step)) < StepsLeft(s)
  {
    match step
    case Arrive(_, _, _) =>
    case Inspect(_) => OwnerDescends(s, step);
    case Push(_) => OwnerDescends(s, step);
    case Reinsert(_) => OwnerDescends(s, step);
    case Publish(_) => OwnerDescends(s, step);
    case Create(c) => CreateDescends(s, c);
    case Show(_) => WindowDescends(s, step);
    case Seal(_) => WindowDescends(s, step);
    case Withdraw(_) => CallbackDescends(s, step);
    case Acquire(_) => CallbackDescends(s, step);
    case Observe(_) => CallbackDescends(s, step);
    case Abandon(_) => CallbackDescends(s, step);
    case AbandonDiscard(_) => CallbackDescends(s, step);
    case Discard(_) => WaiterDescends(s, step);
    case Return(_, _) => WaiterDescends(s, step);
    case Record(_) => WaiterDescends(s, step);
    case Drop(_) => WaiterDescends(s, step);
    case Cancel(_) => WaiterDescends(s, step);
  }

  lemma {:induction false} StepsLeftIsBounded(s: State)
    ensures StepsLeft(s) <= 17 * |s.callers| + 2 * |s.wins|
  {
    CallersLeftIsBounded(s.callers);
    WinsLeftIsBounded(s.wins);
  }

  lemma {:induction false} CallersLeftIsBounded(callers: seq<Caller>)
    ensures CallersLeft(callers) <= 17 * |callers|
  {
    if |callers| > 0 {
      CallersLeftIsBounded(callers[..|callers| - 1]);
    }
  }

  lemma {:induction false} WinsLeftIsBounded(wins: seq<WindowRec>)
    ensures WinsLeft(wins) <= 2 * |wins|
  {
    if |wins| > 0 {
      WinsLeftIsBounded(wins[..|wins| - 1]);
    }
  }

  ghost predicate NobodyArrives(steps: seq<Step>) {
    forall k :: 0 <= k < |steps| ==> !steps[k].Arrive?
  }

  /// A run without arrivals cannot go on for ever: its length is bounded by the callers and windows
  /// there are, however the steps interleave.
  lemma {:induction false} RunsEnd(s: State, steps: seq<Step>)
    requires IsRun(s, steps) && NobodyArrives(steps)
    ensures |steps| + StepsLeft(After(s, steps)) <= StepsLeft(s) <= 17 * |s.callers| + 2 * |s.wins|
    decreases |steps|
  {
    StepsLeftIsBounded(s);
    if |steps| > 0 {
      StepDescends(s, steps[0]);
      RunsEnd(Apply(s, steps[0]), steps[1..]);
    }
  }

  ghost predicate HasAnswer(s: State, c: nat)
    requires c < |s.callers|
  {
    s.callers[c].pc.Finished? || s.callers[c].pc.Withdrawn?
  }

  ghost predicate AllAnswered(s: State) {
    forall c :: 0 <= c < |s.callers| ==> HasAnswer(s, c)
  }

  /// A step that somebody takes of its own accord.
  predicate IsProgress(step: Step) {
    !step.Arrive? && !step.Withdraw? && !step.Cancel?
  }

  ghost predicate CanGoOn(s: State) {
    Shape(s) && exists step :: Enabled(s, step) && IsProgress(step)
  }

  /// A state in which nobody can go on has answered everybody.
  lemma {:induction false} StoppedMeansAnswered(s: State)
    requires Reachable(s)
    ensures AllAnswered(s) || CanGoOn(s)
  {
    if !AllAnswered(s) {
      var c :| 0 <= c < |s.callers| && !HasAnswer(s, c);
      var step := AdmissionLock.SomebodyCanMove(s, c);
      assert Enabled(s, step) && IsProgress(step);
    }
  }

  lemma {:induction false} OneStepMore(s: State, steps: seq<Step>, step: Step)
    requires IsRun(s, steps) && Shape(After(s, steps)) && Enabled(After(s, steps), step)
    ensures IsRun(s, steps + [step]) && After(s, steps + [step]) == Apply(After(s, steps), step)
    decreases |steps|
  {
    if |steps| == 0 {
      assert steps + [step] == [step] && [step][1..] == [];
    } else {
      OneStepMore(Apply(s, steps[0]), steps[1..], step);
      assert (steps + [step])[1..] == steps[1..] + [step];
    }
  }

  lemma {:induction false} ApplyKeepsSize(s: State, step: Step)
    requires Shape(s) && Enabled(s, step)
    ensures Apply(s, step).maxSize == s.maxSize
  {
  }

  lemma {:induction false} ReachableStep(s: State, step: Step)
    requires Reachable(s) && Shape(s) && Enabled(s, step)
    ensures Reachable(Apply(s, step))
  {
    var start := Init(s.maxSize);
    var steps :| IsRun(start, steps) && After(start, steps) == s;
    OneStepMore(start, steps, step);
    ApplyKeepsSize(s, step);
    assert IsRun(Init(Apply(s, step).maxSize), steps + [step]);
  }

  /// Wherever the protocol has got to, everybody can still be answered without anyone arriving,
  /// withdrawing or being cancelled. With `RunsEnd` and `StoppedMeansAnswered`: whatever is done next,
  /// going on until nobody can go on comes to an end, and then everybody has been answered.
  lemma {:induction false} EverybodyCanBeAnswered(s: State) returns (steps: seq<Step>)
    requires Reachable(s)
    ensures IsRun(s, steps) && AllAnswered(After(s, steps)) && |steps| <= StepsLeft(s)
    ensures forall k :: 0 <= k < |steps| ==> IsProgress(steps[k])
    decreases StepsLeft(s)
  {
    StoppedMeansAnswered(s);
    if AllAnswered(s) {
      steps := [];
    } else {
      var step :| Enabled(s, step) && IsProgress(step);
      ReachableStep(s, step);
      StepDescends(s, step);
      var rest := EverybodyCanBeAnswered(Apply(s, step));
      steps := [step] + rest;
      assert steps[1..] == rest;
    }
  }

  lemma {:induction false} NeverWithdrawn(s: State, steps: seq<Step>, c: nat)
    requires IsRun(s, steps) && NotWithdrawn(s, c) && NeverTaken(steps, Withdraw(c))
    ensures NotWithdrawn(After(s, steps), c)
    decreases |steps|
  {
    if |steps| > 0 {
      OnlyWithdrawWithdraws(s, steps[0], c);
      NeverWithdrawn(Apply(s, steps[0]), steps[1..], c);
    }
  }

  ghost predicate NotWithdrawn(s: State, c: nat) {
    c < |s.callers| ==> !s.callers[c].pc.Withdrawn?
  }

  lemma {:induction false} OnlyWithdrawWithdraws(s: State, step: Step, c: nat)
    requires Shape(s) && Enabled(s, step) && NotWithdrawn(s, c) && step != Withdraw(c)
    ensures NotWithdrawn(Apply(s, step), c)
  {
    if step.Inspect? || step.Push? || step.Reinsert? || step.Create? || step.Publish? {
      OwnerWithdrawsNobody(s, step, c);
    }
  }

  lemma {:induction false} OwnerWithdrawsNobody(s: State, step: Step, c: nat)
    requires Shape(s) && Enabled(s, step) && NotWithdrawn(s, c)
    requires step.Inspect? || step.Push? || step.Reinsert? || step.Create? || step.Publish?
    ensures NotWithdrawn(Apply(s, step), c)
  {
  }

  /// Caller `c` was there before the run, or came during it, and nobody cancelled or withdrew it.
  ghost predicate LeftAlone(s: State, steps: seq<Step>, c: nat) {
    NotCancelled(s, c) && NotWithdrawn(s, c) && NeverTaken(steps, Cancel(c)) && NeverTaken(steps, Withdraw(c))
  }

  lemma {:induction false} LeftAloneMeansTold(s: State, steps: seq<Step>, c: nat)
    requires IsRun(s, steps) && LeftAlone(s, steps, c) && Inv(After(s, steps))
    requires c < |After(s, steps).callers| && HasAnswer(After(s, steps), c)
    ensures Told(After(s, steps), c)
  {
    NeverCancelled(s, steps, c);
    NeverWithdrawn(s, steps, c);
    FinishedMeansTold(After(s, steps), c);
  }

  lemma {:induction false} ReachableAfter(s: State, steps: seq<Step>)
    requires Reachable(s) && IsRun(s, steps)
    ensures Reachable(After(s, steps))
    decreases |steps|
  {
    if |steps| > 0 {
      ReachableStep(s, steps[0]);
      ReachableAfter(Apply(s, steps[0]), steps[1..]);
    }
  }

  /// A run that goes on until nobody can go on: without arrivals it is as short as that; it has answered
  /// everybody; and every caller that was left alone has been told what became of its window: `Ok` if
  /// and only if it was accepted, the queue's error if and only if it was rejected.
  lemma {:induction false} MaximalRunsAnswerEverybody(s: State, steps: seq<Step>)
    requires Reachable(s) && IsRun(s, steps) && !CanGoOn(After(s, steps))
    ensures NobodyArrives(steps) ==> |steps| <= 17 * |s.callers| + 2 * |s.wins|
    ensures AllAnswered(After(s, steps))
    ensures forall c {:trigger LeftAlone(s, steps, c)} ::
              0 <= c < |After(s, steps).callers| && LeftAlone(s, steps, c) ==> Told(After(s, steps), c)
  {
    if NobodyArrives(steps) {
      RunsEnd(s, steps);
    }
    ReachableAfter(s, steps);
    ReachableInv(After(s, steps));
    StoppedMeansAnswered(After(s, steps));
    forall c {:trigger LeftAlone(s, steps, c)} | 0 <= c < |After(s, steps).callers| && LeftAlone(s, steps, c)
      ensures Told(After(s, steps), c)
    {
      assert HasAnswer(After(s, steps), c);
      LeftAloneMeansTold(s, steps, c);
    }
  }
}
