/// The slot mutex: who can hold it, that nobody asks for it twice, and that it is always given back.

module AdmissionLock {
  import opened Basics
  import opened Windows
  import opened Admission
  import opened AdmissionInvariant

  /// A step that takes the slot mutex: `join`, `accept`/`evict`, or an admission's destructor.
  predicate TakesLock(step: Step) {
    step.Acquire? || step.Record? || step.Abandon? || step.AbandonDiscard?
  }

  /// No reference to the admission of `w` was released between the two states.
  ghost predicate KeepsRefs(s: State, s': State, w: nat)
    requires w < |s.wins|
  {
    w < |s'.wins| && s'.wins[w].strong >= s.wins[w].strong
  }

  lemma {:induction false} OwnerKeepsRefs(s: State, step: Step, w: nat)
    requires Inv(s) && Enabled(s, step) && w < |s.wins|
    requires step.Inspect? || step.Push? || step.Reinsert? || step.Create? || step.Publish?
    ensures KeepsRefs(s, Apply(s, step), w)
  {
    match step
    case Inspect(_) =>
    case Push(_) =>
    case _ =>
  }

  /// The mutex is never re-entered: its owner is never at a point where it would take it again, and no
  /// step of its owner releases a reference, so no destructor can run inside the guarded block.
  lemma {:induction false} LockNeverReentered(s: State, step: Step, c: nat)
    requires Reachable(s) && Shape(s) && s.lock == Some(c)
    requires !step.Arrive? && !step.Seal? && step.c == c && c < |s.callers|
    ensures InLock(PcOf(s, c))
    ensures !PcOf(s, c).Start? && !PcOf(s, c).Recording? && !PcOf(s, c).Abandoning? && !PcOf(s, c).AbandoningDiscard?
    ensures Enabled(s, step) ==> !TakesLock(step)
    ensures Enabled(s, step) ==>
              forall w {:trigger KeepsRefs(s, Apply(s, step), w)} :: 0 <= w < |s.wins| ==>
                KeepsRefs(s, Apply(s, step), w)
  {
    ReachableInv(s);
    if Enabled(s, step) {
      forall w {:trigger KeepsRefs(s, Apply(s, step), w)} | 0 <= w < |s.wins|
        ensures KeepsRefs(s, Apply(s, step), w)
      {
        OwnerKeepsRefs(s, step, w);
      }
    }
  }

  // ---------------------------------------------------------------- the mutex is given back

  function OwnerNext(s: State, c: nat): Step
    requires At(s, c) && InLock(PcOf(s, c))
  {
    match PcOf(s, c)
    case Locked => Inspect(c)
    case Pushing(_, _) => Push(c)
    case Pushed(_, _, _) => Reinsert(c)
    case Opening(_) => Create(c)
    case _ => Publish(c)
  }

  function OwnerRank(pc: Pc): nat {
    match pc
    case Locked => 4
    case Pushing(_, _) => 3
    case Opening(_) => 2
    case _ => 1
  }

  lemma {:induction false} OwnerAdvances(s: State, c: nat)
    requires Inv(s) && s.lock == Some(c)
    ensures Enabled(s, OwnerNext(s, c))
    ensures var s' := Apply(s, OwnerNext(s, c));
            s'.lock.None? || (s'.lock == Some(c) && OwnerRank(PcOf(s', c)) < OwnerRank(PcOf(s, c)))
  {
    StepKeeps(s, OwnerNext(s, c));
  }

  /// Whoever owns the mutex gives it back within four steps of its own, needing nobody else.
  lemma {:induction false} LockIsReleased(s: State, c: nat) returns (steps: seq<Step>)
    requires Inv(s) && s.lock == Some(c)
    ensures IsRun(s, steps) && After(s, steps).lock.None? && |steps| <= OwnerRank(PcOf(s, c)) <= 4
    ensures forall i :: 0 <= i < |steps| ==>
              (steps[i].Inspect? || steps[i].Push? || steps[i].Reinsert? || steps[i].Create? || steps[i].Publish?)
              && steps[i].c == c
    decreases OwnerRank(PcOf(s, c))
  {
    var step := OwnerNext(s, c);
    var s' := Apply(s, step);
    OwnerAdvances(s, c);
    StepKeeps(s, step);
    if s'.lock.None? {
      steps := [step];
    } else {
      var rest := LockIsReleased(s', c);
      steps := [step] + rest;
    }
    assert steps[1..] == if s'.lock.None? then [] else steps[1..];
  }

  // ---------------------------------------------------------------- no deadlock

  /// As long as some caller has no answer, somebody can move without anyone arriving or being
  /// cancelled: no interleaving deadlocks.
  lemma {:induction false} SomebodyCanMove(s: State, c: nat) returns (step: Step)
    requires Reachable(s) && c < |s.callers|
    requires !s.callers[c].pc.Finished? && !s.callers[c].pc.Withdrawn?
    ensures Shape(s) && Enabled(s, step)
    ensures !step.Arrive? && !step.Withdraw? && !step.Cancel?
  {
    ReachableInv(s);
    var pc := s.callers[c].pc;
    assert Placed(s, c);
    if s.lock.Some? {
      OwnerAdvances(s, s.lock.value);
      step := OwnerNext(s, s.lock.value);
    } else {
      match pc
      case Start => step := Acquire(c);
      case Discarding(_, _) => step := Discard(c);
      case AbandoningDiscard(_, _) => step := AbandonDiscard(c);
      case Recording(_, _) => step := Record(c);
      case Finishing(_, _) => step := Drop(c);
      case Abandoning(_, _) => step := Abandon(c);
      case Waiting(w) =>
        assert WinOk(s, w);
        match s.wins[w].submission {
          case InFlight => step := Show(c);
          case Visible => step := Return(c, true);
          case Returned(_, poller) => step := Record(poller);
          case Done(_) => step := Observe(c);
        }
    }
  }

  // ---------------------------------------------------------------- why the discarded admission is dropped late

  /// The states of one run: caller 0 opens a window and shows its job, caller 1 joins it and upgrades
  /// the admission, the worker seals the window, caller 1's push fails, and caller 0 is cancelled.
  function RaceSteps(i: Input, d: Delivery, o: Options): seq<Step> {
    [Arrive(i, d, o), Acquire(0), Inspect(0), Create(0), Publish(0), Show(0),
     Arrive(i, d, o), Acquire(1), Inspect(1), Seal(0), Push(1), Cancel(0)]
  }

  function RaceStates(i: Input, d: Delivery, o: Options): (states: seq<State>)
    ensures |states| == |RaceSteps(i, d, o)| + 1
  {
    var w0 := WindowRec(OpenWith(3, i, d), o, InFlight, 1, None, [0]);
    var w1 := w0.(submission := Visible);
    var w2 := w1.(strong := 2);
    var w3 := w2.(value := SealValue(w2.value), taken := Some(([i], [d])));
    var e := Entry(0, o, false);
    var c0 := Caller(i, d, o, Start, 0);
    [Init(3),
     State(3, None, None, [], [c0]),
     State(3, Some(0), None, [], [c0.(pc := Locked)]),
     State(3, Some(0), None, [], [c0.(pc := Opening(None))]),
     State(3, Some(0), None, [w0], [c0.(pc := Opened(0, None))]),
     State(3, None, Some(e), [w0], [c0.(pc := Waiting(0))]),
     State(3, None, Some(e), [w1], [c0.(pc := Waiting(0))]),
     State(3, None, Some(e), [w1], [c0.(pc := Waiting(0)), c0]),
     State(3, Some(1), Some(e), [w1], [c0.(pc := Waiting(0)), c0.(pc := Locked)]),
     State(3, Some(1), None, [w2], [c0.(pc := Waiting(0)), c0.(pc := Pushing(e, true))]),
     State(3, Some(1), None, [w3], [c0.(pc := Waiting(0)), c0.(pc := Pushing(e, true))]),
     State(3, Some(1), None, [w3], [c0.(pc := Waiting(0)), c0.(pc := Opening(Some(0)))]),
     State(3, Some(1), None, [w3.(strong := 1)],
           [c0.(pc := Finished(0, Cancelled)), c0.(pc := Opening(Some(0)))])]
  }

  lemma {:induction false} RaceLeads(i: Input, d: Delivery, o: Options, n: nat)
    requires n < |RaceSteps(i, d, o)|
    ensures Leads(RaceStates(i, d, o), RaceSteps(i, d, o), n)
  {
    if n < 6 {
      RaceOpens(i, d, o, n);
    } else if n < 9 {
      RaceJoins(i, d, o, n);
    } else {
      RaceLoses(i, d, o, n);
    }
  }

  lemma {:induction false} RaceOpens(i: Input, d: Delivery, o: Options, n: nat)
    requires n < 6
    ensures Leads(RaceStates(i, d, o), RaceSteps(i, d, o), n)
  {
  }

  lemma {:induction false} RaceJoins(i: Input, d: Delivery, o: Options, n: nat)
    requires 6 <= n < 9
    ensures Leads(RaceStates(i, d, o), RaceSteps(i, d, o), n)
  {
  }

  lemma {:induction false} RaceLoses(i: Input, d: Delivery, o: Options, n: nat)
    requires 9 <= n < 12
    ensures Leads(RaceStates(i, d, o), RaceSteps(i, d, o), n)
  {
  }

  /// A `join` can own the last reference to the admission it is about to discard while it still holds
  /// the slot mutex: dropping it there would run `abandon` under the mutex it needs.
  lemma {:induction false} DiscardCanBeLast(i: Input, d: Delivery, o: Options)
    ensures IsRun(Init(3), RaceSteps(i, d, o))
    ensures var s := After(Init(3), RaceSteps(i, d, o));
            && s.lock == Some(1) && |s.callers| == 2 && |s.wins| == 1
            && s.callers[1].pc == Opening(Some(0)) && s.wins[0].strong == 1
  {
    forall n {:trigger Leads(RaceStates(i, d, o), RaceSteps(i, d, o), n)} | 0 <= n < |RaceSteps(i, d, o)|
      ensures Leads(RaceStates(i, d, o), RaceSteps(i, d, o), n)
    {
      RaceLeads(i, d, o, n);
    }
    FollowStates(RaceStates(i, d, o), RaceSteps(i, d, o), 0);
    assert RaceSteps(i, d, o)[0..] == RaceSteps(i, d, o);
  }

  ghost predicate Leads(states: seq<State>, steps: seq<Step>, n: nat)
    requires |states| == |steps| + 1 && n < |steps|
  {
    Shape(states[n]) && Enabled(states[n], steps[n]) && Apply(states[n], steps[n]) == states[n + 1]
  }

  lemma {:induction false} FollowStates(states: seq<State>, steps: seq<Step>, from: nat)
    requires |states| == |steps| + 1 && from <= |steps|
    requires forall n {:trigger Leads(states, steps, n)} :: 0 <= n < |steps| ==> Leads(states, steps, n)
    ensures IsRun(states[from], steps[from..]) && After(states[from], steps[from..]) == states[|steps|]
    decreases |steps| - from
  {
    if from < |steps| {
      assert Leads(states, steps, from);
      assert steps[from..][1..] == steps[from + 1..];
      FollowStates(states, steps, from + 1);
    }
  }
}
