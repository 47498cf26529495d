/// What the admission protocol guarantees in every interleaving.

module AdmissionTheorems {
  import opened Basics
  import opened Admission
  import opened AdmissionInvariant

  // ---------------------------------------------------------------- truthful answers

  /// Member `c` sits at position `k` of window `w`.
  ghost predicate SitsAt(s: State, c: nat, w: nat, k: nat) {
    w < |s.wins| && k < |s.wins[w].joined| && s.wins[w].joined[k] == c
  }

  /// A caller is at no more than one position of no more than one window, and it is the one its
  /// history variables name.
  lemma {:induction false} OneSeat(s: State, c: nat, w: nat, k: nat)
    requires Inv(s) && SitsAt(s, c, w, k)
    ensures c < |s.callers| && HomeOf(s.callers[c].pc) == Some(w) && s.callers[c].position == k
  {
    assert Aligned(s, w);
    assert Owned(s, w, k);
  }

  /// `enqueue` tells the truth: a caller that got `Ok` has its member, at one position of one window,
  /// whose `Queue::enqueue` returned `Ok`; a caller that got the queue's error has it in a window
  /// whose `Queue::enqueue` returned that error and whose job no worker ever saw.
  lemma {:induction false} EnqueueIsTruthful(s: State, c: nat)
    requires Reachable(s) && c < |s.callers| && s.callers[c].pc.Finished?
    ensures var w := s.callers[c].pc.win;
            var k := s.callers[c].position;
            && SitsAt(s, c, w, k)
            && (forall v: nat, j: nat {:trigger SitsAt(s, c, v, j)} :: SitsAt(s, c, v, j) ==> v == w && j == k)
            && (s.callers[c].pc.verdict.Accepted? ==>
                  s.wins[w].submission == Done(true) && JobVisible(s.wins[w].submission))
            && (s.callers[c].pc.verdict.Rejected? ==>
                  s.wins[w].submission == Done(false) && s.wins[w].taken.None?)
  {
    ReachableInv(s);
    var w := s.callers[c].pc.win;
    assert Placed(s, c) && WinOk(s, w);
    forall v: nat, j: nat {:trigger SitsAt(s, c, v, j)} | SitsAt(s, c, v, j)
      ensures v == w && j == s.callers[c].position
    {
      OneSeat(s, c, v, j);
    }
  }

  /// `join` answering `None` means the window it pushed into has been accepted.
  lemma {:induction false} NoneMeansAccepted(s: State, c: nat)
    requires Reachable(s) && Shape(s) && Enabled(s, Reinsert(c)) && !PcOf(s, c).held
    ensures s.wins[PcOf(s, c).entry.win].submission == Done(true)
    ensures PcOf(DoReinsert(s, c), c) == Finished(PcOf(s, c).entry.win, Accepted)
  {
    ReachableInv(s);
    assert Placed(s, c);
  }

  /// Callers of one window that have an answer from the queue have the same answer.
  lemma {:induction false} SiblingsAgree(s: State, c: nat, d: nat)
    requires Reachable(s) && c < |s.callers| && d < |s.callers|
    requires s.callers[c].pc.Finished? && s.callers[d].pc.Finished?
    requires s.callers[c].pc.win == s.callers[d].pc.win
    requires !s.callers[c].pc.verdict.Cancelled? && !s.callers[d].pc.verdict.Cancelled?
    ensures s.callers[c].pc.verdict == s.callers[d].pc.verdict
  {
    ReachableInv(s);
    assert Placed(s, c) && Placed(s, d);
  }

  // ---------------------------------------------------------------- nobody is fobbed off

  ghost predicate HasCancelled(pc: Pc) {
    (pc.Abandoning? || pc.Finished?) && pc.verdict.Cancelled?
  }

  /// Caller `c` has not been told that it was cancelled, if it is there at all.
  ghost predicate NotCancelled(s: State, c: nat) {
    c < |s.callers| ==> !HasCancelled(s.callers[c].pc)
  }

  ghost predicate NeverTaken(steps: seq<Step>, step: Step) {
    forall k :: 0 <= k < |steps| ==> steps[k] != step
  }

  lemma {:induction false} OnlyCancelCancels(s: State, step: Step, c: nat)
    requires Shape(s) && Enabled(s, step) && NotCancelled(s, c) && step != Cancel(c)
    ensures NotCancelled(Apply(s, step), c)
  {
    if step.Inspect? || step.Push? || step.Reinsert? || step.Create? || step.Publish? {
      OwnerCancelsNobody(s, step, c);
    }
  }

  lemma {:induction false} OwnerCancelsNobody(s: State, step: Step, c: nat)
    requires Shape(s) && Enabled(s, step) && NotCancelled(s, c)
    requires step.Inspect? || step.Push? || step.Reinsert? || step.Create? || step.Publish?
    ensures NotCancelled(Apply(s, step), c)
  {
  }

  lemma {:induction false} NeverCancelled(s: State, steps: seq<Step>, c: nat)
    requires IsRun(s, steps) && NotCancelled(s, c) && NeverTaken(steps, Cancel(c))
    ensures NotCancelled(After(s, steps), c)
    decreases |steps|
  {
    if |steps| > 0 {
      OnlyCancelCancels(s, steps[0], c);
      NeverCancelled(Apply(s, steps[0]), steps[1..], c);
    }
  }

  /// The caller has been told exactly what became of its window's submission.
  ghost predicate Told(s: State, c: nat)
    requires c < |s.callers|
  {
    var pc := s.callers[c].pc;
    && pc.Finished? && pc.win < |s.wins|
    && (pc.verdict.Accepted? <==> s.wins[pc.win].submission == Done(true))
    && (pc.verdict.Rejected? <==> s.wins[pc.win].submission == Done(false))
    && !pc.verdict.Cancelled?
  }

  lemma {:induction false} FinishedMeansTold(s: State, c: nat)
    requires Inv(s) && c < |s.callers| && s.callers[c].pc.Finished? && NotCancelled(s, c)
    ensures Told(s, c)
  {
    assert Placed(s, c);
  }

  /// Along a run that does not cancel it, a caller that has finished got `Ok` exactly if its window was
  /// accepted, and the queue's error exactly if it was rejected; there is no third answer.
  lemma {:induction false} UncancelledCallersAreTold(maxSize: nat, steps: seq<Step>, c: nat)
    requires IsRun(Init(maxSize), steps) && NeverTaken(steps, Cancel(c))
    requires c < |After(Init(maxSize), steps).callers| && After(Init(maxSize), steps).callers[c].pc.Finished?
    ensures Told(After(Init(maxSize), steps), c)
  {
    NeverCancelled(Init(maxSize), steps, c);
    RunKeeps(Init(maxSize), steps);
    FinishedMeansTold(After(Init(maxSize), steps), c);
  }

  // ---------------------------------------------------------------- what a window can still become

  /// How window `w` may look after any number of further steps.
  ghost predicate Later(s: State, s': State, w: nat) {
    && w < |s.wins| <= |s'.wins|
    && s.wins[w].joined <= s'.wins[w].joined
    && (s.wins[w].value.sealed ==> s'.wins[w].value.sealed && s'.wins[w].joined == s.wins[w].joined)
    && (s.wins[w].taken.Some? ==> s'.wins[w].taken == s.wins[w].taken)
    && (s.wins[w].submission.Done? ==> s'.wins[w].submission == s.wins[w].submission)
    && (s.wins[w].strong == 0 ==> s'.wins[w].strong == 0)
  }

  lemma {:induction false} LaterPush(s: State, c: nat, w: nat)
    requires Inv(s) && Enabled(s, Push(c)) && w < |s.wins|
    ensures Later(s, Apply(s, Push(c)), w)
  {
    assert WinOk(s, w);
  }

  lemma {:induction false} LaterOwnerStep(s: State, step: Step, w: nat)
    requires Inv(s) && Enabled(s, step) && w < |s.wins|
    requires step.Inspect? || step.Create? || step.Seal?
    ensures Later(s, Apply(s, step), w)
  {
    assert WinOk(s, w);
  }

  lemma {:induction false} LaterResult(s: State, step: Step, w: nat)
    requires Inv(s) && Enabled(s, step) && w < |s.wins|
    requires step.Return? || step.Show? || step.Record?
    ensures Later(s, Apply(s, step), w)
  {
    assert WinOk(s, w);
    assert Placed(s, step.c);
  }

  lemma {:induction false} LaterStep(s: State, step: Step, w: nat)
    requires Inv(s) && Enabled(s, step) && w < |s.wins|
    ensures Later(s, Apply(s, step), w)
  {
    if step.Push? {
      LaterPush(s, step.c, w);
    } else if step.Inspect? || step.Create? || step.Seal? {
      LaterOwnerStep(s, step, w);
    } else if step.Return? || step.Show? || step.Record? {
      LaterResult(s, step, w);
    }
  }

  lemma {:induction false} LaterRun(s: State, steps: seq<Step>, w: nat)
    requires Inv(s) && IsRun(s, steps) && w < |s.wins|
    ensures Later(s, After(s, steps), w)
    decreases |steps|
  {
    if |steps| > 0 {
      var next := Apply(s, steps[0]);
      LaterStep(s, steps[0], w);
      StepKeeps(s, steps[0]);
      LaterRun(next, steps[1..], w);
    }
  }

  /// Members are conserved. In any reachable state the window's job holds, or its one `seal` has been
  /// given, exactly the payloads of the callers that joined it, in join order and index-aligned;
  /// and once sealed away that is final: no later join, however it races the worker, adds to it.
  lemma {:induction false} MembersConserved(s: State, w: nat, steps: seq<Step>)
    requires Reachable(s) && w < |s.wins| && IsRun(s, steps)
    ensures var rec := s.wins[w];
            var (inputs, deliveries) := Content(rec);
            && |inputs| == |deliveries| == |rec.joined|
            && (forall k :: 0 <= k < |rec.joined| ==>
                  && rec.joined[k] < |s.callers|
                  && inputs[k] == s.callers[rec.joined[k]].input
                  && deliveries[k] == s.callers[rec.joined[k]].delivery)
            && (|rec.joined| == 1 || |rec.joined| <= s.maxSize)
            && w < |After(s, steps).wins|
            && (rec.taken.Some? ==>
                  var rec' := After(s, steps).wins[w];
                  rec'.taken == rec.taken && rec'.joined == rec.joined)
  {
    ReachableInv(s);
    LaterRun(s, steps, w);
    assert Aligned(s, w) && WinOk(s, w);
    var rec := s.wins[w];
    forall k | 0 <= k < |rec.joined|
      ensures rec.joined[k] < |s.callers|
      ensures Content(rec).0[k] == s.callers[rec.joined[k]].input
      ensures Content(rec).1[k] == s.callers[rec.joined[k]].delivery
    {
      assert Owned(s, w, k);
    }
  }

  // ---------------------------------------------------------------- no stranded caller

  /// While a window's submission is unresolved, each of its callers that has not been cancelled owns
  /// a strong reference to its admission, so the submission stays alive for it.
  lemma {:induction false} NoStrandedCaller(s: State, w: nat, k: nat)
    requires Inv(s) && w < |s.wins| && !s.wins[w].submission.Done? && k < |s.wins[w].joined|
    ensures s.wins[w].joined[k] < |s.callers|
    ensures var pc := s.callers[s.wins[w].joined[k]].pc;
            HasCancelled(pc) || (Holds(pc, w) >= 1 && s.wins[w].strong >= 1)
  {
    assert Aligned(s, w);
    assert Owned(s, w, k);
    var c := s.wins[w].joined[k];
    assert Placed(s, c);
    if !HasCancelled(s.callers[c].pc) {
      assert Holds(s.callers[c].pc, w) >= 1;
      HoldersAtLeast(s.callers, c, w);
    }
  }

  ghost predicate AllCancelled(s: State, w: nat) {
    w < |s.wins| && forall k :: 0 <= k < |s.wins[w].joined| ==>
      s.wins[w].joined[k] < |s.callers| && HasCancelled(s.callers[s.wins[w].joined[k]].pc)
  }

  lemma {:induction false} DeadMeansCancelled(s: State, w: nat)
    requires Inv(s) && w < |s.wins| && !s.wins[w].submission.Done? && s.wins[w].strong == 0
    ensures AllCancelled(s, w)
  {
    forall k | 0 <= k < |s.wins[w].joined|
      ensures s.wins[w].joined[k] < |s.callers| && HasCancelled(s.callers[s.wins[w].joined[k]].pc)
    {
      NoStrandedCaller(s, w, k);
    }
  }

  /// The two ways of giving up on an unresolved window - a destructor's `abandon`, and a `join`
  /// that finds a pending entry whose admission no longer upgrades - only ever give up on a window
  /// all of whose callers were cancelled.
  lemma {:induction false} OnlyDeadWindowsAreGivenUp(s: State, step: Step)
    requires Reachable(s) && Shape(s) && Enabled(s, step) && s.slot.Some?
    requires ((step.Abandon? || step.AbandonDiscard?) && Apply(s, step).slot.None?)
          || (step.Inspect? && !s.slot.value.accepted && s.slot.value.options == s.callers[step.c].options
              && PcOf(Apply(s, step), step.c).Opening?)
    ensures AllCancelled(s, s.slot.value.win)
  {
    ReachableInv(s);
    if !step.Inspect? {
      assert Placed(s, step.c);
    }
    DeadMeansCancelled(s, s.slot.value.win);
  }

  // ---------------------------------------------------------------- stale callbacks

  /// The window a mutex owner is about to put into the slot.
  ghost function Claim(pc: Pc): Option<nat> {
    match pc
    case Pushing(e, _) => Some(e.win)
    case Pushed(e, _, full) => if full then None else Some(e.win)
    case Opened(w, _) => Some(w)
    case _ => None
  }

  /// Window `w` is in the slot, or in the hands of the owner of the slot's mutex.
  ghost predicate Current(s: State, w: nat) {
    || (s.slot.Some? && s.slot.value.win == w)
    || (s.lock.Some? && At(s, s.lock.value) && Claim(PcOf(s, s.lock.value)) == Some(w))
  }

  lemma {:induction false} OwnsLock(s: State, c: nat)
    requires Core(s) && c < |s.callers| && InLock(s.callers[c].pc)
    ensures s.lock == Some(c)
  {
    assert s.callers[c] == s.callers[c];
  }

  lemma {:induction false} GoneOwnerStep(s: State, step: Step, w: nat)
    requires Inv(s) && Enabled(s, step) && w < |s.wins| && !Current(s, w)
    requires step.Inspect? || step.Push? || step.Reinsert? || step.Create? || step.Publish?
    ensures !Current(Apply(s, step), w) && w < |Apply(s, step).wins|
    ensures Apply(s, step).wins[w].joined == s.wins[w].joined
  {
    OwnsLock(s, step.c);
  }

  lemma {:induction false} GoneReleaseStep(s: State, step: Step, w: nat)
    requires Inv(s) && Enabled(s, step) && w < |s.wins| && !Current(s, w)
    requires step.Discard? || step.AbandonDiscard? || step.Drop? || step.Cancel? || step.Abandon? || step.Seal?
    ensures !Current(Apply(s, step), w) && w < |Apply(s, step).wins|
    ensures Apply(s, step).wins[w].joined == s.wins[w].joined
  {
  }

  /// A window that left the slot stays out of it and never gains a member.
  lemma {:induction false} GoneStep(s: State, step: Step, w: nat)
    requires Inv(s) && Enabled(s, step) && w < |s.wins| && !Current(s, w)
    ensures !Current(Apply(s, step), w) && w < |Apply(s, step).wins|
    ensures Apply(s, step).wins[w].joined == s.wins[w].joined
  {
    if step.Inspect? || step.Push? || step.Reinsert? || step.Create? || step.Publish? {
      GoneOwnerStep(s, step, w);
    } else if step.Discard? || step.AbandonDiscard? || step.Drop? || step.Cancel? || step.Abandon? || step.Seal? {
      GoneReleaseStep(s, step, w);
    }
  }

  lemma {:induction false} GoneForEver(s: State, steps: seq<Step>, w: nat)
    requires Inv(s) && IsRun(s, steps) && w < |s.wins| && !Current(s, w)
    ensures !Current(After(s, steps), w) && w < |After(s, steps).wins|
    ensures After(s, steps).wins[w].joined == s.wins[w].joined
    decreases |steps|
  {
    if |steps| > 0 {
      GoneStep(s, steps[0], w);
      StepKeeps(s, steps[0]);
      GoneForEver(Apply(s, steps[0]), steps[1..], w);
    }
  }

  /// The window a callback step is about.
  ghost function CallbackWindow(s: State, step: Step): nat
    requires Shape(s) && Enabled(s, step) && (step.Record? || step.Abandon? || step.AbandonDiscard?)
  {
    if step.AbandonDiscard? then PcOf(s, step.c).dead else PcOf(s, step.c).win
  }

  /// Stale callbacks are harmless. Once window `w` has been replaced, then after any further steps an
  /// `accept`, `evict` or `abandon` for `w` changes neither the slot nor any other window.
  lemma {:induction false} StaleCallbackIsHarmless(s: State, steps: seq<Step>, step: Step, w: nat)
    requires Inv(s) && IsRun(s, steps) && w < |s.wins| && !Current(s, w)
    requires var t := After(s, steps);
             && Shape(t) && Enabled(t, step) && (step.Record? || step.Abandon? || step.AbandonDiscard?)
             && CallbackWindow(t, step) == w
    ensures var t := After(s, steps);
            && Apply(t, step).slot == t.slot
            && |Apply(t, step).wins| == |t.wins|
            && (forall v :: 0 <= v < |t.wins| && v != w ==> Apply(t, step).wins[v] == t.wins[v])
  {
    GoneForEver(s, steps, w);
  }

  /// Only the owner of the mutex and the callbacks take anything out of the slot.
  lemma {:induction false} OthersDisplaceNothing(s: State, step: Step, w: nat)
    requires Inv(s) && Enabled(s, step) && w < |s.wins| && Current(s, w)
    requires !step.Record? && !step.Abandon? && !step.AbandonDiscard?
    requires !step.Inspect? && !step.Push? && !step.Publish?
    ensures Current(Apply(s, step), w)
  {
  }

  /// A window that leaves the slot other than through `evict` or `abandon` has been displaced by a
  /// `join`, and is sealed at that moment.
  lemma {:induction false} DisplacedIsSealed(s: State, step: Step, w: nat)
    requires Inv(s) && Enabled(s, step) && w < |s.wins| && Current(s, w) && !Current(Apply(s, step), w)
    requires !step.Record? && !step.Abandon? && !step.AbandonDiscard?
    ensures (step.Inspect? || step.Push? || step.Publish?) && s.lock == Some(step.c)
    ensures w < |Apply(s, step).wins| && Apply(s, step).wins[w].value.sealed
  {
    if step.Inspect? || step.Push? || step.Publish? {
      OwnsLock(s, step.c);
    } else {
      OthersDisplaceNothing(s, step, w);
      assert false;
    }
  }

  // ---------------------------------------------------------------- what happens to the current window

  /// A result that is recorded while its window is in the slot: acceptance leaves the window there, open
  /// to further callers with the same options, and rejection takes it out.
  lemma {:induction false} RecordedInTheSlot(s: State, c: nat)
    requires Inv(s) && Enabled(s, Record(c)) && s.slot.Some? && s.slot.value.win == PcOf(s, c).win
    ensures var s' := Apply(s, Record(c));
            && s'.wins[PcOf(s, c).win].submission == Done(PcOf(s, c).ok)
            && (PcOf(s, c).ok ==> s'.slot == Some(Entry(s.slot.value.win, s.slot.value.options, true)))
            && (!PcOf(s, c).ok ==> s'.slot.None?)
  {
  }

  ghost predicate MayLeave(s: State, s': State, w: nat)
    requires w < |s.wins| && w < |s'.wins|
  {
    s'.wins[w].value.sealed || s'.wins[w].submission == Done(false) || AllCancelled(s, w)
  }

  lemma {:induction false} CallbacksRemoveOnly(s: State, step: Step, w: nat)
    requires Inv(s) && Enabled(s, step) && w < |s.wins| && Current(s, w) && !Current(Apply(s, step), w)
    requires step.Record? || step.Abandon? || step.AbandonDiscard?
    ensures w < |Apply(s, step).wins| && MayLeave(s, Apply(s, step), w)
  {
    if !step.Record? {
      assert Placed(s, step.c);
      assert EntryOk(s, s.slot.value);
      DeadMeansCancelled(s, w);
    }
  }

  /// Whatever the step: a window leaves the slot, or the hands of the mutex owner, only when it is sealed,
  /// when it has been rejected, or when all its callers were cancelled.
  lemma {:induction false} WhyAWindowLeaves(s: State, step: Step, w: nat)
    requires Inv(s) && Enabled(s, step) && w < |s.wins| && Current(s, w) && !Current(Apply(s, step), w)
    ensures w < |Apply(s, step).wins| && MayLeave(s, Apply(s, step), w)
  {
    if step.Record? || step.Abandon? || step.AbandonDiscard? {
      CallbacksRemoveOnly(s, step, w);
    } else {
      DisplacedIsSealed(s, step, w);
    }
  }

  /// A window is sealed by its job, by the push that fills it, or by a `join` that has other options or
  /// finds its submission given up; and by nothing else.
  lemma {:induction false} WhyAWindowIsSealed(s: State, step: Step, w: nat)
    requires Inv(s) && Enabled(s, step) && w < |s.wins| && !s.wins[w].value.sealed
    requires w < |Apply(s, step).wins| && Apply(s, step).wins[w].value.sealed
    ensures || step == Seal(w)
            || (step.Push? && |s.wins[w].joined| + 1 >= s.maxSize
                && Apply(s, step).wins[w].joined == s.wins[w].joined + [step.c])
            || (step.Inspect? && s.slot.Some? && s.slot.value.win == w
                && (s.slot.value.options != s.callers[step.c].options
                    || (!s.slot.value.accepted && s.wins[w].strong == 0)))
  {
    assert WinOk(s, w);
  }

  // ---------------------------------------------------------------- dead windows do not linger

  /// Caller `c` is about to take window `w` out of the slot, having released the last reference to it.
  ghost predicate Buries(s: State, c: nat, w: nat) {
    c < |s.callers| &&
    var pc := s.callers[c].pc;
    (pc.Abandoning? && pc.win == w) || (pc.AbandoningDiscard? && pc.dead == w)
  }

  /// A pending window in the slot that nobody owns any more is about to be taken out.
  ghost predicate DeadIsBuried(s: State) {
    s.slot.Some? && !s.slot.value.accepted && s.slot.value.win < |s.wins| && s.wins[s.slot.value.win].strong == 0 ==>
      exists c :: Buries(s, c, s.slot.value.win)
  }

  lemma {:induction false} OwnerBuries(s: State, step: Step)
    requires Inv(s) && DeadIsBuried(s) && Enabled(s, step)
    requires step.Inspect? || step.Push? || step.Reinsert? || step.Create? || step.Publish?
    ensures DeadIsBuried(Apply(s, step))
  {
    var s' := Apply(s, step);
    var c := step.c;
    OwnsLock(s, c);
    if (step.Reinsert? || step.Publish?) && s'.slot.Some? && !s'.slot.value.accepted {
      assert s.wins[s'.slot.value.win].strong == Holders(s.callers, s'.slot.value.win);
      HoldersAtLeast(s.callers, c, s'.slot.value.win);
    }
  }

  /// Releasing the last reference makes a burier of the one who does it.
  lemma {:induction false} ReleaseBuries(s: State, step: Step)
    requires Inv(s) && DeadIsBuried(s) && Enabled(s, step)
    requires step.Discard? || step.Drop? || step.Cancel?
    ensures DeadIsBuried(Apply(s, step))
  {
    var s' := Apply(s, step);
    var c := step.c;
    if s'.slot.Some? && !s'.slot.value.accepted && s'.wins[s'.slot.value.win].strong == 0 {
      var w := s'.slot.value.win;
      if s.wins[w].strong == 0 {
        var d :| Buries(s, d, w);
        assert Buries(s', d, w);
      } else {
        assert Buries(s', c, w);
      }
    }
  }

  lemma {:induction false} CallbackBuries(s: State, step: Step)
    requires Inv(s) && DeadIsBuried(s) && Enabled(s, step)
    requires step.Abandon? || step.AbandonDiscard? || step.Record?
    ensures DeadIsBuried(Apply(s, step))
  {
    var s' := Apply(s, step);
    if s'.slot.Some? && !s'.slot.value.accepted && s'.wins[s'.slot.value.win].strong == 0 {
      var d :| Buries(s, d, s.slot.value.win);
      assert Buries(s', d, s'.slot.value.win);
    }
  }

  lemma {:induction false} OtherStepBuries(s: State, step: Step)
    requires Inv(s) && DeadIsBuried(s) && Enabled(s, step)
    requires || step.Arrive? || step.Withdraw? || step.Acquire? || step.Show? || step.Return? || step.Observe?
             || step.Seal?
    ensures DeadIsBuried(Apply(s, step))
  {
    var s' := Apply(s, step);
    if s'.slot.Some? && !s'.slot.value.accepted && s'.wins[s'.slot.value.win].strong == 0 {
      var d :| Buries(s, d, s.slot.value.win);
      assert Buries(s', d, s'.slot.value.win);
    }
  }

  lemma {:induction false} BurialRun(s: State, steps: seq<Step>)
    requires Inv(s) && DeadIsBuried(s) && IsRun(s, steps)
    ensures DeadIsBuried(After(s, steps))
    decreases |steps|
  {
    if |steps| > 0 {
      var step := steps[0];
      if step.Inspect? || step.Push? || step.Reinsert? || step.Create? || step.Publish? {
        OwnerBuries(s, step);
      } else if step.Discard? || step.Drop? || step.Cancel? {
        ReleaseBuries(s, step);
      } else if step.Abandon? || step.AbandonDiscard? || step.Record? {
        CallbackBuries(s, step);
      } else {
        OtherStepBuries(s, step);
      }
      StepKeeps(s, step);
      BurialRun(Apply(s, step), steps[1..]);
    }
  }

  /// A pending window whose last owner has gone does not stay in the slot: as long as it is there, the
  /// destructor that takes it out is still running.
  lemma {:induction false} NoDeadWindowLingers(s: State)
    requires Reachable(s) && s.slot.Some? && !s.slot.value.accepted
    requires forall c :: !Buries(s, c, s.slot.value.win)
    ensures s.slot.value.win < |s.wins| && s.wins[s.slot.value.win].strong > 0
  {
    ReachableInv(s);
    var steps :| IsRun(Init(s.maxSize), steps) && After(Init(s.maxSize), steps) == s;
    BurialRun(Init(s.maxSize), steps);
  }
}
