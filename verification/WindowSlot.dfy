/// The slot as the object it is, and the proof that its methods are runs of the protocol machine.

module WindowSlots {
  import opened Basics
  import opened Windows
  import opened Admission
  import opened AdmissionInvariant

  type TaskWindow = Window<Input, Delivery>

  /// `Arc<WindowAdmission>`: its window and its strong count.
  class WindowAdmission {
    const window: TaskWindow
    var strong: nat

    constructor (window: TaskWindow)
      ensures this.window == window && strong == 1
    {
      this.window := window;
      strong := 1;
    }

    /// `Weak::upgrade`.
    method Upgrade() returns (alive: bool)
      modifies this
      ensures alive == (old(strong) > 0)
      ensures strong == if alive then old(strong) + 1 else old(strong)
    {
      alive := strong > 0;
      if alive {
        strong := strong + 1;
      }
    }
  }

  datatype AdmissionState = Pending(weak: WindowAdmission) | Accepted

  datatype OpenWindow = OpenWindow(window: TaskWindow, options: Options, admission: AdmissionState)

  /// The steps of `join` when nobody interferes.
  function JoinSteps(s: State, c: nat): (steps: seq<Step>)
    requires Shape(s) && At(s, c) && PcOf(s, c).Start?
  {
    match Decide(s.slot, s.callers[c].options, s.slot.Some? && s.wins[s.slot.value.win].strong > 0)
    case OpenFresh => [Acquire(c), Inspect(c), Create(c), Publish(c)]
    case CloseAndOpen => [Acquire(c), Inspect(c), Create(c), Publish(c)]
    case TryPush(held) =>
      if !s.wins[s.slot.value.win].value.sealed then [Acquire(c), Inspect(c), Push(c), Reinsert(c)]
      else if held then [Acquire(c), Inspect(c), Push(c), Create(c), Publish(c), Discard(c)]
      else [Acquire(c), Inspect(c), Push(c), Create(c), Publish(c)]
  }

  /// What `join` does in one go, by cases on the entry it finds.
  function JoinAlone(s: State, c: nat): State
    requires Shape(s) && At(s, c) && PcOf(s, c).Start?
  {
    var caller := s.callers[c];
    var newest := |s.wins|;
    var value := OpenWith(s.maxSize, caller.input, caller.delivery);
    var created := WindowRec(value, caller.options, InFlight, 1, None, [c]);
    var entry := if created.value.sealed then None else Some(Entry(newest, caller.options, false));
    var openedBy := s.callers[c := caller.(pc := Waiting(newest), position := 0)];
    match Decide(s.slot, caller.options, s.slot.Some? && s.wins[s.slot.value.win].strong > 0)
    case OpenFresh => s.(slot := entry, wins := s.wins + [created], callers := openedBy)
    case CloseAndOpen =>
      s.(slot := entry, wins := CloseWin(s, s.slot.value.win).wins + [created], callers := openedBy)
    case TryPush(held) =>
      var w := s.slot.value.win;
      var rec := s.wins[w];
      if rec.value.sealed then
        s.(slot := entry, wins := s.wins + [created], callers := openedBy)
      else
        var v := PushInto(rec.value, s.maxSize, caller.input, caller.delivery);
        s.(slot := if v.sealed then None else s.slot,
           wins := s.wins[w := rec.(value := v, joined := rec.joined + [c],
                                    strong := if held then rec.strong + 1 else rec.strong)],
           callers := s.callers[c := caller.(pc := if held then Waiting(w) else Finished(w, Verdict.Accepted),
                                             position := |rec.joined|)])
  }

  lemma {:induction false} Prepend(s: State, step: Step, rest: seq<Step>)
    requires Shape(s) && Enabled(s, step) && IsRun(Apply(s, step), rest)
    ensures IsRun(s, [step] + rest) && After(s, [step] + rest) == After(Apply(s, step), rest)
  {
    assert ([step] + rest)[1..] == rest;
  }

  /// From the decision to open a window, with nothing to discard, to the end of `join`.
  lemma {:induction false} OpenRun(s: State, c: nat)
    requires Shape(s) && At(s, c) && PcOf(s, c) == Opening(None) && s.slot.None?
    ensures IsRun(s, [Create(c), Publish(c)])
    ensures After(s, [Create(c), Publish(c)]) == DoPublish(DoCreate(s, c), c)
  {
    var s1 := DoCreate(s, c);
    Prepend(s1, Publish(c), []);
    Prepend(s, Create(c), [Publish(c)]);
    assert [Create(c)] + [Publish(c)] == [Create(c), Publish(c)];
  }

  /// As `OpenRun`, with the upgraded admission of a sealed window still to be dropped.
  lemma {:induction false} OpenDiscardRun(s: State, c: nat, w: nat)
    requires Shape(s) && At(s, c) && PcOf(s, c) == Opening(Some(w)) && s.slot.None?
    ensures IsRun(s, [Create(c), Publish(c), Discard(c)])
    ensures After(s, [Create(c), Publish(c), Discard(c)]) == DoDiscard(DoPublish(DoCreate(s, c), c), c)
  {
    var s1 := DoCreate(s, c);
    var s2 := DoPublish(s1, c);
    Prepend(s2, Discard(c), []);
    Prepend(s1, Publish(c), [Discard(c)]);
    Prepend(s, Create(c), [Publish(c)] + [Discard(c)]);
    assert [Create(c)] + ([Publish(c)] + [Discard(c)]) == [Create(c), Publish(c), Discard(c)];
  }

  function Inspected(s: State, c: nat): State
    requires Shape(s) && At(s, c) && PcOf(s, c).Start?
  {
    var s1 := Goto(s.(lock := Some(c)), c, Locked);
    assert Shape(s1);
    DoInspect(s1, c)
  }

  lemma {:induction false} InspectRun(s: State, c: nat, rest: seq<Step>)
    requires Shape(s) && At(s, c) && PcOf(s, c).Start? && s.lock.None?
    requires IsRun(Inspected(s, c), rest)
    ensures IsRun(s, [Acquire(c), Inspect(c)] + rest)
    ensures After(s, [Acquire(c), Inspect(c)] + rest) == After(Inspected(s, c), rest)
  {
    var s1 := Goto(s.(lock := Some(c)), c, Locked);
    Prepend(s1, Inspect(c), rest);
    Prepend(s, Acquire(c), [Inspect(c)] + rest);
    assert [Acquire(c)] + ([Inspect(c)] + rest) == [Acquire(c), Inspect(c)] + rest;
  }

  lemma {:induction false} FreshJoin(s: State, c: nat)
    requires Shape(s) && At(s, c) && PcOf(s, c).Start? && s.lock.None?
    requires !Decide(s.slot, s.callers[c].options, s.slot.Some? && s.wins[s.slot.value.win].strong > 0).TryPush?
    ensures IsRun(s, JoinSteps(s, c)) && After(s, JoinSteps(s, c)) == JoinAlone(s, c)
  {
    var s2 := Inspected(s, c);
    assert Shape(s2);
    OpenRun(s2, c);
    InspectRun(s, c, [Create(c), Publish(c)]);
    assert [Acquire(c), Inspect(c)] + [Create(c), Publish(c)] == JoinSteps(s, c);
    assert DoPublish(DoCreate(s2, c), c) == JoinAlone(s, c);
  }

  /// What `join` holds after it decided to push: the entry, taken out, and its upgraded admission.
  lemma {:induction false} InspectedToPush(s: State, c: nat)
    requires Shape(s) && At(s, c) && PcOf(s, c).Start? && s.lock.None?
    requires Decide(s.slot, s.callers[c].options, s.slot.Some? && s.wins[s.slot.value.win].strong > 0).TryPush?
    ensures var w := s.slot.value.win;
            var held := !s.slot.value.accepted;
            && Shape(Inspected(s, c))
            && Inspected(s, c) ==
               State(s.maxSize, Some(c), None,
                     s.wins[w := s.wins[w].(strong := if held then s.wins[w].strong + 1 else s.wins[w].strong)],
                     s.callers[c := s.callers[c].(pc := Pushing(s.slot.value, held))])
  {
    var w := s.slot.value.win;
    assert s.wins[w := s.wins[w]] == s.wins;
  }

  lemma {:induction false} PushedEnd(s: State, c: nat)
    requires Shape(s) && At(s, c) && PcOf(s, c).Start? && s.lock.None?
    requires Decide(s.slot, s.callers[c].options, s.slot.Some? && s.wins[s.slot.value.win].strong > 0).TryPush?
    requires !s.wins[s.slot.value.win].value.sealed
    ensures Shape(Inspected(s, c)) && PcOf(Inspected(s, c), c).Pushing?
    ensures var s3 := DoPush(Inspected(s, c), c);
            Shape(s3) && PcOf(s3, c).Pushed? && DoReinsert(s3, c) == JoinAlone(s, c)
  {
    InspectedToPush(s, c);
  }

  lemma {:induction false} PushedJoin(s: State, c: nat)
    requires Shape(s) && At(s, c) && PcOf(s, c).Start? && s.lock.None?
    requires Decide(s.slot, s.callers[c].options, s.slot.Some? && s.wins[s.slot.value.win].strong > 0).TryPush?
    requires !s.wins[s.slot.value.win].value.sealed
    ensures IsRun(s, JoinSteps(s, c)) && After(s, JoinSteps(s, c)) == JoinAlone(s, c)
  {
    PushedEnd(s, c);
    var s2 := Inspected(s, c);
    Prepend(DoPush(s2, c), Reinsert(c), []);
    Prepend(s2, Push(c), [Reinsert(c)]);
    InspectRun(s, c, [Push(c)] + [Reinsert(c)]);
    assert [Acquire(c), Inspect(c)] + ([Push(c)] + [Reinsert(c)]) == JoinSteps(s, c);
  }

  /// The push into a sealed window has failed.
  lemma {:induction false} SealedPush(s: State, c: nat)
    requires Shape(s) && At(s, c) && PcOf(s, c).Start? && s.lock.None?
    requires Decide(s.slot, s.callers[c].options, s.slot.Some? && s.wins[s.slot.value.win].strong > 0).TryPush?
    requires s.wins[s.slot.value.win].value.sealed
    ensures Shape(Inspected(s, c)) && PcOf(Inspected(s, c), c).Pushing?
    ensures Shape(DoPush(Inspected(s, c), c))
    ensures DoPush(Inspected(s, c), c) ==
              var opening := Opening(if s.slot.value.accepted then None else Some(s.slot.value.win));
              Inspected(s, c).(callers := s.callers[c := s.callers[c].(pc := opening)])
  {
    InspectedToPush(s, c);
  }

  /// A window is opened instead...
  lemma {:induction false} SealedEnd(s: State, c: nat, s3: State)
    requires Shape(s) && At(s, c) && PcOf(s, c).Start? && s.lock.None?
    requires Decide(s.slot, s.callers[c].options, s.slot.Some? && s.wins[s.slot.value.win].strong > 0) == TryPush(false)
    requires s.wins[s.slot.value.win].value.sealed && s3 == DoPush(Inspected(s, c), c)
    ensures DoPublish(DoCreate(s3, c), c) == JoinAlone(s, c)
  {
    InspectedToPush(s, c);
    var w := s.slot.value.win;
    assert s.wins[w := s.wins[w]] == s.wins;
  }

  /// ...and the upgraded admission of the sealed one, if it was still pending, is dropped.
  lemma {:induction false} SealedPendingEnd(s: State, c: nat, s3: State)
    requires Shape(s) && At(s, c) && PcOf(s, c).Start? && s.lock.None?
    requires Decide(s.slot, s.callers[c].options, s.slot.Some? && s.wins[s.slot.value.win].strong > 0) == TryPush(true)
    requires s.wins[s.slot.value.win].value.sealed
    requires Shape(s3) && At(s3, c) && PcOf(s3, c) == Opening(Some(s.slot.value.win)) && s3.slot.None?
    requires s3.maxSize == s.maxSize && s3.callers == s.callers[c := s.callers[c].(pc := PcOf(s3, c))]
    requires s3.wins == s.wins[s.slot.value.win := s3.wins[s.slot.value.win]]
    requires s3.wins[s.slot.value.win] == s.wins[s.slot.value.win].(strong := s.wins[s.slot.value.win].strong + 1)
    ensures var s5 := DoPublish(DoCreate(s3, c), c);
            Shape(s5) && PcOf(s5, c).Discarding? && DoDiscard(s5, c) == JoinAlone(s, c)
  {
    var w := s.slot.value.win;
    assert s.wins[w := s.wins[w]] == s.wins;
  }

  lemma {:induction false} SealedJoin(s: State, c: nat)
    requires Shape(s) && At(s, c) && PcOf(s, c).Start? && s.lock.None?
    requires Decide(s.slot, s.callers[c].options, s.slot.Some? && s.wins[s.slot.value.win].strong > 0).TryPush?
    requires s.wins[s.slot.value.win].value.sealed
    ensures IsRun(s, JoinSteps(s, c)) && After(s, JoinSteps(s, c)) == JoinAlone(s, c)
  {
    SealedPush(s, c);
    var s2 := Inspected(s, c);
    var s3 := DoPush(s2, c);
    if s.slot.value.accepted {
      SealedEnd(s, c, s3);
      OpenRun(s3, c);
      Prepend(s2, Push(c), [Create(c), Publish(c)]);
      InspectRun(s, c, [Push(c)] + [Create(c), Publish(c)]);
      assert [Acquire(c), Inspect(c)] + ([Push(c)] + [Create(c), Publish(c)]) == JoinSteps(s, c);
    } else {
      InspectedToPush(s, c);
      SealedPendingEnd(s, c, s3);
      OpenDiscardRun(s3, c, s.slot.value.win);
      Prepend(s2, Push(c), [Create(c), Publish(c), Discard(c)]);
      InspectRun(s, c, [Push(c)] + [Create(c), Publish(c), Discard(c)]);
      assert [Acquire(c), Inspect(c)] + ([Push(c)] + [Create(c), Publish(c), Discard(c)]) == JoinSteps(s, c);
    }
  }

  /// A `join` that nobody interferes with is a run of the machine, and `JoinAlone` is where it ends.
  lemma {:induction false} JoinIsARun(s: State, c: nat)
    requires Shape(s) && At(s, c) && PcOf(s, c).Start? && s.lock.None?
    ensures IsRun(s, JoinSteps(s, c)) && After(s, JoinSteps(s, c)) == JoinAlone(s, c)
  {
    if !Decide(s.slot, s.callers[c].options, s.slot.Some? && s.wins[s.slot.value.win].strong > 0).TryPush? {
      FreshJoin(s, c);
    } else if s.wins[s.slot.value.win].value.sealed {
      SealedJoin(s, c);
    } else {
      PushedJoin(s, c);
    }
  }

  // ---------------------------------------------------------------- what a join comes to

  ghost predicate OwnSteps(steps: seq<Step>, c: nat) {
    forall k :: 0 <= k < |steps| ==>
      && !steps[k].Arrive? && !steps[k].Seal? && !steps[k].Cancel? && !steps[k].Withdraw? && steps[k].c == c
  }

  /// The slot has a window that caller `c` can enter: its options are the same, it has room, and its
  /// submission is accepted or still owned by somebody.
  predicate CanEnter(s: State, c: nat)
    requires Shape(s) && At(s, c)
  {
    && s.slot.Some? && s.slot.value.options == s.callers[c].options
    && !s.wins[s.slot.value.win].value.sealed
    && (s.slot.value.accepted || s.wins[s.slot.value.win].strong > 0)
  }

  /// The member of caller `c` has been added to window `w`, behind the others.
  ghost predicate Joined(s: State, t: State, c: nat, w: nat)
    requires At(s, c)
  {
    && w < |s.wins| == |t.wins| && (forall v :: 0 <= v < |s.wins| && v != w ==> t.wins[v] == s.wins[v])
    && t.wins[w].joined == s.wins[w].joined + [c]
    && t.wins[w].value.inputs == s.wins[w].value.inputs + [s.callers[c].input]
    && t.wins[w].value.deliveries == s.wins[w].value.deliveries + [s.callers[c].delivery]
    && t.wins[w].options == s.wins[w].options && t.wins[w].submission == s.wins[w].submission
    && (t.wins[w].value.sealed <==> |t.wins[w].joined| >= s.maxSize)
  }

  lemma {:induction false} PushedMember(s: State, c: nat)
    requires Inv(s) && At(s, c) && PcOf(s, c).Start? && CanEnter(s, c)
    ensures Joined(s, JoinAlone(s, c), c, s.slot.value.win)
  {
    assert WinOk(s, s.slot.value.win);
  }

  /// A `join` that nobody interferes with and that finds a window it can enter enters it: no window is
  /// opened, nothing is submitted, the window stays in the slot unless it is full now; and the caller is
  /// done at once if the window was accepted, and waits for its submission otherwise.
  lemma {:induction false} JoinEntersTheOpenWindow(s: State, c: nat) returns (steps: seq<Step>)
    requires Reachable(s) && Shape(s) && s.lock.None? && At(s, c) && PcOf(s, c).Start? && CanEnter(s, c)
    ensures IsRun(s, steps) && OwnSteps(steps, c)
    ensures var t := After(s, steps);
            var w := s.slot.value.win;
            && t.lock.None? && At(t, c) && Joined(s, t, c, w)
            && t.slot == (if |t.wins[w].joined| >= s.maxSize then None else s.slot)
            && (s.slot.value.accepted ==>
                  PcOf(t, c) == Finished(w, Verdict.Accepted) && t.wins[w].strong == s.wins[w].strong)
            && (!s.slot.value.accepted ==>
                  PcOf(t, c) == Waiting(w) && t.wins[w].strong == s.wins[w].strong + 1)
  {
    ReachableInv(s);
    steps := JoinSteps(s, c);
    JoinIsARun(s, c);
    PushedMember(s, c);
  }

  /// A window that `join` gives up on is sealed from then on, and otherwise left alone.
  ghost predicate SealedAtMost(s: State, t: State, w: nat) {
    && w < |s.wins| && w < |t.wins|
    && t.wins[w] == s.wins[w].(value := s.wins[w].value.(sealed := t.wins[w].value.sealed))
    && (s.wins[w].value.sealed ==> t.wins[w].value.sealed)
  }

  /// Caller `c` has opened the newest window, with nobody but itself in it.
  ghost predicate Opened(s: State, t: State, c: nat)
    requires At(s, c)
  {
    && |t.wins| == |s.wins| + 1
    && var rec := t.wins[|s.wins|];
    && rec.joined == [c] && rec.value.inputs == [s.callers[c].input] && rec.value.deliveries == [s.callers[c].delivery]
    && rec.options == s.callers[c].options && rec.submission.InFlight? && rec.strong == 1 && rec.taken.None?
    && (rec.value.sealed <==> s.maxSize <= 1)
  }

  lemma {:induction false} OpenedAlone(s: State, c: nat)
    requires Inv(s) && At(s, c) && PcOf(s, c).Start? && !CanEnter(s, c)
    ensures var t := JoinAlone(s, c);
            && Opened(s, t, c) && At(t, c) && PcOf(t, c) == Waiting(|s.wins|) && t.lock == s.lock
            && t.slot == (if s.maxSize <= 1 then None else Some(Entry(|s.wins|, s.callers[c].options, false)))
            && (s.slot.Some? ==> t.wins[s.slot.value.win].value.sealed)
            && (forall w :: 0 <= w < |s.wins| ==> SealedAtMost(s, t, w))
  {
  }

  /// One that finds none opens a window of its own, submits it, and puts it into the slot unless it is
  /// full from the start; whatever window it displaces is sealed.
  lemma {:induction false} JoinOpensAWindow(s: State, c: nat) returns (steps: seq<Step>)
    requires Reachable(s) && Shape(s) && s.lock.None? && At(s, c) && PcOf(s, c).Start? && !CanEnter(s, c)
    ensures IsRun(s, steps) && OwnSteps(steps, c)
    ensures var t := After(s, steps);
            && t.lock.None? && Opened(s, t, c) && At(t, c) && PcOf(t, c) == Waiting(|s.wins|)
            && t.slot == (if s.maxSize <= 1 then None else Some(Entry(|s.wins|, s.callers[c].options, false)))
            && (s.slot.Some? ==> t.wins[s.slot.value.win].value.sealed)
            && (forall w :: 0 <= w < |s.wins| ==> SealedAtMost(s, t, w))
  {
    ReachableInv(s);
    steps := JoinSteps(s, c);
    JoinIsARun(s, c);
    OpenedAlone(s, c);
  }

  // ---------------------------------------------------------------- the object

  class WindowSlot {
    var open: Option<OpenWindow>

    constructor ()
      ensures open.None?
    {
      open := None;
    }

    /// The objects the entry refers to.
    ghost function Footprint(): set<object>
      reads this
    {
      if open.None? then {}
      else {open.value.window} + (if open.value.admission.Pending? then {open.value.admission.weak} else {})
    }

    /// The free slot stands for the slot of machine state `s`.
    ghost predicate Represents(s: State)
      reads this, Footprint()
    {
      && s.lock.None?
      && (open.None? <==> s.slot.None?)
      && (open.Some? ==> Matches(open.value, s))
    }

    /// `window` is the machine's window `w`, as far as the slot can tell.
    ghost predicate Names(s: State, window: TaskWindow, w: nat)
      reads this
    {
      open.Some? && s.slot.Some? ==> (open.value.window == window <==> s.slot.value.win == w)
    }

    method Accept(window: TaskWindow, ghost s: State, ghost w: nat)
      requires Represents(s) && Names(s, window, w)
      modifies this
      ensures Represents(s.(slot := AcceptSlot(s.slot, w))) && Footprint() <= old(Footprint())
      ensures old(open).Some? && old(open).value.window == window ==>
                && open.Some? && open.value.window == window && open.value.options == old(open).value.options
                && open.value.admission.Accepted?
      ensures old(open).None? || old(open).value.window != window ==> open == old(open)
    {
      if open.Some? && open.value.window == window {
        open := Some(open.value.(admission := AdmissionState.Accepted));
      }
    }

    method Abandon(window: TaskWindow, ghost s: State, ghost w: nat)
      requires Represents(s) && Names(s, window, w)
      modifies this
      ensures Represents(s.(slot := AbandonSlot(s.slot, w))) && Footprint() <= old(Footprint())
      ensures var own := old(open).Some? && old(open).value.window == window;
              open == if own && old(open).value.admission.Pending? then None else old(open)
    {
      if open.Some? && open.value.window == window && open.value.admission.Pending? {
        open := None;
      }
    }

    method Evict(window: TaskWindow, ghost s: State, ghost w: nat)
      requires Represents(s) && Names(s, window, w)
      modifies this
      ensures Represents(s.(slot := EvictSlot(s.slot, w))) && Footprint() <= old(Footprint())
      ensures if old(open).Some? && old(open).value.window == window then open.None? else open == old(open)
    {
      if open.Some? && open.value.window == window {
        open := None;
      }
    }

    /// The attempt to get the member into the window that was found open.
    method Enter(found: OpenWindow, options: Options, input: Input, delivery: Delivery)
      returns (entered: bool, full: bool, pending: Option<WindowAdmission>)
      requires found.window.Valid()
      modifies found.window, if found.admission.Pending? then {found.admission.weak} else {}
      ensures found.window.Valid()
      ensures var dead := found.admission.Pending? && old(found.admission.weak.strong) == 0;
              var giveUp := found.options != options || dead;
              var held := found.admission.Pending? && !giveUp;
              && entered == (!giveUp && !old(found.window.sealed))
              && found.window.Value() ==
                   (if giveUp then CloseValue(old(found.window.Value()))
                    else if entered then PushInto(old(found.window.Value()), found.window.maxSize, input, delivery)
                    else old(found.window.Value()))
              && full == (entered && found.window.sealed)
              && pending == (if held then Some(found.admission.weak) else None)
              && (found.admission.Pending? ==>
                    found.admission.weak.strong == old(found.admission.weak.strong) + (if held then 1 else 0))
    {
      entered, full, pending := false, false, None;
      if found.options == options {
        if found.admission.Pending? {
          var alive := found.admission.weak.Upgrade();
          if alive {
            pending := Some(found.admission.weak);
          }
        }
        if found.admission.Pending? && pending.None? {
          found.window.Close();
        } else {
          entered, full := found.window.Push(input, delivery);
        }
      } else {
        found.window.Close();
      }
    }

    /// The tail of the guarded block: a new window with its admission, put into the emptied slot
    /// unless the window is full from the start.
    method OpenAndPublish(maxSize: nat, options: Options, input: Input, delivery: Delivery)
      returns (admission: WindowAdmission)
      requires open.None?
      modifies this
      ensures fresh(admission) && fresh(admission.window) && admission.strong == 1
      ensures admission.window.Valid() && admission.window.maxSize == maxSize
      ensures admission.window.Value() == OpenWith(maxSize, input, delivery)
      ensures open == if maxSize <= 1 then None
                      else Some(OpenWindow(admission.window, options, AdmissionState.Pending(admission)))
    {
      var window := new Window(maxSize, input, delivery);
      admission := new WindowAdmission(window);
      var isSealed := window.IsSealed();
      if !isSealed {
        open := Some(OpenWindow(window, options, AdmissionState.Pending(admission)));
      }
    }

    /// `join` by caller `c` of machine state `s`, run without interruption: the slot, the window it
    /// found, the window it opened and the admission it returns end up as in `JoinAlone(s, c)`.
    method Join(maxSize: nat, options: Options, input: Input, delivery: Delivery, ghost s: State, ghost c: nat)
      returns (joined: Option<WindowAdmission>)
      requires Shape(s) && At(s, c) && PcOf(s, c).Start? && s.maxSize == maxSize && Represents(s)
      requires s.callers[c].input == input && s.callers[c].delivery == delivery && s.callers[c].options == options
      modifies this, Footprint()
      ensures Represents(JoinAlone(s, c))
      ensures joined.None? <==> PcOf(JoinAlone(s, c), c).Finished?
      ensures joined.Some? ==>
                var pc := PcOf(JoinAlone(s, c), c);
                && pc.Waiting? && pc.win < |JoinAlone(s, c).wins|
                && joined.value.strong == JoinAlone(s, c).wins[pc.win].strong
                && joined.value.window.Value() == JoinAlone(s, c).wins[pc.win].value
                && (fresh(joined.value) <==> pc.win == |s.wins|)
      ensures old(open).Some? ==>
                var rec := JoinAlone(s, c).wins[s.slot.value.win];
                && old(open).value.window.Value() == rec.value
                && (old(open).value.admission.Pending? ==> old(open).value.admission.weak.strong == rec.strong)
    {
      var discarded: Option<WindowAdmission> := None;
      var entry := open;
      open := None;
      if entry.Some? {
        var entered, full, pending := Enter(entry.value, options, input, delivery);
        if entered {
          if !full {
            open := entry;
          }
          return pending;
        }
        discarded := pending;
      }
      var admission := OpenAndPublish(maxSize, options, input, delivery);
      // The mutex is free again from here on.
      if discarded.Some? {
        discarded.value.strong := discarded.value.strong - 1;
        // Its callers still own it, so its destructor does not run.
        assert discarded.value.strong > 0;
      }
      return Some(admission);
    }
  }

  ghost predicate Matches(e: OpenWindow, s: State)
    reads e.window, if e.admission.Pending? then {e.admission.weak} else {}
  {
    && s.slot.Some? && s.slot.value.win < |s.wins|
    && var rec := s.wins[s.slot.value.win];
    && e.window.Valid() && e.window.maxSize == s.maxSize && e.window.Value() == rec.value
    && e.options == s.slot.value.options
    && (e.admission.Accepted? <==> s.slot.value.accepted)
    && (e.admission.Pending? ==> e.admission.weak.window == e.window && e.admission.weak.strong == rec.strong)
  }
}
