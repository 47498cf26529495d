/// The inductive invariant of the admission protocol, and the proof that every step keeps it.

module AdmissionInvariant {
  import opened Basics
  import opened Admission

  /// Exactly the owner of the mutex is inside the guarded block, and once it has taken the entry
  /// out nobody else can have put one back.
  ghost predicate LockOk(s: State) {
    && (s.lock.Some? ==> At(s, s.lock.value) && InLock(PcOf(s, s.lock.value)))
    && (s.lock.Some? && !PcOf(s, s.lock.value).Locked? ==> s.slot.None?)
    && (forall c {:trigger s.callers[c]} :: 0 <= c < |s.callers| && InLock(s.callers[c].pc) ==> s.lock == Some(c))
  }

  /// A live entry carries the options its window was opened with, and says `Accepted` exactly when
  /// that window's submission has been resolved.
  ghost predicate EntryOk(s: State, e: Entry) {
    && e.win < |s.wins|
    && s.wins[e.win].options == e.options
    && (if e.accepted then s.wins[e.win].submission == Done(true) else !s.wins[e.win].submission.Done?)
  }

  ghost predicate SlotOk(s: State) {
    s.slot.Some? ==> EntryOk(s, s.slot.value)
  }

  ghost predicate Resolved(s: State, w: nat, verdict: Verdict)
    requires w < |s.wins|
  {
    && (verdict.Accepted? ==> s.wins[w].submission == Done(true))
    && (verdict.Rejected? ==> s.wins[w].submission == Done(false))
  }

  ghost predicate PcOk(s: State, c: nat, pc: Pc)
    requires InRange(s, pc)
  {
    match pc
    case Pushing(e, held) => EntryOk(s, e) && held == !e.accepted
    case Pushed(e, held, full) => EntryOk(s, e) && held == !e.accepted && (full ==> s.wins[e.win].value.sealed)
    case Opening(d) => d.Some? ==> s.wins[d.value].value.sealed
    case Opened(w, _) => s.wins[w].submission.InFlight? && s.wins[w].joined == [c]
    case Recording(w, ok) => s.wins[w].submission == Returned(ok, c)
    case Finishing(w, ok) => s.wins[w].submission == Done(ok)
    case AbandoningDiscard(d, _) => s.wins[d].strong == 0
    case Abandoning(w, v) => Resolved(s, w, v) && s.wins[w].strong == 0
    case Finished(w, v) => Resolved(s, w, v)
    case _ => true
  }

  /// The caller's member is where its history variables say it is.
  ghost predicate Placed(s: State, c: nat)
    requires c < |s.callers|
  {
    var home := HomeOf(s.callers[c].pc);
    home.Some? ==>
      && home.value < |s.wins|
      && s.callers[c].position < |s.wins[home.value].joined|
      && s.wins[home.value].joined[s.callers[c].position] == c
  }

  ghost predicate CallersOk(s: State)
    requires Shape(s)
  {
    forall c {:trigger Placed(s, c)} {:trigger s.callers[c]} :: 0 <= c < |s.callers| ==>
      PcOk(s, c, s.callers[c].pc) && Placed(s, c)
  }

  /// What the window's job has been, or will be, given to execute.
  function Content(rec: WindowRec): (seq<Input>, seq<Delivery>) {
    if rec.taken.Some? then rec.taken.value else (rec.value.inputs, rec.value.deliveries)
  }

  /// Position `k` of window `w` belongs to caller `joined[k]`, and to no other.
  ghost predicate Owned(s: State, w: nat, k: nat)
    requires w < |s.wins| && k < |s.wins[w].joined|
  {
    var c := s.wins[w].joined[k];
    c < |s.callers| && HomeOf(s.callers[c].pc) == Some(w) && s.callers[c].position == k
  }

  ghost predicate Aligned(s: State, w: nat)
    requires w < |s.wins|
  {
    var rec := s.wins[w];
    var (inputs, deliveries) := Content(rec);
    && |inputs| == |deliveries| == |rec.joined|
    && (forall k {:trigger Owned(s, w, k)} {:trigger rec.joined[k]} :: 0 <= k < |rec.joined| ==>
          && Owned(s, w, k)
          && inputs[k] == s.callers[rec.joined[k]].input
          && deliveries[k] == s.callers[rec.joined[k]].delivery)
  }

  ghost predicate WinOk(s: State, w: nat)
    requires w < |s.wins|
  {
    var rec := s.wins[w];
    && |Content(rec).0| == |Content(rec).1| == |rec.joined|
    && 1 <= |rec.joined| && (|rec.joined| == 1 || |rec.joined| <= s.maxSize)
    && (!rec.value.sealed ==> |rec.joined| < s.maxSize && rec.taken.None?)
    && (rec.taken.Some? ==> JobVisible(rec.submission))
    && (rec.submission.Returned? ==>
          && rec.submission.poller < |s.callers|
          && s.callers[rec.submission.poller].pc == Recording(w, rec.submission.ok))
  }

  ghost predicate WinsOk(s: State) {
    forall w {:trigger WinOk(s, w)} {:trigger s.wins[w]} :: 0 <= w < |s.wins| ==> WinOk(s, w)
  }

  ghost predicate AlignedOk(s: State) {
    forall w {:trigger Aligned(s, w)} {:trigger s.wins[w]} :: 0 <= w < |s.wins| ==> Aligned(s, w)
  }

  ghost predicate RefsOk(s: State) {
    forall w {:trigger s.wins[w]} :: 0 <= w < |s.wins| ==> s.wins[w].strong == Holders(s.callers, w)
  }

  /// The control part of the invariant; contents and counts come on top of it.
  ghost predicate Core(s: State) {
    Shape(s) && LockOk(s) && SlotOk(s) && CallersOk(s) && WinsOk(s)
  }

  ghost predicate Inv(s: State) {
    Core(s) && AlignedOk(s) && RefsOk(s)
  }

  // ---------------------------------------------------------------- reference counting

  lemma {:induction false} HoldersUpdate(callers: seq<Caller>, c: nat, x: Caller, w: nat)
    requires c < |callers|
    ensures Holders(callers[c := x], w) + Holds(callers[c].pc, w) == Holders(callers, w) + Holds(x.pc, w)
  {
    var last := |callers| - 1;
    var updated := callers[c := x];
    if c == last {
      assert updated[..last] == callers[..last];
    } else {
      assert updated[..last] == callers[..last][c := x];
      HoldersUpdate(callers[..last], c, x, w);
    }
  }

  lemma {:induction false} HoldersAppend(callers: seq<Caller>, x: Caller, w: nat)
    ensures Holders(callers + [x], w) == Holders(callers, w) + Holds(x.pc, w)
  {
    assert (callers + [x])[..|callers|] == callers;
  }

  lemma {:induction false} HoldersAtLeast(callers: seq<Caller>, c: nat, w: nat)
    requires c < |callers|
    ensures Holders(callers, w) >= Holds(callers[c].pc, w)
  {
    if c < |callers| - 1 {
      HoldersAtLeast(callers[..|callers| - 1], c, w);
    }
  }

  /// A window nobody can name yet has no holders.
  lemma {:induction false} HoldersFresh(callers: seq<Caller>, w: nat)
    requires forall c {:trigger callers[c]} :: 0 <= c < |callers| ==> Holds(callers[c].pc, w) == 0
    ensures Holders(callers, w) == 0
  {
    if |callers| > 0 {
      HoldersFresh(callers[..|callers| - 1], w);
    }
  }

  /// Counts stay right when one caller moves and every count changes by what that caller gained or lost.
  lemma {:induction false} RefsAfterMove(s: State, s': State, c: nat)
    requires RefsOk(s) && c < |s.callers| && |s'.callers| == |s.callers| && |s'.wins| == |s.wins|
    requires s'.callers == s.callers[c := s'.callers[c]]
    requires forall w {:trigger s.wins[w]} :: 0 <= w < |s.wins| ==>
               s'.wins[w].strong + Holds(s.callers[c].pc, w) == s.wins[w].strong + Holds(s'.callers[c].pc, w)
    ensures RefsOk(s')
  {
    forall w {:trigger s'.wins[w]} | 0 <= w < |s'.wins|
      ensures s'.wins[w].strong == Holders(s'.callers, w)
    {
      assert s.wins[w].strong == Holders(s.callers, w);
      HoldersUpdate(s.callers, c, s'.callers[c], w);
    }
  }

  // ---------------------------------------------------------------- positions

  /// A caller keeps its payload for ever, and its place from the moment it has one.
  ghost predicate SamePlace(old_: Caller, new_: Caller) {
    && new_.input == old_.input && new_.delivery == old_.delivery
    && (HomeOf(old_.pc).Some? ==> HomeOf(new_.pc) == HomeOf(old_.pc) && new_.position == old_.position)
  }

  lemma {:induction false} AlignedFrame(s: State, s': State, w: nat)
    requires w < |s.wins| && w < |s'.wins| && Aligned(s, w)
    requires s'.wins[w].joined == s.wins[w].joined && Content(s'.wins[w]) == Content(s.wins[w])
    requires |s.callers| <= |s'.callers|
    requires forall c {:trigger s.callers[c]} :: 0 <= c < |s.callers| ==> SamePlace(s.callers[c], s'.callers[c])
    ensures Aligned(s', w)
  {
    var rec := s'.wins[w];
    forall k {:trigger rec.joined[k]} | 0 <= k < |rec.joined|
      ensures Owned(s', w, k)
      ensures Content(rec).0[k] == s'.callers[rec.joined[k]].input
      ensures Content(rec).1[k] == s'.callers[rec.joined[k]].delivery
    {
      var c := s.wins[w].joined[k];
      assert Owned(s, w, k) && SamePlace(s.callers[c], s'.callers[c]);
    }
  }

  /// Steps that put no member anywhere leave every window's contents aligned.
  lemma {:induction false} AlignedAfterMove(s: State, s': State)
    requires AlignedOk(s) && |s'.wins| == |s.wins| && |s.callers| <= |s'.callers|
    requires forall c {:trigger s.callers[c]} :: 0 <= c < |s.callers| ==> SamePlace(s.callers[c], s'.callers[c])
    requires forall w {:trigger s.wins[w]} :: 0 <= w < |s.wins| ==>
               s'.wins[w].joined == s.wins[w].joined && Content(s'.wins[w]) == Content(s.wins[w])
    ensures AlignedOk(s')
  {
    forall w {:trigger s'.wins[w]} | 0 <= w < |s'.wins|
      ensures Aligned(s', w)
    {
      assert Aligned(s, w) by { assert s.wins[w] == s.wins[w]; }
      AlignedFrame(s, s', w);
    }
  }

  // ---------------------------------------------------------------- control, one lemma per kind of step

  /// Window `w` still looks the same to a caller that only remembers it.
  ghost predicate Still(s: State, s': State, w: nat)
    requires w < |s.wins| <= |s'.wins|
  {
    && s'.wins[w].options == s.wins[w].options && s'.wins[w].submission == s.wins[w].submission
    && (s.wins[w].value.sealed ==> s'.wins[w].value.sealed)
    && (s.wins[w].strong == 0 ==> s'.wins[w].strong == 0)
  }

  lemma {:induction false} PcFrame(s: State, s': State, c: nat, pc: Pc)
    requires InRange(s, pc) && PcOk(s, c, pc) && |s.wins| <= |s'.wins|
    requires forall w {:trigger Still(s, s', w)} :: 0 <= w < |s.wins| ==> Still(s, s', w)
    requires pc.Opened? ==> s'.wins[pc.win].joined == s.wins[pc.win].joined
    ensures InRange(s', pc) && PcOk(s', c, pc)
  {
    if pc.Opening? && pc.discard.Some? {
      assert Still(s, s', pc.discard.value);
    } else if pc.Pushing? || pc.Pushed? {
      assert Still(s, s', pc.entry.win);
    } else if pc.AbandoningDiscard? {
      assert Still(s, s', pc.dead);
    } else if HomeOf(pc).Some? {
      assert Still(s, s', HomeOf(pc).value);
    }
  }

  /// Steps that move one caller and leave submissions and memberships alone.
  lemma {:induction false} CoreMove(s: State, s': State, c: nat)
    requires Core(s) && At(s, c) && !PcOf(s, c).Recording?
    requires s'.maxSize == s.maxSize && |s'.wins| == |s.wins| && |s'.callers| == |s.callers|
    requires s'.callers == s.callers[c := s'.callers[c]]
    requires forall w {:trigger Still(s, s', w)} {:trigger s'.wins[w]} :: 0 <= w < |s.wins| ==>
               && Still(s, s', w) && s'.wins[w].taken == s.wins[w].taken
               && s'.wins[w].joined == s.wins[w].joined && Content(s'.wins[w]) == Content(s.wins[w])
    requires InRange(s', PcOf(s', c)) && PcOk(s', c, PcOf(s', c)) && Placed(s', c)
    requires s'.slot.Some? ==> s'.slot.value.win < |s'.wins|
    requires LockOk(s') && SlotOk(s')
    ensures Core(s')
  {
    forall d {:trigger Placed(s', d)} | 0 <= d < |s'.callers|
      ensures InRange(s', s'.callers[d].pc) && PcOk(s', d, s'.callers[d].pc) && Placed(s', d)
    {
      if d != c {
        assert Placed(s, d);
        PcFrame(s, s', d, s'.callers[d].pc);
        var home := HomeOf(s'.callers[d].pc);
        assert home.Some? ==> Still(s, s', home.value);
      }
    }
    forall w {:trigger WinOk(s', w)} | 0 <= w < |s'.wins|
      ensures WinOk(s', w)
    {
      assert WinOk(s, w) && Still(s, s', w);
    }
  }

  lemma {:induction false} PcAdvance(s: State, s': State, d: nat, pc: Pc, w: nat, sub: Submission)
    requires w < |s.wins| && s'.wins == s.wins[w := s.wins[w].(submission := sub)]
    requires !s.wins[w].submission.Done?
    requires InRange(s, pc) && PcOk(s, d, pc)
    requires pc.Recording? || pc.Opened? ==> pc.win != w
    requires pc.Pushing? || pc.Pushed? ==> !sub.Done?
    ensures InRange(s', pc) && PcOk(s', d, pc)
  {
  }

  /// What a step does when it advances the submission of the window its caller waits on.
  ghost predicate Advances(s: State, s': State, c: nat, w: nat, sub: Submission) {
    && At(s, c) && w < |s.wins|
    && (PcOf(s, c) == Waiting(w) || (PcOf(s, c).Recording? && PcOf(s, c).win == w))
    && !s.wins[w].submission.Done? && (s.wins[w].submission.Returned? ==> PcOf(s, c).Recording?)
    && (JobVisible(s.wins[w].submission) ==> JobVisible(sub))
    && (sub.Done? ==> s.lock.None?)
    && s'.maxSize == s.maxSize && s'.wins == s.wins[w := s.wins[w].(submission := sub)]
    && |s'.callers| == |s.callers| && s'.callers == s.callers[c := s'.callers[c]]
    && (sub.Returned? ==> sub.poller == c && PcOf(s', c) == Recording(w, sub.ok))
  }

  lemma {:induction false} BystanderAdvance(s: State, s': State, c: nat, w: nat, sub: Submission, d: nat)
    requires Core(s) && Advances(s, s', c, w, sub) && d < |s.callers| && d != c
    ensures InRange(s', s'.callers[d].pc) && PcOk(s', d, s'.callers[d].pc) && Placed(s', d)
  {
    assert Placed(s, d) && Placed(s, c);
    PcAdvance(s, s', d, s.callers[d].pc, w, sub);
  }

  lemma {:induction false} WindowAdvance(s: State, s': State, c: nat, w: nat, sub: Submission, v: nat)
    requires Core(s) && Advances(s, s', c, w, sub) && v < |s.wins|
    ensures WinOk(s', v)
  {
    assert WinOk(s, v);
  }

  lemma {:induction false} CoreAdvance(s: State, s': State, c: nat, w: nat, sub: Submission)
    requires Core(s) && Advances(s, s', c, w, sub)
    requires InRange(s', PcOf(s', c)) && PcOk(s', c, PcOf(s', c)) && Placed(s', c)
    requires s'.slot.Some? ==> s'.slot.value.win < |s'.wins|
    requires LockOk(s') && SlotOk(s')
    ensures Core(s')
  {
    forall d {:trigger Placed(s', d)} | 0 <= d < |s'.callers|
      ensures InRange(s', s'.callers[d].pc) && PcOk(s', d, s'.callers[d].pc) && Placed(s', d)
    {
      if d != c {
        BystanderAdvance(s, s', c, w, sub, d);
      }
    }
    forall v {:trigger WinOk(s', v)} | 0 <= v < |s'.wins|
      ensures WinOk(s', v)
    {
      WindowAdvance(s, s', c, w, sub, v);
    }
  }

  lemma {:induction false} WithdrawCore(s: State, c: nat)
    requires Core(s) && Enabled(s, Withdraw(c))
    ensures Core(Goto(s, c, Withdrawn))
  {
    CoreMove(s, Goto(s, c, Withdrawn), c);
  }

  lemma {:induction false} AcquireCore(s: State, c: nat)
    requires Core(s) && Enabled(s, Acquire(c))
    ensures Core(Goto(s.(lock := Some(c)), c, Locked))
  {
    CoreMove(s, Goto(s.(lock := Some(c)), c, Locked), c);
  }

  lemma {:induction false} InspectCore(s: State, c: nat)
    requires Core(s) && Enabled(s, Inspect(c))
    ensures Core(DoInspect(s, c))
  {
    assert s.lock == Some(c);
    CoreMove(s, DoInspect(s, c), c);
  }

  /// A successful push leaves the other callers where they are.
  lemma {:induction false} PushBystander(s: State, c: nat, d: nat)
    requires Core(s) && Enabled(s, Push(c)) && !s.wins[PcOf(s, c).entry.win].value.sealed
    requires d < |s.callers| && d != c
    ensures var s' := DoPush(s, c);
            InRange(s', s'.callers[d].pc) && PcOk(s', d, s'.callers[d].pc) && Placed(s', d)
  {
    assert s.lock == Some(c);
    assert Placed(s, d);
    PcFrame(s, DoPush(s, c), d, s.callers[d].pc);
  }

  lemma {:induction false} PushWindow(s: State, c: nat, v: nat)
    requires Core(s) && Enabled(s, Push(c)) && !s.wins[PcOf(s, c).entry.win].value.sealed && v < |s.wins|
    ensures v < |DoPush(s, c).wins| && WinOk(DoPush(s, c), v)
  {
    assert WinOk(s, v);
  }

  lemma {:induction false} PushCore(s: State, c: nat)
    requires Core(s) && Enabled(s, Push(c))
    ensures Core(DoPush(s, c))
  {
    var s' := DoPush(s, c);
    assert s.lock == Some(c);
    if s.wins[PcOf(s, c).entry.win].value.sealed {
      CoreMove(s, s', c);
    } else {
      forall d {:trigger Placed(s', d)} | 0 <= d < |s'.callers|
        ensures InRange(s', s'.callers[d].pc) && PcOk(s', d, s'.callers[d].pc) && Placed(s', d)
      {
        if d != c {
          PushBystander(s, c, d);
        }
      }
      forall v {:trigger WinOk(s', v)} | 0 <= v < |s'.wins|
        ensures WinOk(s', v)
      {
        PushWindow(s, c, v);
      }
    }
  }

  lemma {:induction false} ReinsertCore(s: State, c: nat)
    requires Core(s) && Enabled(s, Reinsert(c))
    ensures Core(DoReinsert(s, c))
  {
    CoreMove(s, DoReinsert(s, c), c);
  }

  lemma {:induction false} CreateCore(s: State, c: nat)
    requires Core(s) && Enabled(s, Create(c))
    ensures Core(DoCreate(s, c))
  {
  }

  lemma {:induction false} PublishCore(s: State, c: nat)
    requires Core(s) && Enabled(s, Publish(c))
    ensures Core(DoPublish(s, c))
  {
    CoreMove(s, DoPublish(s, c), c);
  }

  lemma {:induction false} DiscardCore(s: State, c: nat)
    requires Core(s) && Enabled(s, Discard(c))
    ensures Core(DoDiscard(s, c))
  {
    CoreMove(s, DoDiscard(s, c), c);
  }

  lemma {:induction false} AbandonDiscardCore(s: State, c: nat)
    requires Core(s) && Enabled(s, AbandonDiscard(c))
    ensures Core(DoAbandonDiscard(s, c))
  {
    CoreMove(s, DoAbandonDiscard(s, c), c);
  }

  lemma {:induction false} ShowCore(s: State, c: nat)
    requires Core(s) && Enabled(s, Show(c))
    ensures Core(DoShow(s, c))
  {
    var w := PcOf(s, c).win;
    CoreAdvance(s, DoShow(s, c), c, w, Visible);
  }

  lemma {:induction false} ReturnCore(s: State, c: nat, ok: bool)
    requires Core(s) && Enabled(s, Return(c, ok))
    ensures Core(DoReturn(s, c, ok))
  {
    var w := PcOf(s, c).win;
    CoreAdvance(s, DoReturn(s, c, ok), c, w, Returned(ok, c));
  }

  lemma {:induction false} RecordCore(s: State, c: nat)
    requires Core(s) && Enabled(s, Record(c))
    ensures Core(DoRecord(s, c))
  {
    var pc := PcOf(s, c);
    CoreAdvance(s, DoRecord(s, c), c, pc.win, Done(pc.ok));
  }

  lemma {:induction false} ObserveCore(s: State, c: nat)
    requires Core(s) && Enabled(s, Observe(c))
    ensures Core(DoObserve(s, c))
  {
    CoreMove(s, DoObserve(s, c), c);
  }

  lemma {:induction false} DropCore(s: State, c: nat)
    requires Core(s) && Enabled(s, Drop(c))
    ensures Core(DoDrop(s, c))
  {
    CoreMove(s, DoDrop(s, c), c);
  }

  lemma {:induction false} CancelCore(s: State, c: nat)
    requires Core(s) && Enabled(s, Cancel(c))
    ensures Core(DoCancel(s, c))
  {
    CoreMove(s, DoCancel(s, c), c);
  }

  lemma {:induction false} AbandonCore(s: State, c: nat)
    requires Core(s) && Enabled(s, Abandon(c))
    ensures Core(DoAbandon(s, c))
  {
    CoreMove(s, DoAbandon(s, c), c);
  }

  lemma {:induction false} SealCore(s: State, w: nat)
    requires Core(s) && Enabled(s, Seal(w))
    ensures Core(DoSeal(s, w))
  {
    var s' := DoSeal(s, w);
    forall d {:trigger Placed(s', d)} | 0 <= d < |s'.callers|
      ensures InRange(s', s'.callers[d].pc) && PcOk(s', d, s'.callers[d].pc) && Placed(s', d)
    {
      assert Placed(s, d);
      PcFrame(s, s', d, s.callers[d].pc);
    }
    forall v {:trigger WinOk(s', v)} | 0 <= v < |s'.wins|
      ensures WinOk(s', v)
    {
      assert WinOk(s, v);
    }
  }

  lemma {:induction false} ArriveCore(s: State, i: Input, d: Delivery, o: Options)
    requires Core(s)
    ensures Core(s.(callers := s.callers + [Caller(i, d, o, Start, 0)]))
  {
  }

  lemma {:induction false} StepCore(s: State, step: Step)
    requires Core(s) && Enabled(s, step)
    ensures Core(Apply(s, step))
  {
    match step
    case Arrive(i, d, o) => ArriveCore(s, i, d, o);
    case Withdraw(c) => WithdrawCore(s, c);
    case Acquire(c) => AcquireCore(s, c);
    case Inspect(c) => InspectCore(s, c);
    case Push(c) => PushCore(s, c);
    case Reinsert(c) => ReinsertCore(s, c);
    case Create(c) => CreateCore(s, c);
    case Publish(c) => PublishCore(s, c);
    case Discard(c) => DiscardCore(s, c);
    case AbandonDiscard(c) => AbandonDiscardCore(s, c);
    case Show(c) => ShowCore(s, c);
    case Return(c, ok) => ReturnCore(s, c, ok);
    case Record(c) => RecordCore(s, c);
    case Observe(c) => ObserveCore(s, c);
    case Drop(c) => DropCore(s, c);
    case Cancel(c) => CancelCore(s, c);
    case Abandon(c) => AbandonCore(s, c);
    case Seal(w) => SealCore(s, w);
  }

  // ---------------------------------------------------------------- counts and contents, step by step

  lemma {:induction false} ArriveRefs(s: State, x: Caller)
    requires RefsOk(s) && x.pc.Start?
    ensures RefsOk(s.(callers := s.callers + [x]))
  {
    var s' := s.(callers := s.callers + [x]);
    forall w {:trigger s'.wins[w]} | 0 <= w < |s'.wins|
      ensures s'.wins[w].strong == Holders(s'.callers, w)
    {
      assert s.wins[w].strong == Holders(s.callers, w);
      HoldersAppend(s.callers, x, w);
    }
  }

  lemma {:induction false} CreateRefs(s: State, c: nat)
    requires Core(s) && RefsOk(s) && Enabled(s, Create(c))
    ensures RefsOk(DoCreate(s, c))
  {
    var s' := DoCreate(s, c);
    var newest := |s.wins|;
    forall w {:trigger s'.wins[w]} | 0 <= w < |s'.wins|
      ensures s'.wins[w].strong == Holders(s'.callers, w)
    {
      HoldersUpdate(s.callers, c, s'.callers[c], w);
      if w == newest {
        HoldersFresh(s.callers, w);
      } else {
        assert s'.wins[w] == s.wins[w];
      }
    }
  }

  lemma {:induction false} GiveUpRefs(s: State, c: nat, w: nat, next: Pc)
    requires RefsOk(s) && AlignedOk(s) && At(s, c) && w < |s.wins|
    requires HomeOf(PcOf(s, c)) == HomeOf(next)
    requires forall v: nat {:trigger Holds(next, v)} ::
               Holds(PcOf(s, c), v) == Holds(next, v) + (if v == w then 1 else 0)
    ensures RefsOk(Goto(Release(s, w), c, next)) && AlignedOk(Goto(Release(s, w), c, next))
    ensures s.wins[w].strong >= 1
  {
    AlignedAfterMove(s, Goto(Release(s, w), c, next));
    HoldersAtLeast(s.callers, c, w);
    assert s.wins[w].strong >= Holds(next, w) + 1;
    RefsAfterMove(s, Goto(Release(s, w), c, next), c);
  }

  /// Position `k` of the window that just received `c`'s member.
  lemma {:induction false} PushAligns(s: State, c: nat)
    requires Core(s) && AlignedOk(s) && Enabled(s, Push(c)) && !s.wins[PcOf(s, c).entry.win].value.sealed
    ensures Aligned(DoPush(s, c), PcOf(s, c).entry.win)
  {
    var w := PcOf(s, c).entry.win;
    var s' := DoPush(s, c);
    var rec, rec' := s.wins[w], s'.wins[w];
    assert Aligned(s, w) && WinOk(s, w);
    forall k {:trigger rec'.joined[k]} | 0 <= k < |rec'.joined|
      ensures Owned(s', w, k)
      ensures Content(rec').0[k] == s'.callers[rec'.joined[k]].input
      ensures Content(rec').1[k] == s'.callers[rec'.joined[k]].delivery
    {
      if k < |rec.joined| {
        assert rec'.joined[k] == rec.joined[k];
        assert Owned(s, w, k);
      }
    }
  }

  lemma {:induction false} PushAligned(s: State, c: nat)
    requires Core(s) && AlignedOk(s) && Enabled(s, Push(c))
    ensures AlignedOk(DoPush(s, c))
  {
    var s' := DoPush(s, c);
    var w := PcOf(s, c).entry.win;
    if s.wins[w].value.sealed {
      AlignedAfterMove(s, s');
    } else {
      forall v {:trigger Aligned(s', v)} | 0 <= v < |s'.wins|
        ensures Aligned(s', v)
      {
        assert Aligned(s, v);
        if v == w {
          PushAligns(s, c);
        } else {
          AlignedFrame(s, s', v);
        }
      }
    }
  }

  lemma {:induction false} CreateAligned(s: State, c: nat)
    requires Core(s) && AlignedOk(s) && Enabled(s, Create(c))
    ensures AlignedOk(DoCreate(s, c))
  {
    var s' := DoCreate(s, c);
    forall v {:trigger Aligned(s', v)} | 0 <= v < |s'.wins|
      ensures Aligned(s', v)
    {
      if v < |s.wins| {
        assert Aligned(s, v);
        AlignedFrame(s, s', v);
      } else {
        assert Owned(s', v, 0);
      }
    }
  }

  /// The lock owner's steps that neither push nor create.
  lemma {:induction false} OwnerStep(s: State, step: Step, c: nat)
    requires Core(s) && AlignedOk(s) && RefsOk(s) && Enabled(s, step)
    requires step == Acquire(c) || step == Reinsert(c) || step == Publish(c)
    ensures AlignedOk(Apply(s, step)) && RefsOk(Apply(s, step))
  {
    var s' := Apply(s, step);
    assert s'.wins == s.wins && s'.callers == s.callers[c := s'.callers[c]];
    assert forall w :: Holds(s'.callers[c].pc, w) == Holds(s.callers[c].pc, w);
    RefsAfterMove(s, s', c);
    AlignedAfterMove(s, s');
  }

  lemma {:induction false} DiscardStep(s: State, c: nat)
    requires Core(s) && AlignedOk(s) && RefsOk(s) && Enabled(s, Discard(c))
    ensures AlignedOk(DoDiscard(s, c)) && RefsOk(DoDiscard(s, c))
  {
    var pc := PcOf(s, c);
    GiveUpRefs(s, c, pc.discarded, AbandoningDiscard(pc.discarded, pc.win));
    GiveUpRefs(s, c, pc.discarded, Waiting(pc.win));
  }

  lemma {:induction false} DropStep(s: State, c: nat)
    requires Core(s) && AlignedOk(s) && RefsOk(s) && Enabled(s, Drop(c))
    ensures AlignedOk(DoDrop(s, c)) && RefsOk(DoDrop(s, c))
  {
    var pc := PcOf(s, c);
    GiveUpRefs(s, c, pc.win, Abandoning(pc.win, VerdictOf(pc.ok)));
    GiveUpRefs(s, c, pc.win, Finished(pc.win, VerdictOf(pc.ok)));
  }

  lemma {:induction false} CancelStep(s: State, c: nat)
    requires Core(s) && AlignedOk(s) && RefsOk(s) && Enabled(s, Cancel(c))
    ensures AlignedOk(DoCancel(s, c)) && RefsOk(DoCancel(s, c))
  {
    var w := PcOf(s, c).win;
    GiveUpRefs(s, c, w, Abandoning(w, Cancelled));
    GiveUpRefs(s, c, w, Finished(w, Cancelled));
  }

  lemma {:induction false} RecordStep(s: State, c: nat)
    requires Core(s) && AlignedOk(s) && RefsOk(s) && Enabled(s, Record(c))
    ensures AlignedOk(DoRecord(s, c)) && RefsOk(DoRecord(s, c))
  {
    RefsAfterMove(s, DoRecord(s, c), c);
    AlignedAfterMove(s, DoRecord(s, c));
  }

  lemma {:induction false} InspectStep(s: State, c: nat)
    requires Core(s) && AlignedOk(s) && RefsOk(s) && Enabled(s, Inspect(c))
    ensures AlignedOk(DoInspect(s, c)) && RefsOk(DoInspect(s, c))
  {
    RefsAfterMove(s, DoInspect(s, c), c);
    AlignedAfterMove(s, DoInspect(s, c));
  }

  lemma {:induction false} CallbackStep(s: State, step: Step, c: nat)
    requires Core(s) && AlignedOk(s) && RefsOk(s) && Enabled(s, step)
    requires step == Withdraw(c) || step == AbandonDiscard(c) || step == Abandon(c)
    ensures AlignedOk(Apply(s, step)) && RefsOk(Apply(s, step))
  {
    var s' := Apply(s, step);
    assert s'.wins == s.wins && s'.callers == s.callers[c := s'.callers[c]];
    assert forall w :: Holds(s'.callers[c].pc, w) == Holds(s.callers[c].pc, w);
    RefsAfterMove(s, s', c);
    AlignedAfterMove(s, s');
  }

  lemma {:induction false} ShowStep(s: State, c: nat)
    requires Core(s) && AlignedOk(s) && RefsOk(s) && Enabled(s, Show(c))
    ensures AlignedOk(Apply(s, Show(c))) && RefsOk(Apply(s, Show(c)))
  {
    RefsAfterMove(s, Apply(s, Show(c)), c);
    AlignedAfterMove(s, Apply(s, Show(c)));
  }

  lemma {:induction false} PollStep(s: State, step: Step, c: nat)
    requires Core(s) && AlignedOk(s) && RefsOk(s) && Enabled(s, step)
    requires step == Observe(c) || (step.Return? && step.c == c)
    ensures AlignedOk(Apply(s, step)) && RefsOk(Apply(s, step))
  {
    var s' := Apply(s, step);
    assert s'.callers == s.callers[c := s'.callers[c]];
    assert forall w :: Holds(s'.callers[c].pc, w) == Holds(s.callers[c].pc, w);
    RefsAfterMove(s, s', c);
    AlignedAfterMove(s, s');
  }

  lemma {:induction false} PushStep(s: State, c: nat)
    requires Core(s) && AlignedOk(s) && RefsOk(s) && Enabled(s, Push(c))
    ensures AlignedOk(DoPush(s, c)) && RefsOk(DoPush(s, c))
  {
    RefsAfterMove(s, DoPush(s, c), c);
    PushAligned(s, c);
  }

  lemma {:induction false} SealStep(s: State, w: nat)
    requires Core(s) && AlignedOk(s) && RefsOk(s) && Enabled(s, Seal(w))
    ensures AlignedOk(DoSeal(s, w)) && RefsOk(DoSeal(s, w))
  {
    AlignedAfterMove(s, DoSeal(s, w));
  }

  lemma {:induction false} ArriveStep(s: State, x: Caller)
    requires Core(s) && AlignedOk(s) && RefsOk(s) && x.pc.Start?
    ensures AlignedOk(s.(callers := s.callers + [x])) && RefsOk(s.(callers := s.callers + [x]))
  {
    ArriveRefs(s, x);
    AlignedAfterMove(s, s.(callers := s.callers + [x]));
  }

  lemma {:induction false} StepKeeps(s: State, step: Step)
    requires Inv(s) && Enabled(s, step)
    ensures Inv(Apply(s, step))
  {
    StepCore(s, step);
    match step
    case Arrive(i, d, o) => ArriveStep(s, Caller(i, d, o, Start, 0));
    case Withdraw(c) => CallbackStep(s, step, c);
    case Acquire(c) => OwnerStep(s, step, c);
    case Inspect(c) => InspectStep(s, c);
    case Push(c) => PushStep(s, c);
    case Reinsert(c) => OwnerStep(s, step, c);
    case Create(c) => CreateRefs(s, c); CreateAligned(s, c);
    case Publish(c) => OwnerStep(s, step, c);
    case Discard(c) => DiscardStep(s, c);
    case AbandonDiscard(c) => CallbackStep(s, step, c);
    case Show(c) => ShowStep(s, c);
    case Return(c, _) => PollStep(s, step, c);
    case Record(c) => RecordStep(s, c);
    case Observe(c) => PollStep(s, step, c);
    case Drop(c) => DropStep(s, c);
    case Cancel(c) => CancelStep(s, c);
    case Abandon(c) => CallbackStep(s, step, c);
    case Seal(w) => SealStep(s, w);
  }

  // ---------------------------------------------------------------- runs

  /// `steps` is a run of the protocol from `s`: each step is enabled where it happens.
  ghost predicate IsRun(s: State, steps: seq<Step>)
    decreases |steps|
  {
    |steps| > 0 ==> Shape(s) && Enabled(s, steps[0]) && IsRun(Apply(s, steps[0]), steps[1..])
  }

  ghost function After(s: State, steps: seq<Step>): State
    requires IsRun(s, steps)
    decreases |steps|
  {
    if |steps| == 0 then s else After(Apply(s, steps[0]), steps[1..])
  }

  ghost predicate Reachable(s: State) {
    exists steps :: IsRun(Init(s.maxSize), steps) && After(Init(s.maxSize), steps) == s
  }

  lemma {:induction false} RunKeeps(s: State, steps: seq<Step>)
    requires Inv(s) && IsRun(s, steps)
    ensures Inv(After(s, steps))
    decreases |steps|
  {
    if |steps| > 0 {
      StepKeeps(s, steps[0]);
      RunKeeps(Apply(s, steps[0]), steps[1..]);
    }
  }

  /// Every state of every run satisfies the invariant.
  lemma {:induction false} ReachableInv(s: State)
    requires Reachable(s)
    ensures Inv(s)
  {
    var steps :| IsRun(Init(s.maxSize), steps) && After(Init(s.maxSize), steps) == s;
    RunKeeps(Init(s.maxSize), steps);
  }
}
