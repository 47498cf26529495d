/// Executing a stream batch: run the mode, then settle whoever it left without an outcome.

module StreamBatchJobs {
  import opened Basics
  import opened Lifecycles
  import opened StreamMembers
  import opened Isolation
  import Routing
  import M = MultiplexedMode
  import I = IndependentMode

  /// What a mode's `run` came to: a status, or a panic that got out of it.
  datatype ModeResult = Ran(status: JobStatus) | Unwound(cause: int)

  predicate SomeFailed(ms: seq<Member>) {
    exists i :: 0 <= i < |ms| && HasFailed(ms[i].life)
  }

  predicate SomeOpen(ms: seq<Member>) {
    exists i :: 0 <= i < |ms| && IsOpen(ms[i].life)
  }

  /// Every signal is closed or has its outcome.
  predicate NobodyThere(ms: seq<Member>) {
    forall i :: 0 <= i < |ms| ==> ms[i].life.closed || ms[i].life.outcome.Some?
  }

  function Unfinished(m: Member, error: Error): Member {
    EndLife(m, Err(error))
  }

  /// The member's handle is gone, and its channel's sender with it.
  function DropSender(m: Member): Member {
    m.(delivery := false)
  }

  function DropSenders(ms: seq<Member>): (ms': seq<Member>)
    ensures |ms'| == |ms| && forall i :: 0 <= i < |ms| ==> ms'[i] == DropSender(ms[i])
  {
    seq(|ms|, i requires 0 <= i < |ms| => DropSender(ms[i]))
  }

  /// As `MemberOk`, for a member that may have lost its handle before it got an outcome.
  ghost predicate Sound(m: Member) {
    MemberOk(m.(delivery := true))
  }

  function MoveOne(ms: seq<Member>, move: ConsumerMove): (ms': seq<Member>)
    ensures |ms'| == |ms|
  {
    if move.member >= |ms| then ms
    else ms[move.member := if move.drops then DropStep(ms[move.member]) else Pop(ms[move.member])]
  }

  function MoveAll(ms: seq<Member>, own: seq<ConsumerMove>): (ms': seq<Member>)
    ensures |ms'| == |ms|
  {
    if |own| == 0 then ms else MoveOne(MoveAll(ms, own[..|own| - 1]), own[|own| - 1])
  }

  /// Nothing more is sent, an outcome stays, and the consumer goes on from where it was.
  ghost predicate GoesOn(m: Member, m': Member) {
    && m'.capacity == m.capacity && (m'.delivery ==> m.delivery) && m'.accepted == m.accepted
    && m.received <= m'.received && (Sound(m) ==> Sound(m'))
    && (m.life.outcome.Some? ==> m'.life.outcome == m.life.outcome)
    && (!m.consumer.Attached? ==> !m'.consumer.Attached?)
  }

  ghost predicate AllGoOn(ms: seq<Member>, ms': seq<Member>) {
    |ms'| == |ms| && forall i :: 0 <= i < |ms| ==> GoesOn(ms[i], ms'[i])
  }

  /// The outcome is the error, unless the consumer left first.
  ghost predicate GivenOrGone(m: Member, error: Error)
    requires m.life.outcome.Some?
  {
    m.life.outcome.value == Err(error) || (m.life.outcome.value == CANCELLED && !m.consumer.Attached?)
  }

  /// A member before or after it has been given the error; `still` says that its consumer does not move.
  ghost predicate Told(m: Member, m': Member, error: Error, told: bool, still: bool) {
    && GoesOn(m, m') && m'.delivery == m.delivery
    && (m.life.outcome.None? && m'.life.outcome.Some? ==> GivenOrGone(m', error))
    && (told ==> m'.life.outcome.Some?)
    && (still ==> m' == if told then Unfinished(m, error) else m)
  }

  predicate StandsStill(i: nat, moves: set<ConsumerMove>) {
    ConsumerMove(i, true) !in moves && ConsumerMove(i, false) !in moves
  }

  lemma {:induction false} PopTold(m: Member, m': Member, error: Error, told: bool)
    requires Told(m, m', error, told, false)
    ensures Told(m, Pop(m'), error, told, false)
  {
    if Sound(m) {
      PopKeepsMember(m'.(delivery := true));
    }
  }

  lemma {:induction false} DropTold(m: Member, m': Member, error: Error, told: bool)
    requires Told(m, m', error, told, false)
    ensures Told(m, DropStep(m'), error, told, false)
  {
    if Sound(m) {
      DropKeepsMember(m'.(delivery := true));
    }
  }

  lemma {:induction false} MovesTold(m: Member, ms: seq<Member>, own: seq<ConsumerMove>, moves: set<ConsumerMove>,
                                     i: nat, error: Error, told: bool)
    requires i < |ms| && Told(m, ms[i], error, told, StandsStill(i, moves))
    requires forall move :: move in own ==> move in moves
    ensures Told(m, MoveAll(ms, own)[i], error, told, StandsStill(i, moves))
    decreases |own|
  {
    if |own| > 0 {
      var shorter := own[..|own| - 1];
      var last := own[|own| - 1];
      MovesTold(m, ms, shorter, moves, i, error, told);
      assert last in own;
      if last.member == i {
        assert last == ConsumerMove(i, last.drops);
        if last.drops {
          DropTold(m, MoveAll(ms, shorter)[i], error, told);
        } else {
          PopTold(m, MoveAll(ms, shorter)[i], error, told);
        }
      }
    }
  }

  lemma {:induction false} ErrorTold(m: Member, m': Member, error: Error, still: bool)
    requires Told(m, m', error, false, still)
    ensures Told(m, Unfinished(m', error), error, true, still)
  {
  }

  /// `BatchCompletion::fail_unfinished`, with consumers still moving before each member's turn
  /// (`between`): a member that has an outcome keeps it, and one that has none gets this one, unless its
  /// consumer leaves first.
  method FailUnfinished(ms: seq<Member>, error: Error, between: seq<seq<ConsumerMove>>) returns (ms': seq<Member>)
    ensures |ms'| == |ms|
    ensures forall i :: 0 <= i < |ms| ==> Told(ms[i], ms'[i], error, true, StandsStill(i, MovesOf(between)))
  {
    ms' := ms;
    var k := 0;
    while k < |ms'|
      invariant 0 <= k <= |ms'| == |ms|
      invariant forall i :: 0 <= i < |ms| ==> Told(ms[i], ms'[i], error, i < k, StandsStill(i, MovesOf(between)))
    {
      var moved := MoveAll(ms', MovesAt(between, k));
      forall i | 0 <= i < |ms|
        ensures Told(ms[i], moved[i], error, i < k, StandsStill(i, MovesOf(between)))
      {
        MovesTold(ms[i], ms', MovesAt(between, k), MovesOf(between), i, error, i < k);
      }
      ErrorTold(ms[k], moved[k], error, StandsStill(k, MovesOf(between)));
      ms' := moved[k := Unfinished(moved[k], error)];
      k := k + 1;
    }
  }

  /// The tail of `execute`, for any mode at all: the members' handles are gone; every member ends up
  /// with exactly one outcome, sent exactly once; a member the mode left without one gets the error that
  /// says so, unless its consumer leaves first; and the status is `Failed` exactly when the mode said so,
  /// panicked, or some member's outcome is an error.
  method Settle(ms: seq<Member>, result: ModeResult, between: seq<seq<ConsumerMove>>)
    returns (status: JobStatus, ms': seq<Member>)
    requires forall i :: 0 <= i < |ms| ==> Sound(ms[i])
    ensures AllGoOn(ms, ms') && AllSettled(ms')
    ensures forall i :: 0 <= i < |ms| ==>
              var error := if result.Ran? then IncompleteStreamBatch else TaskPanic(result.cause);
              Told(DropSender(ms[i]), ms'[i], error, true, StandsStill(i, MovesOf(between)))
    ensures status == Failed || status == Completed
    ensures status == Failed <==> result.Unwound? || result.status == Failed || SomeFailed(ms')
  {
    ms' := DropSenders(ms);
    match result {
      case Ran(s) =>
        ms' := FailUnfinished(ms', IncompleteStreamBatch, between);
        status := if s == Failed || SomeFailed(ms') then Failed else Completed;
      case Unwound(cause) =>
        ms' := FailUnfinished(ms', TaskPanic(cause), between);
        status := Failed;
    }
  }

  /// Outcomes that are all there stay as they are.
  lemma {:induction false} SameOutcomes(ms: seq<Member>, ms': seq<Member>)
    requires AllGoOn(ms, ms') && forall i :: 0 <= i < |ms| ==> ms[i].life.outcome.Some?
    ensures SomeFailed(ms) <==> SomeFailed(ms')
  {
    forall i | 0 <= i < |ms|
      ensures HasFailed(ms'[i].life) == HasFailed(ms[i].life)
    {
      assert GoesOn(ms[i], ms'[i]);
    }
    if SomeFailed(ms) {
      var i :| 0 <= i < |ms| && HasFailed(ms[i].life);
      assert HasFailed(ms'[i].life);
    }
  }

  function MembersOfRouted(rs: seq<Routing.Routed>): (ms: seq<Member>)
    ensures |ms| == |rs|
  {
    seq(|rs|, i requires 0 <= i < |rs| => rs[i].m)
  }

  function MembersOfSolo(rs: seq<I.Solo>): (ms: seq<Member>)
    ensures |ms| == |rs|
  {
    seq(|rs|, i requires 0 <= i < |rs| => rs[i].m)
  }

  /// Everybody has left before the job starts; the handles go when it returns.
  method CloseDeserted(ms: seq<Member>, between: seq<seq<ConsumerMove>>) returns (ms': seq<Member>)
    requires |ms| > 0 && forall i :: 0 <= i < |ms| ==> Sound(ms[i])
    requires !SomeOpen(ms)
    requires forall i :: 0 <= i < |ms| && ms[i].life.outcome.Some? ==> ms[i].life.outcome.value == CANCELLED
    ensures AllGoOn(ms, ms') && AllSettled(ms') && SomeFailed(ms')
  {
    ms' := FailUnfinished(ms, ConsumerCancelled, between);
    ghost var told := ms';
    ms' := DropSenders(ms');
    forall i | 0 <= i < |ms|
      ensures GoesOn(ms[i], ms'[i]) && HasFailed(ms'[i].life)
    {
      assert GoesOn(ms[i], told[i]);
    }
    assert HasFailed(ms'[0].life);
  }

  /// What `execute` leaves in the end, whichever way it went, on top of the members `before`.
  ghost predicate Ended(before: seq<Member>, ms: seq<Member>, status: JobStatus, escaped: bool, panic: int) {
    && AllGoOn(before, ms) && AllSettled(ms)
    && (if escaped then status == Failed && PanicTold(before, ms, panic)
        else status == if SomeFailed(ms) then Failed else Completed)
  }

  /// Whoever had no outcome when the panic escaped has got it as one, or has left.
  ghost predicate PanicTold(before: seq<Member>, ms: seq<Member>, panic: int) {
    |ms| == |before| && forall i :: 0 <= i < |before| ==>
      before[i].life.outcome.None? && ms[i].life.outcome.Some? ==> GivenOrGone(ms[i], TaskPanic(panic))
  }

  /// How the multiplexed mode's loop was left, by what became of the job.
  function HowItLeft(status: JobStatus, escaped: bool): M.Leaving {
    if escaped then M.PanicEscaped else if status == Running then M.NotYet else M.Done
  }

  /// The mode, and then the settlement.
  method RunAndSettle(capacities: seq<nat>, earlier: seq<ConsumerMove>, produced: seq<M.Tagged>, ticks: seq<M.Tick>,
                      panic: int, between: seq<seq<ConsumerMove>>)
    returns (status: JobStatus, ms: seq<Member>, trace: seq<M.Signal>, taken: nat, escaped: bool, used: nat)
    requires forall i :: 0 <= i < |capacities| ==> capacities[i] >= 1
    ensures M.TraceOk(capacities, earlier, produced, ticks, trace, taken)
    ensures escaped ==> status != Running && M.SomePollPanics(ticks)
    ensures if status == Running then ms == MembersAfter(capacities, trace)
            else Ended(MembersAfter(capacities, trace), ms, status, escaped, panic)
    ensures M.LeftAs(HowItLeft(status, escaped), ticks, used, produced, taken, |capacities|, |M.Yielded(trace)|)
  {
    var exit, rs, pauses;
    exit, rs, trace, taken, pauses, used := M.RunMultiplexed(capacities, earlier, produced, ticks);
    M.BatchIsOk(capacities, trace);
    var left := MembersOfRouted(rs);
    status, ms, escaped := Running, left, false;
    match exit {
      case StillRunning =>
      case Panicked =>
        status, ms := Settle(left, Unwound(panic), between);
        escaped := true;
      case Returned(s) =>
        SameFailures(rs, left);
        status, ms := Settle(left, Ran(s), between);
        SameOutcomes(left, ms);
    }
  }

  class StreamBatchJob {
    var status: JobStatus

    constructor ()
      ensures status == JobStatus.Pending
    {
      status := JobStatus.Pending;
    }

    /// With the multiplexed mode; `panic` is the cause its producer's stream panics with, if it does,
    /// and `between` are the consumers' moves during the settlement. A panic that gets out of the mode
    /// makes the status `Failed`; otherwise it is `Failed` exactly when some member's outcome is an error.
    /// If nobody is there any more the mode is not run at all.
    method ExecuteMultiplexed(capacities: seq<nat>, earlier: seq<ConsumerMove>, produced: seq<M.Tagged>,
                              ticks: seq<M.Tick>, panic: int, between: seq<seq<ConsumerMove>>)
      returns (ms: seq<Member>, trace: seq<M.Signal>, taken: nat, escaped: bool, used: nat)
      requires |capacities| > 0 && forall i :: 0 <= i < |capacities| ==> capacities[i] >= 1
      modifies this
      ensures M.TraceOk(capacities, earlier, produced, ticks, trace, taken)
      ensures escaped ==> status != Running && M.SomePollPanics(ticks)
      ensures if status == Running then ms == MembersAfter(capacities, trace)
              else Ended(MembersAfter(capacities, trace), ms, status, escaped, panic)
      ensures NobodyThere(MembersAfter(capacities, M.SignalsOf(earlier)))
              || M.LeftAs(HowItLeft(status, escaped), ticks, used, produced, taken, |capacities|, |M.Yielded(trace)|)
      ensures NobodyThere(MembersAfter(capacities, M.SignalsOf(earlier))) ==>
                status == Failed && !escaped && trace == M.SignalsOf(earlier) && taken == 0
    {
      status := Running;
      var start;
      start, trace := M.StartBatch(capacities, earlier, M.AllMoves(earlier, ticks));
      M.BatchIsOk(capacities, trace);
      ms := MembersOfRouted(start);
      if SomeOpen(ms) {
        status, ms, trace, taken, escaped, used := RunAndSettle(capacities, earlier, produced, ticks, panic, between);
      } else {
        M.NothingTaken(capacities, earlier, produced, ticks, trace);
        taken, escaped, used := 0, false, 0;
        ms := CloseDeserted(ms, between);
        status := Failed;
      }
    }

    /// With the independent mode, which lets no panic out.
    method ExecuteIndependent(capacities: seq<nat>, earlier: seq<ConsumerMove>, streams: seq<I.Stream>,
                              prepared: I.Prepared, turns: seq<I.Turn>, between: seq<seq<ConsumerMove>>)
      returns (ms: seq<Member>, trace: seq<Signal<I.Act>>, used: nat, ghost before: seq<Signal<I.Act>>)
      requires |streams| == |capacities| > 0 && forall i :: 0 <= i < |capacities| ==> capacities[i] >= 1
      modifies this
      ensures I.AllGenuine(capacities, trace, streams, prepared, I.AllMoves(earlier, turns))
      ensures if status == Running then ms == MembersOfSolo(I.After(capacities, trace))
              else Ended(MembersOfSolo(I.After(capacities, trace)), ms, status, false, 0)
      ensures status == Running ==>
                var b := I.Batch(capacities, streams, prepared, I.AllMoves(earlier, turns));
                I.StillBusy(b, turns, trace, used, before)
      ensures NobodyThere(MembersOfSolo(I.After(capacities, I.SignalsOf(earlier)))) ==>
                status == Failed && trace == I.SignalsOf(earlier)
    {
      used, before := 0, [];
      ghost var b := I.Batch(capacities, streams, prepared, I.AllMoves(earlier, turns));
      status := Running;
      var start;
      start, trace := I.StartBatch(b, capacities, earlier);
      SolosAreOk(capacities, trace);
      ms := MembersOfSolo(start);
      if SomeOpen(ms) {
        status, ms, trace, used, before := PrepareAndSettle(capacities, earlier, streams, prepared, turns, between);
      } else {
        ms := CloseDeserted(ms, between);
        status := Failed;
      }
    }
  }

  /// As `RunAndSettle`, for the independent mode.
  method PrepareAndSettle(capacities: seq<nat>, earlier: seq<ConsumerMove>, streams: seq<I.Stream>,
                          prepared: I.Prepared, turns: seq<I.Turn>, between: seq<seq<ConsumerMove>>)
    returns (status: JobStatus, ms: seq<Member>, trace: seq<Signal<I.Act>>, used: nat, ghost before: seq<Signal<I.Act>>)
    requires |streams| == |capacities| && forall i :: 0 <= i < |capacities| ==> capacities[i] >= 1
    ensures I.AllGenuine(capacities, trace, streams, prepared, I.AllMoves(earlier, turns))
    ensures if status == Running then ms == MembersOfSolo(I.After(capacities, trace))
            else Ended(MembersOfSolo(I.After(capacities, trace)), ms, status, false, 0)
    ensures status == Running ==>
              var b := I.Batch(capacities, streams, prepared, I.AllMoves(earlier, turns));
              I.StillBusy(b, turns, trace, used, before)
  {
    var exit, rs;
    exit, rs, trace, used, before := I.RunIndependent(capacities, earlier, streams, prepared, turns);
    SolosAreOk(capacities, trace);
    var left := MembersOfSolo(rs);
    status, ms := Running, left;
    match exit {
      case StillRunning =>
      case Returned(s) =>
        SameSoloFailures(rs, left);
        status, ms := Settle(left, Ran(s), between);
        SameOutcomes(left, ms);
    }
  }

  function MembersAfter(capacities: seq<nat>, trace: seq<M.Signal>): seq<Member> {
    MembersOfRouted(M.DispatchAll(M.NewBatch(capacities), trace))
  }

  lemma {:induction false} SolosAreOk(capacities: seq<nat>, trace: seq<Signal<I.Act>>)
    requires forall i :: 0 <= i < |capacities| ==> capacities[i] >= 1
    ensures var rs := I.After(capacities, trace);
            forall i :: 0 <= i < |rs| ==> I.SoloOk(rs[i])
  {
    forall i | 0 <= i < |capacities|
      ensures I.SoloOk(I.After(capacities, trace)[i])
    {
      I.MemberIsOk(capacities, trace, i);
    }
  }

  /// Every member has exactly one outcome, its result future was sent it exactly once, and its sender
  /// is gone.
  ghost predicate AllSettled(ms: seq<Member>) {
    forall i :: 0 <= i < |ms| ==>
      MemberOk(ms[i]) && !ms[i].delivery && ms[i].life.outcome.Some? && ms[i].life.sent == [ms[i].life.outcome.value]
  }

  /// After `execute` a consumer that is still there receives whatever had been accepted for its member
  /// and then the end of the stream, not earlier.
  lemma {:induction false} SettledMembersDrain(ms: seq<Member>, i: nat)
    requires AllSettled(ms) && i < |ms| && ms[i].consumer.Attached?
    ensures var drained := PopTimes(ms[i], |ms[i].buffer|);
            AtEnd(drained) && drained.received == ms[i].accepted && drained.life == ms[i].life
    ensures forall n :: 0 <= n < |ms[i].buffer| ==> !AtEnd(PopTimes(ms[i], n))
  {
    FinishedMemberDrains(ms[i]);
  }

  lemma {:induction false} SameFailures(rs: seq<Routing.Routed>, ms: seq<Member>)
    requires ms == MembersOfRouted(rs)
    ensures M.AnyFailed(rs) <==> SomeFailed(ms)
  {
    if M.AnyFailed(rs) {
      var i :| 0 <= i < |rs| && HasFailed(rs[i].m.life);
      assert HasFailed(ms[i].life);
    }
  }

  lemma {:induction false} SameSoloFailures(rs: seq<I.Solo>, ms: seq<Member>)
    requires ms == MembersOfSolo(rs)
    ensures I.AnyFailed(rs) <==> SomeFailed(ms)
  {
    if I.AnyFailed(rs) {
      var i :| 0 <= i < |rs| && HasFailed(rs[i].m.life);
      assert HasFailed(ms[i].life);
    }
  }
}
