/// The multiplexed mode: one biased loop that routes tagged events to all members.

module MultiplexedMode {
  import opened Basics
  import opened Lifecycles
  import opened StreamMembers
  import opened Isolation
  import opened Routing

  // ---------------------------------------------------------------- many members

  type Signal = Isolation.Signal<Act>

  function DispatchAll(ms: seq<Routed>, trace: seq<Signal>): (r: seq<Routed>)
    ensures |r| == |ms|
  {
    Isolation.DispatchAll(Step, ms, trace)
  }

  function NewBatch(capacities: seq<nat>): seq<Routed> {
    seq(|capacities|, i requires 0 <= i < |capacities| => NewRouted(capacities[i]))
  }

  lemma {:induction false} BatchIsOk(capacities: seq<nat>, trace: seq<Signal>)
    requires forall i :: 0 <= i < |capacities| ==> capacities[i] >= 1
    ensures var ms := DispatchAll(NewBatch(capacities), trace);
            |ms| == |capacities| && forall i :: 0 <= i < |ms| ==> MemberOk(ms[i].m) && ms[i].m.capacity == capacities[i]
  {
    var ms := DispatchAll(NewBatch(capacities), trace);
    forall i | 0 <= i < |ms|
      ensures MemberOk(ms[i].m) && ms[i].m.capacity == capacities[i]
    {
      RunsAlone(Step, NewBatch(capacities), trace, i);
      RunAgrees(capacities[i], Project(trace, i));
    }
  }

  // ---------------------------------------------------------------- the loop

  /// The events taken off the producer along a trace.
  function TakenAll(start: seq<Routed>, trace: seq<Signal>): seq<Tagged>
    decreases |trace|
  {
    if |trace| == 0 then []
    else
      var shorter := trace[..|trace| - 1];
      TakenAll(start, shorter) + TakenAt(DispatchAll(start, shorter), trace[|trace| - 1])
  }

  function TakenAt(ms: seq<Routed>, s: Signal): seq<Tagged> {
    if s.act.Begin? && (s.index < |ms| ==> ms[s.index].gate.Idle?) then [Tagged(s.index, s.act.event)] else []
  }

  lemma {:induction false} TakenAppend(start: seq<Routed>, trace: seq<Signal>, s: Signal)
    ensures TakenAll(start, trace + [s]) == TakenAll(start, trace) + TakenAt(DispatchAll(start, trace), s)
    ensures DispatchAll(start, trace + [s]) == Dispatch(Step, DispatchAll(start, trace), s)
  {
    assert (trace + [s])[..|trace|] == trace;
  }

  lemma {:induction false} QuietStep(start: seq<Routed>, trace: seq<Signal>, s: Signal)
    requires !s.act.Begin?
    ensures TakenAll(start, trace + [s]) == TakenAll(start, trace)
  {
    TakenAppend(start, trace, s);
  }

  /// Only the start of an event takes anything off the producer.
  lemma {:induction false} QuietTakesNothing(start: seq<Routed>, trace: seq<Signal>, more: seq<Signal>)
    requires forall k :: 0 <= k < |more| ==> !more[k].act.Begin?
    ensures TakenAll(start, trace + more) == TakenAll(start, trace)
    decreases |more|
  {
    if |more| == 0 {
      assert trace + more == trace;
    } else {
      var shorter := more[..|more| - 1];
      var last := more[|more| - 1];
      var longer := trace + shorter;
      assert trace + more == longer + [last];
      QuietStep(start, longer, last);
      QuietTakesNothing(start, trace, shorter);
    }
  }

  /// The members whose closure has been yielded.
  function Yielded(trace: seq<Signal>): set<nat> {
    set k | 0 <= k < |trace| && trace[k].act.ClosureYield? :: trace[k].index
  }

  lemma {:induction false} QuietYieldsNothing(trace: seq<Signal>, more: seq<Signal>)
    requires forall k :: 0 <= k < |more| ==> !more[k].act.ClosureYield?
    ensures Yielded(trace + more) == Yielded(trace)
  {
    forall i | i in Yielded(trace)
      ensures i in Yielded(trace + more)
    {
      var k :| 0 <= k < |trace| && trace[k].act.ClosureYield? && trace[k].index == i;
      assert (trace + more)[k] == trace[k];
    }
  }

  lemma {:induction false} YieldOneMore(trace: seq<Signal>, index: nat)
    ensures Yielded(trace + [To(index, ClosureYield)]) == Yielded(trace) + {index}
  {
    var longer := trace + [To(index, ClosureYield)];
    assert longer[|trace|] == To(index, ClosureYield);
    forall i | i in Yielded(trace)
      ensures i in Yielded(longer)
    {
      var k :| 0 <= k < |trace| && trace[k].act.ClosureYield? && trace[k].index == i;
      assert longer[k] == trace[k];
    }
  }

  /// What polling the producer's stream comes to: it may not be ready, it may give its next event - or
  /// its end, once there is none - or it may panic, which is not caught here.
  datatype Poll = NotReady | Next | Panics

  /// One item of the producer's stream.
  datatype Tagged = Tagged(index: nat, event: Event)

  /// One round of the loop as its environment sees it: consumers move before the closures are polled,
  /// and again at every point inside the round where another thread can be seen. `noticed` are the
  /// closures that are polled for the first time, and so notice a flag before its notification;
  /// `atEnd[i]` are the moves made just before member `i` is finished at the producer's end.
  datatype Tick = Tick(
    before: seq<ConsumerMove>,
    noticed: set<nat>,
    poll: Poll,
    afterPoll: seq<ConsumerMove>,
    afterCheck: seq<ConsumerMove>,
    afterRecheck: seq<ConsumerMove>,
    atEnd: seq<seq<ConsumerMove>>)

  datatype Exit = Returned(status: JobStatus) | Panicked | StillRunning

  const ROUTE_BUDGET: nat := 64

  function SignalsOf(moves: seq<ConsumerMove>): (s: seq<Signal>)
    ensures |s| == |moves|
  {
    seq(|moves|, i requires 0 <= i < |moves| => To(moves[i].member, if moves[i].drops then DropHandle else Consume))
  }

  lemma {:induction false} SignalsAppend(moves: seq<ConsumerMove>)
    requires |moves| > 0
    ensures var last := SignalsOf(moves)[|moves| - 1];
            && SignalsOf(moves) == SignalsOf(moves[..|moves| - 1]) + [last]
            && SignalsOf(moves)[..|moves| - 1] == SignalsOf(moves[..|moves| - 1])
            && (last.act.DropHandle? || last.act.Consume?)
  {
  }

  function TickMoves(tick: Tick): set<ConsumerMove> {
    (set m | m in tick.before + tick.afterPoll + tick.afterCheck + tick.afterRecheck)
    + MovesOf(tick.atEnd)
  }

  /// Every move the consumers make while the loop runs, and before it.
  function AllMoves(earlier: seq<ConsumerMove>, ticks: seq<Tick>): (s: set<ConsumerMove>)
    ensures forall m :: m in earlier ==> m in s
    ensures forall t :: 0 <= t < |ticks| ==> TickMoves(ticks[t]) <= s
  {
    if |ticks| == 0 then set m | m in earlier
    else AllMoves(earlier, ticks[..|ticks| - 1]) + TickMoves(ticks[|ticks| - 1])
  }

  /// Nobody but its consumer acts for the consumer, and nobody ends the producer before its end.
  predicate SanctionedSignal(s: Signal, moves: set<ConsumerMove>, ended: bool) {
    && (s.act.Consume? ==> ConsumerMove(s.index, false) in moves)
    && (s.act.DropHandle? ==> ConsumerMove(s.index, true) in moves)
    && (s.act.ProducerEnd? ==> ended)
  }

  predicate Sanctioned(trace: seq<Signal>, moves: set<ConsumerMove>, ended: bool) {
    forall k :: 0 <= k < |trace| ==> SanctionedSignal(trace[k], moves, ended)
  }

  lemma {:induction false} MovesAreSanctioned(own: seq<ConsumerMove>, moves: set<ConsumerMove>)
    requires forall m :: m in own ==> m in moves
    ensures Sanctioned(SignalsOf(own), moves, false)
  {
    forall k | 0 <= k < |own|
      ensures SanctionedSignal(SignalsOf(own)[k], moves, false)
    {
      assert own[k] in own;
    }
  }

  predicate AllIdle(ms: seq<Routed>) {
    forall i :: 0 <= i < |ms| ==> ms[i].gate.Idle?
  }

  lemma {:induction false} MovesKeepGates(ms: seq<Routed>, moves: seq<ConsumerMove>)
    ensures var r := DispatchAll(ms, SignalsOf(moves));
            forall i :: 0 <= i < |ms| ==>
              && r[i].gate == ms[i].gate && r[i].m.delivery == ms[i].m.delivery
              && (r[i].m.life.outcome == ms[i].m.life.outcome || r[i].m.life.outcome == Some(CANCELLED))
    decreases |moves|
  {
    if |moves| > 0 {
      var shorter := moves[..|moves| - 1];
      MovesKeepGates(ms, shorter);
      SignalsAppend(moves);
    }
  }

  predicate AnyFailed(ms: seq<Routed>) {
    exists i :: 0 <= i < |ms| && HasFailed(ms[i].m.life)
  }

  method LetConsumersMove(ghost ms0: seq<Routed>, ms: seq<Routed>, trace: seq<Signal>, moves: seq<ConsumerMove>)
    returns (ms': seq<Routed>, trace': seq<Signal>)
    requires ms == DispatchAll(ms0, trace)
    ensures trace' == trace + SignalsOf(moves) && ms' == DispatchAll(ms0, trace') && |ms'| == |ms|
    ensures ms' == DispatchAll(ms, SignalsOf(moves))
    ensures TakenAll(ms0, trace') == TakenAll(ms0, trace) && Yielded(trace') == Yielded(trace)
    ensures forall i :: 0 <= i < |ms| ==> ms'[i].gate == ms[i].gate && ms'[i].m.delivery == ms[i].m.delivery
  {
    ms', trace' := DispatchAll(ms, SignalsOf(moves)), trace + SignalsOf(moves);
    DispatchAppend(Step, ms0, trace, SignalsOf(moves));
    QuietTakesNothing(ms0, trace, SignalsOf(moves));
    QuietYieldsNothing(trace, SignalsOf(moves));
    MovesKeepGates(ms, moves);
  }

  /// `members.get_mut(index)` and its `is_open`.
  method BeginEvent(ghost ms0: seq<Routed>, ms: seq<Routed>, trace: seq<Signal>, index: nat, event: Event,
                    ghost moves: set<ConsumerMove>)
    returns (ms': seq<Routed>, trace': seq<Signal>)
    requires ms == DispatchAll(ms0, trace) && AllIdle(ms) && Sanctioned(trace, moves, false)
    ensures Sanctioned(trace', moves, false)
    ensures index < |ms| ==> OnlyOneInHand(ms, ms', index)
    ensures trace' == trace + [To(index, Begin(event))] && ms' == DispatchAll(ms0, trace')
    ensures TakenAll(ms0, trace') == TakenAll(ms0, trace) + [Tagged(index, event)]
    ensures ms' == if index < |ms| then ms[index := Step(ms[index], Begin(event))] else ms
    ensures Yielded(trace') == Yielded(trace)
  {
    QuietYieldsNothing(trace, [To(index, Begin(event))]);
    ms', trace' := Dispatch(Step, ms, To(index, Begin(event))), trace + [To(index, Begin(event))];
    TakenAppend(ms0, trace, To(index, Begin(event)));
  }

  /// Only member `index` can have an event in hand, and nobody got its sending half back.
  ghost predicate OnlyOneInHand(ms: seq<Routed>, ms': seq<Routed>, index: nat) {
    && |ms'| == |ms|
    && (forall i :: 0 <= i < |ms'| && i != index ==> ms'[i].gate.Idle?)
    && (forall i :: 0 <= i < |ms| && !ms[i].m.delivery ==> !ms'[i].m.delivery)
  }

  method AdvanceEvent(ghost ms0: seq<Routed>, ghost base: seq<Routed>, ms: seq<Routed>, trace: seq<Signal>, index: nat,
                      ghost moves: set<ConsumerMove>)
    returns (ms': seq<Routed>, trace': seq<Signal>)
    requires ms == DispatchAll(ms0, trace) && index < |ms| && OnlyOneInHand(base, ms, index)
    requires Sanctioned(trace, moves, false)
    ensures trace' == trace + [To(index, Advance)] && ms' == DispatchAll(ms0, trace')
    ensures Sanctioned(trace', moves, false)
    ensures TakenAll(ms0, trace') == TakenAll(ms0, trace) && Yielded(trace') == Yielded(trace)
    ensures OnlyOneInHand(base, ms', index) && ms'[index] == AdvanceStep(ms[index])
  {
    QuietYieldsNothing(trace, [To(index, Advance)]);
    ms', trace' := ms[index := AdvanceStep(ms[index])], trace + [To(index, Advance)];
    TakenAppend(ms0, trace, To(index, Advance));
  }

  /// Consumers move, and then the loop takes its next step on the event in hand.
  method Proceed(ghost ms0: seq<Routed>, ghost base: seq<Routed>, ms: seq<Routed>, trace: seq<Signal>,
                 own: seq<ConsumerMove>, index: nat, ghost moves: set<ConsumerMove>)
    returns (ms': seq<Routed>, trace': seq<Signal>)
    requires ms == DispatchAll(ms0, trace) && index < |ms| && OnlyOneInHand(base, ms, index)
    requires Sanctioned(trace, moves, false) && forall m :: m in own ==> m in moves
    ensures trace' == trace + SignalsOf(own) + [To(index, Advance)]
    ensures ms' == DispatchAll(ms0, trace') && Sanctioned(trace', moves, false)
    ensures TakenAll(ms0, trace') == TakenAll(ms0, trace) && Yielded(trace') == Yielded(trace)
    ensures OnlyOneInHand(base, ms', index)
    ensures ms'[index].gate.Idle? || (ms[index].gate.Checked? && ms'[index].gate.Ready?)
  {
    MovesAreSanctioned(own, moves);
    ms', trace' := LetConsumersMove(ms0, ms, trace, own);
    assert Sanctioned(trace', moves, false);
    ms', trace' := AdvanceEvent(ms0, base, ms', trace', index, moves);
  }

  /// The signals of one event from its check on: consumers move, the loop looks again; and if the member is
  /// still open, they move once more and the channel is asked.
  ghost predicate IsFinished(ms0: seq<Routed>, trace: seq<Signal>, index: nat, tick: Tick, trace': seq<Signal>) {
    if index >= |ms0| || !DispatchAll(ms0, trace)[index].gate.Checked? then trace' == trace
    else
      var again := trace + SignalsOf(tick.afterCheck) + [To(index, Advance)];
      if !DispatchAll(ms0, again)[index].gate.Ready? then trace' == again
      else trace' == again + SignalsOf(tick.afterRecheck) + [To(index, Advance)]
  }

  /// From the check to the end of the event.
  method FinishEvent(ghost ms0: seq<Routed>, ghost base: seq<Routed>, ms: seq<Routed>, trace: seq<Signal>, index: nat,
                     tick: Tick, ghost moves: set<ConsumerMove>)
    returns (ms': seq<Routed>, trace': seq<Signal>)
    requires ms == DispatchAll(ms0, trace) && index < |ms| && OnlyOneInHand(base, ms, index) && !ms[index].gate.Ready?
    requires Sanctioned(trace, moves, false) && TickMoves(tick) <= moves
    ensures trace <= trace' && ms' == DispatchAll(ms0, trace') && Sanctioned(trace', moves, false)
    ensures IsFinished(ms0, trace, index, tick, trace')
    ensures TakenAll(ms0, trace') == TakenAll(ms0, trace) && Yielded(trace') == Yielded(trace)
    ensures OnlyOneInHand(base, ms', index) && ms'[index].gate.Idle?
  {
    ms', trace' := ms, trace;
    if ms'[index].gate.Checked? {
      ms', trace' := Proceed(ms0, base, ms', trace', tick.afterCheck, index, moves);
      if ms'[index].gate.Ready? {
        ms', trace' := Proceed(ms0, base, ms', trace', tick.afterRecheck, index, moves);
      }
    }
  }

  /// Routes one event: `is_open`, then `try_send`'s own check, then the channel, with consumers moving
  /// in between.
  method RouteEvent(ghost ms0: seq<Routed>, ms: seq<Routed>, trace: seq<Signal>, index: nat, event: Event, tick: Tick,
                    ghost moves: set<ConsumerMove>)
    returns (ms': seq<Routed>, trace': seq<Signal>)
    requires ms == DispatchAll(ms0, trace) && AllIdle(ms)
    requires Sanctioned(trace, moves, false) && TickMoves(tick) <= moves
    ensures IsFinished(ms0, trace + [To(index, Begin(event))], index, tick, trace')
    ensures trace + [To(index, Begin(event))] <= trace' && ms' == DispatchAll(ms0, trace') && |ms'| == |ms|
    ensures TakenAll(ms0, trace') == TakenAll(ms0, trace) + [Tagged(index, event)]
    ensures AllIdle(ms') && Sanctioned(trace', moves, false) && Yielded(trace') == Yielded(trace)
    ensures forall i :: 0 <= i < |ms| && !ms[i].m.delivery ==> !ms'[i].m.delivery
  {
    ms', trace' := BeginEvent(ms0, ms, trace, index, event, moves);
    if index < |ms'| {
      ms', trace' := FinishEvent(ms0, ms, ms', trace', index, tick, moves);
    }
  }

  /// The signals of the producer's end for the first `n` members, with the consumers moving in between.
  function EndSignals(n: nat, atEnd: seq<seq<ConsumerMove>>): (s: seq<Signal>)
    ensures forall k :: 0 <= k < |s| ==> !s[k].act.Begin? && !s[k].act.ClosureYield?
  {
    if n == 0 then []
    else EndSignals(n - 1, atEnd) + SignalsOf(MovesAt(atEnd, n - 1)) + [To(n - 1, ProducerEnd)]
  }

  lemma {:induction false} EndSignalsMore(trace: seq<Signal>, n: nat, atEnd: seq<seq<ConsumerMove>>)
    ensures trace + EndSignals(n + 1, atEnd)
         == (trace + EndSignals(n, atEnd)) + SignalsOf(MovesAt(atEnd, n)) + [To(n, ProducerEnd)]
    ensures trace + EndSignals(0, atEnd) == trace
  {
  }

  lemma {:induction false} EndIsSanctioned(trace: seq<Signal>, n: nat, atEnd: seq<seq<ConsumerMove>>,
                                              moves: set<ConsumerMove>)
    requires Sanctioned(trace, moves, false) && MovesOf(atEnd) <= moves
    ensures Sanctioned(trace + EndSignals(n, atEnd), moves, true)
  {
    if n == 0 {
      assert trace + EndSignals(0, atEnd) == trace;
    } else {
      var own := MovesAt(atEnd, n - 1);
      EndSignalsMore(trace, n - 1, atEnd);
      EndIsSanctioned(trace, n - 1, atEnd, moves);
      MovesAreSanctioned(own, moves);
      SanctionedAppend(trace + EndSignals(n - 1, atEnd), SignalsOf(own), moves);
      SanctionedAppend(trace + EndSignals(n - 1, atEnd) + SignalsOf(own), [To(n - 1, ProducerEnd)], moves);
    }
  }

  lemma {:induction false} SanctionedAppend(trace: seq<Signal>, more: seq<Signal>, moves: set<ConsumerMove>)
    requires Sanctioned(trace, moves, true) && Sanctioned(more, moves, true)
    ensures Sanctioned(trace + more, moves, true)
  {
  }

  /// Consumers move, and then one member is finished.
  method EndMember(ms: seq<Routed>, i: nat, own: seq<ConsumerMove>) returns (ms': seq<Routed>)
    requires i < |ms| && AllIdle(ms)
    ensures ms' == DispatchAll(ms, SignalsOf(own) + [To(i, ProducerEnd)]) && |ms'| == |ms| && AllIdle(ms')
    ensures !ms'[i].m.delivery && forall k :: 0 <= k < |ms| && !ms[k].m.delivery ==> !ms'[k].m.delivery
  {
    ms' := DispatchAll(ms, SignalsOf(own));
    MovesKeepGates(ms, own);
    ms' := ms'[i := Routed(Finish(ms'[i].m, Ok(())), ms'[i].gate)];
    assert (SignalsOf(own) + [To(i, ProducerEnd)])[..|own|] == SignalsOf(own);
  }

  /// The body of the loop below.
  method EndNext(ghost ms0: seq<Routed>, ms: seq<Routed>, ghost trace0: seq<Signal>, trace: seq<Signal>, i: nat,
                 atEnd: seq<seq<ConsumerMove>>)
    returns (ms': seq<Routed>, trace': seq<Signal>)
    requires ms == DispatchAll(ms0, trace) && EndedUpTo(ms, i) && i < |ms| && trace == trace0 + EndSignals(i, atEnd)
    ensures ms' == DispatchAll(ms0, trace') && EndedUpTo(ms', i + 1) && |ms'| == |ms|
    ensures trace' == trace0 + EndSignals(i + 1, atEnd)
  {
    var own := MovesAt(atEnd, i);
    EndSignalsMore(trace0, i, atEnd);
    DispatchAppend(Step, ms0, trace, SignalsOf(own) + [To(i, ProducerEnd)]);
    ms' := EndMember(ms, i, own);
    trace' := trace + (SignalsOf(own) + [To(i, ProducerEnd)]);
  }

  ghost predicate EndedUpTo(ms: seq<Routed>, n: nat) {
    AllIdle(ms) && forall k :: 0 <= k < |ms| && k < n ==> !ms[k].m.delivery
  }

  /// `finish` for one member after the other.
  method EndAll(ghost ms0: seq<Routed>, ms: seq<Routed>, trace: seq<Signal>, atEnd: seq<seq<ConsumerMove>>)
    returns (ms': seq<Routed>, trace': seq<Signal>)
    requires ms == DispatchAll(ms0, trace) && AllIdle(ms)
    ensures trace' == trace + EndSignals(|ms|, atEnd) && ms' == DispatchAll(ms0, trace')
    ensures |ms'| == |ms| && EndedUpTo(ms', |ms|)
  {
    ms', trace' := ms, trace;
    var i := 0;
    while i < |ms'|
      invariant 0 <= i <= |ms'| == |ms| && EndedUpTo(ms', i) && ms' == DispatchAll(ms0, trace')
      invariant trace' == trace + EndSignals(i, atEnd)
    {
      ms', trace' := EndNext(ms0, ms', trace, trace', i, atEnd);
      i := i + 1;
    }
  }

  /// The producer ends: every member is finished.
  method EndProducer(ghost ms0: seq<Routed>, ms: seq<Routed>, trace: seq<Signal>, atEnd: seq<seq<ConsumerMove>>,
                     ghost moves: set<ConsumerMove>)
    returns (ms': seq<Routed>, trace': seq<Signal>)
    requires ms == DispatchAll(ms0, trace) && AllIdle(ms)
    requires Sanctioned(trace, moves, false) && MovesOf(atEnd) <= moves
    ensures trace' == trace + EndSignals(|ms|, atEnd) && ms' == DispatchAll(ms0, trace')
    ensures Sanctioned(trace', moves, true) && TakenAll(ms0, trace') == TakenAll(ms0, trace)
    ensures Yielded(trace') == Yielded(trace)
    ensures |ms'| == |ms| && AllIdle(ms') && forall i :: 0 <= i < |ms'| ==> !ms'[i].m.delivery
  {
    ms', trace' := EndAll(ms0, ms, trace, atEnd);
    EndIsSanctioned(trace, |ms|, atEnd, moves);
    QuietTakesNothing(ms0, trace, EndSignals(|ms|, atEnd));
    QuietYieldsNothing(trace, EndSignals(|ms|, atEnd));
  }

  /// What the loop keeps: the members are where the trace leads, no event is in hand, and the closures
  /// still to be yielded are, with those that the trace has yielded, one for each member; among them are
  /// those of all members that still have their sending half.
  ghost predicate LoopOk(start: seq<Routed>, ms: seq<Routed>, trace: seq<Signal>, waiting: set<nat>,
                         moves: set<ConsumerMove>, ended: bool) {
    && Sanctioned(trace, moves, ended)
    && ms == DispatchAll(start, trace) && AllIdle(ms)
    && waiting !! Yielded(trace) && |waiting| + |Yielded(trace)| == |ms|
    && (forall i :: i in waiting ==> i < |ms|)
    && (forall i :: 0 <= i < |ms| && i !in waiting ==> !ms[i].m.delivery)
  }

  /// How a round left the loop. `Dry` is `closures.next()` answering `None`.
  datatype Round = ClosureYielded | Dry | EventRouted | Slept | ProducerEnded | Unwound

  /// `closures.next()` yields `index`.
  method YieldClosure(ghost start: seq<Routed>, ms: seq<Routed>, trace: seq<Signal>, ghost waiting: set<nat>,
                      ghost moves: set<ConsumerMove>, index: nat)
    returns (ms': seq<Routed>, trace': seq<Signal>)
    requires LoopOk(start, ms, trace, waiting, moves, false) && index in waiting && ms[index].m.life.closed
    ensures trace' == trace + [To(index, ClosureYield)] && |ms'| == |ms| && !ms'[index].m.delivery
    ensures LoopOk(start, ms', trace', waiting - {index}, moves, false)
    ensures TakenAll(start, trace') == TakenAll(start, trace)
  {
    ms', trace' := ms[index := Step(ms[index], ClosureYield)], trace + [To(index, ClosureYield)];
    TakenAppend(start, trace, To(index, ClosureYield));
    YieldOneMore(trace, index);
    RemoveOne(waiting, index);
  }

  /// The closures' arm of `select_biased!`.
  method PollClosures(ghost start: seq<Routed>, ms: seq<Routed>, trace: seq<Signal>, waiting: set<nat>,
                      noticed: set<nat>, ghost moves: set<ConsumerMove>)
    returns (yielded: bool, ms': seq<Routed>, trace': seq<Signal>, waiting': set<nat>)
    requires LoopOk(start, ms, trace, waiting, moves, false)
    ensures trace <= trace' && |ms'| == |ms| && LoopOk(start, ms', trace', waiting', moves, false)
    ensures TakenAll(start, trace') == TakenAll(start, trace)
    ensures yielded <==> exists i :: i in waiting && IsReady(ms[i].m, i in noticed)
    ensures (exists i :: i in waiting && ms[i].m.life.closed && ms[i].m.announced) ==> yielded
    ensures yielded ==> exists i :: i in waiting && i !in waiting' && ms[i].m.life.closed
    ensures if yielded then |waiting'| == |waiting| - 1 else ms' == ms && trace' == trace && waiting' == waiting
  {
    yielded, ms', trace', waiting' := false, ms, trace, waiting;
    var ready := ReadyClosure(waiting, (i: nat) => i < |ms| && IsReady(ms[i].m, i in noticed));
    if ready.Some? {
      ms', trace' := YieldClosure(start, ms, trace, waiting, moves, ready.value);
      RemoveOne(waiting, ready.value);
      yielded, waiting' := true, waiting - {ready.value};
    }
  }

  /// Consumers move while the loop goes on.
  method MoveInLoop(ghost start: seq<Routed>, ms: seq<Routed>, trace: seq<Signal>, ghost waiting: set<nat>,
                    own: seq<ConsumerMove>, ghost moves: set<ConsumerMove>)
    returns (ms': seq<Routed>, trace': seq<Signal>)
    requires LoopOk(start, ms, trace, waiting, moves, false) && forall m :: m in own ==> m in moves
    ensures trace' == trace + SignalsOf(own) && |ms'| == |ms| && LoopOk(start, ms', trace', waiting, moves, false)
    ensures ms' == DispatchAll(ms, SignalsOf(own)) && TakenAll(start, trace') == TakenAll(start, trace)
  {
    MovesAreSanctioned(own, moves);
    ms', trace' := LetConsumersMove(start, ms, trace, own);
    assert Sanctioned(trace', moves, false);
  }

  /// The producer gave an event.
  method TakeEvent(ghost start: seq<Routed>, ms: seq<Routed>, trace: seq<Signal>, ghost waiting: set<nat>,
                   next: Tagged, tick: Tick, ghost moves: set<ConsumerMove>)
    returns (ms': seq<Routed>, trace': seq<Signal>)
    requires LoopOk(start, ms, trace, waiting, moves, false) && TickMoves(tick) <= moves
    ensures |ms'| == |ms| && LoopOk(start, ms', trace', waiting, moves, false)
    ensures TakenAll(start, trace') == TakenAll(start, trace) + [next]
    ensures trace + SignalsOf(tick.afterPoll) + [To(next.index, Begin(next.event))] <= trace'
  {
    ms', trace' := MoveInLoop(start, ms, trace, waiting, tick.afterPoll, moves);
    ms', trace' := RouteEvent(start, ms', trace', next.index, next.event, tick, moves);
    assert next == Tagged(next.index, next.event);
  }

  /// The producer has ended.
  method TakeEnd(ghost start: seq<Routed>, ms: seq<Routed>, trace: seq<Signal>, ghost waiting: set<nat>,
                 tick: Tick, ghost moves: set<ConsumerMove>)
    returns (ms': seq<Routed>, trace': seq<Signal>)
    requires LoopOk(start, ms, trace, waiting, moves, false) && TickMoves(tick) <= moves
    ensures trace' == trace + SignalsOf(tick.afterPoll) + EndSignals(|ms|, tick.atEnd)
    ensures |ms'| == |ms| && LoopOk(start, ms', trace', waiting, moves, true)
    ensures TakenAll(start, trace') == TakenAll(start, trace)
    ensures forall i :: 0 <= i < |ms'| ==> !ms'[i].m.delivery
  {
    ms', trace' := MoveInLoop(start, ms, trace, waiting, tick.afterPoll, moves);
    ms', trace' := EndProducer(start, ms', trace', tick.atEnd, moves);
  }

  /// A round that polls the producer does what its answer calls for: nothing if it is not ready, one event
  /// if it has one, the end if it has none left, and a panic goes on.
  predicate IsServed(round: Round, poll: Poll, nothingLeft: bool) {
    match poll
    case NotReady => round.Slept?
    case Next => if nothingLeft then round.ProducerEnded? else round.EventRouted?
    case Panics => round.Unwound?
  }

  /// The producer's arm of `select_biased!`; `left` is what its stream has not given yet.
  method PollProducer(ghost start: seq<Routed>, ms: seq<Routed>, trace: seq<Signal>, ghost waiting: set<nat>,
                      left: seq<Tagged>, tick: Tick, ghost moves: set<ConsumerMove>)
    returns (round: Round, ms': seq<Routed>, trace': seq<Signal>)
    requires LoopOk(start, ms, trace, waiting, moves, false) && TickMoves(tick) <= moves
    ensures trace <= trace' && |ms'| == |ms| && LoopOk(start, ms', trace', waiting, moves, round.ProducerEnded?)
    ensures IsServed(round, tick.poll, left == [])
    ensures TakenAll(start, trace') == TakenAll(start, trace) + (if round.EventRouted? then [left[0]] else [])
    ensures round.ProducerEnded? ==> left == [] && forall i :: 0 <= i < |ms'| ==> !ms'[i].m.delivery
  {
    ms', trace' := ms, trace;
    match tick.poll {
      case NotReady => round := Slept;
      case Panics => round := Unwound;
      case Next =>
        if |left| > 0 {
          ms', trace' := TakeEvent(start, ms, trace, waiting, left[0], tick, moves);
          round := EventRouted;
        } else {
          ms', trace' := TakeEnd(start, ms, trace, waiting, tick, moves);
          round := ProducerEnded;
        }
    }
  }

  /// One pass through `select_biased!`: closures first, and the producer only when no closure is ready.
  method SelectBiased(ghost start: seq<Routed>, ms: seq<Routed>, trace: seq<Signal>, waiting: set<nat>,
                      left: seq<Tagged>, tick: Tick, ghost moves: set<ConsumerMove>)
    returns (round: Round, ms': seq<Routed>, trace': seq<Signal>, waiting': set<nat>)
    requires LoopOk(start, ms, trace, waiting, moves, false) && TickMoves(tick) <= moves
    ensures trace <= trace' && |ms'| == |ms| && LoopOk(start, ms', trace', waiting', moves, round.ProducerEnded?)
    ensures var seen := DispatchAll(ms, SignalsOf(tick.before));
            round.ClosureYielded? <==> exists i :: i in waiting && i < |ms| && IsReady(seen[i].m, i in tick.noticed)
    ensures |waiting'| == if round.ClosureYielded? then |waiting| - 1 else |waiting|
    ensures round.Dry? <==> waiting == {}
    ensures !round.ClosureYielded? && !round.Dry? ==> IsServed(round, tick.poll, left == [])
    ensures round.EventRouted? ==> |left| > 0
    ensures TakenAll(start, trace') == TakenAll(start, trace) + (if round.EventRouted? then [left[0]] else [])
    ensures round.ProducerEnded? ==> left == [] && forall i :: 0 <= i < |ms'| ==> !ms'[i].m.delivery
  {
    var yielded;
    ms', trace' := MoveInLoop(start, ms, trace, waiting, tick.before, moves);
    assert trace <= trace';
    yielded, ms', trace', waiting' := PollClosures(start, ms', trace', waiting, tick.noticed, moves);
    assert trace <= trace';
    if yielded {
      round := ClosureYielded;
    } else if waiting == {} {
      round := Dry;
    } else {
      round, ms', trace' := PollProducer(start, ms', trace', waiting, left, tick, moves);
    }
  }

  /// A batch of fresh members whose consumers have already made the moves `earlier`.
  method StartBatch(capacities: seq<nat>, earlier: seq<ConsumerMove>, ghost moves: set<ConsumerMove>)
    returns (ms: seq<Routed>, trace: seq<Signal>)
    requires forall m :: m in earlier ==> m in moves
    ensures trace == SignalsOf(earlier) && TakenAll(NewBatch(capacities), trace) == []
    ensures |ms| == |capacities| && LoopOk(NewBatch(capacities), ms, trace, Indices(|ms|), moves, false)
    ensures forall i :: 0 <= i < |ms| ==> ms[i].m.life.outcome.None? || ms[i].m.life.outcome.value == CANCELLED
  {
    trace := SignalsOf(earlier);
    ms := DispatchAll(NewBatch(capacities), trace);
    MovesKeepGates(NewBatch(capacities), earlier);
    QuietTakesNothing(NewBatch(capacities), [], SignalsOf(earlier));
    MovesAreSanctioned(earlier, moves);
    assert [] + SignalsOf(earlier) == trace;
  }

  /// The events taken are the first `taken` ones produced, and nothing in the trace acts for a consumer
  /// or ends the producer before its end.
  ghost predicate TraceOk(capacities: seq<nat>, earlier: seq<ConsumerMove>, produced: seq<Tagged>, ticks: seq<Tick>,
                          trace: seq<Signal>, taken: nat) {
    && SignalsOf(earlier) <= trace
    && taken <= |produced| && TakenAll(NewBatch(capacities), trace) == produced[..taken]
    && Sanctioned(trace, AllMoves(earlier, ticks), taken == |produced|)
  }

  /// Before the loop starts nothing has been taken.
  lemma {:induction false} NothingTaken(capacities: seq<nat>, earlier: seq<ConsumerMove>, produced: seq<Tagged>,
                                        ticks: seq<Tick>, trace: seq<Signal>)
    requires trace == SignalsOf(earlier) && TakenAll(NewBatch(capacities), trace) == []
    ensures TraceOk(capacities, earlier, produced, ticks, trace, 0)
  {
    var moves := AllMoves(earlier, ticks);
    MovesAreSanctioned(earlier, moves);
  }

  predicate SomePollPanics(ticks: seq<Tick>) {
    exists t :: 0 <= t < |ticks| && ticks[t].poll.Panics?
  }

  /// `pauses` says how many events had been taken at each pause: before the first one, between any two
  /// and since the last one there are no more than 64.
  predicate WithinBudget(pauses: seq<nat>, taken: nat) {
    && (forall i :: 0 <= i < |pauses| ==> 0 <= pauses[i] - LastPause(pauses, i) <= 64)
    && 0 <= taken - LastPause(pauses, |pauses|) <= 64
  }

  /// Events taken at the last of the first `n` pauses.
  function LastPause(pauses: seq<nat>, n: nat): nat
    requires n <= |pauses|
  {
    if n == 0 then 0 else pauses[n - 1]
  }

  /// As `WithinBudget`, with the rounds since the last pause counted.
  predicate Paced(pauses: seq<nat>, taken: nat, routed: nat) {
    WithinBudget(pauses, taken) && taken - LastPause(pauses, |pauses|) <= routed <= ROUTE_BUDGET
  }

  lemma {:induction false} PauseNow(pauses: seq<nat>, taken: nat, routed: nat)
    requires Paced(pauses, taken, routed)
    ensures Paced(pauses + [taken], taken, 0)
  {
    var longer := pauses + [taken];
    forall i | 0 <= i < |longer|
      ensures 0 <= longer[i] - LastPause(longer, i) <= ROUTE_BUDGET
    {
      assert LastPause(longer, i) == LastPause(pauses, i);
      assert i < |pauses| ==> longer[i] == pauses[i];
    }
  }

  /// The events taken are the first `taken` ones produced.
  ghost predicate TookFirst(start: seq<Routed>, trace: seq<Signal>, produced: seq<Tagged>, taken: nat) {
    taken <= |produced| && TakenAll(start, trace) == produced[..taken]
  }

  lemma {:induction false} TakeOneMore(produced: seq<Tagged>, taken: nat)
    requires taken <= |produced|
    ensures produced[..taken] + [] == produced[..taken]
    ensures taken < |produced| ==> produced[..taken] + [produced[taken..][0]] == produced[..taken + 1]
  {
  }

  /// The body of the loop: a pause if the budget is used up, and then one round.
  method RunRound(ghost start: seq<Routed>, ms: seq<Routed>, trace: seq<Signal>, waiting: set<nat>,
                  produced: seq<Tagged>, taken: nat, pauses: seq<nat>, routed: nat, tick: Tick,
                  ghost moves: set<ConsumerMove>)
    returns (round: Round, ms': seq<Routed>, trace': seq<Signal>, waiting': set<nat>, taken': nat, pauses': seq<nat>,
             routed': nat)
    requires LoopOk(start, ms, trace, waiting, moves, false) && waiting != {} && TickMoves(tick) <= moves
    requires TookFirst(start, trace, produced, taken) && Paced(pauses, taken, routed)
    ensures trace <= trace' && |ms'| == |ms| && LoopOk(start, ms', trace', waiting', moves, round.ProducerEnded?)
    ensures |waiting'| == if round.ClosureYielded? then |waiting| - 1 else |waiting|
    ensures TookFirst(start, trace', produced, taken') && Paced(pauses', taken', routed')
    ensures !round.ClosureYielded? ==> IsServed(round, tick.poll, taken == |produced|)
    ensures round.ProducerEnded? ==> taken' == |produced| && forall i :: 0 <= i < |ms'| ==> !ms'[i].m.delivery
    ensures taken' == if round.EventRouted? then taken + 1 else taken
    ensures pauses' == if routed == ROUTE_BUDGET then pauses + [taken] else pauses
  {
    taken', pauses', routed' := taken, pauses, routed;
    if routed == ROUTE_BUDGET {
      PauseNow(pauses, taken, routed);
      pauses' := pauses + [taken];
      routed' := 0;
    }
    round, ms', trace', waiting' := SelectBiased(start, ms, trace, waiting, produced[taken..], tick, moves);
    TakeOneMore(produced, taken);
    if round.EventRouted? {
      taken' := taken + 1;
    }
    if round.EventRouted? || round.ClosureYielded? {
      routed' := routed' + 1;
    }
  }

  /// How many ticks there are in which the producer, if it is polled, has something to give, or panics.
  function Answers(ticks: seq<Tick>, panics: bool): nat {
    if |ticks| == 0 then 0
    else
      var poll := ticks[|ticks| - 1].poll;
      Answers(ticks[..|ticks| - 1], panics) + (if (if panics then poll.Panics? else poll.Next?) then 1 else 0)
  }

  lemma {:induction false} OneAnswerMore(ticks: seq<Tick>, t: nat, panics: bool)
    requires t < |ticks|
    ensures var counts := if panics then ticks[t].poll.Panics? else ticks[t].poll.Next?;
            Answers(ticks[..t + 1], panics) == Answers(ticks[..t], panics) + (if counts then 1 else 0)
  {
    assert ticks[..t + 1][..t] == ticks[..t];
  }

  /// Every answer of the producer in these ticks has been taken, and no panic passed over, but for those in
  /// ticks that went to a closure.
  predicate AllServed(ticks: seq<Tick>, taken: nat, yielded: nat) {
    Answers(ticks, false) + Answers(ticks, true) <= taken + yielded && Answers(ticks, true) <= yielded
  }

  /// A round that does not end the loop accounts for its tick.
  lemma {:induction false} OneTickServed(ticks: seq<Tick>, used: nat, round: Round, left: nat, taken: nat, yielded: nat)
    requires used < |ticks| && AllServed(ticks[..used], taken, yielded)
    requires !EndsTheLoop(round) && (round.ClosureYielded? || IsServed(round, ticks[used].poll, left == 0))
    ensures AllServed(ticks[..used + 1], if round.EventRouted? then taken + 1 else taken,
                      if round.ClosureYielded? then yielded + 1 else yielded)
  {
    OneAnswerMore(ticks, used, false);
    OneAnswerMore(ticks, used, true);
  }

  /// How the loop was left.
  datatype Leaving = Done | PanicEscaped | NotYet

  /// Why the loop was left after the first `used` ticks: all closures have been yielded, or the producer has
  /// given its last event and then its end; or it has panicked; or no tick is left and neither has happened.
  predicate LeftAs(leaving: Leaving, ticks: seq<Tick>, used: nat, produced: seq<Tagged>, taken: nat, members: nat,
                   yielded: nat) {
    && used <= |ticks| && yielded <= members
    && match leaving
       case NotYet => used == |ticks| && yielded < members && AllServed(ticks, taken, yielded)
       case PanicEscaped =>
         used > 0 && ticks[used - 1].poll.Panics? && AllServed(ticks[..used - 1], taken, yielded)
       case Done =>
         || (yielded == members && AllServed(ticks[..used], taken, yielded))
         || (used > 0 && ticks[used - 1].poll.Next? && taken == |produced|
             && AllServed(ticks[..used - 1], taken, yielded))
  }

  function LeavingOf(exit: Exit): Leaving {
    match exit
    case Returned(_) => Done
    case Panicked => PanicEscaped
    case StillRunning => NotYet
  }

  predicate EndsTheLoop(round: Round) {
    round.ProducerEnded? || round.Unwound?
  }

  /// One tick of the loop, accounted for unless it is the last.
  method ServeTick(ghost start: seq<Routed>, ms: seq<Routed>, trace: seq<Signal>, waiting: set<nat>,
                   produced: seq<Tagged>, taken: nat, pauses: seq<nat>, routed: nat, ticks: seq<Tick>, used: nat,
                   ghost moves: set<ConsumerMove>)
    returns (round: Round, ms': seq<Routed>, trace': seq<Signal>, waiting': set<nat>, taken': nat, pauses': seq<nat>,
             routed': nat)
    requires used < |ticks| && TickMoves(ticks[used]) <= moves && AllServed(ticks[..used], taken, |Yielded(trace)|)
    requires LoopOk(start, ms, trace, waiting, moves, false) && waiting != {}
    requires TookFirst(start, trace, produced, taken) && Paced(pauses, taken, routed)
    ensures trace <= trace' && |ms'| == |ms| && LoopOk(start, ms', trace', waiting', moves, round.ProducerEnded?)
    ensures |waiting'| == (if round.ClosureYielded? then |waiting| - 1 else |waiting|) && !round.Dry?
    ensures TookFirst(start, trace', produced, taken') && Paced(pauses', taken', routed')
    ensures !EndsTheLoop(round) ==> AllServed(ticks[..used + 1], taken', |Yielded(trace')|)
    ensures EndsTheLoop(round) ==>
              LeftAs(if round.Unwound? then PanicEscaped else Done, ticks, used + 1, produced, taken', |ms|,
                     |Yielded(trace')|)
    ensures round.ProducerEnded? ==> taken' == |produced| && forall i :: 0 <= i < |ms'| ==> !ms'[i].m.delivery
  {
    round, ms', trace', waiting', taken', pauses', routed' :=
      RunRound(start, ms, trace, waiting, produced, taken, pauses, routed, ticks[used], moves);
    if !EndsTheLoop(round) {
      OneTickServed(ticks, used, round, |produced| - taken, taken, |Yielded(trace)|);
    }
  }

  lemma {:induction false} NothingPassedOver(ticks: seq<Tick>, used: nat, produced: seq<Tagged>, taken: nat,
                                             members: nat, remaining: nat, yielded: nat)
    requires used <= |ticks| && AllServed(ticks[..used], taken, yielded) && remaining + yielded == members
    ensures remaining == 0 ==> LeftAs(Done, ticks, used, produced, taken, members, yielded)
    ensures remaining > 0 && used == |ticks| ==> LeftAs(NotYet, ticks, used, produced, taken, members, yielded)
  {
    assert used == |ticks| ==> ticks[..used] == ticks;
  }

  /// The loop. Whenever it is done, no member has its sending half any more.
  method RouteAll(ghost start: seq<Routed>, ms0: seq<Routed>, trace0: seq<Signal>, produced: seq<Tagged>,
                  ticks: seq<Tick>, ghost moves: set<ConsumerMove>)
    returns (leaving: Leaving, ms: seq<Routed>, trace: seq<Signal>, taken: nat, pauses: seq<nat>, used: nat,
             ghost waiting: set<nat>, ghost ended: bool)
    requires LoopOk(start, ms0, trace0, Indices(|ms0|), moves, false) && TakenAll(start, trace0) == []
    requires forall t :: 0 <= t < |ticks| ==> TickMoves(ticks[t]) <= moves
    ensures trace0 <= trace && |ms| == |ms0| && LoopOk(start, ms, trace, waiting, moves, ended)
    ensures TookFirst(start, trace, produced, taken) && (ended ==> taken == |produced|)
    ensures leaving.Done? ==> forall i :: 0 <= i < |ms| ==> !ms[i].m.delivery
    ensures LeftAs(leaving, ticks, used, produced, taken, |ms0|, |Yielded(trace)|)
    ensures WithinBudget(pauses, taken)
  {
    ms, trace, taken, pauses, used := ms0, trace0, 0, [], 0;
    var left := Indices(|ms|);
    var remaining: nat := |ms|;
    var routed: nat := 0;
    waiting, ended := left, false;
    while remaining > 0
      invariant used <= |ticks| && Paced(pauses, taken, routed)
      invariant trace0 <= trace && |ms| == |ms0| && waiting == left && !ended
      invariant LoopOk(start, ms, trace, left, moves, false) && remaining == |left|
      invariant TookFirst(start, trace, produced, taken)
      invariant AllServed(ticks[..used], taken, |Yielded(trace)|)
      decreases |ticks| - used
    {
      if used == |ticks| {
        NothingPassedOver(ticks, used, produced, taken, |ms|, remaining, |Yielded(trace)|);
        leaving := NotYet;
        return;
      }
      var round;
      round, ms, trace, left, taken, pauses, routed :=
        ServeTick(start, ms, trace, left, produced, taken, pauses, routed, ticks, used, moves);
      used, waiting, ended := used + 1, left, round.ProducerEnded?;
      if EndsTheLoop(round) {
        leaving := if round.Unwound? then PanicEscaped else Done;
        return;
      }
      if round.ClosureYielded? {
        remaining := remaining - 1;
      }
    }
    NothingPassedOver(ticks, used, produced, taken, |ms|, remaining, |Yielded(trace)|);
    leaving := Done;
  }

  /// If the producer answers often enough and does not panic, the loop gets done.
  lemma {:induction false} EnoughAnswers(leaving: Leaving, ticks: seq<Tick>, used: nat, produced: seq<Tagged>,
                                         taken: nat, members: nat, yielded: nat)
    requires LeftAs(leaving, ticks, used, produced, taken, members, yielded) && taken <= |produced|
    ensures leaving.PanicEscaped? ==> SomePollPanics(ticks)
    ensures Answers(ticks, false) > |produced| + members && !SomePollPanics(ticks) ==> leaving.Done?
  {
  }

  /// The whole mode. `earlier` are the consumers' moves before it starts, `produced` is the producer's
  /// stream. Whenever it returns, every member has its outcome, and the status is `Failed` exactly when
  /// some outcome is an error; wherever it is, the members are where the trace of signals leads, and the
  /// events taken so far are the first ones produced.
  method RunMultiplexed(capacities: seq<nat>, earlier: seq<ConsumerMove>, produced: seq<Tagged>, ticks: seq<Tick>)
    returns (exit: Exit, ms: seq<Routed>, trace: seq<Signal>, taken: nat, pauses: seq<nat>, used: nat)
    requires forall i :: 0 <= i < |capacities| ==> capacities[i] >= 1
    ensures ms == DispatchAll(NewBatch(capacities), trace) && |ms| == |capacities|
    ensures TraceOk(capacities, earlier, produced, ticks, trace, taken)
    ensures exit.Returned? ==>
              AllIdle(ms) && forall i :: 0 <= i < |ms| ==> !ms[i].m.delivery && ms[i].m.life.outcome.Some?
    ensures exit.Returned? ==> exit.status == if AnyFailed(ms) then Failed else Completed
    ensures exit.Panicked? ==> SomePollPanics(ticks)
    ensures LeftAs(LeavingOf(exit), ticks, used, produced, taken, |capacities|, |Yielded(trace)|)
    ensures Answers(ticks, false) > |produced| + |capacities| && !SomePollPanics(ticks) ==> exit.Returned?
    ensures WithinBudget(pauses, taken)
  {
    ghost var moves := AllMoves(earlier, ticks);
    ms, trace := StartBatch(capacities, earlier, moves);
    taken, pauses, used := 0, [], 0;
    if |ms| == 0 {
      NothingPassedOver(ticks, 0, produced, 0, 0, 0, |Yielded(trace)|);
      return Exit.Returned(Completed), ms, trace, taken, pauses, used;
    }
    var leaving;
    ghost var waiting, ended;
    leaving, ms, trace, taken, pauses, used, waiting, ended :=
      RouteAll(NewBatch(capacities), ms, trace, produced, ticks, moves);
    EnoughAnswers(leaving, ticks, used, produced, taken, |capacities|, |Yielded(trace)|);
    match leaving {
      case NotYet => exit := StillRunning;
      case PanicEscaped => exit := Panicked;
      case Done =>
        SettledBatch(capacities, trace);
        exit := Exit.Returned(if AnyFailed(ms) then Failed else Completed);
    }
  }

  /// A member whose sending half is gone has its outcome.
  lemma {:induction false} SettledBatch(capacities: seq<nat>, trace: seq<Signal>)
    requires forall i :: 0 <= i < |capacities| ==> capacities[i] >= 1
    ensures var ms := DispatchAll(NewBatch(capacities), trace);
            forall i :: 0 <= i < |ms| && !ms[i].m.delivery ==> ms[i].m.life.outcome.Some?
  {
    BatchIsOk(capacities, trace);
  }

  /// A settled member is deaf to the producer: an event that was still to come when the loop returned
  /// could not have changed any member.
  lemma {:induction false} LateEventsChangeNothing(ms: seq<Routed>, late: seq<Signal>)
    requires forall i :: 0 <= i < |ms| ==> ms[i].gate.Idle? && !ms[i].m.delivery
    requires forall k :: 0 <= k < |late| ==> late[k].act.Begin? || late[k].act.Advance? || late[k].act.ProducerEnd?
    ensures DispatchAll(ms, late) == ms
    decreases |late|
  {
    if |late| > 0 {
      LateEventsChangeNothing(ms, late[..|late| - 1]);
    }
  }

  // ---------------------------------------------------------------- what each member got

  /// The marks of the events tagged `i`.
  function EventsFor(events: seq<Tagged>, i: nat): seq<Mark>
    decreases |events|
  {
    if |events| == 0 then []
    else
      var earlier := EventsFor(events[..|events| - 1], i);
      var last := events[|events| - 1];
      if last.index == i then earlier + [MarkOf(last.event)] else earlier
  }

  lemma {:induction false} EventsForAppend(events: seq<Tagged>, e: Tagged, i: nat)
    ensures EventsFor(events + [e], i) == EventsFor(events, i) + (if e.index == i then [MarkOf(e.event)] else [])
  {
    assert (events + [e])[..|events|] == events;
  }

  lemma {:induction false} TakenByOneMore(r: Routed, acts: seq<Act>, a: Act)
    ensures Taken(r, acts + [a]) == Taken(r, acts) + TakenBy(Routing.Run(r, acts), a)
  {
    assert (acts + [a])[..|acts|] == acts;
  }

  /// One signal is taken by the batch for member `i` exactly as the lone member takes it.
  lemma {:induction false} TakenStep(ms: seq<Routed>, events: seq<Tagged>, s: Signal, i: nat)
    requires i < |ms|
    ensures EventsFor(events + TakenAt(ms, s), i)
         == EventsFor(events, i) + (if s.index == i then TakenBy(ms[i], s.act) else [])
  {
    var added := TakenAt(ms, s);
    if |added| == 1 {
      assert added == [added[0]];
      EventsForAppend(events, added[0], i);
    } else {
      assert events + added == events;
    }
  }

  /// The batch took for member `i` what the lone member took on its part of the trace.
  lemma {:induction false} TakenProjects(start: seq<Routed>, trace: seq<Signal>, i: nat)
    requires i < |start|
    ensures EventsFor(TakenAll(start, trace), i) == Taken(start[i], Project(trace, i))
    decreases |trace|
  {
    if |trace| > 0 {
      var shorter := trace[..|trace| - 1];
      var s := trace[|trace| - 1];
      TakenProjects(start, shorter, i);
      RunsAlone(Step, start, shorter, i);
      TakenStep(DispatchAll(start, shorter), TakenAll(start, shorter), s, i);
      if s.index == i {
        TakenByOneMore(start[i], Project(shorter, i), s.act);
      }
    }
  }

  lemma {:induction false} ItemsOfPrefix(marks: seq<Mark>, k: nat)
    requires k <= |marks|
    ensures ItemsOf(marks[..k]) <= ItemsOf(marks)
    decreases |marks|
  {
    if k == |marks| {
      assert marks[..k] == marks;
    } else {
      ItemsOfPrefix(marks[..|marks| - 1], k);
      assert marks[..|marks| - 1][..k] == marks[..k];
    }
  }

  lemma {:induction false} ItemsAreProduced(marks: seq<Mark>)
    ensures ItemsOf(ProducerMarks(marks)) == ItemsOf(marks)
    decreases |marks|
  {
    if |marks| > 0 {
      ItemsAreProduced(marks[..|marks| - 1]);
      var earlier := ProducerMarks(marks[..|marks| - 1]);
      assert (earlier + [marks[|marks| - 1]])[..|earlier|] == earlier;
    }
  }

  /// Member isolation, from end to end. Wherever the loop has got to, what member `i`'s consumer has
  /// received is a prefix of the producer's items tagged `i`; if the consumer is still there, what was
  /// accepted for it is one too; and its items and its outcome are those that the reference computes
  /// from member `i`'s own part of the trace.
  lemma {:induction false} MemberGetsItsOwnItems(capacities: seq<nat>, trace: seq<Signal>, produced: seq<Tagged>,
                                                    taken: nat, i: nat)
    requires i < |capacities| && capacities[i] >= 1
    requires taken <= |produced| && TakenAll(NewBatch(capacities), trace) == produced[..taken]
    ensures var m := DispatchAll(NewBatch(capacities), trace)[i].m;
            var marks := History(NewRouted(capacities[i]), Project(trace, i));
            var items := ItemsOf(EventsFor(produced, i));
            && m.life.outcome == Owed(marks, capacities[i])
            && m.received <= OwedItems(marks, capacities[i]) <= items
            && (m.consumer.Attached? ==> m.accepted == OwedItems(marks, capacities[i]))
  {
    var start := NewBatch(capacities);
    var acts := Project(trace, i);
    var marks := History(NewRouted(capacities[i]), acts);
    RunsAlone(Step, start, trace, i);
    MemberGetsWhatItIsOwed(capacities[i], acts);
    MarksAreTheEvents(capacities[i], acts);
    TakenProjects(start, trace, i);
    var cut := CutOf(marks, capacities[i]);
    if cut.Some? {
      ItemsOfPrefix(marks, cut.value);
    }
    ItemsAreProduced(marks);
    var mine := EventsFor(produced[..taken], i);
    assert mine[..|ProducerMarks(marks)|] == ProducerMarks(marks);
    ItemsOfPrefix(mine, |ProducerMarks(marks)|);
    EventsForPrefix(produced, taken, i);
  }

  lemma {:induction false} EventsForPrefix(events: seq<Tagged>, k: nat, i: nat)
    requires k <= |events|
    ensures ItemsOf(EventsFor(events[..k], i)) <= ItemsOf(EventsFor(events, i))
    decreases |events|
  {
    if k == |events| {
      assert events[..k] == events;
    } else {
      var shorter := events[..|events| - 1];
      EventsForPrefix(shorter, k, i);
      assert shorter[..k] == events[..k];
      ItemsOfPrefix(EventsFor(events, i), |EventsFor(shorter, i)|);
      assert EventsFor(events, i)[..|EventsFor(shorter, i)|] == EventsFor(shorter, i);
    }
  }

  // ---------------------------------------------------------------- who can end a member's stream

  lemma {:induction false} OwnActsAreSanctioned(trace: seq<Signal>, moves: set<ConsumerMove>, ended: bool, i: nat)
    requires Sanctioned(trace, moves, ended)
    ensures forall k :: 0 <= k < |Project(trace, i)| ==> SanctionedSignal(To(i, Project(trace, i)[k]), moves, ended)
    decreases |trace|
  {
    if |trace| > 0 {
      OwnActsAreSanctioned(trace[..|trace| - 1], moves, ended, i);
    }
  }

  /// Departures leave their mark only where there was one...
  lemma {:induction false} DropsHaveCauses(capacity: nat, acts: seq<Act>)
    requires forall k :: 0 <= k < |acts| ==> !acts[k].DropHandle?
    ensures Routing.Run(NewRouted(capacity), acts).m.consumer.Attached?
    ensures forall k :: 0 <= k < |History(NewRouted(capacity), acts)| ==> !History(NewRouted(capacity), acts)[k].MDrop?
    decreases |acts|
  {
    if |acts| > 0 {
      DropsHaveCauses(capacity, acts[..|acts| - 1]);
      StaysAttached(Routing.Run(NewRouted(capacity), acts[..|acts| - 1]), acts[|acts| - 1]);
    }
  }

  lemma {:induction false} StaysAttached(r: Routed, a: Act)
    requires r.m.consumer.Attached? && !a.DropHandle?
    ensures Step(r, a).m.consumer.Attached?
    ensures forall k :: 0 <= k < |MarksOf(r, a)| ==> !MarksOf(r, a)[k].MDrop?
  {
  }

  /// ...and so does the producer's end.
  lemma {:induction false} EndsHaveCauses(capacity: nat, acts: seq<Act>)
    requires forall k :: 0 <= k < |acts| ==> !acts[k].ProducerEnd?
    ensures forall k :: 0 <= k < |History(NewRouted(capacity), acts)| ==> !History(NewRouted(capacity), acts)[k].MEnd?
    decreases |acts|
  {
    if |acts| > 0 {
      EndsHaveCauses(capacity, acts[..|acts| - 1]);
    }
  }

  /// A member whose consumer never drops its handle gets its outcome from its own producer events, or
  /// from the channel they overran, or from the producer's end once it has come: from no sibling, and
  /// not from the loop.
  lemma {:induction false} StayingConsumerGetsItsProducersVerdict(capacities: seq<nat>, trace: seq<Signal>,
                                                                     moves: set<ConsumerMove>, ended: bool, i: nat)
    requires i < |capacities| && capacities[i] >= 1
    requires Sanctioned(trace, moves, ended) && ConsumerMove(i, true) !in moves
    ensures var m := DispatchAll(NewBatch(capacities), trace)[i].m;
            var marks := History(NewRouted(capacities[i]), Project(trace, i));
            var cut := CutOf(marks, capacities[i]);
            && m.consumer.Attached?
            && (m.life.outcome.Some? <==> cut.Some?)
            && (cut.Some? ==>
                  || (marks[cut.value].MFinish? && m.life.outcome.value == marks[cut.value].outcome)
                  || (marks[cut.value].MItem? && Load(marks[..cut.value]) >= capacities[i]
                      && m.life.outcome.value == Err(ConsumerLag))
                  || (marks[cut.value].MEnd? && ended && m.life.outcome.value == Ok(())))
  {
    var acts := Project(trace, i);
    var marks := History(NewRouted(capacities[i]), acts);
    OwnActsAreSanctioned(trace, moves, ended, i);
    DropsHaveCauses(capacities[i], acts);
    if !ended {
      EndsHaveCauses(capacities[i], acts);
    }
    RunsAlone(Step, NewBatch(capacities), trace, i);
    MemberGetsWhatItIsOwed(capacities[i], acts);
    CutIsFirst(marks, capacities[i]);
  }
}
