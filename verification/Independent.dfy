/// The independent mode: one shared preparation raced against departures, then one future per member.

module IndependentMode {
  import opened Basics
  import opened Lifecycles
  import opened Isolation
  import opened StreamMembers

  // ---------------------------------------------------------------- one member's future

  /// Where `run_member` is. `Offered` is inside `send`, before its `is_open`; `Sending` is waiting for
  /// room in the channel.
  datatype Stage = Launching | Polling | Offered(x: Payload) | Sending(x: Payload) | Ended(failed: bool)

  /// `yielded` and `ending` are history variables: what the member's stream gave, and what `finish` was
  /// called with when the stream itself, or the preparation, came to an end.
  datatype Solo = Solo(m: Member, stage: Stage, yielded: seq<Payload>, ending: Option<Outcome>)

  datatype Act =
    | Launch(panic: Option<int>)
    | PrepareFailed(error: Error)
    | StreamItem(item: TaskResult<Value>)
    | StreamEnd
    | StreamPanic(cause: int)
    | Proceed
    | Consume
    | DropHandle

  function NewSolo(capacity: nat): Solo {
    Solo(NewMember(capacity), Launching, [], None)
  }

  function End(r: Solo, outcome: Outcome, ending: Option<Outcome>): Solo {
    var m := Finish(r.m, outcome);
    Solo(m, Ended(HasFailed(m.life)), r.yielded, ending)
  }

  /// `member.send(item)`, one step at a time.
  function ProceedStep(r: Solo): Solo {
    match r.stage
    case Offered(x) => if IsOpenMember(r.m) then r.(stage := Sending(x)) else End(r, CANCELLED, r.ending)
    case Sending(x) =>
      (match SendAnswer(r.m)
       case Sent => r.(m := Accept(r.m, x), stage := Polling)
       case Full => r
       case Disconnected => End(r, CANCELLED, r.ending))
    case _ => r
  }

  function Step(r: Solo, a: Act): Solo {
    match a
    case Launch(panic) =>
      if !r.stage.Launching? then r
      else if !IsOpenMember(r.m) then End(r, CANCELLED, r.ending)
      else if panic.Some? then End(r, Err(TaskPanic(panic.value)), Some(Err(TaskPanic(panic.value))))
      else r.(stage := Polling)
    case PrepareFailed(e) => if r.stage.Launching? then End(r, Err(e), Some(Err(e))) else r
    case StreamItem(item) =>
      if r.stage.Polling? then r.(stage := Offered(Mapped(item)), yielded := r.yielded + [Mapped(item)]) else r
    case StreamEnd => if r.stage.Polling? then End(r, Ok(()), Some(Ok(()))) else r
    case StreamPanic(c) => if r.stage.Polling? then End(r, Err(TaskPanic(c)), Some(Err(TaskPanic(c)))) else r
    case Proceed => ProceedStep(r)
    case Consume => r.(m := Pop(r.m))
    case DropHandle => r.(m := DropStep(r.m))
  }

  /// What holds of a member wherever its future and its consumer have got to. `accepted` is a prefix of
  /// what the stream yielded - all of it but an item in hand, or one lost to a consumer that left - and
  /// the outcome is the stream's own ending, or the consumer's departure if that came first.
  ghost predicate SoloOk(r: Solo) {
    && MemberOk(r.m)
    && (match r.stage
        case Launching => r.yielded == [] && r.m.accepted == [] && r.ending.None?
        case Polling => r.m.accepted == r.yielded && r.ending.None?
        case Offered(x) => r.yielded == r.m.accepted + [x] && r.ending.None?
        case Sending(x) => r.yielded == r.m.accepted + [x] && r.ending.None?
        case Ended(failed) =>
          && !r.m.delivery && failed == HasFailed(r.m.life)
          && (r.m.accepted == r.yielded
              || (!r.m.consumer.Attached? && r.m.accepted <= r.yielded && |r.yielded| == |r.m.accepted| + 1)))
    && (!r.stage.Ended? ==> r.m.delivery
                            && (r.m.life.outcome.Some? ==>
                                  !r.m.consumer.Attached? && r.m.life.outcome.value == CANCELLED))
    && (r.stage.Ended? ==>
          || r.m.life.outcome == r.ending
          || (!r.m.consumer.Attached? && r.m.life.outcome == Some(CANCELLED)))
  }

  lemma {:induction false} EndKeeps(r: Solo, outcome: Outcome, ending: Option<Outcome>)
    requires SoloOk(r) && !r.stage.Ended?
    requires ending == Some(outcome) || (outcome == CANCELLED && r.m.life.outcome.Some? && ending == r.ending)
    requires r.stage.Offered? || r.stage.Sending? ==> !r.m.consumer.Attached?
    ensures SoloOk(End(r, outcome, ending))
  {
    FinishKeepsMember(r.m, outcome);
  }

  lemma {:induction false} ProceedKeeps(r: Solo)
    requires SoloOk(r)
    ensures SoloOk(ProceedStep(r))
  {
    match r.stage
    case Offered(_) =>
      if !IsOpenMember(r.m) {
        EndKeeps(r, CANCELLED, r.ending);
      }
    case Sending(x) =>
      match SendAnswer(r.m) {
        case Sent => AcceptKeepsMember(r.m, x);
        case Full =>
        case Disconnected => EndKeeps(r, CANCELLED, r.ending);
      }
    case _ =>
  }

  lemma {:induction false} StepKeeps(r: Solo, a: Act)
    requires SoloOk(r)
    ensures SoloOk(Step(r, a))
  {
    match a
    case Launch(panic) =>
      if r.stage.Launching? && !IsOpenMember(r.m) {
        EndKeeps(r, CANCELLED, r.ending);
      } else if r.stage.Launching? && panic.Some? {
        EndKeeps(r, Err(TaskPanic(panic.value)), Some(Err(TaskPanic(panic.value))));
      }
    case PrepareFailed(e) =>
      if r.stage.Launching? {
        EndKeeps(r, Err(e), Some(Err(e)));
      }
    case StreamItem(_) =>
    case StreamEnd =>
      if r.stage.Polling? {
        EndKeeps(r, Ok(()), Some(Ok(())));
      }
    case StreamPanic(c) =>
      if r.stage.Polling? {
        EndKeeps(r, Err(TaskPanic(c)), Some(Err(TaskPanic(c))));
      }
    case Proceed => ProceedKeeps(r);
    case Consume => PopKeepsMember(r.m);
    case DropHandle => DropKeepsMember(r.m);
  }

  lemma {:induction false} RunKeeps(r: Solo, acts: seq<Act>)
    requires SoloOk(r)
    ensures SoloOk(Isolation.Run(Step, r, acts))
    decreases |acts|
  {
    if |acts| > 0 {
      RunKeeps(r, acts[..|acts| - 1]);
      StepKeeps(Isolation.Run(Step, r, acts[..|acts| - 1]), acts[|acts| - 1]);
    }
  }

  function NewBatch(capacities: seq<nat>): (ss: seq<Solo>)
    ensures |ss| == |capacities| && forall i :: 0 <= i < |ss| ==> ss[i] == NewSolo(capacities[i])
  {
    seq(|capacities|, i requires 0 <= i < |capacities| => NewSolo(capacities[i]))
  }

  function After(capacities: seq<nat>, trace: seq<Signal<Act>>): (ss: seq<Solo>)
    ensures |ss| == |capacities|
  {
    DispatchAll(Step, NewBatch(capacities), trace)
  }

  lemma {:induction false} MemberIsOk(capacities: seq<nat>, trace: seq<Signal<Act>>, i: nat)
    requires i < |capacities| && capacities[i] >= 1
    ensures SoloOk(After(capacities, trace)[i]) && After(capacities, trace)[i].m.capacity == capacities[i]
  {
    RunsAlone(Step, NewBatch(capacities), trace, i);
    RunKeeps(NewSolo(capacities[i]), Project(trace, i));
    RunKeepsCapacity(NewSolo(capacities[i]), Project(trace, i));
  }

  lemma {:induction false} RunKeepsCapacity(r: Solo, acts: seq<Act>)
    ensures Isolation.Run(Step, r, acts).m.capacity == r.m.capacity
    decreases |acts|
  {
    if |acts| > 0 {
      RunKeepsCapacity(r, acts[..|acts| - 1]);
      StepKeepsCapacity(Isolation.Run(Step, r, acts[..|acts| - 1]), acts[|acts| - 1]);
    }
  }

  lemma {:induction false} StepKeepsCapacity(r: Solo, a: Act)
    ensures Step(r, a).m.capacity == r.m.capacity
  {
  }

  // ---------------------------------------------------------------- what user code does

  /// A member's stream: whether constructing it panics, its items, and whether it ends by panicking.
  datatype Stream = Stream(constructorPanic: Option<int>, items: seq<TaskResult<Value>>, panic: Option<int>)

  datatype Prepared = Shared | TaskError(cause: int) | PreparePanic(cause: int)

  function EndingOf(stream: Stream): Outcome {
    if stream.constructorPanic.Some? then Err(TaskPanic(stream.constructorPanic.value))
    else if stream.panic.Some? then Err(TaskPanic(stream.panic.value))
    else Ok(())
  }

  /// Every item the stream will ever give.
  function AllOf(stream: Stream): (s: seq<Payload>)
    ensures |s| == if stream.constructorPanic.Some? then 0 else |stream.items|
    ensures forall k :: 0 <= k < |s| ==>
              s[k] == match stream.items[k] case Good(v) => Ok(v) case Bad(cause) => Err(TaskExecution(cause))
  {
    if stream.constructorPanic.Some? then []
    else seq(|stream.items|, k requires 0 <= k < |stream.items| => Mapped(stream.items[k]))
  }

  /// How preparation ended.
  datatype Preparation = GoAhead | Failing(error: Error) | AllDeparted | Unfinished

  function Conclude(prepared: Prepared): (p: Preparation)
    ensures p.GoAhead? || p.Failing?
    ensures p.GoAhead? <==> prepared.Shared?
  {
    match prepared
    case Shared => GoAhead
    case TaskError(c) => Failing(TaskExecution(c))
    case PreparePanic(c) => Failing(TaskPanic(c))
  }

  /// What the mode does with a member whose turn it is.
  function NextAct(r: Solo, stream: Stream, prepared: Prepared): Act {
    if !prepared.Shared? then PrepareFailed(Conclude(prepared).error)
    else match r.stage
      case Launching => Launch(stream.constructorPanic)
      case Polling =>
        if |r.yielded| < |stream.items| then StreamItem(stream.items[|r.yielded|])
        else if stream.panic.Some? then StreamPanic(stream.panic.value)
        else StreamEnd
      case _ => Proceed
  }

  /// The member has got its items from this stream, and its ending too, or the preparation's error.
  ghost predicate Follows(r: Solo, stream: Stream, prepared: Prepared) {
    if prepared.Shared? then
      && r.yielded <= AllOf(stream)
      && (r.ending.Some? ==> r.ending.value == EndingOf(stream) && r.yielded == AllOf(stream))
      && (r.stage.Polling? || r.stage.Offered? || r.stage.Sending? ==> stream.constructorPanic.None?)
    else
      && r.yielded == [] && (r.stage.Launching? || r.stage.Ended?)
      && (r.ending.Some? ==> r.ending.value == Err(Conclude(prepared).error))
  }

  lemma {:induction false} PollFollows(r: Solo, stream: Stream, prepared: Prepared)
    requires Follows(r, stream, prepared) && (r.stage.Launching? ==> r.yielded == [])
    ensures Follows(Step(r, NextAct(r, stream, prepared)), stream, prepared)
  {
  }

  // ---------------------------------------------------------------- which traces the mode can leave

  /// Only its own consumer acts for a consumer, and all the mode does to a member is its next act.
  predicate IsGenuine(ss: seq<Solo>, s: Signal<Act>, streams: seq<Stream>, prepared: Prepared,
                      moves: set<ConsumerMove>) {
    match s.act
    case Consume => ConsumerMove(s.index, false) in moves
    case DropHandle => ConsumerMove(s.index, true) in moves
    case _ => s.index < |ss| && s.index < |streams| && s.act == NextAct(ss[s.index], streams[s.index], prepared)
  }

  predicate IsGenuineAt(capacities: seq<nat>, trace: seq<Signal<Act>>, k: nat, streams: seq<Stream>, prepared: Prepared,
                        moves: set<ConsumerMove>)
    requires k < |trace|
  {
    IsGenuine(After(capacities, trace[..k]), trace[k], streams, prepared, moves)
  }

  ghost predicate AllGenuine(capacities: seq<nat>, trace: seq<Signal<Act>>, streams: seq<Stream>, prepared: Prepared,
                             moves: set<ConsumerMove>) {
    forall k: nat {:trigger IsGenuineAt(capacities, trace, k, streams, prepared, moves)} :: k < |trace| ==>
      IsGenuineAt(capacities, trace, k, streams, prepared, moves)
  }

  lemma {:induction false} OneMoreGenuine(capacities: seq<nat>, trace: seq<Signal<Act>>, s: Signal<Act>,
                                          streams: seq<Stream>, prepared: Prepared, moves: set<ConsumerMove>)
    requires AllGenuine(capacities, trace, streams, prepared, moves)
    requires IsGenuine(After(capacities, trace), s, streams, prepared, moves)
    ensures AllGenuine(capacities, trace + [s], streams, prepared, moves)
    ensures After(capacities, trace + [s]) == Dispatch(Step, After(capacities, trace), s)
  {
    var longer := trace + [s];
    assert longer[..|trace|] == trace;
    forall k: nat {:trigger IsGenuineAt(capacities, longer, k, streams, prepared, moves)} | k < |longer|
      ensures IsGenuineAt(capacities, longer, k, streams, prepared, moves)
    {
      if k < |trace| {
        assert IsGenuineAt(capacities, trace, k, streams, prepared, moves);
        assert longer[..k] == trace[..k];
      }
    }
  }

  lemma {:induction false} ShorterIsGenuine(capacities: seq<nat>, trace: seq<Signal<Act>>, streams: seq<Stream>,
                                            prepared: Prepared, moves: set<ConsumerMove>)
    requires |trace| > 0 && AllGenuine(capacities, trace, streams, prepared, moves)
    ensures var shorter := trace[..|trace| - 1];
            && AllGenuine(capacities, shorter, streams, prepared, moves)
            && IsGenuine(After(capacities, shorter), trace[|trace| - 1], streams, prepared, moves)
  {
    var shorter := trace[..|trace| - 1];
    assert IsGenuineAt(capacities, trace, |trace| - 1, streams, prepared, moves);
    forall k: nat {:trigger IsGenuineAt(capacities, shorter, k, streams, prepared, moves)} | k < |shorter|
      ensures IsGenuineAt(capacities, shorter, k, streams, prepared, moves)
    {
      assert IsGenuineAt(capacities, trace, k, streams, prepared, moves);
      assert shorter[..k] == trace[..k];
    }
  }

  lemma {:induction false} GenuineStep(r: Solo, a: Act, stream: Stream, prepared: Prepared)
    requires SoloOk(r) && Follows(r, stream, prepared)
    requires a.Consume? || a.DropHandle? || a == NextAct(r, stream, prepared)
    ensures Follows(Step(r, a), stream, prepared)
    ensures !a.DropHandle? ==> Step(r, a).m.consumer == r.m.consumer
  {
    if !a.Consume? && !a.DropHandle? {
      PollFollows(r, stream, prepared);
    }
  }

  lemma {:induction false} GenuineFollows(capacities: seq<nat>, trace: seq<Signal<Act>>, streams: seq<Stream>,
                                          prepared: Prepared, moves: set<ConsumerMove>, i: nat)
    requires AllGenuine(capacities, trace, streams, prepared, moves)
    requires i < |capacities| == |streams| && capacities[i] >= 1
    ensures Follows(After(capacities, trace)[i], streams[i], prepared)
    ensures !After(capacities, trace)[i].m.consumer.Attached? ==> ConsumerMove(i, true) in moves
    decreases |trace|
  {
    if |trace| > 0 {
      var shorter := trace[..|trace| - 1];
      var last := trace[|trace| - 1];
      ShorterIsGenuine(capacities, trace, streams, prepared, moves);
      GenuineFollows(capacities, shorter, streams, prepared, moves, i);
      MemberIsOk(capacities, shorter, i);
      if last.index == i {
        GenuineStep(After(capacities, shorter)[i], last.act, streams[i], prepared);
      }
    }
  }

  // ---------------------------------------------------------------- a member's fate

  /// A panic while the stream is constructed or polled is the outcome; a stream that just ends is a success.
  predicate EndsAs(stream: Stream, outcome: Outcome) {
    match stream.constructorPanic
    case Some(cause) => outcome == Err(TaskPanic(cause))
    case None => (match stream.panic
                  case Some(cause) => outcome == Err(TaskPanic(cause))
                  case None => outcome == Ok(()))
  }

  /// After a preparation that went well: what was received is a prefix of what was accepted, and that of
  /// the stream's items; the outcome is the stream's own ending, or the departure of a consumer that
  /// left; and one that stays gets everything.
  ghost predicate FollowsItsStream(r: Solo, stream: Stream) {
    && r.m.received <= r.m.accepted <= AllOf(stream)
    && (r.m.life.outcome.Some? ==>
          || EndsAs(stream, r.m.life.outcome.value)
          || (r.m.life.outcome.value == CANCELLED && !r.m.consumer.Attached?))
    && (r.stage.Ended? ==> r.m.life.outcome.Some?)
    && (r.stage.Ended? && r.m.consumer.Attached? ==>
          r.m.accepted == AllOf(stream) && r.m.received + r.m.buffer == AllOf(stream)
          && EndsAs(stream, r.m.life.outcome.value))
  }

  /// After one that failed: nothing was accepted, and the outcome is that error or a departure.
  ghost predicate SharesTheError(r: Solo, error: Error) {
    && r.m.accepted == []
    && (r.m.life.outcome.Some? ==>
          r.m.life.outcome.value == Err(error) || (r.m.life.outcome.value == CANCELLED && !r.m.consumer.Attached?))
    && (r.stage.Ended? ==> r.m.life.outcome.Some?)
    && (r.stage.Ended? && r.m.consumer.Attached? ==> r.m.life.outcome.value == Err(error))
  }

  ghost predicate HasItsFate(r: Solo, stream: Stream, prepared: Prepared) {
    match prepared
    case Shared => FollowsItsStream(r, stream)
    case TaskError(cause) => SharesTheError(r, TaskExecution(cause))
    case PreparePanic(cause) => SharesTheError(r, TaskPanic(cause))
  }

  lemma {:induction false} FateOf(r: Solo, stream: Stream, prepared: Prepared)
    requires SoloOk(r) && Follows(r, stream, prepared)
    ensures HasItsFate(r, stream, prepared)
  {
    if r.m.consumer.Gone? {
      assert r.m.received <= r.m.accepted;
    } else {
      assert r.m.received + r.m.buffer == r.m.accepted;
    }
  }

  /// Whatever its siblings do, a member fares as it would alone, and its fate is decided by its own
  /// stream and its own consumer.
  lemma {:induction false} MemberFollowsItsStream(capacities: seq<nat>, trace: seq<Signal<Act>>, streams: seq<Stream>,
                                                  prepared: Prepared, moves: set<ConsumerMove>, i: nat)
    requires AllGenuine(capacities, trace, streams, prepared, moves)
    requires i < |capacities| == |streams| && capacities[i] >= 1
    ensures var r := After(capacities, trace)[i];
            && r == Isolation.Run(Step, NewSolo(capacities[i]), Project(trace, i))
            && HasItsFate(r, streams[i], prepared)
            && |r.m.buffer| <= r.m.capacity == capacities[i]
            && (r.stage.Ended? ==> r.stage.failed == HasFailed(r.m.life))
            && (!r.m.consumer.Attached? ==> ConsumerMove(i, true) in moves)
  {
    RunsAlone(Step, NewBatch(capacities), trace, i);
    MemberIsOk(capacities, trace, i);
    GenuineFollows(capacities, trace, streams, prepared, moves, i);
    FateOf(After(capacities, trace)[i], streams[i], prepared);
  }

  // ---------------------------------------------------------------- the mode

  /// One turn of the schedule: a consumer's move, or the mode's own task being polled. While preparing,
  /// `noticed` are the closures polled for the first time, `during` are the consumers' moves between the
  /// poll of the closures and the result of `prepare`, `choice` zero means that `prepare` is not ready
  /// yet, and `failing[i]` are the moves just before member `i` is given the preparation's error.
  /// Afterwards `choice` is the member whose future moves.
  datatype Turn =
    | ConsumerTurn(move: ConsumerMove)
    | TaskTurn(choice: nat, noticed: set<nat>, during: seq<ConsumerMove>, failing: seq<seq<ConsumerMove>>)

  datatype Exit = Returned(status: JobStatus) | StillRunning

  function MoveAct(move: ConsumerMove): Act {
    if move.drops then DropHandle else Consume
  }

  function SignalsOf(moves: seq<ConsumerMove>): (s: seq<Signal<Act>>)
    ensures |s| == |moves|
  {
    seq(|moves|, k requires 0 <= k < |moves| => To(moves[k].member, MoveAct(moves[k])))
  }

  predicate AnyFailed(ss: seq<Solo>) {
    exists i :: 0 <= i < |ss| && HasFailed(ss[i].m.life)
  }

  function TurnMoves(turn: Turn): set<ConsumerMove> {
    match turn
    case ConsumerTurn(move) => {move}
    case TaskTurn(_, _, during, failing) => (set m | m in during) + MovesOf(failing)
  }

  /// Every move the consumers make while the mode runs, and before it.
  function AllMoves(earlier: seq<ConsumerMove>, turns: seq<Turn>): (s: set<ConsumerMove>)
    ensures forall m :: m in earlier ==> m in s
    ensures forall t :: 0 <= t < |turns| ==> TurnMoves(turns[t]) <= s
  {
    if |turns| == 0 then set m | m in earlier
    else AllMoves(earlier, turns[..|turns| - 1]) + TurnMoves(turns[|turns| - 1])
  }

  /// What never changes while the mode runs.
  datatype Batch = Batch(capacities: seq<nat>, streams: seq<Stream>, prepared: Prepared, moves: set<ConsumerMove>)

  /// The members are where a genuine trace leads.
  ghost predicate InTrace(b: Batch, ss: seq<Solo>, trace: seq<Signal<Act>>) {
    && |ss| == |b.streams| == |b.capacities|
    && ss == After(b.capacities, trace) && AllGenuine(b.capacities, trace, b.streams, b.prepared, b.moves)
  }

  /// Delivers one act to one member and extends the trace.
  method Deliver(ghost b: Batch, ss: seq<Solo>, trace: seq<Signal<Act>>, i: nat, a: Act)
    returns (ss': seq<Solo>, trace': seq<Signal<Act>>)
    requires InTrace(b, ss, trace) && IsGenuine(ss, To(i, a), b.streams, b.prepared, b.moves)
    ensures trace' == trace + [To(i, a)] && InTrace(b, ss', trace')
    ensures ss' == if i < |ss| then ss[i := Step(ss[i], a)] else ss
  {
    OneMoreGenuine(b.capacities, trace, To(i, a), b.streams, b.prepared, b.moves);
    ss', trace' := Dispatch(Step, ss, To(i, a)), trace + [To(i, a)];
  }

  /// What consumers cannot touch.
  predicate OnlyConsumersMoved(r: Solo, r': Solo) {
    && r'.stage == r.stage && r'.m.delivery == r.m.delivery
    && (r.m.life.closed ==> r'.m.life.closed)
    && (r.m.life.outcome.Some? ==> r'.m.life.outcome == r.m.life.outcome)
  }

  lemma {:induction false} ConsumersTouchLittle(r: Solo, move: ConsumerMove)
    ensures OnlyConsumersMoved(r, r) && OnlyConsumersMoved(r, Step(r, MoveAct(move)))
  {
  }

  lemma {:induction false} ConsumerMoves(b: Batch, ss: seq<Solo>, trace: seq<Signal<Act>>, move: ConsumerMove)
    requires InTrace(b, ss, trace) && move in b.moves
    ensures InTrace(b, Dispatch(Step, ss, To(move.member, MoveAct(move))), trace + [To(move.member, MoveAct(move))])
    ensures forall i :: 0 <= i < |ss| ==>
              OnlyConsumersMoved(ss[i], Dispatch(Step, ss, To(move.member, MoveAct(move)))[i])
  {
    assert IsGenuine(ss, To(move.member, MoveAct(move)), b.streams, b.prepared, b.moves) by {
      assert move == ConsumerMove(move.member, move.drops);
    }
    OneMoreGenuine(b.capacities, trace, To(move.member, MoveAct(move)), b.streams, b.prepared, b.moves);
    forall i | 0 <= i < |ss|
      ensures OnlyConsumersMoved(ss[i], Dispatch(Step, ss, To(move.member, MoveAct(move)))[i])
    {
      ConsumersTouchLittle(ss[i], move);
    }
  }

  lemma {:induction false} SignalsAppend(own: seq<ConsumerMove>)
    requires |own| > 0
    ensures SignalsOf(own)[..|own| - 1] == SignalsOf(own[..|own| - 1])
    ensures SignalsOf(own)[|own| - 1] == To(own[|own| - 1].member, MoveAct(own[|own| - 1]))
    ensures SignalsOf(own) == SignalsOf(own[..|own| - 1]) + [SignalsOf(own)[|own| - 1]]
    ensures own[|own| - 1] in own
  {
  }

  lemma {:induction false} ConsumersMove(b: Batch, ss: seq<Solo>, trace: seq<Signal<Act>>, own: seq<ConsumerMove>)
    requires InTrace(b, ss, trace) && forall m :: m in own ==> m in b.moves
    ensures InTrace(b, DispatchAll(Step, ss, SignalsOf(own)), trace + SignalsOf(own))
    ensures forall i :: 0 <= i < |ss| ==> OnlyConsumersMoved(ss[i], DispatchAll(Step, ss, SignalsOf(own))[i])
    decreases |own|
  {
    if |own| == 0 {
      assert trace + SignalsOf(own) == trace;
    } else {
      var shorter := own[..|own| - 1];
      SignalsAppend(own);
      ConsumersMove(b, ss, trace, shorter);
      var before := DispatchAll(Step, ss, SignalsOf(shorter));
      ConsumerMoves(b, before, trace + SignalsOf(shorter), own[|own| - 1]);
      assert trace + SignalsOf(own) == (trace + SignalsOf(shorter)) + [SignalsOf(own)[|own| - 1]];
      forall i | 0 <= i < |ss|
        ensures OnlyConsumersMoved(ss[i], DispatchAll(Step, ss, SignalsOf(own))[i])
      {
        assert OnlyConsumersMoved(ss[i], before[i]);
      }
    }
  }

  method LetConsumersMove(ghost b: Batch, ss: seq<Solo>, trace: seq<Signal<Act>>, own: seq<ConsumerMove>)
    returns (ss': seq<Solo>, trace': seq<Signal<Act>>)
    requires InTrace(b, ss, trace) && forall m :: m in own ==> m in b.moves
    ensures trace' == trace + SignalsOf(own) && InTrace(b, ss', trace')
    ensures forall i :: 0 <= i < |ss| ==> OnlyConsumersMoved(ss[i], ss'[i])
  {
    ConsumersMove(b, ss, trace, own);
    ss', trace' := DispatchAll(Step, ss, SignalsOf(own)), trace + SignalsOf(own);
  }

  /// A batch of fresh members whose consumers have already made the moves `earlier`.
  method StartBatch(ghost b: Batch, capacities: seq<nat>, earlier: seq<ConsumerMove>)
    returns (ss: seq<Solo>, trace: seq<Signal<Act>>)
    requires b.capacities == capacities && |capacities| == |b.streams| && forall m :: m in earlier ==> m in b.moves
    ensures trace == SignalsOf(earlier) && InTrace(b, ss, trace)
    ensures forall i :: 0 <= i < |ss| ==> ss[i].stage.Launching?
  {
    ss, trace := LetConsumersMove(b, NewBatch(capacities), [], earlier);
  }

  /// What preparation keeps: nobody's future has started, and the closures still to be yielded are the
  /// ones that have not been counted.
  ghost predicate PreparingOk(ss: seq<Solo>, waiting: set<nat>, closed: nat) {
    && (forall i :: 0 <= i < |ss| ==> ss[i].stage.Launching?)
    && closed + |waiting| == |ss| && closed < |ss|
    && (forall i :: i in waiting ==> i < |ss|)
    && (forall i :: 0 <= i < |ss| && i !in waiting ==> ss[i].m.life.closed)
  }

  /// The closures' arm of `select_biased!`.
  method PollClosures(ss: seq<Solo>, waiting: set<nat>, noticed: set<nat>, ghost closed: nat)
    returns (yielded: bool, waiting': set<nat>)
    requires PreparingOk(ss, waiting, closed)
    ensures yielded <==> exists i :: i in waiting && IsReady(ss[i].m, i in noticed)
    ensures (exists i :: i in waiting && ss[i].m.life.closed && ss[i].m.announced) ==> yielded
    ensures yielded ==> exists i :: i in waiting && i !in waiting' && ss[i].m.life.closed
    ensures !yielded && waiting != {} ==> exists i :: 0 <= i < |ss| && !IsReady(ss[i].m, i in noticed)
    ensures |waiting'| == (if yielded then |waiting| - 1 else |waiting|) && waiting' <= waiting
    ensures !yielded ==> waiting' == waiting
    ensures forall i :: 0 <= i < |ss| && i !in waiting' ==> ss[i].m.life.closed
  {
    yielded, waiting' := false, waiting;
    var ready := ReadyClosure(waiting, (i: nat) => i < |ss| && IsReady(ss[i].m, i in noticed));
    if ready.Some? {
      RemoveOne(waiting, ready.value);
      yielded, waiting' := true, waiting - {ready.value};
    } else if waiting != {} {
      ghost var present :| present in waiting;
      assert !IsReady(ss[present].m, present in noticed);
    }
  }

  ghost predicate AllCancelled(ss: seq<Solo>) {
    forall i :: 0 <= i < |ss| ==> ss[i].m.life.outcome == Some(CANCELLED) && !ss[i].m.consumer.Attached?
  }

  /// `polled` is how long the trace was when the closures were polled for the last time, which was in
  /// the last turn used: only consumers have moved since, and somebody's closure was not ready.
  ghost predicate SomebodyWasThere(b: Batch, trace: seq<Signal<Act>>, polled: nat, turn: Turn) {
    && polled <= |trace| && turn.TaskTurn? && trace == trace[..polled] + SignalsOf(turn.during)
    && var seen := After(b.capacities, trace[..polled]);
       exists i :: 0 <= i < |seen| && !IsReady(seen[i].m, i in turn.noticed)
  }

  /// One poll of the preparing task: the closures, and `prepare` only when none of them is ready.
  method PollPreparing(ghost b: Batch, ss: seq<Solo>, trace: seq<Signal<Act>>, waiting: set<nat>, closed: nat,
                       prepared: Prepared, turn: Turn)
    returns (result: Preparation, ss': seq<Solo>, trace': seq<Signal<Act>>, waiting': set<nat>, closed': nat)
    requires turn.TaskTurn? && TurnMoves(turn) <= b.moves
    requires forall i :: 0 <= i < |b.capacities| ==> b.capacities[i] >= 1
    requires InTrace(b, ss, trace) && PreparingOk(ss, waiting, closed)
    ensures InTrace(b, ss', trace') && forall i :: 0 <= i < |ss'| ==> ss'[i].stage.Launching?
    ensures result.Unfinished? ==> PreparingOk(ss', waiting', closed')
    ensures result.AllDeparted? ==> AllCancelled(ss')
    ensures result.GoAhead? || result.Failing? ==>
              result == Conclude(prepared) && SomebodyWasThere(b, trace', |trace|, turn)
    ensures if exists i :: i in waiting && IsReady(ss[i].m, i in turn.noticed)
            then trace' == trace && closed' == closed + 1 && (result.AllDeparted? <==> closed' == |ss|)
                 && (result.AllDeparted? || result.Unfinished?)
            else trace' == trace + SignalsOf(turn.during) && closed' == closed
                 && result == if turn.choice > 0 then Conclude(prepared) else Unfinished
  {
    var yielded;
    ss', trace', closed', result := ss, trace, closed, Unfinished;
    yielded, waiting' := PollClosures(ss, waiting, turn.noticed, closed);
    if yielded {
      closed' := closed + 1;
      if closed' == |ss| {
        AllLeft(b, ss, trace, waiting');
        result := AllDeparted;
      }
    } else if waiting == {} {
      // `closures.next()` would answer `None`.
      assert false;
    } else {
      ss', trace' := LetConsumersMove(b, ss, trace, turn.during);
      if turn.choice > 0 {
        result := Conclude(prepared);
        assert trace'[..|trace|] == trace;
      }
    }
  }

  lemma {:induction false} AllLeft(b: Batch, ss: seq<Solo>, trace: seq<Signal<Act>>, waiting: set<nat>)
    requires InTrace(b, ss, trace) && |waiting| == 0 && forall i :: 0 <= i < |b.capacities| ==> b.capacities[i] >= 1
    requires forall i :: 0 <= i < |ss| ==> ss[i].stage.Launching?
    requires forall i :: 0 <= i < |ss| && i !in waiting ==> ss[i].m.life.closed
    ensures AllCancelled(ss)
  {
    forall i | 0 <= i < |ss|
      ensures ss[i].m.life.outcome == Some(CANCELLED) && !ss[i].m.consumer.Attached?
    {
      MemberIsOk(b.capacities, trace, i);
    }
  }

  /// One turn: a consumer's move, or one poll.
  method PrepareTurn(ghost b: Batch, ss: seq<Solo>, trace: seq<Signal<Act>>, waiting: set<nat>, closed: nat,
                     prepared: Prepared, turn: Turn)
    returns (result: Preparation, ss': seq<Solo>, trace': seq<Signal<Act>>, waiting': set<nat>, closed': nat)
    requires TurnMoves(turn) <= b.moves && InTrace(b, ss, trace) && PreparingOk(ss, waiting, closed)
    requires forall i :: 0 <= i < |b.capacities| ==> b.capacities[i] >= 1
    ensures InTrace(b, ss', trace') && forall i :: 0 <= i < |ss'| ==> ss'[i].stage.Launching?
    ensures result.Unfinished? ==> PreparingOk(ss', waiting', closed')
    ensures result.AllDeparted? ==> AllCancelled(ss')
    ensures result.GoAhead? || result.Failing? ==>
              result == Conclude(prepared) && SomebodyWasThere(b, trace', |trace|, turn)
    ensures turn.ConsumerTurn? ==>
              && result.Unfinished?
              && trace' == trace + [To(turn.move.member, if turn.move.drops then DropHandle else Consume)]
    ensures |trace'| >= |trace| && closed' >= closed
    ensures turn.TaskTurn? && turn.choice > 0 && result.Unfinished? ==> closed' > closed
  {
    if turn.ConsumerTurn? {
      assert turn.move in TurnMoves(turn);
      result, waiting', closed' := Unfinished, waiting, closed;
      ss', trace' := LetConsumersMove(b, ss, trace, [turn.move]);
      assert SignalsOf([turn.move]) == [To(turn.move.member, MoveAct(turn.move))];
      StillPreparing(ss, ss', waiting, closed);
    } else {
      result, ss', trace', waiting', closed' := PollPreparing(b, ss, trace, waiting, closed, prepared, turn);
    }
  }

  lemma {:induction false} StillPreparing(ss: seq<Solo>, ss': seq<Solo>, waiting: set<nat>, closed: nat)
    requires PreparingOk(ss, waiting, closed) && |ss'| == |ss|
    requires forall i :: 0 <= i < |ss| ==> OnlyConsumersMoved(ss[i], ss'[i])
    ensures PreparingOk(ss', waiting, closed)
  {
    forall i | 0 <= i < |ss|
      ensures ss'[i].stage.Launching? && (i !in waiting ==> ss'[i].m.life.closed)
    {
      assert OnlyConsumersMoved(ss[i], ss'[i]);
    }
  }

  /// How many of the turns would end the preparation, if they got to poll it.
  function ReadyTurns(turns: seq<Turn>): nat {
    if |turns| == 0 then 0
    else
      var last := turns[|turns| - 1];
      ReadyTurns(turns[..|turns| - 1]) + (if last.TaskTurn? && last.choice > 0 then 1 else 0)
  }

  /// How many of the turns are a consumer's.
  function ConsumerTurns(turns: seq<Turn>): nat {
    if |turns| == 0 then 0
    else ConsumerTurns(turns[..|turns| - 1]) + (if turns[|turns| - 1].ConsumerTurn? then 1 else 0)
  }

  lemma {:induction false} OneTurnMore(turns: seq<Turn>, t: nat)
    requires t < |turns|
    ensures var last := turns[t];
            && ReadyTurns(turns[..t + 1])
               == ReadyTurns(turns[..t]) + (if last.TaskTurn? && last.choice > 0 then 1 else 0)
            && ConsumerTurns(turns[..t + 1]) == ConsumerTurns(turns[..t]) + (if last.ConsumerTurn? then 1 else 0)
  {
    assert turns[..t + 1][..t] == turns[..t];
  }

  /// Preparation raced against departures, closures first. Its result is taken only if somebody was
  /// still there when the closures were last polled - not necessarily any more, for consumers can leave
  /// while `prepare` is being polled. `closed` counts distinct members, so it reaches their number
  /// before the closures run dry, and then everybody has left.
  method Prepare(ghost b: Batch, capacities: seq<nat>, earlier: seq<ConsumerMove>, prepared: Prepared, turns: seq<Turn>)
    returns (result: Preparation, ss: seq<Solo>, trace: seq<Signal<Act>>, used: nat, ghost polled: nat)
    requires b.capacities == capacities && b.prepared == prepared && |b.streams| == |capacities| > 0
    requires forall i :: 0 <= i < |capacities| ==> capacities[i] >= 1
    requires b.moves == AllMoves(earlier, turns)
    ensures InTrace(b, ss, trace) && used <= |turns|
    ensures forall i :: 0 <= i < |ss| ==> ss[i].stage.Launching?
    ensures result.AllDeparted? ==> AllCancelled(ss)
    ensures result.GoAhead? || result.Failing? ==>
              result == Conclude(prepared) && used > 0 && SomebodyWasThere(b, trace, polled, turns[used - 1])
    ensures result.Unfinished? ==> used == |turns| && ReadyTurns(turns) < |capacities|
    ensures |trace| >= |earlier| + ConsumerTurns(turns[..used])
  {
    ss, trace := StartBatch(b, capacities, earlier);
    used, polled := 0, 0;
    var waiting: set<nat> := Indices(|ss|);
    var closed := 0;
    while used < |turns|
      invariant used <= |turns| && InTrace(b, ss, trace) && PreparingOk(ss, waiting, closed)
      invariant ReadyTurns(turns[..used]) <= closed && |trace| >= |earlier| + ConsumerTurns(turns[..used])
    {
      OneTurnMore(turns, used);
      polled := |trace|;
      result, ss, trace, waiting, closed := PrepareTurn(b, ss, trace, waiting, closed, prepared, turns[used]);
      used := used + 1;
      if !result.Unfinished? {
        return;
      }
    }
    result := Unfinished;
    assert turns[..used] == turns;
  }

  /// So the preparation's result can be used although everybody has left: a batch of one, whose consumer
  /// drops its handle after its closure has been polled and before `prepare` is.
  lemma {:induction false} EverybodyMayHaveLeft(stream: Stream, prepared: Prepared)
    ensures var drop := ConsumerMove(0, true);
            var turn := TaskTurn(1, {}, [drop, drop, drop, drop], []);
            var b := Batch([1], [stream], prepared, {drop});
            var trace := SignalsOf(turn.during);
            && AllGenuine(b.capacities, trace, b.streams, prepared, b.moves)
            && SomebodyWasThere(b, trace, 0, turn)
            && AllCancelled(After(b.capacities, trace)) && After(b.capacities, trace)[0].m.consumer.Gone?
  {
    var drop := ConsumerMove(0, true);
    var own := [drop, drop, drop, drop];
    var b := Batch([1], [stream], prepared, {drop});
    ConsumersMove(b, NewBatch([1]), [], own);
    assert [] + SignalsOf(own) == SignalsOf(own);
    LoneDeparture(own);
    LoneDrop([]);
    var trace := SignalsOf(own);
    assert trace[..0] == [] && trace == trace[..0] + trace;
    assert !IsReady(After([1], trace[..0])[0].m, false);
  }

  lemma {:induction false} LoneDeparture(own: seq<ConsumerMove>)
    requires own == [ConsumerMove(0, true), ConsumerMove(0, true), ConsumerMove(0, true), ConsumerMove(0, true)]
    ensures var r := After([1], SignalsOf(own))[0];
            r.m.consumer.Gone? && r.m.life.outcome == Some(CANCELLED)
  {
    assert SignalsOf(own) == [] + [To(0, DropHandle)] + [To(0, DropHandle)] + [To(0, DropHandle)] + [To(0, DropHandle)];
    LoneDrop([]);
    LoneDrop([] + [To(0, DropHandle)]);
    LoneDrop([] + [To(0, DropHandle)] + [To(0, DropHandle)]);
    LoneDrop([] + [To(0, DropHandle)] + [To(0, DropHandle)] + [To(0, DropHandle)]);
  }

  lemma {:induction false} LoneDrop(trace: seq<Signal<Act>>)
    ensures After([1], trace + [To(0, DropHandle)])[0] == After([1], trace)[0].(m := DropStep(After([1], trace)[0].m))
    ensures After([1], [])[0] == NewSolo(1)
  {
    assert (trace + [To(0, DropHandle)])[..|trace|] == trace;
  }

  lemma {:induction false} StepKeepsOutcomes(r: Solo, a: Act)
    ensures r.m.life.outcome.Some? ==> Step(r, a).m.life.outcome == r.m.life.outcome
  {
  }

  /// A member before or after it has been given the error.
  predicate ToldUpTo(r: Solo, r': Solo, told: bool) {
    && (if told then r'.stage.Ended? else r'.stage.Launching?)
    && (r.m.life.outcome.Some? ==> r'.m.life.outcome == r.m.life.outcome)
  }

  lemma {:induction false} OneMoreFailed(trace: seq<Signal<Act>>, n: nat, failing: seq<seq<ConsumerMove>>, error: Error)
    ensures trace + FailSignals(n + 1, failing, error)
         == (trace + FailSignals(n, failing, error)) + SignalsOf(MovesAt(failing, n)) + [To(n, PrepareFailed(error))]
  {
  }

  ghost predicate AllToldUpTo(ss: seq<Solo>, ss': seq<Solo>, n: nat) {
    |ss'| == |ss| && forall k :: 0 <= k < |ss| ==> ToldUpTo(ss[k], ss'[k], k < n)
  }

  lemma {:induction false} OneMoreTold(ss0: seq<Solo>, ss: seq<Solo>, ss': seq<Solo>, i: nat)
    requires i < |ss| == |ss'| && AllToldUpTo(ss0, ss, i) && ToldUpTo(ss[i], ss'[i], true)
    requires forall k :: 0 <= k < |ss| && k != i ==> OnlyConsumersMoved(ss[k], ss'[k])
    ensures AllToldUpTo(ss0, ss', i + 1)
  {
    forall k | 0 <= k < |ss0|
      ensures ToldUpTo(ss0[k], ss'[k], k < i + 1)
    {
      assert ToldUpTo(ss0[k], ss[k], k < i);
    }
  }

  /// Gives the preparation's error to one member.
  method FailOne(ghost b: Batch, ss: seq<Solo>, trace: seq<Signal<Act>>, i: nat, error: Error,
                 failing: seq<seq<ConsumerMove>>)
    returns (ss': seq<Solo>, trace': seq<Signal<Act>>)
    requires InTrace(b, ss, trace) && i < |ss| && ss[i].stage.Launching?
    requires Conclude(b.prepared) == Failing(error) && MovesOf(failing) <= b.moves
    ensures trace' == trace + SignalsOf(MovesAt(failing, i)) + [To(i, PrepareFailed(error))] && InTrace(b, ss', trace')
    ensures forall k :: 0 <= k < |ss| && k != i ==> OnlyConsumersMoved(ss[k], ss'[k])
    ensures ToldUpTo(ss[i], ss'[i], true)
  {
    ss', trace' := LetConsumersMove(b, ss, trace, MovesAt(failing, i));
    StepKeepsOutcomes(ss'[i], PrepareFailed(error));
    ss', trace' := Deliver(b, ss', trace', i, PrepareFailed(error));
  }

  /// What a failed preparation leaves: everybody has ended, whoever had an outcome keeps it, and the
  /// others have this error, or left before it was their turn.
  ghost predicate AllFailed(ss: seq<Solo>, ss': seq<Solo>, error: Error) {
    |ss'| == |ss| && forall i :: 0 <= i < |ss| ==>
      && ss'[i].stage.Ended? && SharesTheError(ss'[i], error)
      && (ss[i].m.life.outcome.Some? ==> ss'[i].m.life.outcome == ss[i].m.life.outcome)
  }

  lemma {:induction false} AllToldMeansAllFailed(b: Batch, ss: seq<Solo>, ss': seq<Solo>,
                                                    trace: seq<Signal<Act>>, error: Error)
    requires InTrace(b, ss', trace) && Conclude(b.prepared) == Failing(error) && AllToldUpTo(ss, ss', |ss|)
    requires forall i :: 0 <= i < |b.capacities| ==> b.capacities[i] >= 1
    ensures AllFailed(ss, ss', error)
  {
    Fates(b, ss', trace);
    forall i | 0 <= i < |ss|
      ensures ss'[i].stage.Ended? && SharesTheError(ss'[i], error)
      ensures ss[i].m.life.outcome.Some? ==> ss'[i].m.life.outcome == ss[i].m.life.outcome
    {
      assert ToldUpTo(ss[i], ss'[i], i < |ss|) && HasItsFate(ss'[i], b.streams[i], b.prepared);
    }
  }

  /// The body of the loop below.
  method TellOne(ghost b: Batch, ghost ss0: seq<Solo>, ghost trace0: seq<Signal<Act>>, ss: seq<Solo>,
                 trace: seq<Signal<Act>>, i: nat, error: Error, failing: seq<seq<ConsumerMove>>)
    returns (ss': seq<Solo>, trace': seq<Signal<Act>>)
    requires InTrace(b, ss, trace) && Conclude(b.prepared) == Failing(error) && MovesOf(failing) <= b.moves
    requires i < |ss0| && AllToldUpTo(ss0, ss, i) && trace == trace0 + FailSignals(i, failing, error)
    ensures InTrace(b, ss', trace') && AllToldUpTo(ss0, ss', i + 1)
    ensures trace' == trace0 + FailSignals(i + 1, failing, error)
  {
    OneMoreFailed(trace0, i, failing, error);
    assert ToldUpTo(ss0[i], ss[i], i < i);
    ss', trace' := FailOne(b, ss, trace, i, error, failing);
    OneMoreTold(ss0, ss, ss', i);
  }

  /// `finish` for one member after the other.
  method TellAll(ghost b: Batch, ss: seq<Solo>, trace: seq<Signal<Act>>, error: Error, failing: seq<seq<ConsumerMove>>)
    returns (ss': seq<Solo>, trace': seq<Signal<Act>>)
    requires InTrace(b, ss, trace) && Conclude(b.prepared) == Failing(error) && MovesOf(failing) <= b.moves
    requires AllToldUpTo(ss, ss, 0)
    ensures trace' == trace + FailSignals(|ss|, failing, error) && InTrace(b, ss', trace')
    ensures AllToldUpTo(ss, ss', |ss|)
  {
    ss', trace' := ss, trace;
    var i := 0;
    while i < |ss'|
      invariant 0 <= i <= |ss'| && InTrace(b, ss', trace') && AllToldUpTo(ss, ss', i)
      invariant trace' == trace + FailSignals(i, failing, error)
    {
      ss', trace' := TellOne(b, ss, trace, ss', trace', i, error, failing);
      i := i + 1;
    }
  }

  /// A failed preparation gives its error to exactly the members that have no outcome when their turn
  /// comes; a consumer may still leave before that.
  method FailAll(ghost b: Batch, ss: seq<Solo>, trace: seq<Signal<Act>>, error: Error, failing: seq<seq<ConsumerMove>>)
    returns (ss': seq<Solo>, trace': seq<Signal<Act>>)
    requires InTrace(b, ss, trace) && Conclude(b.prepared) == Failing(error) && MovesOf(failing) <= b.moves
    requires forall i :: 0 <= i < |b.capacities| ==> b.capacities[i] >= 1
    requires forall i :: 0 <= i < |ss| ==> ss[i].stage.Launching?
    ensures trace' == trace + FailSignals(|ss|, failing, error) && InTrace(b, ss', trace')
    ensures AllFailed(ss, ss', error)
  {
    ss', trace' := TellAll(b, ss, trace, error, failing);
    AllToldMeansAllFailed(b, ss, ss', trace', error);
  }

  function FailSignals(n: nat, failing: seq<seq<ConsumerMove>>, error: Error): seq<Signal<Act>> {
    if n == 0 then []
    else FailSignals(n - 1, failing, error) + SignalsOf(MovesAt(failing, n - 1)) + [To(n - 1, PrepareFailed(error))]
  }

  /// The members' futures: whoever is not pending has ended, and `failed` collects the failed ones.
  ghost predicate Driving(ss: seq<Solo>, pending: set<nat>, failed: bool) {
    && (forall i :: i in pending <==> 0 <= i < |ss| && !ss[i].stage.Ended?)
    && (failed <==> exists i :: 0 <= i < |ss| && i !in pending && ss[i].stage == Ended(true))
  }

  /// The trace after one more turn: a consumer's turn is its move, and the turn of a member whose future
  /// has not ended is that future's next act.
  function AfterTurn(capacities: seq<nat>, trace: seq<Signal<Act>>, streams: seq<Stream>, turn: Turn): seq<Signal<Act>>
    requires |streams| == |capacities|
  {
    match turn
    case ConsumerTurn(move) => trace + [To(move.member, if move.drops then DropHandle else Consume)]
    case TaskTurn(i, _, _, _) =>
      if i < |capacities| && !After(capacities, trace)[i].stage.Ended?
      then trace + [To(i, NextAct(After(capacities, trace)[i], streams[i], Shared))]
      else trace
  }

  function AfterTurns(capacities: seq<nat>, trace: seq<Signal<Act>>, streams: seq<Stream>, turns: seq<Turn>)
    : seq<Signal<Act>>
    requires |streams| == |capacities|
  {
    if |turns| == 0 then trace
    else
      var before := AfterTurns(capacities, trace, streams, turns[..|turns| - 1]);
      AfterTurn(capacities, before, streams, turns[|turns| - 1])
  }

  lemma {:induction false} OneTurnLater(capacities: seq<nat>, trace: seq<Signal<Act>>, streams: seq<Stream>,
                                        turns: seq<Turn>, t: nat)
    requires |streams| == |capacities| && t < |turns|
    ensures AfterTurns(capacities, trace, streams, turns[..t + 1])
         == AfterTurn(capacities, AfterTurns(capacities, trace, streams, turns[..t]), streams, turns[t])
  {
    assert turns[..t + 1][..t] == turns[..t];
  }

  /// The future has ended, and nothing has happened to the channel.
  ghost predicate EndedQuietly(r: Solo, r': Solo) {
    && r'.stage.Ended? && !r'.m.delivery && r'.yielded == r.yielded && r'.m.consumer == r.m.consumer
    && r'.m.buffer == r.m.buffer && r'.m.accepted == r.m.accepted && r'.m.received == r.m.received
    && (r.m.life.outcome.Some? ==> r'.m.life == r.m.life)
  }

  /// What one poll of a member's future does. A member that is not open when it starts, or when it has an
  /// item to send, ends at once: its stream is not even constructed, the item is lost. Otherwise every
  /// item is offered, waits for room, and is accepted; and the stream's end is the member's.
  lemma {:induction false} WhatAPollDoes(r: Solo, stream: Stream)
    requires SoloOk(r) && Follows(r, stream, Shared) && !r.stage.Ended?
    ensures var r' := Step(r, NextAct(r, stream, Shared));
            var here := r.m.delivery && !r.m.life.closed && r.m.life.outcome.None?;
            match r.stage
            case Launching =>
              if here && stream.constructorPanic.None? then r' == r.(stage := Polling)
              else EndedQuietly(r, r') && (here ==> EndsAs(stream, r'.m.life.outcome.value))
            case Polling =>
              if |r.yielded| < |stream.items| then
                var x := match stream.items[|r.yielded|]
                         case Good(v) => Ok(v)
                         case Bad(cause) => Err(TaskExecution(cause));
                r' == r.(stage := Offered(x), yielded := r.yielded + [x])
              else EndedQuietly(r, r') && (r.m.life.outcome.None? ==> EndsAs(stream, r'.m.life.outcome.value))
            case Offered(x) => if here then r' == r.(stage := Sending(x)) else EndedQuietly(r, r')
            case Sending(x) =>
              if r.m.consumer.Gone? then EndedQuietly(r, r')
              else if |r.m.buffer| == r.m.capacity then r' == r
              else r'.stage.Polling? && r'.m == r.m.(buffer := r.m.buffer + [x], accepted := r.m.accepted + [x])
            case _ => true
  {
  }

  /// A future that is polled moves on, unless it waits for room that its consumer has not made yet.
  lemma {:induction false} OnlyBackpressureStops(r: Solo, stream: Stream)
    requires SoloOk(r) && Follows(r, stream, Shared) && !r.stage.Ended?
    ensures Step(r, NextAct(r, stream, Shared)) == r <==>
              r.stage.Sending? && !r.m.consumer.Gone? && |r.m.buffer| == r.m.capacity
  {
    if r.stage.Sending? && SendAnswer(r.m).Sent? {
      assert Step(r, NextAct(r, stream, Shared)).stage.Polling?;
    }
  }

  /// One turn.
  method DriveTurn(ghost b: Batch, ss: seq<Solo>, trace: seq<Signal<Act>>, streams: seq<Stream>, turn: Turn,
                   pending: set<nat>, failed: bool)
    returns (ss': seq<Solo>, trace': seq<Signal<Act>>, pending': set<nat>, failed': bool)
    requires InTrace(b, ss, trace) && b.streams == streams && b.prepared.Shared? && TurnMoves(turn) <= b.moves
    requires Driving(ss, pending, failed)
    ensures InTrace(b, ss', trace') && Driving(ss', pending', failed')
    ensures trace' == AfterTurn(b.capacities, trace, streams, turn)
  {
    ss', trace', pending', failed' := ss, trace, pending, failed;
    if turn.ConsumerTurn? {
      assert turn.move in TurnMoves(turn);
      ss', trace' := LetConsumersMove(b, ss, trace, [turn.move]);
      ConsumersDoNotMatter(ss, ss', pending, failed);
      assert SignalsOf([turn.move]) == [To(turn.move.member, MoveAct(turn.move))];
    } else if turn.choice in pending {
      var i := turn.choice;
      ss', trace' := Deliver(b, ss, trace, i, NextAct(ss[i], streams[i], Shared));
      FutureMoves(ss, ss', pending, failed, i);
      if ss'[i].stage.Ended? {
        pending' := pending - {i};
        failed' := failed || ss'[i].stage.failed;
      }
    }
  }

  /// Polls the futures in whatever order the schedule says.
  method Drive(ghost b: Batch, ss: seq<Solo>, trace: seq<Signal<Act>>, streams: seq<Stream>, turns: seq<Turn>)
    returns (finished: bool, failed: bool, ss': seq<Solo>, trace': seq<Signal<Act>>, used: nat)
    requires InTrace(b, ss, trace) && b.streams == streams && b.prepared.Shared?
    requires forall i :: 0 <= i < |ss| ==> !ss[i].stage.Ended?
    requires forall t :: 0 <= t < |turns| ==> TurnMoves(turns[t]) <= b.moves
    ensures InTrace(b, ss', trace') && used <= |turns|
    ensures trace' == AfterTurns(b.capacities, trace, streams, turns[..used]) && (!finished ==> used == |turns|)
    ensures finished <==> forall i :: 0 <= i < |ss'| ==> ss'[i].stage.Ended?
    ensures finished ==> (failed <==> exists i :: 0 <= i < |ss'| && ss'[i].stage == Ended(true))
  {
    ss', trace', failed, used := ss, trace, false, 0;
    var pending := Indices(|ss|);
    while pending != {} && used < |turns|
      invariant used <= |turns| && InTrace(b, ss', trace') && Driving(ss', pending, failed)
      invariant trace' == AfterTurns(b.capacities, trace, streams, turns[..used])
      decreases |turns| - used
    {
      OneTurnLater(b.capacities, trace, streams, turns, used);
      ss', trace', pending, failed := DriveTurn(b, ss', trace', streams, turns[used], pending, failed);
      used := used + 1;
    }
    finished := pending == {};
  }

  lemma {:induction false} ConsumersDoNotMatter(ss: seq<Solo>, ss': seq<Solo>, pending: set<nat>, failed: bool)
    requires Driving(ss, pending, failed) && |ss'| == |ss|
    requires forall i :: 0 <= i < |ss| ==> OnlyConsumersMoved(ss[i], ss'[i])
    ensures Driving(ss', pending, failed)
  {
    forall i | 0 <= i < |ss|
      ensures ss'[i].stage == ss[i].stage
    {
      assert OnlyConsumersMoved(ss[i], ss'[i]);
    }
  }

  lemma {:induction false} FutureMoves(ss: seq<Solo>, ss': seq<Solo>, pending: set<nat>, failed: bool, i: nat)
    requires Driving(ss, pending, failed) && i in pending && |ss'| == |ss|
    requires forall k :: 0 <= k < |ss| && k != i ==> ss'[k] == ss[k]
    ensures if ss'[i].stage.Ended? then Driving(ss', pending - {i}, failed || ss'[i].stage.failed)
            else Driving(ss', pending, failed)
  {
    if failed {
      var k :| 0 <= k < |ss| && k !in pending && ss[k].stage == Ended(true);
      assert ss'[k].stage == Ended(true);
    }
    assert ss'[i].stage.Ended? ==> ss'[i].stage == Ended(ss'[i].stage.failed);
  }

  /// The members' futures, and the status they add up to.
  method RunMembers(ghost b: Batch, ss: seq<Solo>, trace: seq<Signal<Act>>, streams: seq<Stream>, turns: seq<Turn>)
    returns (exit: Exit, ss': seq<Solo>, trace': seq<Signal<Act>>, used: nat)
    requires InTrace(b, ss, trace) && b.streams == streams && b.prepared.Shared?
    requires forall i :: 0 <= i < |ss| ==> ss[i].stage.Launching?
    requires forall i :: 0 <= i < |b.capacities| ==> b.capacities[i] >= 1
    requires forall t :: 0 <= t < |turns| ==> TurnMoves(turns[t]) <= b.moves
    ensures InTrace(b, ss', trace') && used <= |turns| && (exit.StillRunning? ==> used == |turns|)
    ensures trace' == AfterTurns(b.capacities, trace, streams, turns[..used])
    ensures exit.Returned? ==> exit.status == if AnyFailed(ss') then Failed else Completed
    ensures exit.Returned? <==> forall i :: 0 <= i < |ss'| ==> ss'[i].stage.Ended?
  {
    var finished, failed;
    finished, failed, ss', trace', used := Drive(b, ss, trace, streams, turns);
    if !finished {
      return StillRunning, ss', trace', used;
    }
    FailuresAreCollected(b, ss', trace');
    return Exit.Returned(if failed then Failed else Completed), ss', trace', used;
  }

  lemma {:induction false} FailuresAreCollected(b: Batch, ss: seq<Solo>, trace: seq<Signal<Act>>)
    requires InTrace(b, ss, trace) && forall i :: 0 <= i < |b.capacities| ==> b.capacities[i] >= 1
    requires forall i :: 0 <= i < |ss| ==> ss[i].stage.Ended?
    ensures (exists i :: 0 <= i < |ss| && ss[i].stage == Ended(true)) <==> AnyFailed(ss)
  {
    forall i | 0 <= i < |ss|
      ensures ss[i].stage == Ended(HasFailed(ss[i].m.life))
    {
      MemberIsOk(b.capacities, trace, i);
      assert ss[i].stage == Ended(ss[i].stage.failed);
    }
    if AnyFailed(ss) {
      var i :| 0 <= i < |ss| && HasFailed(ss[i].m.life);
      assert ss[i].stage == Ended(true);
    }
  }

  /// Why the mode returned: everybody left while it prepared, or every member's future or turn ended.
  ghost predicate Concluded(ss: seq<Solo>) {
    AllCancelled(ss) || forall i :: 0 <= i < |ss| ==> ss[i].stage.Ended?
  }

  /// The mode is still running because the preparation has not ended - every turn that would have ended it
  /// went to a closure - or because some member's future has not ended: the trace is what the remaining
  /// turns made of the one the preparation left.
  ghost predicate StillBusy(b: Batch, turns: seq<Turn>, trace: seq<Signal<Act>>, used: nat, prepared: seq<Signal<Act>>)
    requires |b.streams| == |b.capacities|
  {
    || ReadyTurns(turns) < |b.capacities|
    || (b.prepared.Shared? && used <= |turns|
        && trace == AfterTurns(b.capacities, prepared, b.streams, turns[used..])
        && (exists i :: 0 <= i < |b.capacities| && !After(b.capacities, trace)[i].stage.Ended?)
        && forall i :: 0 <= i < |b.capacities| ==> After(b.capacities, prepared)[i].stage.Launching?)
  }

  /// The whole mode. Wherever it is, the members are where a genuine trace leads, so each member has the
  /// fate that its own stream and its own consumer give it, whether its consumer stayed or left.
  /// Whenever it returns, every member has its outcome and the status is `Failed` exactly when some
  /// outcome is an error.
  method RunIndependent(capacities: seq<nat>, earlier: seq<ConsumerMove>, streams: seq<Stream>, prepared: Prepared,
                        turns: seq<Turn>)
    returns (exit: Exit, ss: seq<Solo>, trace: seq<Signal<Act>>, used: nat, ghost before: seq<Signal<Act>>)
    requires |streams| == |capacities| && forall i :: 0 <= i < |capacities| ==> capacities[i] >= 1
    ensures InTrace(Batch(capacities, streams, prepared, AllMoves(earlier, turns)), ss, trace)
    ensures forall i :: 0 <= i < |ss| ==> HasItsFate(ss[i], streams[i], prepared)
    ensures exit.Returned? ==> Concluded(ss) && forall i :: 0 <= i < |ss| ==> ss[i].m.life.outcome.Some?
    ensures exit.Returned? ==> exit.status == if AnyFailed(ss) then Failed else Completed
    ensures exit.StillRunning? ==>
              StillBusy(Batch(capacities, streams, prepared, AllMoves(earlier, turns)), turns, trace, used, before)
  {
    before, used := [], 0;
    ghost var b := Batch(capacities, streams, prepared, AllMoves(earlier, turns));
    if |capacities| == 0 {
      return Exit.Returned(Completed), [], [], 0, [];
    }
    var result, driven;
    ghost var polled;
    result, ss, trace, used, polled := Prepare(b, capacities, earlier, prepared, turns);
    match result {
      case Unfinished => exit := StillRunning;
      case AllDeparted =>
        assert HasFailed(ss[0].m.life);
        exit := Exit.Returned(Failed);
      case Failing(error) =>
        ss, trace := FailAll(b, ss, trace, error, turns[used - 1].failing);
        assert HasFailed(ss[0].m.life);
        exit := Exit.Returned(Failed);
      case GoAhead =>
        before := trace;
        exit, ss, trace, driven := RunMembers(b, ss, trace, streams, turns[used..]);
        assert exit.StillRunning? ==> turns[used..][..driven] == turns[used..];
    }
    Fates(b, ss, trace);
  }

  lemma {:induction false} Fates(b: Batch, ss: seq<Solo>, trace: seq<Signal<Act>>)
    requires InTrace(b, ss, trace) && forall i :: 0 <= i < |b.capacities| ==> b.capacities[i] >= 1
    ensures forall i :: 0 <= i < |ss| ==> HasItsFate(ss[i], b.streams[i], b.prepared)
    ensures forall i :: 0 <= i < |ss| && ss[i].stage.Ended? ==> ss[i].m.life.outcome.Some?
  {
    forall i | 0 <= i < |ss|
      ensures HasItsFate(ss[i], b.streams[i], b.prepared) && (ss[i].stage.Ended? ==> ss[i].m.life.outcome.Some?)
    {
      MemberFollowsItsStream(b.capacities, trace, b.streams, b.prepared, b.moves, i);
    }
  }
}
