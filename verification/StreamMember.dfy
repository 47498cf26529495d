/// One member of a stream batch: its bounded channel, its lifecycle, and its consumer.

module StreamMembers {
  import opened Basics
  import opened Lifecycles

  type Value(==, !new)

  /// What a user stream carries; its errors are wrapped as task execution errors on the way.
  datatype TaskResult<+T> = Good(value: T) | Bad(cause: int)

  function Mapped<T>(r: TaskResult<T>): Result<T> {
    match r
    case Good(v) => Ok(v)
    case Bad(c) => Err(TaskExecution(c))
  }

  type Payload = Result<Value>

  /// The consumer's handle, and how far its destructor has got: it claims the outcome, sets the close
  /// flag, notifies whoever listens, and only then do the handle's fields - the receiver - go.
  datatype Consumer = Attached | Claimed | SignalClosed | Announced | Gone

  /// `delivery` is the sending half still being there; `announced` says that whoever closed the signal
  /// has notified its listeners. `accepted` and `received` are history
  /// variables: every item put into the channel, and every item the consumer took out of it.
  datatype Member = Member(
    capacity: nat,
    delivery: bool,
    life: Life,
    announced: bool,
    consumer: Consumer,
    buffer: seq<Payload>,
    received: seq<Payload>,
    accepted: seq<Payload>)

  const CANCELLED: Outcome := Err(ConsumerCancelled)

  function NewMember(capacity: nat): Member {
    Member(capacity, true, NewLife(true), false, Attached, [], [], [])
  }

  predicate IsOpenMember(m: Member) {
    m.delivery && IsOpen(m.life)
  }

  function Finish(m: Member, outcome: Outcome): Member {
    if m.delivery then EndLife(m, outcome).(delivery := false) else m
  }

  /// `set_terminal`: the call that records the outcome also closes the signal and notifies.
  function EndLife(m: Member, outcome: Outcome): Member {
    m.(life := Terminate(m.life, outcome), announced := m.announced || m.life.outcome.None?)
  }

  datatype SendResult = Sent | Full | Disconnected

  /// `mpsc::Sender::try_send` with a single sender.
  function SendAnswer(m: Member): SendResult {
    if m.consumer.Gone? then Disconnected
    else if |m.buffer| >= m.capacity then Full
    else Sent
  }

  function Accept(m: Member, x: Payload): Member {
    m.(buffer := m.buffer + [x], accepted := m.accepted + [x])
  }

  /// The consumer takes the next item, if there is one.
  function Pop(m: Member): Member {
    if m.consumer.Attached? && |m.buffer| > 0
    then m.(buffer := m.buffer[1..], received := m.received + [m.buffer[0]])
    else m
  }

  /// The consumer reads end of stream.
  predicate AtEnd(m: Member) {
    m.consumer.Attached? && !m.delivery && m.buffer == []
  }

  /// One step of the handle's destructor.
  function DropStep(m: Member): Member {
    match m.consumer
    case Attached => m.(consumer := Claimed, life := Claim(m.life, CANCELLED))
    case Claimed => m.(consumer := SignalClosed, life := CloseLife(m.life))
    case SignalClosed => m.(consumer := Announced, announced := true)
    case Announced => m.(consumer := Gone, buffer := [])
    case Gone => m
  }

  /// A consumer's move: taking an item, or one step of dropping its handle.
  datatype ConsumerMove = ConsumerMove(member: nat, drops: bool)

  function MovesOf(between: seq<seq<ConsumerMove>>): set<ConsumerMove> {
    set own, m | own in between && m in own :: m
  }

  /// The moves made just before step `k` of a loop.
  function MovesAt(between: seq<seq<ConsumerMove>>, k: nat): (own: seq<ConsumerMove>)
    ensures forall m :: m in own ==> m in MovesOf(between)
  {
    if k < |between| then between[k] else []
  }

  function Indices(n: nat): (s: set<nat>)
    ensures |s| == n && forall i: nat :: i in s <==> i < n
  {
    if n == 0 then {} else Indices(n - 1) + {n - 1}
  }

  lemma {:induction false} RemoveOne(s: set<nat>, x: nat)
    requires x in s
    ensures |s - {x}| == |s| - 1
  {
  }

  /// Whether the closure of a member is ready when it is polled. The flag is set before the listeners
  /// are notified: in between, only a closure that is polled for the first time notices, and `noticed`
  /// says whether it is one of those.
  predicate IsReady(m: Member, noticed: bool) {
    m.life.closed && (m.announced || noticed)
  }

  /// Any closure that is ready and has not been yielded yet may be next.
  method ReadyClosure(waiting: set<nat>, isReady: nat -> bool) returns (index: Option<nat>)
    ensures index.Some? ==> index.value in waiting && isReady(index.value)
    ensures index.None? ==> forall i :: i in waiting ==> !isReady(i)
  {
    var ready := set i | i in waiting && isReady(i);
    if ready == {} {
      forall i | i in waiting
        ensures !isReady(i)
      {
        assert i !in ready;
      }
      return None;
    }
    var i :| i in ready;
    return Some(i);
  }

  /// What every operation keeps: the channel never holds more than its capacity, nothing accepted is
  /// lost or reordered while the receiver exists, and no member is closed, abandoned or finished
  /// without an outcome.
  ghost predicate MemberOk(m: Member) {
    && m.capacity >= 1
    && |m.buffer| <= m.capacity
    && (if m.consumer.Gone? then m.buffer == [] && m.received <= m.accepted
        else m.received + m.buffer == m.accepted)
    && (m.life.closed ==> m.life.outcome.Some?)
    && (m.announced ==> m.life.closed)
    && (m.life.closed && !m.announced ==> m.consumer.SignalClosed?)
    && (!m.delivery ==> m.life.outcome.Some?)
    && (!m.consumer.Attached? ==> m.life.outcome.Some?)
    && (m.consumer.SignalClosed? || m.consumer.Announced? || m.consumer.Gone? ==> m.life.closed)
    && (m.life.outcome.Some? && m.consumer.Attached? ==> m.life.closed)
    && m.life.sent == (if m.life.outcome.Some? then [m.life.outcome.value] else [])
    && m.life.hasSetter == m.life.outcome.None?
  }

  lemma {:induction false} PopKeepsMember(m: Member)
    requires MemberOk(m)
    ensures MemberOk(Pop(m))
  {
    if m.consumer.Attached? && |m.buffer| > 0 {
      assert m.buffer == [m.buffer[0]] + m.buffer[1..];
    }
  }

  lemma {:induction false} AcceptKeepsMember(m: Member, x: Payload)
    requires MemberOk(m) && SendAnswer(m).Sent?
    ensures MemberOk(Accept(m, x))
  {
    assert m.received + (m.buffer + [x]) == m.accepted + [x];
  }

  lemma {:induction false} DropKeepsMember(m: Member)
    requires MemberOk(m)
    ensures MemberOk(DropStep(m))
  {
  }

  lemma {:induction false} FinishKeepsMember(m: Member, outcome: Outcome)
    requires MemberOk(m)
    ensures MemberOk(Finish(m, outcome))
  {
  }

  function PopTimes(m: Member, n: nat): Member
    decreases n
  {
    if n == 0 then m else PopTimes(Pop(m), n - 1)
  }

  /// A finished member drains: its consumer receives everything that had been accepted, in order, and
  /// then the end of the stream - not earlier - while the outcome stays what it was.
  lemma {:induction false} FinishedMemberDrains(m: Member)
    requires MemberOk(m) && m.consumer.Attached? && !m.delivery
    ensures var drained := PopTimes(m, |m.buffer|);
            AtEnd(drained) && drained.received == m.accepted && drained.life == m.life
    ensures forall n :: 0 <= n < |m.buffer| ==> !AtEnd(PopTimes(m, n))
    decreases |m.buffer|
  {
    if |m.buffer| > 0 {
      PopKeepsMember(m);
      FinishedMemberDrains(Pop(m));
      forall n | 0 <= n < |m.buffer|
        ensures !AtEnd(PopTimes(m, n))
      {
        if n > 0 {
          assert PopTimes(m, n) == PopTimes(Pop(m), n - 1);
        }
      }
    }
  }
}
