/// How the multiplexed mode treats one member, at the granularity at which its consumer can interfere,
/// and an independent account of what that member is owed.

module Routing {
  import opened Basics
  import Isolation
  import opened StreamMembers

  /// A producer event, without its index.
  datatype Event = Item(item: TaskResult<Value>) | Finished(outcome: TaskResult<()>)

  /// Where the routing loop is with the event it took for this member: it checks `is_open`, then
  /// `try_send` checks again, then the channel is asked.
  datatype Gate = Idle | Checked(event: Event) | Ready(payload: Payload)

  datatype Routed = Routed(m: Member, gate: Gate)

  /// Everything that can happen to one member. The first four are the loop's, the last two the consumer's.
  datatype Act = Begin(event: Event) | Advance | ProducerEnd | ClosureYield | Consume | DropHandle

  function NewRouted(capacity: nat): Routed {
    Routed(NewMember(capacity), Idle)
  }

  /// The loop's next move on the event it holds.
  function AdvanceStep(r: Routed): Routed {
    match r.gate
    case Idle => r
    case Checked(Finished(o)) => Routed(Finish(r.m, Mapped(o)), Idle)
    case Checked(Item(x)) =>
      if IsOpenMember(r.m) then r.(gate := Ready(Mapped(x)))
      else Routed(Finish(r.m, CANCELLED), Idle)
    case Ready(x) =>
      match SendAnswer(r.m) {
        case Sent => Routed(Accept(r.m, x), Idle)
        case Full => Routed(Finish(r.m, Err(ConsumerLag)), Idle)
        case Disconnected => Routed(Finish(r.m, CANCELLED), Idle)
      }
  }

  function Step(r: Routed, a: Act): Routed {
    match a
    case Begin(e) => if r.gate.Idle? && IsOpenMember(r.m) then r.(gate := Checked(e)) else r
    case Advance => AdvanceStep(r)
    case ProducerEnd => if r.gate.Idle? then r.(m := Finish(r.m, Ok(()))) else r
    case ClosureYield => if r.gate.Idle? && r.m.life.closed then r.(m := Finish(r.m, CANCELLED)) else r
    case Consume => r.(m := Pop(r.m))
    case DropHandle => r.(m := DropStep(r.m))
  }

  function Run(r: Routed, acts: seq<Act>): Routed {
    Isolation.Run(Step, r, acts)
  }

  lemma {:induction false} RunMore(r: Routed, acts: seq<Act>)
    requires |acts| > 0
    ensures Run(r, acts) == Step(Run(r, acts[..|acts| - 1]), acts[|acts| - 1])
    ensures Step(Run(r, acts[..|acts| - 1]), acts[|acts| - 1]).m.capacity == Run(r, acts[..|acts| - 1]).m.capacity
  {
  }

  // ---------------------------------------------------------------- one event on its own

  function Undisturbed(r: Routed, e: Event): Routed {
    Step(Step(Step(r, Begin(e)), Advance), Advance)
  }

  /// The member has been finished with this outcome, and nothing else has happened to it.
  ghost predicate FinishedWith(m: Member, m': Member, outcome: Outcome) {
    && !m'.delivery && m'.life.outcome == Some(outcome) && m'.life.closed && m'.announced
    && m'.life.sent == [outcome] && m'.buffer == m.buffer && m'.accepted == m.accepted
    && m'.received == m.received && m'.consumer == m.consumer
  }

  /// What an event comes to for an open member when no consumer moves in between: an item is buffered
  /// if there is room, and fails the member if there is none; a finish finishes it; and the user's errors
  /// become task errors on the way.
  lemma {:induction false} AnEventOnItsOwn(m: Member, e: Event)
    requires MemberOk(m) && m.delivery && m.life.outcome.None?
    ensures var r := Undisturbed(Routed(m, Idle), e);
            && r.gate.Idle?
            && (match e
                case Finished(Good(end)) => FinishedWith(m, r.m, Ok(end))
                case Finished(Bad(cause)) => FinishedWith(m, r.m, Err(TaskExecution(cause)))
                case Item(item) =>
                  var payload := match item case Good(v) => Ok(v) case Bad(cause) => Err(TaskExecution(cause));
                  if |m.buffer| < m.capacity
                  then r.m == m.(buffer := m.buffer + [payload], accepted := m.accepted + [payload])
                  else FinishedWith(m, r.m, Err(ConsumerLag)))
  {
  }

  /// A member that is not open any more does not notice.
  lemma {:induction false} AnEventTooLate(m: Member, e: Event)
    requires m.life.outcome.Some? || m.life.closed || !m.delivery
    ensures Undisturbed(Routed(m, Idle), e) == Routed(m, Idle)
  {
  }

  // ---------------------------------------------------------------- the reference

  /// What matters about a member's history, each entry at the moment it took effect.
  datatype Mark = MItem(payload: Payload) | MFinish(outcome: Outcome) | MEnd | MDrop | MPop

  function MarkOf(e: Event): (mark: Mark)
    ensures match e
            case Item(Good(v)) => mark == MItem(Ok(v))
            case Item(Bad(cause)) => mark == MItem(Err(TaskExecution(cause)))
            case Finished(Good(end)) => mark == MFinish(Ok(end))
            case Finished(Bad(cause)) => mark == MFinish(Err(TaskExecution(cause)))
  {
    match e
    case Item(x) => MItem(Mapped(x))
    case Finished(o) => MFinish(Mapped(o))
  }

  /// Items in a channel of unlimited capacity.
  function Load(marks: seq<Mark>): nat
    decreases |marks|
  {
    if |marks| == 0 then 0
    else
      var n := Load(marks[..|marks| - 1]);
      match marks[|marks| - 1]
      case MItem(_) => n + 1
      case MPop => if n > 0 then n - 1 else 0
      case _ => n
  }

  function ItemsOf(marks: seq<Mark>): seq<Payload>
    decreases |marks|
  {
    if |marks| == 0 then []
    else
      var items := ItemsOf(marks[..|marks| - 1]);
      if marks[|marks| - 1].MItem? then items + [marks[|marks| - 1].payload] else items
  }

  /// Mark `k` would end the member's stream: its producer or its consumer leaves, or an item arrives
  /// while `capacity` items are waiting.
  predicate Cuts(marks: seq<Mark>, k: nat, capacity: nat)
    requires k < |marks|
  {
    match marks[k]
    case MItem(_) => Load(marks[..k]) >= capacity
    case MPop => false
    case _ => true
  }

  /// The first mark that ends the stream, if any.
  function CutOf(marks: seq<Mark>, capacity: nat): (cut: Option<nat>)
    ensures cut.Some? ==> cut.value < |marks|
    decreases |marks|
  {
    if |marks| == 0 then None
    else
      var earlier := CutOf(marks[..|marks| - 1], capacity);
      if earlier.Some? then earlier
      else if Cuts(marks, |marks| - 1, capacity) then Some(|marks| - 1)
      else None
  }

  lemma {:induction false} CutIsFirst(marks: seq<Mark>, capacity: nat)
    ensures var cut := CutOf(marks, capacity);
            && (cut.Some? ==> Cuts(marks, cut.value, capacity))
            && (forall k :: 0 <= k < (if cut.Some? then cut.value else |marks|) ==> !Cuts(marks, k, capacity))
    decreases |marks|
  {
    if |marks| > 0 {
      var shorter := marks[..|marks| - 1];
      CutIsFirst(shorter, capacity);
      forall k | 0 <= k < |shorter|
        ensures Cuts(marks, k, capacity) == Cuts(shorter, k, capacity)
      {
        assert marks[..k] == shorter[..k];
      }
    }
  }

  function VerdictAt(marks: seq<Mark>, k: nat): Outcome
    requires k < |marks|
  {
    match marks[k]
    case MFinish(o) => o
    case MEnd => Ok(())
    case MDrop => CANCELLED
    case _ => Err(ConsumerLag)
  }

  /// The member's outcome.
  function Owed(marks: seq<Mark>, capacity: nat): Option<Outcome> {
    var cut := CutOf(marks, capacity);
    if cut.Some? then Some(VerdictAt(marks, cut.value)) else None
  }

  /// The member's items.
  function OwedItems(marks: seq<Mark>, capacity: nat): seq<Payload> {
    var cut := CutOf(marks, capacity);
    ItemsOf(if cut.Some? then marks[..cut.value] else marks)
  }

  // ---------------------------------------------------------------- from acts to marks

  /// The mark an act leaves. An event that finds the member closed leaves its mark at once; one that
  /// passes the check leaves it when the loop is done with it.
  function MarksOf(r: Routed, a: Act): seq<Mark> {
    match a
    case Begin(e) => if r.gate.Idle? && !IsOpenMember(r.m) then [MarkOf(e)] else []
    case Advance =>
      (match r.gate
       case Idle => []
       case Checked(e) => if e.Finished? || !IsOpenMember(r.m) then [MarkOf(e)] else []
       case Ready(x) => [MItem(x)])
    case ProducerEnd => if r.gate.Idle? then [MEnd] else []
    case ClosureYield => []
    case Consume => if r.m.consumer.Attached? && |r.m.buffer| > 0 then [MPop] else []
    case DropHandle => if r.m.consumer.Attached? then [MDrop] else []
  }

  function History(r: Routed, acts: seq<Act>): seq<Mark>
    decreases |acts|
  {
    if |acts| == 0 then []
    else History(r, acts[..|acts| - 1]) + MarksOf(Run(r, acts[..|acts| - 1]), acts[|acts| - 1])
  }

  // ---------------------------------------------------------------- the two agree

  /// The reference's account of a history, in one record.
  datatype Account = Account(outcome: Option<Outcome>, items: seq<Payload>, load: nat)

  function AccountOf(marks: seq<Mark>, capacity: nat): Account {
    Account(Owed(marks, capacity), OwedItems(marks, capacity), Load(marks))
  }

  /// How one more mark changes the account.
  function Extend(acc: Account, mark: Mark, capacity: nat): Account {
    var load := match mark
                case MItem(_) => acc.load + 1
                case MPop => if acc.load > 0 then acc.load - 1 else 0
                case _ => acc.load;
    if acc.outcome.Some? then acc.(load := load)
    else match mark
      case MItem(x) =>
        if acc.load >= capacity then Account(Some(Err(ConsumerLag)), acc.items, load)
        else Account(None, acc.items + [x], load)
      case MPop => acc.(load := load)
      case MFinish(o) => Account(Some(o), acc.items, load)
      case MEnd => Account(Some(Ok(())), acc.items, load)
      case MDrop => Account(Some(CANCELLED), acc.items, load)
  }

  function ExtendAll(acc: Account, marks: seq<Mark>, capacity: nat): Account
    requires |marks| <= 1
  {
    if |marks| == 0 then acc else Extend(acc, marks[0], capacity)
  }

  lemma {:induction false} AccountAppend(marks: seq<Mark>, mark: Mark, capacity: nat)
    ensures AccountOf(marks + [mark], capacity) == Extend(AccountOf(marks, capacity), mark, capacity)
  {
    var longer := marks + [mark];
    assert longer[..|longer| - 1] == marks;
    var cut := CutOf(marks, capacity);
    if cut.Some? {
      assert longer[..cut.value] == marks[..cut.value];
    } else {
      assert longer[..|marks|] == marks;
    }
  }

  /// The running member and the account agree. Only when its consumer has left can the channel have
  /// taken one item more than is owed: the one the loop had in hand, which nobody will ever receive.
  ghost predicate Agrees(r: Routed, acc: Account) {
    var m := r.m;
    && m.life.outcome == acc.outcome
    && m.received <= acc.items
    && (acc.outcome.None? ==> m.delivery && m.consumer.Attached? && m.accepted == acc.items && |m.buffer| == acc.load)
    && (acc.outcome.Some? && m.consumer.Attached? ==> r.gate.Idle? && m.accepted == acc.items)
    && (acc.outcome.Some? && !m.consumer.Attached? ==>
          m.accepted == acc.items || (r.gate.Idle? && |m.accepted| == |acc.items| + 1 && acc.items <= m.accepted))
  }

  lemma {:induction false} AdvanceKeepsMember(r: Routed)
    requires MemberOk(r.m)
    ensures MemberOk(AdvanceStep(r).m)
  {
    match r.gate
    case Idle =>
    case Checked(Finished(o)) => FinishKeepsMember(r.m, Mapped(o));
    case Checked(Item(_)) => FinishKeepsMember(r.m, CANCELLED);
    case Ready(x) =>
      FinishKeepsMember(r.m, Err(ConsumerLag));
      FinishKeepsMember(r.m, CANCELLED);
      if SendAnswer(r.m).Sent? {
        AcceptKeepsMember(r.m, x);
      }
  }

  lemma {:induction false} ActKeepsMember(r: Routed, a: Act)
    requires MemberOk(r.m)
    ensures MemberOk(Step(r, a).m)
  {
    match a
    case Begin(_) =>
    case Advance => AdvanceKeepsMember(r);
    case ProducerEnd => FinishKeepsMember(r.m, Ok(()));
    case ClosureYield => FinishKeepsMember(r.m, CANCELLED);
    case Consume => PopKeepsMember(r.m);
    case DropHandle => DropKeepsMember(r.m);
  }

  lemma {:induction false} AdvanceAgrees(r: Routed, acc: Account)
    requires MemberOk(r.m) && Agrees(r, acc)
    ensures Agrees(AdvanceStep(r), ExtendAll(acc, MarksOf(r, Advance), r.m.capacity))
  {
  }

  lemma {:induction false} StepAgrees(r: Routed, acc: Account, a: Act)
    requires MemberOk(r.m) && Agrees(r, acc)
    ensures MemberOk(Step(r, a).m) && Agrees(Step(r, a), ExtendAll(acc, MarksOf(r, a), r.m.capacity))
  {
    ActKeepsMember(r, a);
    if a.Advance? {
      AdvanceAgrees(r, acc);
    }
  }

  lemma {:induction false} RunAgrees(capacity: nat, acts: seq<Act>)
    requires capacity >= 1
    ensures var r := Run(NewRouted(capacity), acts);
            && MemberOk(r.m) && r.m.capacity == capacity
            && Agrees(r, AccountOf(History(NewRouted(capacity), acts), capacity))
    decreases |acts|
  {
    if |acts| > 0 {
      var shorter := acts[..|acts| - 1];
      RunAgrees(capacity, shorter);
      var r := Run(NewRouted(capacity), shorter);
      var marks := History(NewRouted(capacity), shorter);
      var added := MarksOf(r, acts[|acts| - 1]);
      RunMore(NewRouted(capacity), acts);
      StepAgrees(r, AccountOf(marks, capacity), acts[|acts| - 1]);
      if |added| == 0 {
        assert marks + added == marks;
      } else {
        assert added == [added[0]];
        AccountAppend(marks, added[0], capacity);
      }
    }
  }

  /// What a member's consumer and its result future get, in any interleaving of the loop's moves with
  /// the consumer's: the outcome is decided by the first mark that ends the stream; what was received
  /// is a prefix of the items before that mark; and a consumer that stayed finds all of them accepted.
  lemma {:induction false} MemberGetsWhatItIsOwed(capacity: nat, acts: seq<Act>)
    requires capacity >= 1
    ensures var m := Run(NewRouted(capacity), acts).m;
            var marks := History(NewRouted(capacity), acts);
            && m.life.outcome == Owed(marks, capacity)
            && m.life.sent == (if m.life.outcome.Some? then [m.life.outcome.value] else [])
            && m.received <= OwedItems(marks, capacity)
            && |m.buffer| <= capacity
            && (m.consumer.Attached? ==>
                  m.accepted == OwedItems(marks, capacity) && m.received + m.buffer == m.accepted)
  {
    RunAgrees(capacity, acts);
  }

  // ---------------------------------------------------------------- marks are the producer's events

  predicate FromProducer(mark: Mark) {
    mark.MItem? || mark.MFinish?
  }

  function ProducerMarks(marks: seq<Mark>): seq<Mark>
    decreases |marks|
  {
    if |marks| == 0 then []
    else
      var earlier := ProducerMarks(marks[..|marks| - 1]);
      if FromProducer(marks[|marks| - 1]) then earlier + [marks[|marks| - 1]] else earlier
  }

  function InHand(gate: Gate): seq<Mark> {
    match gate
    case Idle => []
    case Checked(e) => [MarkOf(e)]
    case Ready(x) => [MItem(x)]
  }

  /// The event an act makes the loop take.
  function TakenBy(r: Routed, a: Act): seq<Mark> {
    if a.Begin? && r.gate.Idle? then [MarkOf(a.event)] else []
  }

  /// The events the loop took for this member, in the order it took them.
  function Taken(r: Routed, acts: seq<Act>): seq<Mark>
    decreases |acts|
  {
    if |acts| == 0 then []
    else Taken(r, acts[..|acts| - 1]) + TakenBy(Run(r, acts[..|acts| - 1]), acts[|acts| - 1])
  }

  function PassedOn(added: seq<Mark>): seq<Mark> {
    if |added| == 1 && FromProducer(added[0]) then added else []
  }

  lemma {:induction false} Regroup(p: seq<Mark>, held: seq<Mark>, taken: seq<Mark>, passed: seq<Mark>, held': seq<Mark>)
    requires held + taken == passed + held'
    ensures (p + passed) + held' == (p + held) + taken
  {
    assert (p + held) + taken == p + (held + taken);
  }

  lemma {:induction false} StepPassesEventsOn(r: Routed, a: Act)
    ensures var added := MarksOf(r, a);
            && |added| <= 1
            && InHand(r.gate) + TakenBy(r, a)
               == PassedOn(added) + InHand(Step(r, a).gate)
  {
  }

  lemma {:induction false} ProducerMarksAppend(marks: seq<Mark>, added: seq<Mark>)
    requires |added| <= 1
    ensures ProducerMarks(marks + added) == ProducerMarks(marks) + PassedOn(added)
  {
    if |added| == 0 {
      assert marks + added == marks;
    } else {
      assert (marks + added)[..|marks|] == marks;
    }
  }

  /// The history's producer marks are exactly the events taken, in order, but for the one in hand: no
  /// event is invented, lost, doubled or reordered on the way into the reference.
  lemma {:induction false} MarksAreTheEvents(capacity: nat, acts: seq<Act>)
    ensures ProducerMarks(History(NewRouted(capacity), acts)) + InHand(Run(NewRouted(capacity), acts).gate)
         == Taken(NewRouted(capacity), acts)
    decreases |acts|
  {
    if |acts| > 0 {
      var shorter := acts[..|acts| - 1];
      var a := acts[|acts| - 1];
      var r := Run(NewRouted(capacity), shorter);
      var marks := History(NewRouted(capacity), shorter);
      MarksAreTheEvents(capacity, shorter);
      StepPassesEventsOn(r, a);
      ProducerMarksAppend(marks, MarksOf(r, a));
      Regroup(ProducerMarks(marks), InHand(r.gate), TakenBy(r, a), PassedOn(MarksOf(r, a)), InHand(Step(r, a).gate));
    }
  }
}
