/// A stream member as the objects it is made of: the producer's handle, the consumer's handle, and the
/// lifecycle that both of them share with the batch's own record. Each operation is tied to its
/// transition on StreamMembers.Member, which is what the mode loops are written in.

module StreamObjects {
  import opened Basics
  import opened Lifecycles
  import opened StreamMembers

  /// A bounded channel with one sender.
  class Channel {
    const capacity: nat
    var receiverGone: bool
    var buffer: seq<Payload>
    ghost var accepted: seq<Payload>
    ghost var received: seq<Payload>

    constructor (capacity: nat)
      ensures this.capacity == capacity && !receiverGone && buffer == [] && accepted == [] && received == []
    {
      this.capacity, receiverGone, buffer, accepted, received := capacity, false, [], [], [];
    }

    method TrySend(x: Payload) returns (result: SendResult)
      modifies this
      ensures result == if receiverGone then Disconnected else if old(|buffer|) >= capacity then Full else Sent
      ensures receiverGone == old(receiverGone) && received == old(received)
      ensures buffer == if result.Sent? then old(buffer) + [x] else old(buffer)
      ensures accepted == if result.Sent? then old(accepted) + [x] else old(accepted)
    {
      if receiverGone {
        return Disconnected;
      }
      if |buffer| >= capacity {
        return Full;
      }
      buffer, accepted := buffer + [x], accepted + [x];
      return Sent;
    }
  }

  /// The member's state, wherever its pieces live.
  ghost function StateOf(channel: Channel, lifecycle: StreamLifecycle, delivery: bool): Member
    reads channel, lifecycle, if lifecycle.result.Some? then {lifecycle.result.value} else {}
  {
    Member(channel.capacity, delivery, lifecycle.Value(), lifecycle.notifications > 0,
           if channel.receiverGone then Gone else Attached, channel.buffer, channel.received, channel.accepted)
  }

  /// `JobStreamHandle::new`: a capacity the channel can be built with, or an error; the sender's own
  /// slot makes up for the one that is subtracted.
  method NewStream(capacity: nat) returns (r: Result<(JobStream, StreamDelivery)>)
    ensures r.Ok? <==> 1 <= capacity <= LARGEST_BUFFER
    ensures r.Err? ==> r.error == InvalidStreamCapacity(capacity)
    ensures r.Ok? ==>
              var (items, delivery) := r.value;
              && fresh(items) && fresh(delivery) && fresh(items.channel) && fresh(items.lifecycle)
              && items.channel == delivery.channel && items.lifecycle == delivery.lifecycle
              && items.lifecycle.Valid() && items.lifecycle.receiverDropError == Some(ConsumerCancelled)
              && items.lifecycle.result.Some? && fresh(items.lifecycle.result.value)
              && StateOf(items.channel, items.lifecycle, true) == NewMember(capacity)
  {
    if capacity == 0 || capacity - 1 >= LARGEST_BUFFER {
      return Err(InvalidStreamCapacity(capacity));
    }
    var setter := new JobFutureSetter<()>();
    var lifecycle := new StreamLifecycle(Some(setter), Some(ConsumerCancelled));
    var channel := new Channel(capacity - 1 + 1);
    var items := new JobStream(channel, lifecycle);
    var delivery := new StreamDelivery(channel, lifecycle);
    return Ok((items, delivery));
  }

  /// `usize::MAX >> 2` on a 64-bit machine.
  const LARGEST_BUFFER: nat := 0x3FFF_FFFF_FFFF_FFFF

  class StreamDelivery {
    const channel: Channel
    const lifecycle: StreamLifecycle

    constructor (channel: Channel, lifecycle: StreamLifecycle)
      ensures this.channel == channel && this.lifecycle == lifecycle
    {
      this.channel, this.lifecycle := channel, lifecycle;
    }
  }

  /// `Ok`, or the error that hands the item back.
  datatype SendOutcome = Delivered | FullWith(item: Payload) | ClosedWith(item: Payload)

  class StreamBatchMember {
    const lifecycle: StreamLifecycle
    ghost const channel: Channel
    var delivery: Option<StreamDelivery>

    ghost predicate Valid()
      reads this, lifecycle, if lifecycle.result.Some? then {lifecycle.result.value} else {}
    {
      && lifecycle.Valid()
      && (delivery.Some? ==> delivery.value.channel == channel && delivery.value.lifecycle == lifecycle)
    }

    ghost function Value(): Member
      reads this, channel, lifecycle, if lifecycle.result.Some? then {lifecycle.result.value} else {}
    {
      StateOf(channel, lifecycle, delivery.Some?)
    }

    constructor (delivery: StreamDelivery)
      requires delivery.lifecycle.Valid()
      ensures Valid() && lifecycle == delivery.lifecycle && channel == delivery.channel
      ensures Value() == StateOf(delivery.channel, delivery.lifecycle, true)
    {
      this.lifecycle, this.channel, this.delivery := delivery.lifecycle, delivery.channel, Some(delivery);
    }

    method IsOpen() returns (answer: bool)
      requires Valid()
      ensures answer == IsOpenMember(Value())
    {
      answer := delivery.Some? && !lifecycle.closed && lifecycle.outcome.None?;
    }

    /// Without a consumer moving in between: a closed member takes nothing, and what the channel does
    /// not take comes back.
    method TrySend(item: Payload) returns (outcome: SendOutcome)
      requires Valid()
      modifies channel
      ensures Valid()
      ensures outcome.Delivered? <==> IsOpenMember(old(Value())) && SendAnswer(old(Value())).Sent?
      ensures outcome.FullWith? <==> IsOpenMember(old(Value())) && SendAnswer(old(Value())).Full?
      ensures outcome.FullWith? || outcome.ClosedWith? ==> outcome.item == item
      ensures Value() == if outcome.Delivered? then Accept(old(Value()), item) else old(Value())
    {
      var isOpen := IsOpen();
      if !isOpen {
        return ClosedWith(item);
      }
      var result := delivery.value.channel.TrySend(item);
      match result {
        case Sent => return Delivered;
        case Full => return FullWith(item);
        case Disconnected => return ClosedWith(item);
      }
    }

    method Finish(outcome: Outcome)
      requires Valid()
      modifies this, lifecycle, if lifecycle.result.Some? then {lifecycle.result.value} else {}
      ensures Valid() && Value() == StreamMembers.Finish(old(Value()), outcome)
    {
      if delivery.Some? {
        var taken := delivery.value;
        delivery := None;
        var _ := taken.lifecycle.SetTerminal(outcome);
      }
    }
  }

  /// The receiving end.
  class JobStream {
    const channel: Channel
    const lifecycle: StreamLifecycle

    constructor (channel: Channel, lifecycle: StreamLifecycle)
      ensures this.channel == channel && this.lifecycle == lifecycle
    {
      this.channel, this.lifecycle := channel, lifecycle;
    }

    /// Polls for the next item.
    method Poll(ghost delivery: bool) returns (item: Option<Payload>)
      requires !channel.receiverGone
      modifies channel
      ensures item == if old(channel.buffer) == [] then None else Some(old(channel.buffer)[0])
      ensures StateOf(channel, lifecycle, delivery) == Pop(old(StateOf(channel, lifecycle, delivery)))
    {
      if channel.buffer == [] {
        return None;
      }
      item := Some(channel.buffer[0]);
      channel.received := channel.received + [channel.buffer[0]];
      channel.buffer := channel.buffer[1..];
    }

    /// The destructor, and then the receiver's own.
    method Drop(ghost delivery: bool)
      requires lifecycle.Valid() && lifecycle.receiverDropError == Some(ConsumerCancelled) && !channel.receiverGone
      modifies channel, lifecycle, if lifecycle.result.Some? then {lifecycle.result.value} else {}
      ensures lifecycle.Valid()
      ensures StateOf(channel, lifecycle, delivery)
           == DropStep(DropStep(DropStep(DropStep(old(StateOf(channel, lifecycle, delivery))))))
    {
      lifecycle.ReceiverDropped();
      channel.receiverGone := true;
      channel.buffer := [];
    }
  }

  // ---------------------------------------------------------------- the batch's own record

  ghost function Footprint(l: StreamLifecycle): set<object> {
    {l} + (if l.result.Some? then {l.result.value} else {})
  }

  ghost predicate Separate(lifecycles: seq<StreamLifecycle>) {
    forall i, j :: 0 <= i < j < |lifecycles| ==> Footprint(lifecycles[i]) !! Footprint(lifecycles[j])
  }

  ghost predicate Is(l: StreamLifecycle, life: Life)
    reads Footprint(l)
  {
    l.Valid() && l.Value() == life
  }

  ghost function Everything(lifecycles: seq<StreamLifecycle>): (s: set<object>)
    ensures forall l :: l in lifecycles ==> Footprint(l) <= s
  {
    set l, o | l in lifecycles && o in Footprint(l) :: o
  }

  ghost predicate AllAre(lifecycles: seq<StreamLifecycle>, lives: seq<Life>)
    reads Everything(lifecycles)
  {
    |lives| == |lifecycles| && forall i :: 0 <= i < |lifecycles| ==> Is(lifecycles[i], lives[i])
  }

  function Terminated(lives: seq<Life>, k: nat, outcome: Outcome): (s: seq<Life>)
    ensures |s| == |lives|
    ensures forall i :: 0 <= i < |lives| ==> s[i] == if i < k then Terminate(lives[i], outcome) else lives[i]
  {
    seq(|lives|, i requires 0 <= i < |lives| => if i < k then Terminate(lives[i], outcome) else lives[i])
  }

  lemma {:induction false} OneMore(lives: seq<Life>, k: nat, outcome: Outcome)
    requires k < |lives|
    ensures Terminated(lives, 0, outcome) == lives
    ensures Terminated(lives, k + 1, outcome) == Terminated(lives, k, outcome)[k := Terminate(lives[k], outcome)]
  {
  }

  method SettleOne(l: StreamLifecycle, ghost life: Life, outcome: Outcome)
    requires Is(l, life)
    modifies Footprint(l)
    ensures Is(l, Terminate(life, outcome))
  {
    var _ := l.SetTerminal(outcome);
  }

  method SettleAt(lifecycles: seq<StreamLifecycle>, k: nat, ghost lives: seq<Life>, outcome: Outcome)
    requires Separate(lifecycles) && AllAre(lifecycles, lives) && k < |lifecycles|
    modifies Footprint(lifecycles[k])
    ensures AllAre(lifecycles, lives[k := Terminate(lives[k], outcome)])
  {
    SettleOne(lifecycles[k], lives[k], outcome);
    assert forall i :: 0 <= i < |lifecycles| && i != k ==> Footprint(lifecycles[i]) !! Footprint(lifecycles[k]);
  }

  class BatchCompletion {
    const lifecycles: seq<StreamLifecycle>

    constructor (lifecycles: seq<StreamLifecycle>)
      ensures this.lifecycles == lifecycles
    {
      this.lifecycles := lifecycles;
    }

    /// A lifecycle that has an outcome stays as it is; every other one gets this one.
    method FailUnfinished(error: Error, ghost lives: seq<Life>)
      requires Separate(lifecycles) && AllAre(lifecycles, lives)
      modifies Everything(lifecycles)
      ensures AllAre(lifecycles, Terminated(lives, |lives|, Err(error)))
    {
      var k := 0;
      while k < |lifecycles|
        invariant 0 <= k <= |lifecycles| && AllAre(lifecycles, Terminated(lives, k, Err(error)))
      {
        assert lifecycles[k] in lifecycles;
        SettleAt(lifecycles, k, Terminated(lives, k, Err(error)), Err(error));
        OneMore(lives, k, Err(error));
        k := k + 1;
      }
    }

    method HasFailure() returns (answer: bool)
      requires forall i :: 0 <= i < |lifecycles| ==> lifecycles[i].Valid()
      ensures answer <==> exists i :: 0 <= i < |lifecycles| && HasFailed(lifecycles[i].Value())
    {
      var k := 0;
      while k < |lifecycles|
        invariant 0 <= k <= |lifecycles|
        invariant forall i :: 0 <= i < k ==> !HasFailed(lifecycles[i].Value())
      {
        if lifecycles[k].outcome.Some? && lifecycles[k].outcome.value.Err? {
          return true;
        }
        k := k + 1;
      }
      return false;
    }
  }
}
