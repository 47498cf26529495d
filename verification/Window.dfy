/// The batching window: a pair of aligned vectors and a sealed flag behind one mutex.
/// Every method of `Window` runs inside one critical section, so the pure transitions on
/// `WindowValue` are what the admission protocol takes as its atomic window steps.

module Windows {

  datatype WindowValue<I, D> = WindowValue(inputs: seq<I>, deliveries: seq<D>, sealed: bool)

  function OpenWith<I, D>(maxSize: nat, input: I, delivery: D): (v: WindowValue<I, D>)
  {
    WindowValue([input], [delivery], maxSize <= 1)
  }

  function PushInto<I, D>(v: WindowValue<I, D>, maxSize: nat, input: I, delivery: D): (r: WindowValue<I, D>)
    requires !v.sealed
  {
    WindowValue(v.inputs + [input], v.deliveries + [delivery], |v.inputs| + 1 >= maxSize)
  }

  function CloseValue<I, D>(v: WindowValue<I, D>): (r: WindowValue<I, D>)
  {
    v.(sealed := true)
  }

  function SealValue<I, D>(v: WindowValue<I, D>): (r: WindowValue<I, D>)
  {
    WindowValue([], [], true)
  }

  class Window<I, D> {
    const maxSize: nat
    var inputs: seq<I>
    var deliveries: seq<D>
    var sealed: bool
    /// How often `full` has been notified.
    var notifications: nat

    ghost function Value(): WindowValue<I, D>
      reads this
    {
      WindowValue(inputs, deliveries, sealed)
    }

    /// An unsealed window is aligned and below its size limit.
    ghost predicate Valid()
      reads this
    {
      && |inputs| == |deliveries|
      && (!sealed ==> 1 <= |inputs| < maxSize)
    }

    constructor (maxSize: nat, input: I, delivery: D)
      ensures Valid() && this.maxSize == maxSize && notifications == 0
      ensures Value() == OpenWith(maxSize, input, delivery)
      ensures inputs == [input] && deliveries == [delivery] && (sealed <==> maxSize <= 1)
    {
      this.maxSize := maxSize;
      inputs := [input];
      deliveries := [delivery];
      sealed := maxSize <= 1;
      notifications := 0;
    }

    method IsSealed() returns (answer: bool)
      ensures answer == sealed
    {
      answer := sealed;
    }

    /// `Err` hands the member back; `Ok(full)` says whether this push filled the window.
    method Push(input: I, delivery: D) returns (pushed: bool, full: bool)
      requires Valid()
      modifies this
      ensures Valid()
      ensures pushed == !old(sealed)
      ensures Value() == if pushed then PushInto(old(Value()), maxSize, input, delivery) else old(Value())
      ensures pushed ==>
                && inputs == old(inputs) + [input] && deliveries == old(deliveries) + [delivery]
                && (sealed <==> |inputs| >= maxSize)
      ensures full == (pushed && sealed)
      ensures notifications == old(notifications) + (if full then 1 else 0)
    {
      if sealed {
        return false, false;
      }
      inputs := inputs + [input];
      deliveries := deliveries + [delivery];
      if |inputs| >= maxSize {
        sealed := true;
        notifications := notifications + 1;
      }
      return true, sealed;
    }

    method Close()
      requires Valid()
      modifies this
      ensures Valid()
      ensures Value() == CloseValue(old(Value()))
      ensures sealed && inputs == old(inputs) && deliveries == old(deliveries)
      ensures notifications == old(notifications) + 1
    {
      sealed := true;
      notifications := notifications + 1;
    }

    /// Takes both vectors out of the window. `full` is not notified here.
    method Seal() returns (takenInputs: seq<I>, takenDeliveries: seq<D>)
      requires Valid()
      modifies this
      ensures Valid()
      ensures takenInputs == old(inputs) && takenDeliveries == old(deliveries)
      ensures |takenInputs| == |takenDeliveries|
      ensures Value() == SealValue(old(Value())) && notifications == old(notifications)
      ensures sealed && inputs == [] && deliveries == []
    {
      sealed := true;
      takenInputs, takenDeliveries := inputs, deliveries;
      inputs, deliveries := [], [];
    }
  }
}
