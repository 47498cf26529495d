/// The priority queue as the object it is: a binary heap in a sequence, a counter for the order of
/// arrival, a length and a closed flag, tied call by call to the sorted sequence of PriorityOrder.

module PriorityQueues {
  import opened Basics
  import opened PriorityOrder

  function Parent(i: nat): (p: nat)
    requires i > 0
    ensures p < i
  {
    (i - 1) / 2
  }

  /// No entry is above its parent.
  predicate IsHeap<T>(s: seq<PriorityItem<T>>) {
    forall i :: 0 < i < |s| ==> !Above(s[i], s[Parent(i)])
  }

  /// A heap but for entry `k`, which may be above its parent.
  predicate HeapBelow<T>(s: seq<PriorityItem<T>>, k: nat) {
    && k < |s|
    && (forall i :: 0 < i < |s| && i != k ==> !Above(s[i], s[Parent(i)]))
    && (k > 0 ==> forall i :: 0 < i < |s| && Parent(i) == k ==> !Above(s[i], s[Parent(k)]))
  }

  /// A heap but for entry `k`, which may be below its children.
  predicate HeapAbove<T>(s: seq<PriorityItem<T>>, k: nat) {
    && k < |s|
    && (forall i :: 0 < i < |s| && Parent(i) != k ==> !Above(s[i], s[Parent(i)]))
    && (k > 0 ==> forall i :: 0 < i < |s| && Parent(i) == k ==> !Above(s[i], s[Parent(k)]))
  }

  function Swap<T>(s: seq<PriorityItem<T>>, i: nat, j: nat): (t: seq<PriorityItem<T>>)
    requires i < |s| && j < |s|
    ensures |t| == |s| && multiset(t) == multiset(s)
  {
    s[i := s[j]][j := s[i]]
  }

  lemma {:induction false} SwapUp<T>(s: seq<PriorityItem<T>>, k: nat)
    requires HeapBelow(s, k) && k > 0 && Above(s[k], s[Parent(k)])
    ensures HeapBelow(Swap(s, k, Parent(k)), Parent(k))
  {
    var p := Parent(k);
    var t := Swap(s, k, p);
    forall i | 0 < i < |t| && i != p
      ensures !Above(t[i], t[Parent(i)])
    {
      if i != k && Parent(i) == p {
        CompareIsATotalOrder(s[k], s[p], s[i]);
      }
    }
    if p > 0 {
      forall i | 0 < i < |t| && Parent(i) == p
        ensures !Above(t[i], t[Parent(p)])
      {
        CompareIsATotalOrder(s[i], s[p], s[Parent(p)]);
      }
    }
  }

  predicate IsLargestChild<T>(s: seq<PriorityItem<T>>, k: nat, child: nat) {
    && 0 < child < |s| && Parent(child) == k
    && (forall i :: 0 < i < |s| && Parent(i) == k ==> !Above(s[i], s[child]))
  }

  lemma {:induction false} SwapDown<T>(s: seq<PriorityItem<T>>, k: nat, child: nat)
    requires HeapAbove(s, k) && IsLargestChild(s, k, child) && Above(s[child], s[k])
    ensures HeapAbove(Swap(s, k, child), child)
  {
    var t := Swap(s, k, child);
    forall i | 0 < i < |t| && Parent(i) != child
      ensures !Above(t[i], t[Parent(i)])
    {
    }
    forall i | 0 < i < |t| && Parent(i) == child
      ensures !Above(t[i], t[k])
    {
    }
  }

  lemma {:induction false} RootIsHighest<T>(s: seq<PriorityItem<T>>, i: nat)
    requires IsHeap(s) && i < |s|
    ensures !Above(s[i], s[0])
  {
    if i > 0 {
      RootIsHighest(s, Parent(i));
      CompareIsATotalOrder(s[i], s[Parent(i)], s[0]);
    }
  }

  /// The root of a heap is the head of any arrangement of its entries.
  lemma {:induction false} RootIsHead<T>(s: seq<PriorityItem<T>>, contents: seq<PriorityItem<T>>)
    requires IsHeap(s) && Descending(contents) && multiset(s) == multiset(contents) && s != []
    ensures contents != [] && s[0] == contents[0]
  {
    assert s[0] in multiset(contents);
    var j :| 0 <= j < |contents| && contents[j] == s[0];
    assert contents[0] in multiset(s);
    var i :| 0 <= i < |s| && s[i] == contents[0];
    RootIsHighest(s, i);
  }

  class BinaryHeap<T> {
    var data: seq<PriorityItem<T>>

    constructor ()
      ensures data == []
    {
      data := [];
    }

    method SiftUp(start: nat)
      requires HeapBelow(data, start)
      modifies this
      ensures IsHeap(data) && multiset(data) == old(multiset(data))
    {
      var k := start;
      while k > 0 && Above(data[k], data[Parent(k)])
        invariant HeapBelow(data, k) && multiset(data) == old(multiset(data))
      {
        SwapUp(data, k);
        data := Swap(data, k, Parent(k));
        k := Parent(k);
      }
    }

    method LargestChild(k: nat) returns (child: Option<nat>)
      ensures child.None? ==> 2 * k + 1 >= |data|
      ensures child.Some? ==> child.value > k && IsLargestChild(data, k, child.value)
    {
      var left := 2 * k + 1;
      if left >= |data| {
        return None;
      }
      var right := left + 1;
      if right < |data| && Above(data[right], data[left]) {
        return Some(right);
      }
      return Some(left);
    }

    method SiftDown()
      requires HeapAbove(data, 0)
      modifies this
      ensures IsHeap(data) && multiset(data) == old(multiset(data))
    {
      var k: nat := 0;
      var child := LargestChild(k);
      while child.Some? && Above(data[child.value], data[k])
        invariant HeapAbove(data, k) && multiset(data) == old(multiset(data))
        invariant child.None? ==> 2 * k + 1 >= |data|
        invariant child.Some? ==> child.value > k && IsLargestChild(data, k, child.value)
        decreases |data| - k
      {
        SwapDown(data, k, child.value);
        data := Swap(data, k, child.value);
        k := child.value;
        child := LargestChild(k);
      }
    }

    method Push(e: PriorityItem<T>)
      requires IsHeap(data)
      modifies this
      ensures IsHeap(data) && multiset(data) == old(multiset(data)) + multiset{e}
    {
      data := data + [e];
      SiftUp(|data| - 1);
    }

    /// Takes the root out: the last entry moves there and sinks to where it belongs.
    method Pop() returns (e: Option<PriorityItem<T>>)
      requires IsHeap(data)
      modifies this
      ensures IsHeap(data) && (e.None? <==> old(data) == [])
      ensures e.None? ==> data == []
      ensures e.Some? ==> e.value == old(data)[0] && old(multiset(data)) == multiset{e.value} + multiset(data)
    {
      if data == [] {
        return None;
      }
      var root, last := data[0], data[|data| - 1];
      PopMoves(data);
      data := data[..|data| - 1];
      if data != [] {
        data := data[0 := last];
        SiftDown();
      }
      return Some(root);
    }
  }

  lemma {:induction false} PopMoves<T>(s: seq<PriorityItem<T>>)
    requires IsHeap(s) && s != []
    ensures var front := s[..|s| - 1];
            if front == [] then multiset(s) == multiset{s[0]}
            else HeapAbove(front[0 := s[|s| - 1]], 0)
                 && multiset(s) == multiset{s[0]} + multiset(front[0 := s[|s| - 1]])
  {
    var front := s[..|s| - 1];
    assert s == front + [s[|s| - 1]];
    if front != [] {
      assert s == [s[0]] + s[1..];
    }
  }

  class PriorityQueue<T> {
    const heap: BinaryHeap<T>
    var idxCounter: nat
    var length: int
    var closed: bool
    /// What the heap holds, greatest first.
    ghost var contents: seq<PriorityItem<T>>

    ghost function Value(): QueueState<T>
      reads this
    {
      QueueState(contents, idxCounter, length, closed)
    }

    ghost predicate Valid()
      reads this, heap
    {
      IsHeap(heap.data) && multiset(heap.data) == multiset(contents) && QueueOk(Value())
    }

    constructor ()
      ensures Valid() && fresh(heap)
      ensures Value() == QueueState([], 0, 0, false)
    {
      heap := new BinaryHeap();
      idxCounter, length, closed, contents := 0, 0, false, [];
    }

    method Enqueue(item: T, options: Option<u32>) returns (reply: Reply<T>)
      requires Valid()
      modifies this, heap
      ensures Valid() && (Value(), reply) == Obey(old(Value()), Command.Enqueue(item, options))
      ensures reply == if old(closed) then Refused else Done
      ensures old(closed) ==> contents == old(contents) && length == old(length)
      ensures !old(closed) ==>
                && length == old(length) + 1
                && var priority := match options case Some(p) => p case None => 0;
                multiset(contents) == old(multiset(contents)) + multiset{PriorityItem(item, priority, old(idxCounter))}
    {
      ObeyKeepsTheQueueOk(Value(), Command.Enqueue(item, options));
      if closed {
        return Refused;
      }
      var priority := PriorityOf(options);
      var idx := idxCounter;
      idxCounter := idxCounter + 1;
      heap.Push(PriorityItem(item, priority, idx));
      contents := Insert(contents, PriorityItem(item, priority, idx));
      length := length + 1;
      return Done;
    }

    /// `Waits` stands for a call that parks until it is notified.
    method Dequeue() returns (reply: Reply<T>)
      requires Valid()
      modifies this, heap
      ensures Valid() && (Value(), reply) == Obey(old(Value()), Command.Dequeue)
      ensures old(contents) == [] ==> contents == [] && reply == if closed then Nothing else Waits
      ensures old(contents) != [] ==> contents == old(contents)[1..] && reply == Item(old(contents)[0].item)
      ensures length == old(length) - (if old(contents) != [] && !closed then 1 else 0) && closed == old(closed)
    {
      ObeyKeepsTheQueueOk(Value(), Command.Dequeue);
      assert |heap.data| == |multiset(heap.data)| && |contents| == |multiset(contents)|;
      if heap.data != [] {
        RootIsHead(heap.data, contents);
        HeadOff(contents);
      }
      ghost var before := heap.data;
      var top := heap.Pop();
      if top.Some? {
        Cancel(multiset(heap.data), multiset(contents[1..]), top.value);
        contents := contents[1..];
        length := if closed then length else length - 1;
        return Item(top.value.item);
      }
      return if closed then Nothing else Waits;
    }

    method Close()
      requires Valid()
      modifies this
      ensures Valid() && (Value(), Reply.Done) == Obey(old(Value()), Command.Close)
      ensures closed && contents == old(contents) && length == old(length)
    {
      closed := true;
    }
  }
}
