/// The order of the priority queue, on values: what the sequence of waiting entries is, what each
/// operation does to it, and why that is the stable order it promises.

module PriorityOrder {
  import opened Basics

  type u32 = x: int | 0 <= x < 0x1_0000_0000

  datatype Ordering = Less | Equal | Greater

  datatype PriorityItem<T> = PriorityItem(item: T, priority: u32, idx: nat)

  function CompareInts(a: int, b: int): Ordering {
    if a < b then Less else if a == b then Equal else Greater
  }

  /// The higher priority is greater; among equals, the one that came first.
  function Compare<T>(a: PriorityItem<T>, b: PriorityItem<T>): Ordering {
    var byPriority := CompareInts(a.priority, b.priority);
    if byPriority == Equal then CompareInts(b.idx, a.idx) else byPriority
  }

  predicate Above<T>(a: PriorityItem<T>, b: PriorityItem<T>) {
    Compare(a, b) == Greater
  }

  /// A total order whose equality is the one that looks at priority and index alone.
  lemma {:induction false} CompareIsATotalOrder<T>(a: PriorityItem<T>, b: PriorityItem<T>, c: PriorityItem<T>)
    ensures Compare(a, b) == Equal <==> a.priority == b.priority && a.idx == b.idx
    ensures Compare(a, b) == Less <==> Compare(b, a) == Greater
    ensures Above(a, b) && !Above(c, b) ==> Above(a, c)
    ensures Above(a, b) && Above(b, c) ==> Above(a, c)
  {
  }

  // ---------------------------------------------------------------- sorted sequences

  predicate Descending<T>(s: seq<PriorityItem<T>>) {
    forall i, j :: 0 <= i < j < |s| ==> Above(s[i], s[j])
  }

  function Insert<T>(s: seq<PriorityItem<T>>, e: PriorityItem<T>): (t: seq<PriorityItem<T>>)
    ensures multiset(t) == multiset(s) + multiset{e}
  {
    if s == [] then [e]
    else if Above(e, s[0]) then [e] + s
    else
      assert s == [s[0]] + s[1..];
      [s[0]] + Insert(s[1..], e)
  }

  lemma {:induction false} InsertKeepsTheOrder<T>(s: seq<PriorityItem<T>>, e: PriorityItem<T>)
    requires Descending(s) && forall x :: x in s ==> x.idx != e.idx
    ensures Descending(Insert(s, e))
  {
    if s != [] && !Above(e, s[0]) {
      InsertKeepsTheOrder(s[1..], e);
      var t := Insert(s[1..], e);
      forall j | 0 <= j < |t|
        ensures Above(s[0], t[j])
      {
        assert t[j] in multiset(t);
        assert t[j] == e || t[j] in s[1..];
      }
    }
  }

  ghost predicate Ordered<X>(s: seq<X>, before: (X, X) -> bool) {
    forall i, j :: 0 <= i < j < |s| ==> before(s[i], s[j]) && !before(s[j], s[i])
  }

  lemma {:induction false} HeadOff<X>(s: seq<X>)
    requires s != []
    ensures multiset(s) == multiset{s[0]} + multiset(s[1..])
  {
    assert s == [s[0]] + s[1..];
  }

  lemma {:induction false} Cancel<X>(a: multiset<X>, b: multiset<X>, x: X)
    requires multiset{x} + a == multiset{x} + b
    ensures a == b
  {
    assert a == (multiset{x} + a) - multiset{x};
    assert b == (multiset{x} + b) - multiset{x};
  }

  lemma {:induction false} SameHead<X>(s: seq<X>, t: seq<X>, before: (X, X) -> bool)
    requires Ordered(s, before) && Ordered(t, before) && multiset(s) == multiset(t) && s != []
    ensures t != [] && s[0] == t[0]
  {
    assert s[0] in multiset(t);
    var j :| 0 <= j < |t| && t[j] == s[0];
    assert t[0] in multiset(s);
    var i :| 0 <= i < |s| && s[i] == t[0];
  }

  /// There is only one way to put the same elements in a strict order.
  lemma {:induction false} OneArrangement<X>(s: seq<X>, t: seq<X>, before: (X, X) -> bool)
    requires Ordered(s, before) && Ordered(t, before) && multiset(s) == multiset(t)
    ensures s == t
  {
    if s == [] {
      assert |t| == |multiset(t)|;
    } else {
      SameHead(s, t, before);
      HeadOff(s);
      HeadOff(t);
      Cancel(multiset(s[1..]), multiset(t[1..]), s[0]);
      OneArrangement(s[1..], t[1..], before);
      assert s == [s[0]] + s[1..];
    }
  }

  // ---------------------------------------------------------------- the queue as a state machine

  datatype Command<T> = Enqueue(item: T, priority: Option<u32>) | Dequeue | Close

  datatype Reply<T> = Done | Refused | Item(item: T) | Nothing | Waits

  /// `contents` is what the heap holds, greatest first.
  datatype QueueState<T> = QueueState(contents: seq<PriorityItem<T>>, issued: nat, length: int, closed: bool)

  function PriorityOf(options: Option<u32>): u32 {
    if options.Some? then options.value else 0
  }

  function Obey<T>(q: QueueState<T>, c: Command<T>): (QueueState<T>, Reply<T>) {
    match c
    case Enqueue(item, priority) =>
      if q.closed then (q, Refused)
      else
        var e := PriorityItem(item, PriorityOf(priority), q.issued);
        (q.(contents := Insert(q.contents, e), issued := q.issued + 1, length := q.length + 1), Done)
    case Dequeue =>
      if q.contents == [] then (q, if q.closed then Nothing else Waits)
      else
        var rest := q.(contents := q.contents[1..]);
        (if q.closed then rest else rest.(length := q.length - 1), Item(q.contents[0].item))
    case Close => (q.(closed := true), Done)
  }

  ghost predicate QueueOk<T>(q: QueueState<T>) {
    && Descending(q.contents)
    && (forall x :: x in q.contents ==> x.idx < q.issued)
    && q.length >= |q.contents|
    && (!q.closed ==> q.length == |q.contents|)
  }

  lemma {:induction false} ObeyKeepsTheQueueOk<T>(q: QueueState<T>, c: Command<T>)
    requires QueueOk(q)
    ensures QueueOk(Obey(q, c).0)
  {
    if c.Enqueue? && !q.closed {
      var e := PriorityItem(c.item, PriorityOf(c.priority), q.issued);
      InsertKeepsTheOrder(q.contents, e);
      var t := Insert(q.contents, e);
      assert |multiset(t)| == |t|;
      forall x | x in t
        ensures x.idx < q.issued + 1
      {
        assert x in multiset(t);
      }
    }
  }

  /// A closed queue stays closed, takes nothing in, and does not count any more.
  lemma {:induction false} ClosedForGood<T>(q: QueueState<T>, c: Command<T>)
    requires q.closed
    ensures Obey(q, c).0.closed && Obey(q, c).0.length == q.length
    ensures |Obey(q, c).0.contents| <= |q.contents| && (c.Enqueue? ==> Obey(q, c) == (q, Refused))
  {
  }

  // ---------------------------------------------------------------- the naive queue it is meant to be

  /// A call of `enqueue`, as the caller made it.
  datatype Arrival<T> = Arrival(item: T, options: Option<u32>)

  /// What is waiting, in order of arrival: no index, and no priority but the one that was asked for.
  datatype Waiting<T> = Waiting(arrived: seq<Arrival<T>>, closed: bool)

  /// A call with options comes before one with a lower priority, and before one without options if its
  /// priority is not the lowest; a call without options comes before none.
  predicate Outranks(a: Option<u32>, b: Option<u32>) {
    match a
    case None => false
    case Some(p) => (match b
                     case None => p > 0
                     case Some(q) => p > q)
  }

  /// The first of those that nobody outranks.
  predicate IsFirstOfHighest<T>(s: seq<Arrival<T>>, k: nat) {
    && k < |s|
    && (forall i :: 0 <= i < |s| ==> !Outranks(s[i].options, s[k].options))
    && (forall i :: 0 <= i < k ==> Outranks(s[k].options, s[i].options))
  }

  function FirstOfHighest<T>(s: seq<Arrival<T>>): (k: nat)
    requires s != []
    ensures IsFirstOfHighest(s, k)
  {
    if |s| == 1 then 0
    else
      var k := FirstOfHighest(s[..|s| - 1]);
      if Outranks(s[|s| - 1].options, s[k].options) then |s| - 1 else k
  }

  function Without<X>(s: seq<X>, k: nat): (t: seq<X>)
    requires k < |s|
    ensures multiset(s) == multiset(t) + multiset{s[k]} && |t| == |s| - 1
    ensures forall i :: 0 <= i < |t| ==> t[i] == if i < k then s[i] else s[i + 1]
  {
    assert s == s[..k] + [s[k]] + s[k + 1..];
    s[..k] + s[k + 1..]
  }

  function NaiveObey<T>(w: Waiting<T>, c: Command<T>): (Waiting<T>, Reply<T>) {
    match c
    case Enqueue(item, options) =>
      if w.closed then (w, Refused) else (w.(arrived := w.arrived + [Arrival(item, options)]), Done)
    case Dequeue =>
      if w.arrived == [] then (w, if w.closed then Nothing else Waits)
      else
        var k := FirstOfHighest(w.arrived);
        (w.(arrived := Without(w.arrived, k)), Item(w.arrived[k].item))
    case Close => (w.(closed := true), Done)
  }

  predicate IndicesAscend<T>(s: seq<PriorityItem<T>>) {
    forall i, j :: 0 <= i < j < |s| ==> s[i].idx < s[j].idx
  }

  predicate InOrderOfArrival<T>(s: seq<PriorityItem<T>>, issued: nat) {
    && IndicesAscend(s)
    && (forall i :: 0 <= i < |s| ==> s[i].idx < issued)
  }

  /// The entries that the calls have become.
  ghost predicate Stamped<T>(entries: seq<PriorityItem<T>>, arrived: seq<Arrival<T>>) {
    |entries| == |arrived| && forall i :: 0 <= i < |entries| ==>
      && entries[i].item == arrived[i].item
      && (arrived[i].options.Some? ==> entries[i].priority == arrived[i].options.value)
      && (arrived[i].options.None? ==> entries[i].priority == 0)
  }

  ghost predicate Matches<T>(q: QueueState<T>, w: Waiting<T>, entries: seq<PriorityItem<T>>) {
    && QueueOk(q) && InOrderOfArrival(entries, q.issued) && Stamped(entries, w.arrived)
    && multiset(q.contents) == multiset(entries) && q.closed == w.closed
  }

  /// The head of the sorted sequence is the first arrival that nobody outranks.
  lemma {:induction false} HeadIsFirstOfHighest<T>(s: seq<PriorityItem<T>>, entries: seq<PriorityItem<T>>,
                                                   arrived: seq<Arrival<T>>, k: nat)
    requires Descending(s) && IndicesAscend(entries) && multiset(s) == multiset(entries) && s != []
    requires Stamped(entries, arrived) && IsFirstOfHighest(arrived, k)
    ensures s[0] == entries[k]
  {
    assert s[0] in multiset(entries);
    var i :| 0 <= i < |entries| && entries[i] == s[0];
    assert entries[k] in multiset(s);
    var j :| 0 <= j < |s| && s[j] == entries[k];
    assert !Outranks(arrived[i].options, arrived[k].options);
    if i < k {
      assert Outranks(arrived[k].options, arrived[i].options);
    }
  }

  lemma {:induction false} HeadRemoved<T>(s: seq<PriorityItem<T>>, entries: seq<PriorityItem<T>>, k: nat)
    requires k < |entries| && s != [] && s[0] == entries[k] && multiset(s) == multiset(entries)
    ensures multiset(s[1..]) == multiset(Without(entries, k))
  {
    HeadOff(s);
    Cancel(multiset(s[1..]), multiset(Without(entries, k)), s[0]);
  }

  lemma {:induction false} WithoutKeepsTheOrder<T>(s: seq<PriorityItem<T>>, k: nat, issued: nat)
    requires InOrderOfArrival(s, issued) && k < |s|
    ensures InOrderOfArrival(Without(s, k), issued)
  {
    var t := Without(s, k);
    forall i, j | 0 <= i < j < |t|
      ensures t[i].idx < t[j].idx
    {
      assert t[i] == if i < k then s[i] else s[i + 1];
      assert t[j] == if j < k then s[j] else s[j + 1];
    }
  }

  lemma {:induction false} WithoutStaysStamped<T>(entries: seq<PriorityItem<T>>, arrived: seq<Arrival<T>>, k: nat)
    requires Stamped(entries, arrived) && k < |entries|
    ensures Stamped(Without(entries, k), Without(arrived, k))
  {
  }

  lemma {:induction false} DequeueMatches<T>(q: QueueState<T>, w: Waiting<T>, entries: seq<PriorityItem<T>>)
    returns (entries': seq<PriorityItem<T>>)
    requires Matches(q, w, entries)
    ensures Matches(Obey(q, Dequeue).0, NaiveObey(w, Dequeue).0, entries')
    ensures Obey(q, Dequeue).1 == NaiveObey(w, Dequeue).1
  {
    ObeyKeepsTheQueueOk(q, Dequeue);
    assert |entries| == |multiset(entries)| && |q.contents| == |multiset(q.contents)|;
    entries' := entries;
    if q.contents != [] {
      var k := FirstOfHighest(w.arrived);
      HeadIsFirstOfHighest(q.contents, entries, w.arrived, k);
      HeadRemoved(q.contents, entries, k);
      WithoutKeepsTheOrder(entries, k, q.issued);
      WithoutStaysStamped(entries, w.arrived, k);
      entries' := Without(entries, k);
    }
  }

  lemma {:induction false} EnqueueMatches<T>(q: QueueState<T>, w: Waiting<T>, entries: seq<PriorityItem<T>>,
                                             item: T, options: Option<u32>)
    returns (entries': seq<PriorityItem<T>>)
    requires Matches(q, w, entries)
    ensures var c := Enqueue(item, options);
            Matches(Obey(q, c).0, NaiveObey(w, c).0, entries') && Obey(q, c).1 == NaiveObey(w, c).1
  {
    ObeyKeepsTheQueueOk(q, Enqueue(item, options));
    entries' := if q.closed then entries else entries + [PriorityItem(item, PriorityOf(options), q.issued)];
  }

  lemma {:induction false} StepMatches<T>(q: QueueState<T>, w: Waiting<T>, entries: seq<PriorityItem<T>>, c: Command<T>)
    returns (entries': seq<PriorityItem<T>>)
    requires Matches(q, w, entries)
    ensures Matches(Obey(q, c).0, NaiveObey(w, c).0, entries') && Obey(q, c).1 == NaiveObey(w, c).1
  {
    match c
    case Enqueue(item, options) => entries' := EnqueueMatches(q, w, entries, item, options);
    case Dequeue => entries' := DequeueMatches(q, w, entries);
    case Close => entries' := entries;
  }

  function Replies<T>(q: QueueState<T>, commands: seq<Command<T>>): (replies: seq<Reply<T>>)
    ensures |replies| == |commands|
    decreases |commands|
  {
    if commands == [] then []
    else [Obey(q, commands[0]).1] + Replies(Obey(q, commands[0]).0, commands[1..])
  }

  function NaiveReplies<T>(w: Waiting<T>, commands: seq<Command<T>>): (replies: seq<Reply<T>>)
    ensures |replies| == |commands|
    decreases |commands|
  {
    if commands == [] then []
    else [NaiveObey(w, commands[0]).1] + NaiveReplies(NaiveObey(w, commands[0]).0, commands[1..])
  }

  /// From matching states on, the answers are the same.
  lemma {:induction false} AnswersLikeTheNaiveQueue<T>(q: QueueState<T>, w: Waiting<T>, entries: seq<PriorityItem<T>>,
                                                       commands: seq<Command<T>>)
    requires Matches(q, w, entries)
    ensures Replies(q, commands) == NaiveReplies(w, commands)
    decreases |commands|
  {
    if commands != [] {
      var next := StepMatches(q, w, entries, commands[0]);
      AnswersLikeTheNaiveQueue(Obey(q, commands[0]).0, NaiveObey(w, commands[0]).0, next, commands[1..]);
    }
  }

  /// Whatever the history of calls, a new queue answers as one that keeps its calls in order of arrival
  /// and always serves the first of those that nobody outranks.
  lemma {:induction false} EveryHistoryIsAnsweredNaively<T>(commands: seq<Command<T>>)
    ensures Replies(QueueState([], 0, 0, false), commands) == NaiveReplies(Waiting([], false), commands)
  {
    AnswersLikeTheNaiveQueue(QueueState([], 0, 0, false), Waiting([], false), [], commands);
  }

  /// Of two calls the second is served first exactly if it outranks the first.
  lemma {:induction false} TheHigherPriorityIsServedFirst<T>(x: T, a: Option<u32>, y: T, b: Option<u32>)
    ensures Replies(QueueState([], 0, 0, false), [Enqueue(x, a), Enqueue(y, b), Dequeue])
         == [Done, Done, Item(if Outranks(b, a) then y else x)]
  {
    var commands := [Enqueue(x, a), Enqueue(y, b), Dequeue];
    EveryHistoryIsAnsweredNaively(commands);
    NaiveEnqueue(Waiting([], false), x, a, commands[1..]);
    assert commands == [Enqueue(x, a)] + commands[1..];
    var w1 := Waiting([] + [Arrival(x, a)], false);
    NaiveEnqueue(w1, y, b, [Dequeue]);
    assert commands[1..] == [Enqueue(y, b)] + [Dequeue];
    NaiveDequeueOfTwo(Waiting(w1.arrived + [Arrival(y, b)], false), x, a, y, b);
  }

  lemma {:induction false} NaiveEnqueue<T>(w: Waiting<T>, item: T, options: Option<u32>, rest: seq<Command<T>>)
    requires !w.closed
    ensures NaiveReplies(w, [Enqueue(item, options)] + rest)
         == [Done] + NaiveReplies(w.(arrived := w.arrived + [Arrival(item, options)]), rest)
  {
    assert ([Enqueue(item, options)] + rest)[1..] == rest;
  }

  lemma {:induction false} NaiveDequeueOfTwo<T>(w: Waiting<T>, x: T, a: Option<u32>, y: T, b: Option<u32>)
    requires w.arrived == [Arrival(x, a), Arrival(y, b)]
    ensures NaiveReplies(w, [Dequeue]) == [Item(if Outranks(b, a) then y else x)]
  {
    var k := FirstOfHighest(w.arrived);
    assert !Outranks(w.arrived[0].options, w.arrived[k].options);
    assert !Outranks(w.arrived[1].options, w.arrived[k].options);
    if k == 1 {
      assert Outranks(w.arrived[1].options, w.arrived[0].options);
    }
    assert NaiveReplies(NaiveObey(w, Dequeue).0, [Dequeue][1..]) == [];
  }

  // ---------------------------------------------------------------- draining

  function OfPriority<T>(s: seq<PriorityItem<T>>, p: u32): (t: seq<PriorityItem<T>>)
    ensures forall i :: 0 <= i < |t| ==> t[i].priority == p && t[i] in s
  {
    if s == [] then []
    else if s[|s| - 1].priority == p then OfPriority(s[..|s| - 1], p) + [s[|s| - 1]]
    else OfPriority(s[..|s| - 1], p)
  }

  /// The same entries by descending priority, and those of one priority in the order they had.
  ghost predicate IsStableSortOf<T>(s: seq<PriorityItem<T>>, arrived: seq<PriorityItem<T>>) {
    && multiset(s) == multiset(arrived)
    && (forall i, j :: 0 <= i < j < |s| ==> s[i].priority >= s[j].priority)
    && (forall p: u32 :: OfPriority(s, p) == OfPriority(arrived, p))
  }

  lemma {:induction false} OfPriorityAscends<T>(s: seq<PriorityItem<T>>, p: u32)
    requires Descending(s) || IndicesAscend(s)
    ensures IndicesAscend(OfPriority(s, p))
  {
    if s != [] {
      OfPriorityAscends(s[..|s| - 1], p);
    }
  }

  lemma {:induction false} OfPriorityHas<T>(s: seq<PriorityItem<T>>, p: u32, x: PriorityItem<T>)
    ensures multiset(OfPriority(s, p))[x] == if x.priority == p then multiset(s)[x] else 0
  {
    if s != [] {
      OfPriorityHas(s[..|s| - 1], p, x);
      assert s == s[..|s| - 1] + [s[|s| - 1]];
    }
  }

  lemma {:induction false} SamePriorityInOrder<T>(s: seq<PriorityItem<T>>, arrived: seq<PriorityItem<T>>, p: u32)
    requires Descending(s) && IndicesAscend(arrived) && multiset(s) == multiset(arrived)
    ensures OfPriority(s, p) == OfPriority(arrived, p)
  {
    var mine, theirs := OfPriority(s, p), OfPriority(arrived, p);
    OfPriorityAscends(s, p);
    OfPriorityAscends(arrived, p);
    assert multiset(mine) == multiset(theirs) by {
      forall x
        ensures multiset(mine)[x] == multiset(theirs)[x]
      {
        OfPriorityHas(s, p, x);
        OfPriorityHas(arrived, p, x);
      }
    }
    OneArrangement(mine, theirs, (a: PriorityItem<T>, b: PriorityItem<T>) => a.idx < b.idx);
  }

  /// The sequence the queue keeps is the stable sort, by priority alone, of the calls that are waiting.
  lemma {:induction false} ContentsAreAStableSort<T>(q: QueueState<T>, w: Waiting<T>, entries: seq<PriorityItem<T>>)
    requires Matches(q, w, entries)
    ensures Stamped(entries, w.arrived) && IsStableSortOf(q.contents, entries)
  {
    forall p: u32
      ensures OfPriority(q.contents, p) == OfPriority(entries, p)
    {
      SamePriorityInOrder(q.contents, entries, p);
    }
  }

  function Items<T>(s: seq<PriorityItem<T>>): (replies: seq<Reply<T>>)
    ensures |replies| == |s| && forall i :: 0 <= i < |s| ==> replies[i] == Item(s[i].item)
  {
    seq(|s|, i requires 0 <= i < |s| => Item(s[i].item))
  }

  function Times<T>(n: nat): (commands: seq<Command<T>>)
    ensures |commands| == n && forall i :: 0 <= i < n ==> commands[i] == Dequeue
  {
    seq(n, _ => Dequeue)
  }

  lemma {:induction false} TimesMore<T>(n: nat)
    ensures Times<T>(n + 1)[0] == Dequeue && Times<T>(n + 1)[1..] == Times<T>(n)
  {
  }

  lemma {:induction false} ItemsMore<T>(s: seq<PriorityItem<T>>)
    requires s != []
    ensures Items(s) == [Item(s[0].item)] + Items(s[1..])
  {
  }

  lemma {:induction false} OneReplyMore<T>(q: QueueState<T>, n: nat)
    ensures Replies(q, Times(n + 1)) == [Obey(q, Dequeue).1] + Replies(Obey(q, Dequeue).0, Times(n))
  {
    TimesMore<T>(n);
  }

  lemma {:induction false} DrainedReplies<T>(q: QueueState<T>, n: nat)
    requires q.closed && n == |q.contents|
    ensures Replies(q, Times(n + 1)) == Items(q.contents) + [Nothing]
    decreases n
  {
    OneReplyMore(q, n);
    if n > 0 {
      DrainedReplies(Obey(q, Dequeue).0, n - 1);
      ItemsMore(q.contents);
    }
  }

  /// Dequeuing after close hands out the stable sort of exactly the calls that were waiting, and then
  /// nothing.
  lemma {:induction false} Drain<T>(q: QueueState<T>, w: Waiting<T>, entries: seq<PriorityItem<T>>, n: nat)
    requires Matches(q, w, entries) && q.closed && n == |q.contents|
    ensures Stamped(entries, w.arrived) && IsStableSortOf(q.contents, entries)
    ensures Replies(q, Times(n + 1)) == Items(q.contents) + [Nothing]
  {
    ContentsAreAStableSort(q, w, entries);
    DrainedReplies(q, n);
  }
}
