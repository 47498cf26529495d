/// How `PriorityQueue::dequeue` waits: it reads the closed flag, looks into the heap, and only then
/// creates its listener - and starts over when it is woken. Against it run `enqueue`, which notifies
/// one listener, and `close`, which notifies all of them. The LIFO queue waits in the same way.

module DequeueWaits {

  /// `Parked(heard)`: listening, and notified or not.
  datatype Dequeuer = Idle | SawOpen | SawClosed | SawEmpty | Parked(heard: bool) | Served

  datatype Enqueuer = Arrived | Admitted | Pushed | Refused | Notified

  datatype Closer = Before | Flagged | Finished

  datatype World = World(
    closed: bool,
    items: nat,
    dequeuers: seq<Dequeuer>,
    enqueuers: seq<Enqueuer>,
    closers: seq<Closer>)

  datatype Step =
    | NewDequeuer
    | NewEnqueuer
    | NewCloser
    | ReadFlag(d: nat)
    | TryPop(d: nat)
    | Listen(d: nat)
    | Wake(d: nat)
    | Admit(e: nat)
    | PushItem(e: nat)
    | NotifyOne(e: nat, d: nat)
    | SetFlag(c: nat)
    | NotifyAll(c: nat)

  predicate SomebodyHeard(ds: seq<Dequeuer>) {
    exists d :: 0 <= d < |ds| && ds[d] == Parked(true)
  }

  predicate SomebodySleeps(ds: seq<Dequeuer>) {
    exists d :: 0 <= d < |ds| && ds[d] == Parked(false)
  }

  predicate CanStep(s: World, step: Step) {
    match step
    case NewDequeuer => true
    case NewEnqueuer => true
    case NewCloser => true
    case ReadFlag(d) => d < |s.dequeuers| && s.dequeuers[d].Idle?
    case TryPop(d) => d < |s.dequeuers| && (s.dequeuers[d].SawOpen? || s.dequeuers[d].SawClosed?)
    case Listen(d) => d < |s.dequeuers| && s.dequeuers[d].SawEmpty?
    case Wake(d) => d < |s.dequeuers| && s.dequeuers[d] == Parked(true)
    case Admit(e) => e < |s.enqueuers| && s.enqueuers[e].Arrived?
    case PushItem(e) => e < |s.enqueuers| && s.enqueuers[e].Admitted?
    case NotifyOne(e, d) =>
      && e < |s.enqueuers| && s.enqueuers[e].Pushed?
      && (!SomebodyHeard(s.dequeuers) && SomebodySleeps(s.dequeuers) ==>
            d < |s.dequeuers| && s.dequeuers[d] == Parked(false))
    case SetFlag(c) => c < |s.closers| && s.closers[c].Before?
    case NotifyAll(c) => c < |s.closers| && s.closers[c].Flagged?
  }

  function Told(d: Dequeuer): Dequeuer {
    if d.Parked? then Parked(true) else d
  }

  /// `notify(1)` makes sure that one listener is notified: if one already is, nothing happens, and
  /// otherwise the one that is first in line, `d`, is told.
  function ToldOne(ds: seq<Dequeuer>, d: nat): (r: seq<Dequeuer>)
    ensures |r| == |ds|
  {
    if !SomebodyHeard(ds) && d < |ds| then ds[d := Told(ds[d])] else ds
  }

  function Apply(s: World, step: Step): World {
    if !CanStep(s, step) then s
    else match step
      case NewDequeuer => s.(dequeuers := s.dequeuers + [Idle])
      case NewEnqueuer => s.(enqueuers := s.enqueuers + [Arrived])
      case NewCloser => s.(closers := s.closers + [Before])
      case ReadFlag(d) => s.(dequeuers := s.dequeuers[d := if s.closed then SawClosed else SawOpen])
      case TryPop(d) =>
        if s.items > 0 then s.(items := s.items - 1, dequeuers := s.dequeuers[d := Served])
        else s.(dequeuers := s.dequeuers[d := if s.dequeuers[d].SawClosed? then Served else SawEmpty])
      case Listen(d) => s.(dequeuers := s.dequeuers[d := Parked(false)])
      case Wake(d) => s.(dequeuers := s.dequeuers[d := Idle])
      case Admit(e) => s.(enqueuers := s.enqueuers[e := if s.closed then Refused else Admitted])
      case PushItem(e) => s.(items := s.items + 1, enqueuers := s.enqueuers[e := Pushed])
      case NotifyOne(e, d) => s.(dequeuers := ToldOne(s.dequeuers, d), enqueuers := s.enqueuers[e := Notified])
      case SetFlag(c) => s.(closed := true, closers := s.closers[c := Flagged])
      case NotifyAll(c) =>
        s.(dequeuers := seq(|s.dequeuers|, d requires 0 <= d < |s.dequeuers| => Told(s.dequeuers[d])),
           closers := s.closers[c := Finished])
  }

  /// A notification that does nothing, because some call that has been notified has not woken yet.
  predicate Merges(s: World, step: Step) {
    step.NotifyOne? && SomebodyHeard(s.dequeuers)
  }

  /// `merging` says whether notifications may merge.
  ghost predicate IsRun(s: World, steps: seq<Step>, merging: bool)
    decreases |steps|
  {
    |steps| == 0 ||
    var before := End(s, steps[..|steps| - 1]);
    var last := steps[|steps| - 1];
    IsRun(s, steps[..|steps| - 1], merging) && CanStep(before, last) && (merging || !Merges(before, last))
  }

  ghost function End(s: World, steps: seq<Step>): World
    decreases |steps|
  {
    if |steps| == 0 then s else Apply(End(s, steps[..|steps| - 1]), steps[|steps| - 1])
  }

  ghost predicate Leads(s: World, steps: seq<Step>, t: World, merging: bool) {
    IsRun(s, steps, merging) && End(s, steps) == t
  }

  ghost predicate Reaches(s: World, t: World, merging: bool) {
    exists steps :: Leads(s, steps, t, merging)
  }

  lemma {:induction false} Stays(s: World, merging: bool)
    ensures Reaches(s, s, merging)
  {
    assert Leads(s, [], s, merging);
  }

  lemma {:induction false} Goes(s: World, t: World, step: Step, merging: bool)
    requires Reaches(s, t, merging) && CanStep(t, step) && (merging || !Merges(t, step))
    ensures Reaches(s, Apply(t, step), merging)
  {
    var steps :| Leads(s, steps, t, merging);
    assert (steps + [step])[..|steps|] == steps;
    assert Leads(s, steps + [step], Apply(t, step), merging);
  }

  // ---------------------------------------------------------------- what being lost means

  ghost predicate NobodyNotifies(s: World) {
    && (forall e :: 0 <= e < |s.enqueuers| ==> !s.enqueuers[e].Pushed?)
    && (forall c :: 0 <= c < |s.closers| ==> !s.closers[c].Flagged?)
  }

  /// A call that is asleep or has returned: only a notification, or nothing at all, can move it.
  predicate Rests(d: Dequeuer) {
    d == Parked(false) || d.Served?
  }

  /// Call `w` sleeps, no notification is under way, and nobody else is on its way to the heap: every
  /// other call is asleep too or has returned.
  ghost predicate Stranded(s: World, w: nat) {
    && w < |s.dequeuers| && s.dequeuers[w] == Parked(false) && NobodyNotifies(s)
    && (forall d :: 0 <= d < |s.dequeuers| && d != w ==> Rests(s.dequeuers[d]))
  }

  ghost predicate MaySleepOverAnItem(s: World, w: nat, merging: bool) {
    exists t :: Reaches(s, t, merging) && Stranded(t, w) && t.items > 0
  }

  ghost predicate MaySleepOverClose(s: World, w: nat, merging: bool) {
    exists t :: Reaches(s, t, merging) && Stranded(t, w) && t.closed
  }

  // ---------------------------------------------------------------- a call that finds the queue closed

  ghost predicate Returns(s: World, w: nat) {
    s.closed && w < |s.dequeuers| && (s.dequeuers[w].Idle? || s.dequeuers[w].SawClosed? || s.dequeuers[w].Served?)
  }

  lemma {:induction false} ReturnsStill(s: World, step: Step, w: nat)
    requires Returns(s, w)
    ensures Returns(Apply(s, step), w)
  {
  }

  lemma {:induction false} NeverParks(s: World, steps: seq<Step>, w: nat)
    requires Returns(s, w)
    ensures Returns(End(s, steps), w)
    decreases |steps|
  {
    if |steps| > 0 {
      NeverParks(s, steps[..|steps| - 1], w);
      ReturnsStill(End(s, steps[..|steps| - 1]), steps[|steps| - 1], w);
    }
  }

  // ---------------------------------------------------------------- a call that listens in time

  /// The queue is closed, and call `w`, which was listening by then, is on its way to returning: it is
  /// still to be notified by closer `c`, or it has been.
  ghost predicate HearsTheClose(s: World, w: nat, c: nat) {
    && s.closed && w < |s.dequeuers| && c < |s.closers|
    && (s.dequeuers[w] == Parked(false) ==> s.closers[c].Flagged?)
    && (s.dequeuers[w].Parked? || s.dequeuers[w].Idle? || s.dequeuers[w].SawClosed? || s.dequeuers[w].Served?)
  }

  lemma {:induction false} StillHears(s: World, step: Step, w: nat, c: nat)
    requires HearsTheClose(s, w, c)
    ensures HearsTheClose(Apply(s, step), w, c)
  {
  }

  lemma {:induction false} HearsInTheEnd(s: World, steps: seq<Step>, w: nat, c: nat)
    requires HearsTheClose(s, w, c)
    ensures HearsTheClose(End(s, steps), w, c)
    decreases |steps|
  {
    if |steps| > 0 {
      HearsInTheEnd(s, steps[..|steps| - 1], w, c);
      StillHears(End(s, steps[..|steps| - 1]), steps[|steps| - 1], w, c);
    }
  }

  /// Closing loses nobody but the late: a call that is listening when the flag is set is not asleep any
  /// more once the closer has notified, whatever else happens.
  lemma {:induction false} WhoListensInTimeHears(s: World, steps: seq<Step>, w: nat, c: nat, merging: bool)
    requires w < |s.dequeuers| && s.dequeuers[w].Parked? && CanStep(s, SetFlag(c))
    requires IsRun(Apply(s, SetFlag(c)), steps, merging) && NobodyNotifies(End(Apply(s, SetFlag(c)), steps))
    ensures var t := End(Apply(s, SetFlag(c)), steps);
            w < |t.dequeuers| && t.dequeuers[w] != Parked(false)
  {
    HearsInTheEnd(Apply(s, SetFlag(c)), steps, w, c);
  }

  /// An item that is announced while somebody sleeps and nobody has been notified wakes somebody.
  lemma {:induction false} AnAnnouncementWakesSomebody(s: World, e: nat, d: nat)
    requires CanStep(s, NotifyOne(e, d)) && SomebodySleeps(s.dequeuers)
    ensures SomebodyHeard(Apply(s, NotifyOne(e, d)).dequeuers)
  {
    if !SomebodyHeard(s.dequeuers) {
      assert Apply(s, NotifyOne(e, d)).dequeuers[d] == Parked(true);
    }
  }

  // ---------------------------------------------------------------- a call that finds it open

  /// Call `w` is at stage `at` of an open queue.
  ghost predicate Open(s: World, w: nat, at: Dequeuer) {
    && !s.closed && w < |s.dequeuers| && s.dequeuers[w] == at && !at.Parked?
    && (forall c :: 0 <= c < |s.closers| ==> !s.closers[c].Flagged?)
  }

  /// Other calls take whatever is there.
  lemma {:induction false} TakeAll(s: World, t: World, w: nat, at: Dequeuer, merging: bool) returns (u: World)
    requires Reaches(s, t, merging) && Open(t, w, at)
    ensures Reaches(s, u, merging) && Open(u, w, at) && u.items == 0
    decreases t.items
  {
    u := t;
    if t.items > 0 {
      var n := |t.dequeuers|;
      var t1 := Apply(t, NewDequeuer);
      Goes(s, t, NewDequeuer, merging);
      var t2 := Apply(t1, ReadFlag(n));
      Goes(s, t1, ReadFlag(n), merging);
      Goes(s, t2, TryPop(n), merging);
      u := TakeAll(s, Apply(t2, TryPop(n)), w, at, merging);
    }
  }

  ghost function FirstInLine(ds: seq<Dequeuer>): (d: nat)
    ensures SomebodySleeps(ds) ==> d < |ds| && ds[d] == Parked(false)
  {
    if SomebodySleeps(ds) then
      var d: nat :| d < |ds| && ds[d] == Parked(false);
      d
    else 0
  }

  /// The first `k` enqueuers get their notifications out, one by one: whoever has been notified wakes
  /// before the next notification.
  lemma {:induction false} LetThemNotify(s: World, t: World, w: nat, at: Dequeuer, k: nat, merging: bool)
    returns (u: World)
    requires Reaches(s, t, merging) && Open(t, w, at) && k <= |t.enqueuers|
    ensures Reaches(s, u, merging) && Open(u, w, at) && u.items == t.items && !SomebodyHeard(u.dequeuers)
    ensures |u.enqueuers| == |t.enqueuers| && forall e :: 0 <= e < k ==> !u.enqueuers[e].Pushed?
  {
    if k == 0 {
      u := LetThemWake(s, t, w, |t.dequeuers|, merging);
    } else {
      u := LetThemNotify(s, t, w, at, k - 1, merging);
      if u.enqueuers[k - 1].Pushed? {
        var step := NotifyOne(k - 1, FirstInLine(u.dequeuers));
        Goes(s, u, step, merging);
        u := Apply(u, step);
        u := LetThemWake(s, u, w, |u.dequeuers|, merging);
      }
    }
  }

  /// The first `k` calls that have been notified start over.
  lemma {:induction false} LetThemWake(s: World, t: World, w: nat, k: nat, merging: bool) returns (u: World)
    requires Reaches(s, t, merging) && w < |t.dequeuers| && !t.dequeuers[w].Parked? && k <= |t.dequeuers|
    ensures Reaches(s, u, merging) && u == t.(dequeuers := u.dequeuers)
    ensures |u.dequeuers| == |t.dequeuers| && u.dequeuers[w] == t.dequeuers[w]
    ensures forall d :: 0 <= d < k ==> u.dequeuers[d] != Parked(true)
  {
    u := t;
    if k > 0 {
      u := LetThemWake(s, t, w, k - 1, merging);
      if u.dequeuers[k - 1] == Parked(true) {
        Goes(s, u, Wake(k - 1), merging);
        u := Apply(u, Wake(k - 1));
      }
    }
  }

  /// The call has read the flag and found the heap empty, nobody notifies, and nobody is notified.
  ghost predicate Calm(s: World, w: nat) {
    Open(s, w, SawEmpty) && s.items == 0 && NobodyNotifies(s) && !SomebodyHeard(s.dequeuers)
  }

  lemma {:induction false} BeforeListening(s: World, w: nat, merging: bool) returns (t: World)
    requires Open(s, w, Idle)
    ensures Reaches(s, t, merging) && Calm(t, w)
  {
    Stays(s, merging);
    Goes(s, s, ReadFlag(w), merging);
    t := TakeAll(s, Apply(s, ReadFlag(w)), w, SawOpen, merging);
    Goes(s, t, TryPop(w), merging);
    t := Apply(t, TryPop(w));
    t := LetThemNotify(s, t, w, SawEmpty, |t.enqueuers|, merging);
  }

  /// Another call takes a step of its own; the heap stays empty and nobody is disturbed.
  lemma {:induction false} ItMoves(s: World, t: World, w: nat, d: nat, step: Step, merging: bool) returns (u: World)
    requires Reaches(s, t, merging) && Calm(t, w) && d < |t.dequeuers| && d != w && CanStep(t, step)
    requires step == ReadFlag(d) || step == TryPop(d) || step == Listen(d)
    ensures Reaches(s, u, merging) && Calm(u, w) && u == Apply(t, step)
    ensures u.dequeuers == t.dequeuers[d := u.dequeuers[d]]
  {
    Goes(s, t, step, merging);
    u := Apply(t, step);
    assert forall i :: 0 <= i < |t.dequeuers| && i != d ==> u.dequeuers[i] == t.dequeuers[i];
  }

  /// Another call that is under way finds the heap empty and goes to sleep.
  lemma {:induction false} LetItRest(s: World, t: World, w: nat, d: nat, merging: bool) returns (u: World)
    requires Reaches(s, t, merging) && Calm(t, w) && d < |t.dequeuers| && d != w
    ensures Reaches(s, u, merging) && Calm(u, w)
    ensures |u.dequeuers| == |t.dequeuers| && u.dequeuers == t.dequeuers[d := u.dequeuers[d]] && Rests(u.dequeuers[d])
  {
    u := t;
    if u.dequeuers[d].Idle? {
      u := ItMoves(s, u, w, d, ReadFlag(d), merging);
    }
    if u.dequeuers[d].SawOpen? || u.dequeuers[d].SawClosed? {
      u := ItMoves(s, u, w, d, TryPop(d), merging);
    }
    if u.dequeuers[d].SawEmpty? {
      u := ItMoves(s, u, w, d, Listen(d), merging);
    }
    assert u.dequeuers[d] != Parked(true);
  }

  /// Another call that sleeps is woken by an item of its own and takes it.
  lemma {:induction false} ServeIt(s: World, t: World, w: nat, d: nat, merging: bool) returns (u: World)
    requires Reaches(s, t, merging) && Calm(t, w) && d < |t.dequeuers| && d != w && t.dequeuers[d] == Parked(false)
    ensures Reaches(s, u, merging) && Calm(u, w) && u.dequeuers == t.dequeuers[d := Served]
  {
    u := AnItemComes(s, t, w, d, merging);
    Goes(s, u, Wake(d), merging);
    u := Apply(u, Wake(d));
    Goes(s, u, ReadFlag(d), merging);
    u := Apply(u, ReadFlag(d));
    Goes(s, u, TryPop(d), merging);
    u := Apply(u, TryPop(d));
  }

  /// An enqueuer comes, pushes, and notifies: call `d`, if anybody sleeps at all.
  lemma {:induction false} AnItemComes(s: World, t: World, w: nat, d: nat, merging: bool) returns (u: World)
    requires Reaches(s, t, merging) && Calm(t, w)
    requires SomebodySleeps(t.dequeuers) ==> d < |t.dequeuers| && t.dequeuers[d] == Parked(false)
    ensures Reaches(s, u, merging) && Open(u, w, SawEmpty) && NobodyNotifies(u) && u.items == 1
    ensures u.dequeuers == ToldOne(t.dequeuers, d)
  {
    var e := |t.enqueuers|;
    Goes(s, t, NewEnqueuer, merging);
    var t1 := Apply(t, NewEnqueuer);
    Goes(s, t1, Admit(e), merging);
    var t2 := Apply(t1, Admit(e));
    Goes(s, t2, PushItem(e), merging);
    var t3 := Apply(t2, PushItem(e));
    Goes(s, t3, NotifyOne(e, d), merging);
    u := Apply(t3, NotifyOne(e, d));
  }

  /// The first `k` calls, but for `w`, return.
  lemma {:induction false} LetThemReturn(s: World, t: World, w: nat, k: nat, merging: bool) returns (u: World)
    requires Reaches(s, t, merging) && Calm(t, w) && k <= |t.dequeuers|
    ensures Reaches(s, u, merging) && Calm(u, w) && |u.dequeuers| == |t.dequeuers|
    ensures forall d :: 0 <= d < k && d != w ==> u.dequeuers[d].Served?
  {
    u := t;
    if k > 0 {
      u := LetThemReturn(s, t, w, k - 1, merging);
      if k - 1 != w {
        u := LetItRest(s, u, w, k - 1, merging);
        if u.dequeuers[k - 1] == Parked(false) {
          u := ServeIt(s, u, w, k - 1, merging);
        }
      }
    }
  }

  lemma {:induction false} TheQueueCloses(s: World, t: World, w: nat, merging: bool) returns (u: World)
    requires Reaches(s, t, merging) && Calm(t, w)
    requires forall d :: 0 <= d < |t.dequeuers| && d != w ==> t.dequeuers[d].Served?
    ensures Reaches(s, u, merging) && u.dequeuers == t.dequeuers && NobodyNotifies(u) && u.closed
  {
    var c := |t.closers|;
    Goes(s, t, NewCloser, merging);
    var t1 := Apply(t, NewCloser);
    Goes(s, t1, SetFlag(c), merging);
    var t2 := Apply(t1, SetFlag(c));
    Goes(s, t2, NotifyAll(c), merging);
    u := Apply(t2, NotifyAll(c));
  }

  /// Last of all, `w` creates its listener.
  lemma {:induction false} LateListener(s: World, t: World, w: nat, merging: bool) returns (u: World)
    requires Reaches(s, t, merging) && w < |t.dequeuers| && t.dequeuers[w].SawEmpty? && NobodyNotifies(t)
    requires forall d :: 0 <= d < |t.dequeuers| && d != w ==> t.dequeuers[d].Served?
    ensures Reaches(s, u, merging) && Stranded(u, w) && u.items == t.items && u.closed == t.closed
  {
    Goes(s, t, Listen(w), merging);
    u := Apply(t, Listen(w));
  }

  lemma {:induction false} NeverStranded(s: World, t: World, w: nat, merging: bool)
    requires Returns(s, w) && Reaches(s, t, merging)
    ensures !Stranded(t, w)
  {
    var steps :| Leads(s, steps, t, merging);
    NeverParks(s, steps, w);
  }

  /// A call of `dequeue` may be left asleep although an item is there, and although the queue is closed,
  /// exactly when it does not find the queue closed already - whatever is in the heap, whatever other
  /// calls are doing, and also if no two notifications ever merge. Nobody is left who could still wake
  /// it or take the item.
  lemma {:induction false} WhenDequeueMaySleep(s: World, w: nat, merging: bool)
    requires w < |s.dequeuers| && s.dequeuers[w].Idle?
    requires forall c :: 0 <= c < |s.closers| && s.closers[c].Flagged? ==> s.closed
    ensures MaySleepOverAnItem(s, w, merging) <==> !s.closed
    ensures MaySleepOverClose(s, w, merging) <==> !s.closed
  {
    if s.closed {
      forall t | Reaches(s, t, merging)
        ensures !Stranded(t, w)
      {
        NeverStranded(s, t, w, merging);
      }
    } else {
      var t := BeforeListening(s, w, merging);
      t := LetThemReturn(s, t, w, |t.dequeuers|, merging);
      var item := AnItemComes(s, t, w, 0, merging);
      item := LateListener(s, item, w, merging);
      var closing := TheQueueCloses(s, t, w, merging);
      closing := LateListener(s, closing, w, merging);
    }
  }

  /// A late listener is not the only way to be left asleep: two calls sleep, nobody is late, two items
  /// come, and since `notify(1)` only makes sure that one listener is notified, the second one does
  /// nothing while the first one's call has not woken yet.
  lemma {:induction false} NotificationsCanMerge()
    ensures exists t ::
              Reaches(TWO_ASLEEP, t, true) && Stranded(t, 0) && t.items > 0 && t.dequeuers == [Parked(false), Served]
  {
    var t := BothPush();
    t := OneNotified(t);
    t := OneReturns(t);
  }

  const TWO_ASLEEP := World(false, 0, [Parked(false), Parked(false)], [Arrived, Arrived], [])

  lemma {:induction false} BothPush() returns (t: World)
    ensures Reaches(TWO_ASLEEP, t, true) && t == World(false, 2, [Parked(false), Parked(false)], [Pushed, Pushed], [])
  {
    Stays(TWO_ASLEEP, true);
    var t1 := Follow(TWO_ASLEEP, TWO_ASLEEP, Admit(0), true);
    var t2 := Follow(TWO_ASLEEP, t1, PushItem(0), true);
    var t3 := Follow(TWO_ASLEEP, t2, Admit(1), true);
    t := Follow(TWO_ASLEEP, t3, PushItem(1), true);
  }

  lemma {:induction false} OneNotified(t: World) returns (u: World)
    requires Reaches(TWO_ASLEEP, t, true) && t == World(false, 2, [Parked(false), Parked(false)], [Pushed, Pushed], [])
    ensures Reaches(TWO_ASLEEP, u, true)
    ensures u == World(false, 2, [Parked(false), Parked(true)], [Notified, Notified], [])
  {
    assert t.dequeuers[1] == Parked(false);
    var t1 := Follow(TWO_ASLEEP, t, NotifyOne(0, 1), true);
    assert t1.dequeuers == [Parked(false), Parked(true)];
    assert t1.dequeuers[1] == Parked(true);
    u := Follow(TWO_ASLEEP, t1, NotifyOne(1, 0), true);
  }

  lemma {:induction false} OneReturns(t: World) returns (u: World)
    requires Reaches(TWO_ASLEEP, t, true)
    requires t == World(false, 2, [Parked(false), Parked(true)], [Notified, Notified], [])
    ensures Reaches(TWO_ASLEEP, u, true) && u == World(false, 1, [Parked(false), Served], [Notified, Notified], [])
  {
    var t1 := Follow(TWO_ASLEEP, t, Wake(1), true);
    var t2 := Follow(TWO_ASLEEP, t1, ReadFlag(1), true);
    u := Follow(TWO_ASLEEP, t2, TryPop(1), true);
  }

  lemma {:induction false} Follow(s: World, t: World, step: Step, merging: bool) returns (u: World)
    requires Reaches(s, t, merging) && CanStep(t, step) && (merging || !Merges(t, step))
    ensures u == Apply(t, step) && Reaches(s, u, merging)
  {
    Goes(s, t, step, merging);
    u := Apply(t, step);
  }
}
