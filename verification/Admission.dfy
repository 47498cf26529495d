/// The batching admission protocol as a state machine over its atomic steps.
///
/// Any number of callers run `enqueue` concurrently on one slot. A caller's `join` is broken at
/// every point where another thread can be seen or can see it: taking the slot mutex, taking the
/// entry out, upgrading the weak admission, pushing under the window mutex, putting the entry back,
/// building the new window, releasing the mutex, and dropping a discarded admission. Submission is
/// split into "job visible to workers", "`Queue::enqueue` has returned" and "result recorded in the
/// slot". Callers can be cancelled wherever they await, and a worker can seal a visible window
/// at any moment.

module Admission {
  import opened Basics
  import opened Windows

  type Input(!new)
  type Delivery(!new)
  type Options(==, !new)

  /// `accepted` tells `AdmissionState::Accepted` from `Pending(weak)`; the weak pointer always
  /// designates the admission created together with the window, so `win` names both.
  datatype Entry = Entry(win: nat, options: Options, accepted: bool)

  /// The shared submission future of one admission.
  /// `Returned` is the gap between `submission.await` returning and `accept`/`evict` having run;
  /// only the caller whose poll got the result is inside that gap.
  datatype Submission =
    | InFlight
    | Visible
    | Returned(ok: bool, poller: nat)
    | Done(ok: bool)

  /// A window together with its admission. `strong` is the admission's strong count, `taken` is what
  /// the worker's one `seal` returned, and `joined` is a history variable: the callers whose member
  /// was put into this window, in the order of the pushes.
  datatype WindowRec = WindowRec(
    value: WindowValue<Input, Delivery>,
    options: Options,
    submission: Submission,
    strong: nat,
    taken: Option<(seq<Input>, seq<Delivery>)>,
    joined: seq<nat>)

  datatype Verdict = Accepted | Rejected | Cancelled

  datatype Pc =
    | Start
    | Withdrawn
    | Locked
    | Pushing(entry: Entry, held: bool)
    | Pushed(entry: Entry, held: bool, full: bool)
    | Opening(discard: Option<nat>)
    | Opened(win: nat, discard: Option<nat>)
    | Discarding(discarded: nat, win: nat)
    | AbandoningDiscard(dead: nat, win: nat)
    | Waiting(win: nat)
    | Recording(win: nat, ok: bool)
    | Finishing(win: nat, ok: bool)
    | Abandoning(win: nat, verdict: Verdict)
    | Finished(win: nat, verdict: Verdict)

  /// `position` is a history variable: the index at which the caller's member was pushed.
  datatype Caller = Caller(input: Input, delivery: Delivery, options: Options, pc: Pc, position: nat)

  datatype State = State(
    maxSize: nat,
    lock: Option<nat>,
    slot: Option<Entry>,
    wins: seq<WindowRec>,
    callers: seq<Caller>)

  function Init(maxSize: nat): State {
    State(maxSize, None, None, [], [])
  }

  // ---------------------------------------------------------------- derived notions

  /// The code between `self.open.lock()` and the end of the guarded block.
  predicate InLock(pc: Pc) {
    pc.Locked? || pc.Pushing? || pc.Pushed? || pc.Opening? || pc.Opened?
  }

  /// The window that holds the caller's member, once it has been put somewhere.
  function HomeOf(pc: Pc): Option<nat> {
    match pc
    case Pushed(e, _, _) => Some(e.win)
    case Opened(w, _) => Some(w)
    case Discarding(_, w) => Some(w)
    case AbandoningDiscard(_, w) => Some(w)
    case Waiting(w) => Some(w)
    case Recording(w, _) => Some(w)
    case Finishing(w, _) => Some(w)
    case Abandoning(w, _) => Some(w)
    case Finished(w, _) => Some(w)
    case _ => None
  }

  /// How many strong references to the admission of `w` a caller owns.
  function Holds(pc: Pc, w: nat): nat {
    match pc
    case Pushing(e, held) => if held && e.win == w then 1 else 0
    case Pushed(e, held, _) => if held && e.win == w then 1 else 0
    case Opening(d) => if d == Some(w) then 1 else 0
    case Opened(v, d) => (if v == w then 1 else 0) + (if d == Some(w) then 1 else 0)
    case Discarding(d, v) => (if v == w then 1 else 0) + (if d == w then 1 else 0)
    case AbandoningDiscard(_, v) => if v == w then 1 else 0
    case Waiting(v) => if v == w then 1 else 0
    case Recording(v, _) => if v == w then 1 else 0
    case Finishing(v, _) => if v == w then 1 else 0
    case _ => 0
  }

  function Holders(callers: seq<Caller>, w: nat): nat {
    if |callers| == 0 then 0
    else Holders(callers[..|callers| - 1], w) + Holds(callers[|callers| - 1].pc, w)
  }

  /// The job has been handed to the queue.
  predicate JobVisible(sub: Submission) {
    sub.Visible? || ((sub.Returned? || sub.Done?) && sub.ok)
  }

  // ---------------------------------------------------------------- atomic steps

  datatype Step =
    | Arrive(input: Input, delivery: Delivery, options: Options)
    | Withdraw(c: nat)
    | Acquire(c: nat)
    | Inspect(c: nat)
    | Push(c: nat)
    | Reinsert(c: nat)
    | Create(c: nat)
    | Publish(c: nat)
    | Discard(c: nat)
    | AbandonDiscard(c: nat)
    | Show(c: nat)
    | Return(c: nat, ok: bool)
    | Record(c: nat)
    | Observe(c: nat)
    | Drop(c: nat)
    | Cancel(c: nat)
    | Abandon(c: nat)
    | Seal(w: nat)

  predicate At(s: State, c: nat) {
    c < |s.callers|
  }

  function PcOf(s: State, c: nat): Pc
    requires At(s, c)
  {
    s.callers[c].pc
  }

  /// Window indices mentioned by a program counter exist.
  predicate InRange(s: State, pc: Pc) {
    match pc
    case Pushing(e, _) => e.win < |s.wins|
    case Pushed(e, _, _) => e.win < |s.wins|
    case Opening(d) => d.Some? ==> d.value < |s.wins|
    case Opened(w, d) => w < |s.wins| && (d.Some? ==> d.value < w)
    case Discarding(d, w) => d < w < |s.wins|
    case AbandoningDiscard(d, w) => d < w < |s.wins|
    case Waiting(w) => w < |s.wins|
    case Recording(w, _) => w < |s.wins|
    case Finishing(w, _) => w < |s.wins|
    case Abandoning(w, _) => w < |s.wins|
    case Finished(w, _) => w < |s.wins|
    case _ => true
  }

  predicate Shape(s: State) {
    && (s.slot.Some? ==> s.slot.value.win < |s.wins|)
    && (forall c {:trigger s.callers[c]} :: 0 <= c < |s.callers| ==> InRange(s, s.callers[c].pc))
  }

  /// What a caller that owns the mutex does with the entry it found.
  datatype Decision = OpenFresh | CloseAndOpen | TryPush(held: bool)

  /// The match on `open_slot.take()`: `alive` says whether the weak admission still upgrades.
  function Decide(entry: Option<Entry>, options: Options, alive: bool): Decision {
    if entry.None? then OpenFresh
    else if entry.value.options != options then CloseAndOpen
    else if !entry.value.accepted && !alive then CloseAndOpen
    else TryPush(!entry.value.accepted)
  }

  /// `abandon(w)` on the slot.
  function AbandonSlot(slot: Option<Entry>, w: nat): Option<Entry> {
    if slot.Some? && slot.value.win == w && !slot.value.accepted then None else slot
  }

  /// `accept(w)` on the slot.
  function AcceptSlot(slot: Option<Entry>, w: nat): Option<Entry> {
    if slot.Some? && slot.value.win == w then Some(slot.value.(accepted := true)) else slot
  }

  /// `evict(w)` on the slot.
  function EvictSlot(slot: Option<Entry>, w: nat): Option<Entry> {
    if slot.Some? && slot.value.win == w then None else slot
  }

  predicate Enabled(s: State, step: Step)
    requires Shape(s)
  {
    match step
    case Arrive(_, _, _) => true
    case Withdraw(c) => At(s, c) && PcOf(s, c).Start?
    case Acquire(c) => At(s, c) && PcOf(s, c).Start? && s.lock.None?
    case Inspect(c) => At(s, c) && PcOf(s, c).Locked?
    case Push(c) => At(s, c) && PcOf(s, c).Pushing?
    case Reinsert(c) => At(s, c) && PcOf(s, c).Pushed?
    case Create(c) => At(s, c) && PcOf(s, c).Opening?
    case Publish(c) => At(s, c) && PcOf(s, c).Opened?
    case Discard(c) => At(s, c) && PcOf(s, c).Discarding?
    case AbandonDiscard(c) => At(s, c) && PcOf(s, c).AbandoningDiscard? && s.lock.None?
    case Show(c) => At(s, c) && PcOf(s, c).Waiting? && s.wins[PcOf(s, c).win].submission.InFlight?
    case Return(c, ok) =>
      && At(s, c) && PcOf(s, c).Waiting?
      && s.wins[PcOf(s, c).win].submission == (if ok then Visible else InFlight)
    case Record(c) => At(s, c) && PcOf(s, c).Recording? && s.lock.None?
    case Observe(c) => At(s, c) && PcOf(s, c).Waiting? && s.wins[PcOf(s, c).win].submission.Done?
    case Drop(c) => At(s, c) && PcOf(s, c).Finishing?
    case Cancel(c) => At(s, c) && PcOf(s, c).Waiting?
    case Abandon(c) => At(s, c) && PcOf(s, c).Abandoning? && s.lock.None?
    case Seal(w) => w < |s.wins| && JobVisible(s.wins[w].submission) && s.wins[w].taken.None?
  }

  function Goto(s: State, c: nat, pc: Pc): State
    requires At(s, c)
  {
    s.(callers := s.callers[c := s.callers[c].(pc := pc)])
  }

  function SetWin(s: State, w: nat, rec: WindowRec): State
    requires w < |s.wins|
  {
    s.(wins := s.wins[w := rec])
  }

  /// Releases one strong reference to the admission of `w`.
  function Release(s: State, w: nat): State
    requires w < |s.wins|
  {
    var rec := s.wins[w];
    SetWin(s, w, rec.(strong := if rec.strong > 0 then rec.strong - 1 else 0))
  }

  function CloseWin(s: State, w: nat): State
    requires w < |s.wins|
  {
    SetWin(s, w, s.wins[w].(value := CloseValue(s.wins[w].value)))
  }

  function DoInspect(s: State, c: nat): State
    requires Shape(s) && Enabled(s, Inspect(c))
  {
    var emptied := s.(slot := None);
    match Decide(s.slot, s.callers[c].options, s.slot.Some? && s.wins[s.slot.value.win].strong > 0)
    case OpenFresh => Goto(emptied, c, Opening(None))
    case CloseAndOpen => Goto(CloseWin(emptied, s.slot.value.win), c, Opening(None))
    case TryPush(held) =>
      var w := s.slot.value.win;
      var rec := s.wins[w];
      Goto(SetWin(emptied, w, if held then rec.(strong := rec.strong + 1) else rec),
           c, Pushing(s.slot.value, held))
  }

  function DoPush(s: State, c: nat): State
    requires Shape(s) && Enabled(s, Push(c))
  {
    var caller := s.callers[c];
    var w := caller.pc.entry.win;
    var rec := s.wins[w];
    if rec.value.sealed then
      Goto(s, c, Opening(if caller.pc.held then Some(w) else None))
    else
      var v := PushInto(rec.value, s.maxSize, caller.input, caller.delivery);
      var s' := SetWin(s, w, rec.(value := v, joined := rec.joined + [c]));
      s'.(callers := s'.callers[c := caller.(pc := Pushed(caller.pc.entry, caller.pc.held, v.sealed),
                                             position := |rec.joined|)])
  }

  function DoReinsert(s: State, c: nat): State
    requires Shape(s) && Enabled(s, Reinsert(c))
  {
    var pc := PcOf(s, c);
    var s' := s.(slot := if pc.full then None else Some(pc.entry), lock := None);
    Goto(s', c, if pc.held then Waiting(pc.entry.win) else Finished(pc.entry.win, Accepted))
  }

  function DoCreate(s: State, c: nat): State
    requires Shape(s) && Enabled(s, Create(c))
  {
    var caller := s.callers[c];
    var rec := WindowRec(OpenWith(s.maxSize, caller.input, caller.delivery), caller.options,
                         InFlight, 1, None, [c]);
    s.(wins := s.wins + [rec],
       callers := s.callers[c := caller.(pc := Opened(|s.wins|, caller.pc.discard), position := 0)])
  }

  function DoPublish(s: State, c: nat): State
    requires Shape(s) && Enabled(s, Publish(c))
  {
    var pc := PcOf(s, c);
    var rec := s.wins[pc.win];
    var s' := s.(lock := None,
                 slot := if rec.value.sealed then s.slot else Some(Entry(pc.win, rec.options, false)));
    Goto(s', c, if pc.discard.Some? then Discarding(pc.discard.value, pc.win) else Waiting(pc.win))
  }

  function DoRecord(s: State, c: nat): State
    requires Shape(s) && Enabled(s, Record(c))
  {
    var pc := PcOf(s, c);
    var s' := SetWin(s, pc.win, s.wins[pc.win].(submission := Done(pc.ok)));
    Goto(s'.(slot := if pc.ok then AcceptSlot(s.slot, pc.win) else EvictSlot(s.slot, pc.win)),
         c, Finishing(pc.win, pc.ok))
  }

  /// The last owner of an admission runs its destructor, which calls `abandon`.
  function DropRef(s: State, c: nat, w: nat, lastOne: Pc, otherwise: Pc): State
    requires At(s, c) && w < |s.wins|
  {
    Goto(Release(s, w), c, if s.wins[w].strong <= 1 then lastOne else otherwise)
  }

  function VerdictOf(ok: bool): Verdict {
    if ok then Accepted else Rejected
  }

  function DoSeal(s: State, w: nat): State
    requires Shape(s) && Enabled(s, Seal(w))
  {
    var rec := s.wins[w];
    SetWin(s, w, rec.(value := SealValue(rec.value),
                      taken := Some((rec.value.inputs, rec.value.deliveries))))
  }

  function DoDiscard(s: State, c: nat): State
    requires Shape(s) && Enabled(s, Discard(c))
  {
    var pc := PcOf(s, c);
    DropRef(s, c, pc.discarded, AbandoningDiscard(pc.discarded, pc.win), Waiting(pc.win))
  }

  function DoAbandonDiscard(s: State, c: nat): State
    requires Shape(s) && Enabled(s, AbandonDiscard(c))
  {
    var pc := PcOf(s, c);
    Goto(s.(slot := AbandonSlot(s.slot, pc.dead)), c, Waiting(pc.win))
  }

  function DoShow(s: State, c: nat): State
    requires Shape(s) && Enabled(s, Show(c))
  {
    var w := PcOf(s, c).win;
    SetWin(s, w, s.wins[w].(submission := Visible))
  }

  function DoReturn(s: State, c: nat, ok: bool): State
    requires Shape(s) && Enabled(s, Return(c, ok))
  {
    var w := PcOf(s, c).win;
    Goto(SetWin(s, w, s.wins[w].(submission := Returned(ok, c))), c, Recording(w, ok))
  }

  function DoObserve(s: State, c: nat): State
    requires Shape(s) && Enabled(s, Observe(c))
  {
    var w := PcOf(s, c).win;
    Goto(s, c, Finishing(w, s.wins[w].submission.ok))
  }

  function DoDrop(s: State, c: nat): State
    requires Shape(s) && Enabled(s, Drop(c))
  {
    var pc := PcOf(s, c);
    DropRef(s, c, pc.win, Abandoning(pc.win, VerdictOf(pc.ok)), Finished(pc.win, VerdictOf(pc.ok)))
  }

  function DoCancel(s: State, c: nat): State
    requires Shape(s) && Enabled(s, Cancel(c))
  {
    var w := PcOf(s, c).win;
    DropRef(s, c, w, Abandoning(w, Cancelled), Finished(w, Cancelled))
  }

  function DoAbandon(s: State, c: nat): State
    requires Shape(s) && Enabled(s, Abandon(c))
  {
    var pc := PcOf(s, c);
    Goto(s.(slot := AbandonSlot(s.slot, pc.win)), c, Finished(pc.win, pc.verdict))
  }

  function Apply(s: State, step: Step): State
    requires Shape(s) && Enabled(s, step)
  {
    match step
    case Arrive(i, d, o) => s.(callers := s.callers + [Caller(i, d, o, Start, 0)])
    case Withdraw(c) => Goto(s, c, Withdrawn)
    case Acquire(c) => Goto(s.(lock := Some(c)), c, Locked)
    case Inspect(c) => DoInspect(s, c)
    case Push(c) => DoPush(s, c)
    case Reinsert(c) => DoReinsert(s, c)
    case Create(c) => DoCreate(s, c)
    case Publish(c) => DoPublish(s, c)
    case Discard(c) => DoDiscard(s, c)
    case AbandonDiscard(c) => DoAbandonDiscard(s, c)
    case Show(c) => DoShow(s, c)
    case Return(c, ok) => DoReturn(s, c, ok)
    case Record(c) => DoRecord(s, c)
    case Observe(c) => DoObserve(s, c)
    case Drop(c) => DoDrop(s, c)
    case Cancel(c) => DoCancel(s, c)
    case Abandon(c) => DoAbandon(s, c)
    case Seal(w) => DoSeal(s, w)
  }
}
