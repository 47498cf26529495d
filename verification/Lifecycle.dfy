/// The terminal outcome of one stream: a first-claim-wins cell, a close signal, and the receiver's
/// destructor, first as the objects they are and then raced against each other by any number of threads.

module Lifecycles {
  import opened Basics

  /// `hasSetter` is the `Option<JobFutureSetter>` still being there; `sent` is everything the stream's
  /// result future has been sent.
  datatype Life = Life(outcome: Option<Outcome>, hasSetter: bool, sent: seq<Outcome>, closed: bool)

  /// `CompletionState::finish`.
  function Claim(l: Life, outcome: Outcome): Life {
    if l.outcome.Some? then l
    else Life(Some(outcome), false, if l.hasSetter then l.sent + [outcome] else l.sent, l.closed)
  }

  /// `CloseSignal::close`.
  function CloseLife(l: Life): Life {
    l.(closed := true)
  }

  /// `set_terminal` when nobody interferes.
  function Terminate(l: Life, outcome: Outcome): Life {
    if l.outcome.Some? then l else CloseLife(Claim(l, outcome))
  }

  predicate IsOpen(l: Life) {
    !l.closed && l.outcome.None?
  }

  predicate HasFailed(l: Life) {
    l.outcome.Some? && l.outcome.value.Err?
  }

  function NewLife(hasSetter: bool): Life {
    Life(None, hasSetter, [], false)
  }

  // ---------------------------------------------------------------- the objects

  /// The sending half of a one-shot cell; `delivered` is what its receiver got.
  class JobFutureSetter<T> {
    var sender: bool
    var delivered: seq<Result<T>>

    constructor ()
      ensures sender && delivered == []
    {
      sender, delivered := true, [];
    }

    method SetResult(result: Result<T>)
      modifies this
      ensures !sender
      ensures delivered == if old(sender) then old(delivered) + [result] else old(delivered)
    {
      if sender {
        sender := false;
        delivered := delivered + [result];
      }
    }
  }

  class StreamLifecycle {
    var setter: Option<JobFutureSetter<()>>
    /// The setter the cell was built with, for specifications.
    ghost const result: Option<JobFutureSetter<()>>
    var outcome: Option<Outcome>
    var closed: bool
    var notifications: nat
    const receiverDropError: Option<Error>

    ghost predicate Valid()
      reads this, if result.Some? then {result.value} else {}
    {
      && (setter.Some? ==> setter == result && result.value.sender && result.value.delivered == [])
      && (notifications > 0 <==> closed)
    }

    ghost function Value(): Life
      reads this, if result.Some? then {result.value} else {}
    {
      Life(outcome, setter.Some?, if result.Some? then result.value.delivered else [], closed)
    }

    constructor (setter: Option<JobFutureSetter<()>>, receiverDropError: Option<Error>)
      requires setter.Some? ==> setter.value.sender && setter.value.delivered == []
      ensures Valid() && Value() == NewLife(setter.Some?) && result == setter
      ensures this.receiverDropError == receiverDropError && notifications == 0
    {
      this.setter, this.result := setter, setter;
      this.receiverDropError := receiverDropError;
      outcome, closed, notifications := None, false, 0;
    }

    method Finish(outcome: Outcome) returns (won: bool)
      requires Valid()
      modifies this, if result.Some? then {result.value} else {}
      ensures Valid() && Value() == Claim(old(Value()), outcome)
      ensures won == old(this.outcome).None? && notifications == old(notifications) && closed == old(closed)
      ensures this.outcome == if won then Some(outcome) else old(this.outcome)
    {
      if this.outcome.Some? {
        return false;
      }
      this.outcome := Some(outcome);
      if setter.Some? {
        var taken := setter.value;
        setter := None;
        taken.SetResult(outcome);
      }
      return true;
    }

    /// Notifies only when it is the call that sets the flag.
    method Close()
      requires Valid()
      modifies this
      ensures Valid() && Value() == CloseLife(old(Value()))
      ensures closed && outcome == old(outcome)
      ensures notifications == old(notifications) + (if old(closed) then 0 else 1)
    {
      if !closed {
        closed := true;
        notifications := notifications + 1;
      }
    }

    method SetTerminal(outcome: Outcome) returns (won: bool)
      requires Valid()
      modifies this, if result.Some? then {result.value} else {}
      ensures Valid() && Value() == Terminate(old(Value()), outcome)
      ensures won == old(this.outcome).None?
      ensures won ==> this.outcome == Some(outcome) && closed
      ensures won && old(setter).Some? ==> result.value.delivered == [outcome]
      ensures !won ==> this.outcome == old(this.outcome) && closed == old(closed)
    {
      won := Finish(outcome);
      if won {
        Close();
      }
    }

    method ReceiverDropped()
      requires Valid()
      modifies this, if result.Some? then {result.value} else {}
      ensures Valid()
      ensures Value() == CloseLife(if receiverDropError.Some? then Terminate(old(Value()), Err(receiverDropError.value))
                                   else old(Value()))
      ensures closed
      ensures outcome == if old(outcome).None? && receiverDropError.Some? then Some(Err(receiverDropError.value))
                         else old(outcome)
    {
      if receiverDropError.Some? {
        var _ := SetTerminal(Err(receiverDropError.value));
      }
      Close();
    }
  }

  // ---------------------------------------------------------------- the race

  datatype Call = Terminal(outcome: Outcome) | ReceiverDrop

  /// Where a thread is inside `set_terminal` or `receiver_dropped`.
  datatype Stage = Claiming | Closing | DropClosing | Returned

  datatype Thread = Thread(call: Call, stage: Stage, won: bool)

  datatype Race = Race(life: Life, dropError: Option<Error>, threads: seq<Thread>)

  /// The outcome a call tries to record, if it tries at all.
  function Bid(call: Call, dropError: Option<Error>): Option<Outcome> {
    match call
    case Terminal(o) => Some(o)
    case ReceiverDrop => if dropError.Some? then Some(Err(dropError.value)) else None
  }

  datatype RaceStep = Spawn(call: Call) | Move(t: nat)

  predicate CanStep(r: Race, step: RaceStep) {
    step.Spawn? || (step.t < |r.threads| && !r.threads[step.t].stage.Returned?)
  }

  /// One atomic step: the claim under the completion mutex, or one swap of the close flag.
  function RaceApply(r: Race, step: RaceStep): Race
    requires CanStep(r, step)
  {
    match step
    case Spawn(call) => r.(threads := r.threads + [Thread(call, Claiming, false)])
    case Move(t) =>
      var th := r.threads[t];
      var bid := Bid(th.call, r.dropError);
      var afterClaim := if th.call.ReceiverDrop? then DropClosing else Returned;
      match th.stage
      case Claiming =>
        if bid.None? || r.life.outcome.Some? then r.(threads := r.threads[t := th.(stage := afterClaim)])
        else Race(Claim(r.life, bid.value), r.dropError, r.threads[t := Thread(th.call, Closing, true)])
      case Closing => Race(CloseLife(r.life), r.dropError, r.threads[t := th.(stage := afterClaim)])
      case DropClosing => Race(CloseLife(r.life), r.dropError, r.threads[t := th.(stage := Returned)])
      case Returned => r
  }

  ghost predicate IsRace(r: Race, steps: seq<RaceStep>)
    decreases |steps|
  {
    |steps| > 0 ==> CanStep(r, steps[0]) && IsRace(RaceApply(r, steps[0]), steps[1..])
  }

  ghost function RaceEnd(r: Race, steps: seq<RaceStep>): Race
    requires IsRace(r, steps)
    decreases |steps|
  {
    if |steps| == 0 then r else RaceEnd(RaceApply(r, steps[0]), steps[1..])
  }

  function NewRace(hasSetter: bool, dropError: Option<Error>): Race {
    Race(NewLife(hasSetter), dropError, [])
  }

  /// Thread `t` is past its claim and lost it, or never had one to make.
  ghost predicate ThreadOk(r: Race, t: nat)
    requires t < |r.threads|
  {
    var th := r.threads[t];
    && (th.won ==> Bid(th.call, r.dropError).Some? && r.life.outcome == Bid(th.call, r.dropError))
    && (th.stage.Claiming? ==> !th.won)
    && (th.stage.Closing? ==> th.won)
    && (th.stage.DropClosing? ==> th.call.ReceiverDrop?)
    && (!th.stage.Claiming? && Bid(th.call, r.dropError).Some? ==> r.life.outcome.Some?)
    && (th.stage.Returned? && (th.won || th.call.ReceiverDrop?) ==> r.life.closed)
  }

  ghost predicate RaceInv(r: Race, hasSetter: bool) {
    && (forall t {:trigger ThreadOk(r, t)} {:trigger r.threads[t]} :: 0 <= t < |r.threads| ==> ThreadOk(r, t))
    && (forall t, u {:trigger r.threads[t], r.threads[u]} ::
          0 <= t < |r.threads| && 0 <= u < |r.threads| && r.threads[t].won && r.threads[u].won ==> t == u)
    && (r.life.outcome.Some? <==> exists t {:trigger r.threads[t]} :: 0 <= t < |r.threads| && r.threads[t].won)
    && r.life.hasSetter == (hasSetter && r.life.outcome.None?)
    && r.life.sent == (if hasSetter && r.life.outcome.Some? then [r.life.outcome.value] else [])
    && (r.life.closed && r.dropError.Some? ==> r.life.outcome.Some?)
  }

  lemma {:induction false} RaceStepKeeps(r: Race, step: RaceStep, hasSetter: bool)
    requires RaceInv(r, hasSetter) && CanStep(r, step)
    ensures RaceInv(RaceApply(r, step), hasSetter)
  {
    var r' := RaceApply(r, step);
    if step.Move? {
      assert ThreadOk(r, step.t);
      assert forall u :: 0 <= u < |r.threads| && u != step.t ==> r'.threads[u] == r.threads[u];
      if r.life.outcome.Some? {
        var w :| 0 <= w < |r.threads| && r.threads[w].won;
        assert r'.threads[w].won;
      } else if r'.life.outcome.Some? {
        assert r'.threads[step.t].won;
      }
    } else {
      assert forall u :: 0 <= u < |r.threads| ==> r'.threads[u] == r.threads[u];
      if r.life.outcome.Some? {
        var w :| 0 <= w < |r.threads| && r.threads[w].won;
        assert r'.threads[w].won;
      }
    }
    forall t {:trigger ThreadOk(r', t)} | 0 <= t < |r'.threads|
      ensures ThreadOk(r', t)
    {
      if t < |r.threads| {
        assert ThreadOk(r, t);
      }
    }
  }

  lemma {:induction false} RaceKeeps(r: Race, steps: seq<RaceStep>, hasSetter: bool)
    requires RaceInv(r, hasSetter) && IsRace(r, steps)
    ensures RaceInv(RaceEnd(r, steps), hasSetter)
    ensures RaceEnd(r, steps).dropError == r.dropError
    decreases |steps|
  {
    if |steps| > 0 {
      RaceStepKeeps(r, steps[0], hasSetter);
      RaceKeeps(RaceApply(r, steps[0]), steps[1..], hasSetter);
    }
  }

  /// However claims and the receiver's drop interleave: an outcome is recorded exactly when some call
  /// won, at most one call wins, the recorded outcome is the winner's, the result future has been sent
  /// that value exactly once, and with a drop error configured a closed signal means it is recorded.
  lemma {:induction false} OneTerminalOutcome(hasSetter: bool, dropError: Option<Error>, steps: seq<RaceStep>)
    requires IsRace(NewRace(hasSetter, dropError), steps)
    ensures var r := RaceEnd(NewRace(hasSetter, dropError), steps);
            && (r.life.outcome.Some? <==> exists t :: 0 <= t < |r.threads| && r.threads[t].won)
            && (forall t, u :: 0 <= t < |r.threads| && 0 <= u < |r.threads| ==>
                  r.threads[t].won && r.threads[u].won ==> t == u)
            && (forall t :: 0 <= t < |r.threads| && r.threads[t].won ==>
                  match r.threads[t].call
                  case Terminal(outcome) => r.life.outcome == Some(outcome)
                  case ReceiverDrop => dropError.Some? && r.life.outcome == Some(Err(dropError.value)))
            && (hasSetter ==> r.life.sent == if r.life.outcome.Some? then [r.life.outcome.value] else [])
            && (r.life.closed && dropError.Some? ==> r.life.outcome.Some?)
  {
    RaceKeeps(NewRace(hasSetter, dropError), steps, hasSetter);
  }

  /// Once every call has returned, somebody's outcome stands and the signal is closed.
  lemma {:induction false} QuietRaceIsSettled(hasSetter: bool, dropError: Option<Error>, steps: seq<RaceStep>, t: nat)
    requires IsRace(NewRace(hasSetter, dropError), steps)
    requires var r := RaceEnd(NewRace(hasSetter, dropError), steps);
             && t < |r.threads| && Bid(r.threads[t].call, dropError).Some?
             && (forall u :: 0 <= u < |r.threads| ==> r.threads[u].stage.Returned?)
    ensures var r := RaceEnd(NewRace(hasSetter, dropError), steps);
            r.life.outcome.Some? && r.life.closed
  {
    RaceKeeps(NewRace(hasSetter, dropError), steps, hasSetter);
    var r := RaceEnd(NewRace(hasSetter, dropError), steps);
    assert ThreadOk(r, t);
    var w :| 0 <= w < |r.threads| && r.threads[w].won;
    assert ThreadOk(r, w);
  }

  /// A recorded outcome and a closed signal are for ever.
  lemma {:induction false} RaceIsMonotone(r: Race, steps: seq<RaceStep>)
    requires IsRace(r, steps)
    ensures r.life.outcome.Some? ==> RaceEnd(r, steps).life.outcome == r.life.outcome
    ensures r.life.closed ==> RaceEnd(r, steps).life.closed
    decreases |steps|
  {
    if |steps| > 0 {
      RaceIsMonotone(RaceApply(r, steps[0]), steps[1..]);
    }
  }

  /// `is_open` reads the signal first and the completion later. Whatever happens around the two
  /// reads, once it has answered no, every later call answers no.
  lemma {:induction false} OpenNeverComesBack(r0: Race, a: seq<RaceStep>, b: seq<RaceStep>, c: seq<RaceStep>)
    requires IsRace(r0, a) && IsRace(RaceEnd(r0, a), b) && IsRace(RaceEnd(RaceEnd(r0, a), b), c)
    requires r0.life.closed || RaceEnd(r0, a).life.outcome.Some?
    ensures var r2 := RaceEnd(RaceEnd(r0, a), b);
            r2.life.closed || RaceEnd(r2, c).life.outcome.Some?
  {
    var r1 := RaceEnd(r0, a);
    RaceIsMonotone(r0, a);
    RaceIsMonotone(r1, b);
    RaceIsMonotone(RaceEnd(r1, b), c);
  }
}
