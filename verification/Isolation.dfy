/// Machines side by side: a trace of addressed acts, and the fact that no machine can tell that it is
/// not alone.

module Isolation {

  datatype Signal<+A> = To(index: nat, act: A)

  /// One machine.
  function Run<S, A>(step: (S, A) -> S, s: S, acts: seq<A>): S
    decreases |acts|
  {
    if |acts| == 0 then s
    else step(Run(step, s, acts[..|acts| - 1]), acts[|acts| - 1])
  }

  function Dispatch<S, A>(step: (S, A) -> S, ss: seq<S>, signal: Signal<A>): (r: seq<S>)
    ensures |r| == |ss|
  {
    if signal.index < |ss| then ss[signal.index := step(ss[signal.index], signal.act)] else ss
  }

  /// All machines.
  function DispatchAll<S, A>(step: (S, A) -> S, ss: seq<S>, trace: seq<Signal<A>>): (r: seq<S>)
    ensures |r| == |ss|
    decreases |trace|
  {
    if |trace| == 0 then ss
    else Dispatch(step, DispatchAll(step, ss, trace[..|trace| - 1]), trace[|trace| - 1])
  }

  /// The part of a trace that is addressed to machine `i`.
  function Project<A>(trace: seq<Signal<A>>, i: nat): seq<A>
    decreases |trace|
  {
    if |trace| == 0 then []
    else
      var earlier := Project(trace[..|trace| - 1], i);
      if trace[|trace| - 1].index == i then earlier + [trace[|trace| - 1].act] else earlier
  }

  /// Each machine fares exactly as it would alone on its own part of the trace.
  lemma {:induction false} RunsAlone<S, A>(step: (S, A) -> S, ss: seq<S>, trace: seq<Signal<A>>, i: nat)
    requires i < |ss|
    ensures DispatchAll(step, ss, trace)[i] == Run(step, ss[i], Project(trace, i))
    decreases |trace|
  {
    if |trace| > 0 {
      var shorter := trace[..|trace| - 1];
      RunsAlone(step, ss, shorter, i);
      var mine := Project(shorter, i);
      assert (mine + [trace[|trace| - 1].act])[..|mine|] == mine;
    }
  }

  lemma {:induction false} DispatchAppend<S, A>(step: (S, A) -> S, ss: seq<S>, a: seq<Signal<A>>, b: seq<Signal<A>>)
    ensures DispatchAll(step, ss, a + b) == DispatchAll(step, DispatchAll(step, ss, a), b)
    decreases |b|
  {
    if |b| == 0 {
      assert a + b == a;
    } else {
      var shorter := b[..|b| - 1];
      DispatchAppend(step, ss, a, shorter);
      assert (a + b)[..|a + b| - 1] == a + shorter;
    }
  }

  /// Acts addressed to a machine that does not exist change nothing.
  lemma {:induction false} OutOfRange<S, A>(step: (S, A) -> S, ss: seq<S>, before: seq<Signal<A>>,
                                               lost: Signal<A>, after: seq<Signal<A>>)
    requires lost.index >= |ss|
    ensures DispatchAll(step, ss, before + [lost] + after) == DispatchAll(step, ss, before + after)
  {
    DispatchAppend(step, ss, before + [lost], after);
    DispatchAppend(step, ss, before, after);
    assert (before + [lost])[..|before|] == before;
  }
}
