/// The batch retry loop: what a task answers decides, member by member, who is delivered to and who
/// goes into the next round.

module Retry {
  import opened Basics

  type Input(!new)
  type Output(==, !new)

  /// What one call of the executor comes to.
  datatype Reply = Results(results: seq<Result<Output>>) | OuterError(error: Error) | Panic(cause: int)

  /// A task is asked once per round; the round number stands for whatever it remembers in between.
  type Task = (nat, seq<Input>) -> Reply

  function Repeat(result: Result<Output>, n: nat): (s: seq<Result<Output>>)
    ensures |s| == n && forall k :: 0 <= k < n ==> s[k] == result
  {
    seq(n, _ => result)
  }

  /// One result per member, whatever the reply was.
  function Answers(reply: Reply, size: nat): (s: seq<Result<Output>>)
    ensures |s| == size
  {
    match reply
    case Results(results) =>
      if |results| == size then results else Repeat(Err(BatchSizeMismatch(size, |results|)), size)
    case OuterError(error) => Repeat(Err(error), size)
    case Panic(cause) => Repeat(Err(TaskPanic(cause)), size)
  }

  predicate Retriable(result: Result<Output>) {
    result.Err? && result.error.TaskExecution?
  }

  // ---------------------------------------------------------------- the rounds

  datatype Batch = Batch(task: Task, inputs: seq<Input>, budgets: seq<nat>)

  predicate Proper(b: Batch) {
    |b.inputs| == |b.budgets|
  }

  predicate Members(b: Batch, live: seq<nat>) {
    forall p :: 0 <= p < |live| ==> live[p] < |b.inputs|
  }

  function Pick<T>(xs: seq<T>, live: seq<nat>): (s: seq<T>)
    requires forall p :: 0 <= p < |live| ==> live[p] < |xs|
    ensures |s| == |live| && forall p :: 0 <= p < |live| ==> s[p] == xs[live[p]]
  {
    seq(|live|, p requires 0 <= p < |live| => xs[live[p]])
  }

  /// The results of round `r` for the members `live`, by position.
  function RoundAnswers(b: Batch, live: seq<nat>, r: nat): (s: seq<Result<Output>>)
    requires Members(b, live)
    ensures |s| == |live|
  {
    Answers(b.task(r, Pick(b.inputs, live)), |live|)
  }

  /// A member that fails with a task error in round `r` has made `r + 1` attempts.
  predicate Survives(b: Batch, member: nat, answer: Result<Output>, r: nat)
    requires Proper(b) && member < |b.inputs|
  {
    Retriable(answer) && r + 1 < b.budgets[member]
  }

  /// Who of the first `k` members goes into the next round.
  function SurvivorsUpTo(b: Batch, live: seq<nat>, answers: seq<Result<Output>>, r: nat, k: nat): (s: seq<nat>)
    requires Proper(b) && Members(b, live) && |answers| == |live| && k <= |live|
    ensures Members(b, s) && |s| <= k
  {
    if k == 0 then []
    else
      var earlier := SurvivorsUpTo(b, live, answers, r, k - 1);
      if Survives(b, live[k - 1], answers[k - 1], r) then earlier + [live[k - 1]] else earlier
  }

  function Everybody(n: nat): (s: seq<nat>)
    ensures |s| == n && forall p :: 0 <= p < n ==> s[p] == p
  {
    seq(n, p => p)
  }

  /// The members of round `r`, in order.
  function Live(b: Batch, r: nat): (live: seq<nat>)
    requires Proper(b)
    ensures Members(b, live)
  {
    if r == 0 then Everybody(|b.inputs|)
    else
      var previous := Live(b, r - 1);
      SurvivorsUpTo(b, previous, RoundAnswers(b, previous, r - 1), r - 1, |previous|)
  }

  predicate Ascending(live: seq<nat>) {
    forall p, q :: 0 <= p < q < |live| ==> live[p] < live[q]
  }

  lemma {:induction false} SurvivorsAre(b: Batch, live: seq<nat>, answers: seq<Result<Output>>, r: nat, k: nat)
    requires Proper(b) && Members(b, live) && |answers| == |live| && k <= |live| && Ascending(live)
    ensures var s := SurvivorsUpTo(b, live, answers, r, k);
            && Ascending(s)
            && (forall i :: i in s <==> exists p :: 0 <= p < k && live[p] == i && Survives(b, live[p], answers[p], r))
  {
    if k > 0 {
      SurvivorsAre(b, live, answers, r, k - 1);
      var earlier := SurvivorsUpTo(b, live, answers, r, k - 1);
      var s := SurvivorsUpTo(b, live, answers, r, k);
      forall i | i in earlier
        ensures i < live[k - 1]
      {
        var p :| 0 <= p < k - 1 && live[p] == i && Survives(b, live[p], answers[p], r);
      }
      forall p, q | 0 <= p < q < |s|
        ensures s[p] < s[q]
      {
        if q == |earlier| {
          assert earlier[p] in earlier;
        }
      }
      forall i
        ensures i in s <==> exists p :: 0 <= p < k && live[p] == i && Survives(b, live[p], answers[p], r)
      {
        if p :| 0 <= p < k && live[p] == i && Survives(b, live[p], answers[p], r) {
          assert p < k - 1 ==> i in earlier;
        }
        if i in s && i !in earlier {
          assert live[k - 1] == i && Survives(b, live[k - 1], answers[k - 1], r);
        }
      }
    }
  }

  lemma {:induction false} LiveAscends(b: Batch, r: nat)
    requires Proper(b)
    ensures Ascending(Live(b, r))
  {
    if r > 0 {
      LiveAscends(b, r - 1);
      var previous := Live(b, r - 1);
      SurvivorsAre(b, previous, RoundAnswers(b, previous, r - 1), r - 1, |previous|);
    }
  }

  /// Round `r + 1` consists of exactly the members of round `r` whose own answer was a task error with
  /// attempts to spare, in the same order.
  lemma {:induction false} NextRound(b: Batch, r: nat, p: nat)
    requires Proper(b) && p < |Live(b, r)|
    ensures Ascending(Live(b, r)) && Ascending(Live(b, r + 1))
    ensures Live(b, r)[p] in Live(b, r + 1) <==>
              Survives(b, Live(b, r)[p], RoundAnswers(b, Live(b, r), r)[p], r)
    ensures var answer := RoundAnswers(b, Live(b, r), r)[p];
            Live(b, r)[p] in Live(b, r + 1) <==>
              answer.Err? && answer.error.TaskExecution? && r + 1 < b.budgets[Live(b, r)[p]]
    ensures forall i :: i in Live(b, r + 1) ==> i in Live(b, r)
  {
    LiveAscends(b, r);
    LiveAscends(b, r + 1);
    var live := Live(b, r);
    var answers := RoundAnswers(b, live, r);
    SurvivorsAre(b, live, answers, r, |live|);
    if live[p] in Live(b, r + 1) {
      var q :| 0 <= q < |live| && live[q] == live[p] && Survives(b, live[q], answers[q], r);
      assert q == p;
    }
  }

  /// What the member at position `p` is answered: its own result, if the executor gave one per member;
  /// otherwise the error that says what went wrong.
  lemma {:induction false} WhatEachIsAnswered(b: Batch, r: nat, p: nat)
    requires Proper(b) && p < |Live(b, r)|
    ensures var size := |Live(b, r)|;
            var reply := b.task(r, Pick(b.inputs, Live(b, r)));
            var answer := RoundAnswers(b, Live(b, r), r)[p];
            match reply
            case Results(results) =>
              if |results| == size then answer == results[p]
              else answer == Err(BatchSizeMismatch(size, |results|))
            case OuterError(error) => answer == Err(error)
            case Panic(cause) => answer == Err(TaskPanic(cause))
  {
  }

  // ---------------------------------------------------------------- each member's own story

  ghost function PositionOf(live: seq<nat>, i: nat): (p: nat)
    requires i in live
    ensures p < |live| && live[p] == i
  {
    var p :| 0 <= p < |live| && live[p] == i;
    p
  }

  /// What member `i` is answered in round `r`, at its own position.
  ghost function AnswerTo(b: Batch, i: nat, r: nat): Result<Output>
    requires Proper(b) && i in Live(b, r)
  {
    RoundAnswers(b, Live(b, r), r)[PositionOf(Live(b, r), i)]
  }

  lemma {:induction false} GoesOn(b: Batch, i: nat, r: nat)
    requires Proper(b) && i in Live(b, r)
    ensures i < |b.inputs|
    ensures i in Live(b, r + 1) <==> Survives(b, i, AnswerTo(b, i, r), r)
  {
    NextRound(b, r, PositionOf(Live(b, r), i));
  }

  /// A member is asked again exactly if its answer was a task error and it has attempts to spare: a
  /// success never is, nor any other error, and a task error always is while the budget lasts.
  lemma {:induction false} WhoIsAskedAgain(b: Batch, i: nat, r: nat)
    requires Proper(b) && i in Live(b, r)
    ensures i < |b.inputs|
    ensures match AnswerTo(b, i, r)
            case Ok(_) => i !in Live(b, r + 1)
            case Err(TaskExecution(_)) => i in Live(b, r + 1) <==> r + 1 < b.budgets[i]
            case Err(_) => i !in Live(b, r + 1)
  {
    NextRound(b, r, PositionOf(Live(b, r), i));
  }

  /// The last round that includes member `i`, from round `r` on.
  ghost function LastRound(b: Batch, i: nat, r: nat): (last: nat)
    requires Proper(b) && i in Live(b, r)
    ensures last >= r && i in Live(b, last) && i !in Live(b, last + 1)
    ensures i < |b.budgets| && (last == r || last < b.budgets[i])
    decreases if i < |b.budgets| && b.budgets[i] > r then b.budgets[i] - r else 0
  {
    GoesOn(b, i, r);
    if i in Live(b, r + 1) then LastRound(b, i, r + 1) else r
  }

  /// The result of the last round that includes member `i`.
  ghost function FinalResult(b: Batch, i: nat): Result<Output>
    requires Proper(b) && i < |b.inputs|
  {
    assert Live(b, 0)[i] == i;
    AnswerTo(b, i, LastRound(b, i, 0))
  }

  lemma {:induction false} StartsIn(b: Batch, i: nat)
    requires Proper(b) && i < |b.inputs|
    ensures i in Live(b, 0)
  {
    assert Live(b, 0)[i] == i;
  }

  lemma {:induction false} WasIn(b: Batch, i: nat, r: nat)
    requires Proper(b) && i in Live(b, r + 1)
    ensures i in Live(b, r)
  {
    var live := Live(b, r);
    LiveAscends(b, r);
    SurvivorsAre(b, live, RoundAnswers(b, live, r), r, |live|);
  }

  lemma {:induction false} InEveryRoundUpTo(b: Batch, i: nat, r: nat, q: nat)
    requires Proper(b) && i in Live(b, r) && q <= r
    ensures i in Live(b, q)
    decreases r
  {
    if q < r {
      WasIn(b, i, r - 1);
      InEveryRoundUpTo(b, i, r - 1, q);
    }
  }

  /// A member of round `r` has the same last round whichever round one starts from.
  lemma {:induction false} SameLastRound(b: Batch, i: nat, r: nat, q: nat)
    requires Proper(b) && i in Live(b, r) && q <= r
    ensures i in Live(b, q) && LastRound(b, i, q) == LastRound(b, i, r)
    decreases r - q
  {
    InEveryRoundUpTo(b, i, r, q);
    if q < r {
      InEveryRoundUpTo(b, i, r, q + 1);
      SameLastRound(b, i, r, q + 1);
    }
  }

  function AtLeastOne(budget: nat): nat {
    if budget == 0 then 1 else budget
  }

  /// A member takes part in exactly the rounds up to its last one.
  lemma {:induction false} RoundsOf(b: Batch, i: nat, r: nat)
    requires Proper(b) && i < |b.inputs| && i in Live(b, 0)
    ensures i in Live(b, r) <==> r <= LastRound(b, i, 0)
  {
    var last := LastRound(b, i, 0);
    if r <= last {
      InEveryRoundUpTo(b, i, last, r);
    } else if i in Live(b, r) {
      InEveryRoundUpTo(b, i, r, last + 1);
      assert false;
    }
  }

  /// A member takes part in at least one round and in at most `max(1, max_retries)`; every round but its
  /// last answered it with a task error, and if its last one did too, its budget is used up.
  lemma {:induction false} RoundsWithinBudget(b: Batch, i: nat, r: nat)
    requires Proper(b) && i < |b.inputs|
    ensures i in Live(b, 0) && (i in Live(b, r) <==> r <= LastRound(b, i, 0))
    ensures 1 <= LastRound(b, i, 0) + 1 <= if b.budgets[i] == 0 then 1 else b.budgets[i]
    ensures r < LastRound(b, i, 0) ==> AnswerTo(b, i, r).Err? && AnswerTo(b, i, r).error.TaskExecution?
    ensures FinalResult(b, i).Err? && FinalResult(b, i).error.TaskExecution? ==>
              LastRound(b, i, 0) + 1 == if b.budgets[i] == 0 then 1 else b.budgets[i]
  {
    StartsIn(b, i);
    RoundsOf(b, i, r);
    var last := LastRound(b, i, 0);
    if r < last {
      RoundsOf(b, i, r + 1);
      WhoIsAskedAgain(b, i, r);
    }
    WhoIsAskedAgain(b, i, last);
  }

  /// What is never retried: a panic, a reply of the wrong size, an outer error that is no task error.
  ghost predicate EndsTheJob(b: Batch, r: nat)
    requires Proper(b)
  {
    var reply := b.task(r, Pick(b.inputs, Live(b, r)));
    || reply.Panic?
    || (reply.OuterError? && !reply.error.TaskExecution?)
    || (reply.Results? && |reply.results| != |Live(b, r)|)
  }

  lemma {:induction false} NobodySurvives(b: Batch, i: nat, r: nat)
    requires Proper(b) && EndsTheJob(b, r) && i in Live(b, r)
    ensures AnswerTo(b, i, r).Err? && !Retriable(AnswerTo(b, i, r)) && i !in Live(b, r + 1)
  {
    GoesOn(b, i, r);
  }

  /// Such a reply ends every member of its round with that error, and with it the job.
  lemma {:induction false} OtherErrorsEndTheJob(b: Batch, r: nat)
    requires Proper(b) && EndsTheJob(b, r)
    ensures Live(b, r + 1) == []
    ensures forall i :: i in Live(b, r) ==>
              i < |b.inputs| && i in Live(b, 0) && LastRound(b, i, 0) == r && FinalResult(b, i) == AnswerTo(b, i, r)
              && FinalResult(b, i).Err? && !Retriable(FinalResult(b, i))
  {
    if Live(b, r + 1) != [] {
      var i := Live(b, r + 1)[0];
      WasIn(b, i, r);
      NobodySurvives(b, i, r);
      assert false;
    }
    forall i | i in Live(b, r)
      ensures i < |b.inputs| && i in Live(b, 0) && LastRound(b, i, 0) == r && FinalResult(b, i) == AnswerTo(b, i, r)
      ensures FinalResult(b, i).Err? && !Retriable(FinalResult(b, i))
    {
      NobodySurvives(b, i, r);
      SameLastRound(b, i, r, 0);
    }
  }

  // ---------------------------------------------------------------- batching is invisible

  /// The `k`-th result depends on the `k`-th input and the attempt number alone.
  ghost predicate Pointwise(task: Task, f: (Input, nat) -> Result<Output>) {
    forall r: nat, xs: seq<Input> :: task(r, xs) == Results(seq(|xs|, k requires 0 <= k < |xs| => f(xs[k], r)))
  }

  /// What a member would be answered if it were alone.
  function Solo(f: (Input, nat) -> Result<Output>, x: Input, budget: nat, r: nat): Result<Output>
    decreases if budget > r then budget - r else 0
  {
    if Retriable(f(x, r)) && r + 1 < budget then Solo(f, x, budget, r + 1) else f(x, r)
  }

  lemma {:induction false} PointwiseAnswer(b: Batch, f: (Input, nat) -> Result<Output>, i: nat, r: nat)
    requires Proper(b) && Pointwise(b.task, f) && i in Live(b, r)
    ensures i < |b.inputs| && AnswerTo(b, i, r) == f(b.inputs[i], r)
  {
    var xs := Pick(b.inputs, Live(b, r));
    assert b.task(r, xs) == Results(seq(|xs|, k requires 0 <= k < |xs| => f(xs[k], r)));
  }

  lemma {:induction false} PointwiseStory(b: Batch, f: (Input, nat) -> Result<Output>, i: nat, r: nat)
    requires Proper(b) && Pointwise(b.task, f) && i in Live(b, r)
    ensures i < |b.inputs| && AnswerTo(b, i, LastRound(b, i, r)) == Solo(f, b.inputs[i], b.budgets[i], r)
    decreases if i < |b.budgets| && b.budgets[i] > r then b.budgets[i] - r else 0
  {
    GoesOn(b, i, r);
    PointwiseAnswer(b, f, i, r);
    if i in Live(b, r + 1) {
      PointwiseStory(b, f, i, r + 1);
    }
  }

  /// Batching is invisible to a pointwise task: each member gets exactly the result that a job of its
  /// own, with the same input and the same `max_retries`, would deliver.
  lemma {:induction false} BatchingIsTransparent(b: Batch, f: (Input, nat) -> Result<Output>, i: nat)
    requires Proper(b) && Pointwise(b.task, f) && i < |b.inputs|
    ensures FinalResult(b, i) == FinalResult(Batch(b.task, [b.inputs[i]], [b.budgets[i]]), 0)
  {
    var alone := Batch(b.task, [b.inputs[i]], [b.budgets[i]]);
    assert Live(b, 0)[i] == i;
    assert Live(alone, 0)[0] == 0;
    PointwiseStory(b, f, i, 0);
    PointwiseStory(alone, f, 0, 0);
  }
}
