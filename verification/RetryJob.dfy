/// `Job::execute` itself: the deliveries it is handed, the loop over the rounds, and why the loop ends.

module RetryJobs {
  import opened Basics
  import opened Lifecycles
  import opened Retry

  class JobDelivery {
    const setter: JobFutureSetter<Output>
    const maxRetries: nat
    var attempts: nat

    constructor (setter: JobFutureSetter<Output>, maxRetries: nat)
      ensures this.setter == setter && this.maxRetries == maxRetries && attempts == 0
    {
      this.setter, this.maxRetries, this.attempts := setter, maxRetries, 0;
    }

    method Retry() returns (again: bool)
      modifies this`attempts
      ensures attempts == old(attempts) + 1 && again == (attempts < maxRetries)
    {
      attempts := attempts + 1;
      again := attempts < maxRetries;
    }

    method Deliver(result: Result<Output>)
      modifies setter
      ensures !setter.sender
      ensures setter.delivered == if old(setter.sender) then old(setter.delivered) + [result] else old(setter.delivered)
    {
      setter.SetResult(result);
    }
  }

  // ---------------------------------------------------------------- where a member stands

  /// `Waiting`: no result yet, after this many failed attempts. `Settled`: one result, and no way to
  /// send another.
  datatype Standing = Waiting(attempts: nat) | Settled(result: Result<Output>)

  ghost predicate Stands(d: JobDelivery, standing: Standing)
    reads d, d.setter
  {
    match standing
    case Waiting(attempts) => d.setter.sender && d.setter.delivered == [] && d.attempts == attempts
    case Settled(result) => !d.setter.sender && d.setter.delivered == [result]
  }

  function Survivors(b: Batch, r: nat, k: nat): (s: seq<nat>)
    requires Proper(b) && k <= |Live(b, r)|
    ensures Members(b, s)
  {
    SurvivorsUpTo(b, Live(b, r), RoundAnswers(b, Live(b, r), r), r, k)
  }

  /// Member `i` when the answers of the first `k` members of round `r` have been dealt with.
  ghost function StandingAt(b: Batch, i: nat, r: nat, k: nat): Standing
    requires Proper(b) && i < |b.inputs| && k <= |Live(b, r)|
  {
    if i in Live(b, r)[k..] then Waiting(r)
    else if i in Survivors(b, r, k) then Waiting(r + 1)
    else Settled(FinalResult(b, i))
  }

  ghost function Standings(b: Batch, r: nat, k: nat): (s: seq<Standing>)
    requires Proper(b) && k <= |Live(b, r)|
    ensures |s| == |b.inputs| && forall i :: 0 <= i < |s| ==> s[i] == StandingAt(b, i, r, k)
  {
    seq(|b.inputs|, i requires 0 <= i < |b.inputs| => StandingAt(b, i, r, k))
  }

  predicate GotAnError(standing: Standing) {
    standing.Settled? && standing.result.Err?
  }

  predicate SomebodyGotAnError(standings: seq<Standing>) {
    exists i :: 0 <= i < |standings| && GotAnError(standings[i])
  }

  lemma {:induction false} OneMoreStanding(standings: seq<Standing>, m: nat, standing: Standing)
    requires m < |standings| && standings[m].Waiting?
    ensures SomebodyGotAnError(standings[m := standing]) <==> SomebodyGotAnError(standings) || GotAnError(standing)
  {
    var next := standings[m := standing];
    if i :| 0 <= i < |standings| && GotAnError(standings[i]) {
      assert GotAnError(next[i]);
    }
    if GotAnError(standing) {
      assert GotAnError(next[m]);
    }
  }

  /// Dealing with position `k` does not concern the members at other positions...
  lemma {:induction false} OtherPositions(b: Batch, r: nat, k: nat, i: nat)
    requires Proper(b) && k < |Live(b, r)| && i != Live(b, r)[k]
    ensures i in Live(b, r)[k..] <==> i in Live(b, r)[k + 1..]
    ensures i in Survivors(b, r, k) <==> i in Survivors(b, r, k + 1)
  {
    var live := Live(b, r);
    assert live[k..] == [live[k]] + live[k + 1..];
  }

  /// ...and decides about the one that is there.
  lemma {:induction false} OwnPosition(b: Batch, r: nat, k: nat)
    requires Proper(b) && k < |Live(b, r)|
    ensures var i := Live(b, r)[k];
            && i < |b.inputs| && i in Live(b, r) && AnswerTo(b, i, r) == RoundAnswers(b, Live(b, r), r)[k]
            && i in Live(b, r)[k..] && i !in Live(b, r)[k + 1..]
            && (i in Survivors(b, r, k + 1) <==> Survives(b, i, AnswerTo(b, i, r), r))
  {
    var live := Live(b, r);
    LiveAscends(b, r);
    assert live[k..] == [live[k]] + live[k + 1..];
    assert PositionOf(live, live[k]) == k;
    SurvivorsAre(b, live, RoundAnswers(b, live, r), r, k);
  }

  lemma {:induction false} EndsHere(b: Batch, r: nat, i: nat)
    requires Proper(b) && i in Live(b, r) && i < |b.inputs| && !Survives(b, i, AnswerTo(b, i, r), r)
    ensures FinalResult(b, i) == AnswerTo(b, i, r)
  {
    GoesOn(b, i, r);
    SameLastRound(b, i, r, 0);
  }

  // ---------------------------------------------------------------- why it ends

  /// Attempts member `i` has left before round `r`.
  function Left(b: Batch, i: nat, r: nat): (n: nat)
    requires Proper(b) && i < |b.inputs|
  {
    var budget := AtLeastOne(b.budgets[i]);
    if budget > r then budget - r else 0
  }

  function BudgetLeft(b: Batch, live: seq<nat>, r: nat): nat
    requires Proper(b) && Members(b, live)
  {
    if live == [] then 0
    else BudgetLeft(b, live[..|live| - 1], r) + Left(b, live[|live| - 1], r)
  }

  lemma {:induction false} LiveHasAttemptsLeft(b: Batch, r: nat, p: nat)
    requires Proper(b) && p < |Live(b, r)|
    ensures Left(b, Live(b, r)[p], r) > 0
  {
    if r > 0 {
      var live := Live(b, r - 1);
      LiveAscends(b, r - 1);
      SurvivorsAre(b, live, RoundAnswers(b, live, r - 1), r - 1, |live|);
      assert Live(b, r)[p] in Live(b, r);
    }
  }

  lemma {:induction false} SurvivorsSpend(b: Batch, r: nat, k: nat)
    requires Proper(b) && k <= |Live(b, r)|
    ensures Members(b, Survivors(b, r, k)) && Members(b, Live(b, r)[..k])
    ensures BudgetLeft(b, Survivors(b, r, k), r + 1) + k <= BudgetLeft(b, Live(b, r)[..k], r)
  {
    if k > 0 {
      SurvivorsSpend(b, r, k - 1);
      LiveHasAttemptsLeft(b, r, k - 1);
      var live := Live(b, r);
      assert live[..k][..k - 1] == live[..k - 1];
      var s := Survivors(b, r, k);
      var earlier := Survivors(b, r, k - 1);
      if s != earlier {
        assert s[..|s| - 1] == earlier;
      }
    }
  }

  /// Every round uses up at least one attempt of each of its members.
  lemma {:induction false} RoundsUseUpTheBudget(b: Batch, r: nat)
    requires Proper(b)
    ensures BudgetLeft(b, Live(b, r + 1), r + 1) + |Live(b, r)| <= BudgetLeft(b, Live(b, r), r)
  {
    var live := Live(b, r);
    SurvivorsSpend(b, r, |live|);
    assert live[..|live|] == live;
  }

  // ---------------------------------------------------------------- what the loop variables are

  /// The batch that a job runs: the inputs it sealed, and the attempts its deliveries allow.
  function BatchFor(task: Task, members: seq<Input>, all: seq<JobDelivery>): (b: Batch)
    requires |members| == |all|
    ensures Proper(b) && b.inputs == members
  {
    Batch(task, members, seq(|all|, i requires 0 <= i < |all| => all[i].maxRetries))
  }

  ghost predicate Distinct(deliveries: seq<JobDelivery>) {
    forall i, j :: 0 <= i < j < |deliveries| ==>
      deliveries[i] != deliveries[j] && deliveries[i].setter != deliveries[j].setter
  }

  ghost predicate BatchOf(b: Batch, all: seq<JobDelivery>) {
    && |all| == |b.inputs| == |b.budgets|
    && (forall i :: 0 <= i < |all| ==> b.budgets[i] == all[i].maxRetries)
    && Distinct(all)
  }

  ghost function Everyone(all: seq<JobDelivery>): (s: set<object>)
    ensures forall d :: d in all ==> d in s && d.setter in s
  {
    (set d: object | d in all) + (set d | d in all :: d.setter)
  }

  function StatusOf(failed: bool): JobStatus {
    if failed then JobStatus.Failed else JobStatus.Completed
  }

  /// Whom the next round asks so far, and the status so far.
  datatype Kept = Kept(inputs: seq<Input>, deliveries: seq<JobDelivery>, outcome: JobStatus)

  ghost function RoundVars(b: Batch, all: seq<JobDelivery>, r: nat): Kept
    requires BatchOf(b, all)
  {
    Kept(Pick(b.inputs, Live(b, r)), Pick(all, Live(b, r)), StatusOf(SomebodyGotAnError(Standings(b, r, 0))))
  }

  ghost function PositionVars(b: Batch, all: seq<JobDelivery>, r: nat, k: nat): Kept
    requires BatchOf(b, all) && k <= |Live(b, r)|
  {
    var kept := Survivors(b, r, k);
    Kept(Pick(b.inputs, kept), Pick(all, kept), StatusOf(SomebodyGotAnError(Standings(b, r, k))))
  }

  ghost predicate AllStand(all: seq<JobDelivery>, standings: seq<Standing>)
    reads Everyone(all)
  {
    |standings| == |all| && forall i :: 0 <= i < |all| ==> Stands(all[i], standings[i])
  }

  lemma {:induction false} RoundStarts(b: Batch, all: seq<JobDelivery>, r: nat)
    requires BatchOf(b, all)
    ensures PositionVars(b, all, r, 0) == Kept([], [], RoundVars(b, all, r).outcome)
  {
    assert Survivors(b, r, 0) == [];
  }

  /// The standing of a member that has answered in round `r`.
  function StandingAfter(b: Batch, i: nat, answer: Result<Output>, r: nat): Standing
    requires Proper(b) && i < |b.inputs|
  {
    if Survives(b, i, answer, r) then Waiting(r + 1) else Settled(answer)
  }

  lemma {:induction false} OwnStanding(b: Batch, r: nat, k: nat)
    requires Proper(b) && k < |Live(b, r)|
    ensures var i := Live(b, r)[k];
            && i < |b.inputs| && StandingAt(b, i, r, k) == Waiting(r)
            && StandingAt(b, i, r, k + 1) == StandingAfter(b, i, RoundAnswers(b, Live(b, r), r)[k], r)
  {
    var i := Live(b, r)[k];
    OwnPosition(b, r, k);
    if !Survives(b, i, RoundAnswers(b, Live(b, r), r)[k], r) {
      EndsHere(b, r, i);
    }
  }

  lemma {:induction false} StandingsOver(b: Batch, r: nat, k: nat)
    requires Proper(b) && k < |Live(b, r)|
    ensures var i := Live(b, r)[k];
            && i < |b.inputs| && Standings(b, r, k)[i] == Waiting(r)
            && Standings(b, r, k + 1)
               == Standings(b, r, k)[i := StandingAfter(b, i, RoundAnswers(b, Live(b, r), r)[k], r)]
  {
    var m := Live(b, r)[k];
    OwnStanding(b, r, k);
    var next := Standings(b, r, k)[m := StandingAfter(b, m, RoundAnswers(b, Live(b, r), r)[k], r)];
    forall i | 0 <= i < |b.inputs|
      ensures StandingAt(b, i, r, k + 1) == next[i]
    {
      if i != m {
        OtherPositions(b, r, k, i);
      }
    }
  }

  lemma {:induction false} PickOneMore<T>(xs: seq<T>, live: seq<nat>, m: nat)
    requires (forall p :: 0 <= p < |live| ==> live[p] < |xs|) && m < |xs|
    ensures Pick(xs, live + [m]) == Pick(xs, live) + [xs[m]]
  {
  }

  lemma {:induction false} PositionOver(b: Batch, all: seq<JobDelivery>, r: nat, k: nat)
    requires BatchOf(b, all) && k < |Live(b, r)|
    ensures var was := PositionVars(b, all, r, k);
            var i := Live(b, r)[k];
            var answer := RoundAnswers(b, Live(b, r), r)[k];
            PositionVars(b, all, r, k + 1) ==
              if Survives(b, i, answer, r) then Kept(was.inputs + [b.inputs[i]], was.deliveries + [all[i]], was.outcome)
              else Kept(was.inputs, was.deliveries, if answer.Err? then JobStatus.Failed else was.outcome)
  {
    var m := Live(b, r)[k];
    var answer := RoundAnswers(b, Live(b, r), r)[k];
    StandingsOver(b, r, k);
    OneMoreStanding(Standings(b, r, k), m, StandingAfter(b, m, answer, r));
    var before := Survivors(b, r, k);
    if Survives(b, m, answer, r) {
      PickOneMore(b.inputs, before, m);
      PickOneMore(all, before, m);
    }
  }

  /// The last position of one round is where the next one begins.
  lemma {:induction false} RoundOver(b: Batch, all: seq<JobDelivery>, r: nat)
    requires BatchOf(b, all)
    ensures PositionVars(b, all, r, |Live(b, r)|) == RoundVars(b, all, r + 1)
    ensures Standings(b, r, |Live(b, r)|) == Standings(b, r + 1, 0)
  {
    var live := Live(b, r);
    assert live[|live|..] == [];
    assert Live(b, r + 1)[0..] == Live(b, r + 1) == Survivors(b, r, |live|);
    forall i | 0 <= i < |b.inputs|
      ensures StandingAt(b, i, r, |live|) == StandingAt(b, i, r + 1, 0)
    {
    }
    assert Standings(b, r, |live|) == Standings(b, r + 1, 0);
  }

  lemma {:induction false} FirstRound(b: Batch, all: seq<JobDelivery>)
    requires BatchOf(b, all) && forall i :: 0 <= i < |all| ==> Stands(all[i], Waiting(0))
    ensures AllStand(all, Standings(b, 0, 0)) && RoundVars(b, all, 0) == Kept(b.inputs, all, JobStatus.Completed)
  {
    assert Live(b, 0)[0..] == Live(b, 0);
    forall i | 0 <= i < |all|
      ensures StandingAt(b, i, 0, 0) == Waiting(0)
    {
      StartsIn(b, i);
    }
    assert Pick(b.inputs, Live(b, 0)) == b.inputs && Pick(all, Live(b, 0)) == all;
  }

  lemma {:induction false} NoMoreRounds(b: Batch, all: seq<JobDelivery>, r: nat, outcome: JobStatus)
    requires BatchOf(b, all) && Live(b, r) == [] && AllStand(all, Standings(b, r, 0))
    requires outcome == RoundVars(b, all, r).outcome
    ensures AllSettled(b, all, outcome)
  {
    var standings := Standings(b, r, 0);
    forall i | 0 <= i < |all|
      ensures standings[i] == Settled(FinalResult(b, i)) && Stands(all[i], standings[i])
    {
    }
    if i :| 0 <= i < |all| && FinalResult(b, i).Err? {
      assert GotAnError(standings[i]);
    }
  }

  /// Each member has exactly one result, and the status tells whether it is an error for anybody.
  ghost predicate AllSettled(b: Batch, all: seq<JobDelivery>, outcome: JobStatus)
    requires Proper(b)
    reads Everyone(all)
  {
    && |all| == |b.inputs|
    && (forall i :: 0 <= i < |all| ==> Stands(all[i], Settled(FinalResult(b, i))))
    && outcome == StatusOf(exists i :: 0 <= i < |all| && FinalResult(b, i).Err?)
  }

  /// The executor was asked about exactly the members of each round, in order, and no round was empty.
  ghost predicate CallsAre(b: Batch, calls: seq<seq<Input>>)
    requires Proper(b)
    decreases |calls|
  {
    calls == [] ||
    var r := |calls| - 1;
    CallsAre(b, calls[..r]) && Live(b, r) != [] && calls[r] == Pick(b.inputs, Live(b, r))
  }

  lemma {:induction false} CallAt(b: Batch, calls: seq<seq<Input>>, r: nat)
    requires Proper(b) && CallsAre(b, calls) && r < |calls|
    ensures calls[r] == Pick(b.inputs, Live(b, r)) && Live(b, r) != []
    decreases |calls|
  {
    if r < |calls| - 1 {
      CallAt(b, calls[..|calls| - 1], r);
    }
  }

  lemma {:induction false} CallsAreStill(b: Batch, calls: seq<seq<Input>>, inputs: seq<Input>)
    requires Proper(b) && CallsAre(b, calls) && inputs == Pick(b.inputs, Live(b, |calls|)) && inputs != []
    ensures CallsAre(b, calls + [inputs])
  {
    assert (calls + [inputs])[..|calls|] == calls;
  }

  // ---------------------------------------------------------------- the loop

  /// What the executor's reply means for the members it was asked about.
  method Ask(task: Task, round: nat, inputs: seq<Input>) returns (results: seq<Result<Output>>)
    ensures results == Answers(task(round, inputs), |inputs|)
  {
    var size := |inputs|;
    match task(round, inputs) {
      case Results(answers) =>
        results := if |answers| == size then answers else Repeat(Err(BatchSizeMismatch(size, |answers|)), size);
      case OuterError(error) =>
        results := Repeat(Err(error), size);
      case Panic(cause) =>
        results := Repeat(Err(TaskPanic(cause)), size);
    }
  }

  /// Deliver, or count an attempt and keep the member.
  method Conclude(delivery: JobDelivery, result: Result<Output>, ghost r: nat) returns (again: bool)
    requires Stands(delivery, Waiting(r))
    modifies delivery`attempts, delivery.setter
    ensures again == (result.Err? && result.error.TaskExecution? && r + 1 < delivery.maxRetries)
    ensures Stands(delivery, if again then Waiting(r + 1) else Settled(result))
  {
    again := false;
    if result.Err? && result.error.TaskExecution? {
      again := delivery.Retry();
    }
    if !again {
      delivery.Deliver(result);
    }
  }

  /// Position `k` of round `r`.
  method ConcludePosition(ghost b: Batch, ghost all: seq<JobDelivery>, ghost r: nat, ghost k: nat,
                          delivery: JobDelivery, result: Result<Output>) returns (again: bool)
    requires BatchOf(b, all) && k < |Live(b, r)| && AllStand(all, Standings(b, r, k))
    requires delivery == all[Live(b, r)[k]] && result == RoundAnswers(b, Live(b, r), r)[k]
    modifies delivery`attempts, delivery.setter
    ensures AllStand(all, Standings(b, r, k + 1)) && again == Survives(b, Live(b, r)[k], result, r)
  {
    ghost var m := Live(b, r)[k];
    StandingsOver(b, r, k);
    assert Stands(all[m], Standings(b, r, k)[m]);
    again := Conclude(delivery, result, r);
    forall i | 0 <= i < |all|
      ensures Stands(all[i], Standings(b, r, k + 1)[i])
    {
      assert old(Stands(all[i], Standings(b, r, k)[i]));
    }
  }

  class Job {
    var status: JobStatus

    constructor ()
      ensures status == JobStatus.Pending
    {
      status := JobStatus.Pending;
    }

    /// One round's answers, position by position.
    method Distribute(ghost b: Batch, ghost r: nat, ghost all: seq<JobDelivery>, inputs: seq<Input>,
                      deliveries: seq<JobDelivery>, results: seq<Result<Output>>, before: JobStatus)
      returns (retryInputs: seq<Input>, retryDeliveries: seq<JobDelivery>, after: JobStatus)
      requires BatchOf(b, all) && AllStand(all, Standings(b, r, 0))
      requires Kept(inputs, deliveries, before) == RoundVars(b, all, r)
      requires results == RoundAnswers(b, Live(b, r), r)
      modifies Everyone(all)
      ensures AllStand(all, Standings(b, r + 1, 0))
      ensures Kept(retryInputs, retryDeliveries, after) == RoundVars(b, all, r + 1)
    {
      retryInputs, retryDeliveries, after := [], [], before;
      RoundStarts(b, all, r);
      for k := 0 to |inputs|
        invariant AllStand(all, Standings(b, r, k))
        invariant Kept(retryInputs, retryDeliveries, after) == PositionVars(b, all, r, k)
      {
        PositionOver(b, all, r, k);
        var again := ConcludePosition(b, all, r, k, deliveries[k], results[k]);
        if again {
          retryInputs, retryDeliveries := retryInputs + [inputs[k]], retryDeliveries + [deliveries[k]];
        } else if results[k].Err? {
          after := JobStatus.Failed;
        }
      }
      RoundOver(b, all, r);
    }

    /// The body of the loop over the rounds.
    method Round(b: Batch, ghost all: seq<JobDelivery>, r: nat, inputs: seq<Input>, deliveries: seq<JobDelivery>,
                 before: JobStatus)
      returns (retryInputs: seq<Input>, retryDeliveries: seq<JobDelivery>, after: JobStatus)
      requires BatchOf(b, all) && AllStand(all, Standings(b, r, 0))
      requires Kept(inputs, deliveries, before) == RoundVars(b, all, r)
      modifies Everyone(all)
      ensures AllStand(all, Standings(b, r + 1, 0))
      ensures Kept(retryInputs, retryDeliveries, after) == RoundVars(b, all, r + 1)
    {
      var results := Ask(b.task, r, inputs);
      retryInputs, retryDeliveries, after := Distribute(b, r, all, inputs, deliveries, results, before);
    }

    /// The loop over the rounds; `calls` is what the executor has been asked so far.
    method Rounds(b: Batch, all: seq<JobDelivery>) returns (calls: seq<seq<Input>>, outcome: JobStatus)
      requires BatchOf(b, all) && AllStand(all, Standings(b, 0, 0))
      requires RoundVars(b, all, 0) == Kept(b.inputs, all, JobStatus.Completed)
      modifies Everyone(all)
      ensures AllSettled(b, all, outcome) && CallsAre(b, calls) && Live(b, |calls|) == []
    {
      var inputs, deliveries := b.inputs, all;
      outcome, calls := JobStatus.Completed, [];
      ghost var r := 0;
      while inputs != []
        invariant r == |calls| && CallsAre(b, calls) && AllStand(all, Standings(b, r, 0))
        invariant Kept(inputs, deliveries, outcome) == RoundVars(b, all, r)
        decreases BudgetLeft(b, Live(b, r), r)
      {
        RoundsUseUpTheBudget(b, r);
        CallsAreStill(b, calls, inputs);
        calls := calls + [inputs];
        inputs, deliveries, outcome := Round(b, all, |calls| - 1, inputs, deliveries, outcome);
        r := r + 1;
      }
      NoMoreRounds(b, all, r, outcome);
    }

    /// Every member gets exactly one result, its own answer of the last round that included it; the
    /// executor is called with exactly the members each round is made of; the status tells whether
    /// anybody got an error.
    method Execute(task: Task, members: seq<Input>, all: seq<JobDelivery>) returns (calls: seq<seq<Input>>)
      requires |members| == |all| && Distinct(all)
      requires forall i :: 0 <= i < |all| ==> Stands(all[i], Waiting(0))
      modifies this, Everyone(all)
      ensures var b := BatchFor(task, members, all);
              AllSettled(b, all, status) && CallsAre(b, calls) && Live(b, |calls|) == []
    {
      status := JobStatus.Running;
      var b := BatchFor(task, members, all);
      FirstRound(b, all);
      calls, status := Rounds(b, all);
    }
  }
}
