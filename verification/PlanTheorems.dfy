/** What every interleaving of the execution plan guarantees. */
module PlanTheorems {
  import opened Llm
  import opened Batching
  import opened PlanMachine
  import opened PlanInvariant

  // -------------------------------------------------- schedule independence

  /** The sequential reading of a plan: left to right, skipping the declined calls, and
      marking everything after the first failing serial call. */
  function SequentialRun(p: Plan, tool: nat -> ToolResult, i: nat, halted: bool): (r: seq<ToolResult>)
    requires i <= |p.calls|
    ensures |r| == |p.calls| - i
    decreases |p.calls| - i
  {
    if i == |p.calls| then []
    else if i in p.declined then [DECLINED] + SequentialRun(p, tool, i + 1, halted)
    else if halted then [SkippedResult(HALTED, None)] + SequentialRun(p, tool, i + 1, true)
    else [tool(i)] + SequentialRun(p, tool, i + 1, p.IsSerial(i) && tool(i).error.Some?)
  }

  ghost predicate Fails(p: Plan, tool: nat -> ToolResult, k: nat) {
    p.IsLive(k) && p.IsSerial(k) && tool(k).error.Some?
  }

  ghost predicate AfterFailing(p: Plan, tool: nat -> ToolResult, from: nat, i: nat) {
    exists k: nat :: from <= k < i && Fails(p, tool, k)
  }

  lemma {:induction false} FailingFirst(p: Plan, tool: nat -> ToolResult, from: nat, i: nat)
    requires from < i
    ensures AfterFailing(p, tool, from, i) == (Fails(p, tool, from) || AfterFailing(p, tool, from + 1, i))
  {
    hide Fails;
    if AfterFailing(p, tool, from, i) {
      var k: nat :| from <= k < i && Fails(p, tool, k);
      assert k == from || from + 1 <= k;
    }
  }

  lemma {:induction false} NoneBefore(p: Plan, tool: nat -> ToolResult, i: nat)
    ensures !AfterFailing(p, tool, i, i)
  {
  }

  lemma {:induction false} SequentialRunAt(p: Plan, tool: nat -> ToolResult, from: nat, halted: bool, i: nat)
    requires from <= i < |p.calls|
    ensures SequentialRun(p, tool, from, halted)[i - from] ==
      if i in p.declined then DECLINED
      else if halted || AfterFailing(p, tool, from, i) then SkippedResult(HALTED, None)
      else tool(i)
    decreases |p.calls| - from
  {
    hide SkippedResult, AfterFailing;
    if from < i {
      var next := if from in p.declined then halted else halted || Fails(p, tool, from);
      SequentialRunAt(p, tool, from + 1, next, i);
      FailingFirst(p, tool, from, i);
      assert SequentialRun(p, tool, from, halted)[1..] == SequentialRun(p, tool, from + 1, next);
    } else {
      NoneBefore(p, tool, i);
    }
  }

  /** Without cancellation, for any number of workers and any interleaving, the plan ends
      with the results of the sequential run of the same tools, with no plan error, and it
      has run exactly the calls of that run, each once. */
  lemma {:induction false} ScheduleIndependence(p: Plan, bs: seq<Batch>, labels: seq<Step>, tool: nat -> ToolResult)
    requires Setup(p, bs) && Exec(p, bs, labels).Some?
    requires Exec(p, bs, labels).value.pc == Returned && Exec(p, bs, labels).value.ctx.None?
    requires forall i | i in Exec(p, bs, labels).value.ran :: Exec(p, bs, labels).value.ran[i] == tool(i)
    ensures var s := Exec(p, bs, labels).value;
      && s.results == SequentialRun(p, tool, 0, false)
      && s.outcome == None
      && (forall i: nat :: i in s.started <==> p.IsLive(i) && !AfterFailing(p, tool, 0, i))
      && (forall j, k :: 0 <= j < k < |s.started| ==> s.started[j] != s.started[k])
  {
    var s := Exec(p, bs, labels).value;
    ReachableInv(p, bs, labels);
    ReturnedSequentially(p, bs, Exec(p, bs, labels).value, tool);
  }

  lemma {:induction false} ReturnedSequentially(p: Plan, bs: seq<Batch>, s: State, tool: nat -> ToolResult)
    requires |s.results| == |p.calls| && DeclinedOk(p, s.results) && DoneOk(p, s) && HistoryOk(p, s.ran, s.started)
    requires s.ctx.None? && s.planErrors == [] && forall i | i in s.ran :: s.ran[i] == tool(i)
    ensures s.results == SequentialRun(p, tool, 0, false) && s.outcome == None
    ensures forall i: nat :: i in s.started <==> p.IsLive(i) && !AfterFailing(p, tool, 0, i)
  {
    forall i: nat | p.IsLive(i)
      ensures Answered(p, s, i) && AfterFailure(p, s, i) == AfterFailing(p, tool, 0, i)
    {
      EarliestFailure(p, s, tool, i);
    }
    forall i | 0 <= i < |p.calls|
      ensures s.results[i] == SequentialRun(p, tool, 0, false)[i]
    {
      SequentialRunAt(p, tool, 0, false, i);
      assert p.IsLive(i) ==> Answered(p, s, i);
    }
  }

  /** A failing serial call that did not run is itself after one that did. */
  lemma {:induction false} EarliestFailure(p: Plan, s: State, tool: nat -> ToolResult, i: nat)
    requires |s.results| == |p.calls| && DoneOk(p, s) && s.ctx.None?
    requires forall k | k in s.ran :: s.ran[k] == tool(k)
    ensures AfterFailure(p, s, i) == AfterFailing(p, tool, 0, i)
  {
    if AfterFailure(p, s, i) {
      var k: nat :| k < i && FailedSerial(p, s, k);
      assert Fails(p, tool, k);
    }
    if AfterFailing(p, tool, 0, i) {
      var k: nat :| k < i && Fails(p, tool, k);
      if k in s.ran {
        assert FailedSerial(p, s, k);
      } else {
        assert AfterFailure(p, s, k);
        var m: nat :| m < k && FailedSerial(p, s, m);
      }
    }
  }

  /** Two interleavings of one plan, with different numbers of workers, end alike. */
  lemma {:induction false} SchedulesAgree(p: Plan, q: Plan, bs: seq<Batch>, a: seq<Step>, b: seq<Step>,
          tool: nat -> ToolResult)
    requires q == p.(maxWorkers := q.maxWorkers)
    requires Setup(p, bs) && Setup(q, bs) && Exec(p, bs, a).Some? && Exec(q, bs, b).Some?
    requires var s := Exec(p, bs, a).value;
      s.pc == Returned && s.ctx.None? && forall i | i in s.ran :: s.ran[i] == tool(i)
    requires var t := Exec(q, bs, b).value;
      t.pc == Returned && t.ctx.None? && forall i | i in t.ran :: t.ran[i] == tool(i)
    ensures Exec(p, bs, a).value.results == Exec(q, bs, b).value.results
    ensures forall i: nat :: i in Exec(p, bs, a).value.started <==> i in Exec(q, bs, b).value.started
  {
    ScheduleIndependence(p, bs, a, tool);
    ScheduleIndependence(q, bs, b, tool);
    SameSequentialRun(p, q, tool, 0, false);
    forall i: nat ensures AfterFailing(p, tool, 0, i) == AfterFailing(q, tool, 0, i) {
      assert forall k: nat :: Fails(p, tool, k) == Fails(q, tool, k);
    }
    forall i: nat ensures i in Exec(p, bs, a).value.started <==> i in Exec(q, bs, b).value.started {
      assert p.IsLive(i) == q.IsLive(i);
    }
  }

  lemma {:induction false} SameSequentialRun(p: Plan, q: Plan, tool: nat -> ToolResult, i: nat, halted: bool)
    requires q == p.(maxWorkers := q.maxWorkers) && i <= |p.calls|
    ensures SequentialRun(p, tool, i, halted) == SequentialRun(q, tool, i, halted)
    decreases |p.calls| - i
  {
    if i < |p.calls| {
      SameSequentialRun(p, q, tool, i + 1, halted);
      SameSequentialRun(p, q, tool, i + 1, true);
      SameSequentialRun(p, q, tool, i + 1, p.IsSerial(i) && tool(i).error.Some?);
    }
  }

  // -------------------------------------------------- answers under cancellation

  /** Whenever the context is cancelled, a returned plan has answered every call: a declined
      slot holds the refusal, a call that ran holds what it returned, or a skip marker if
      that was blank, and a call that did not run holds a skip marker. */
  lemma {:induction false} EveryCallAnswered(p: Plan, bs: seq<Batch>, labels: seq<Step>)
    requires Setup(p, bs) && Exec(p, bs, labels).Some? && Exec(p, bs, labels).value.pc == Returned
    ensures var s := Exec(p, bs, labels).value;
      && |s.results| == |p.calls|
      && forall i | 0 <= i < |p.calls| ::
           if i in p.declined then s.results[i] == DECLINED && i !in s.started
           else if i in s.ran then
             s.results[i] == s.ran[i] || (!Filled(s.ran[i]) && s.ctx.Some? && IsSkip(s.results[i], s.ctx))
           else IsSkip(s.results[i], s.ctx) && i !in s.started
  {
    ReachableInv(p, bs, labels);
    var s := Exec(p, bs, labels).value;
    forall i | 0 <= i < |p.calls| && i !in p.declined ensures Answered(p, s, i) {
      assert p.IsLive(i);
    }
  }

  /** A filled slot is never overwritten by a skip: from the moment a result is in its slot
      it stays there to the end. */
  lemma {:induction false} FilledSlotsStay(p: Plan, bs: seq<Batch>, labels: seq<Step>, l: Step, i: nat)
    requires Setup(p, bs) && Exec(p, bs, labels).Some? && Enabled(p, bs, Exec(p, bs, labels).value, l)
    requires i < |p.calls| && i < |Exec(p, bs, labels).value.results| && Filled(Exec(p, bs, labels).value.results[i])
    ensures i < |Apply(p, bs, Exec(p, bs, labels).value, l).results|
    ensures Apply(p, bs, Exec(p, bs, labels).value, l).results[i] == Exec(p, bs, labels).value.results[i]
  {
    hide Exec;
    ReachableInv(p, bs, labels);
    FilledStays(p, bs, Exec(p, bs, labels).value, l, i);
  }

  lemma FilledStays(p: Plan, bs: seq<Batch>, s: State, l: Step, i: nat)
    requires Inv(p, bs, s) && Enabled(p, bs, s, l) && i < |s.results| && Filled(s.results[i])
    ensures i < |Apply(p, bs, s, l).results| && Apply(p, bs, s, l).results[i] == s.results[i]
  {
    hide PastOk, AheadOk, DoneOk, SerialOk, HistoryOk, DeclinedOk, StartedOk, ChannelOk, WorkersOk, DeliveredOk;
    if l.Receive? && s.channel[0].Result? && s.channel[0].index == i {
      var tasks := bs[s.batch].tasks;
      assert Places(s, i) == One(i in tasks);
      CountIn(s.delivered, i);
    }
  }

  // -------------------------------------------------- the plan error

  /** The plan fails only when the context was cancelled, and then only with the context's
      error: such an error is never transient, and never one that recovery retries. */
  lemma {:induction false} PlanErrorIsContextError(p: Plan, bs: seq<Batch>, labels: seq<Step>)
    requires Setup(p, bs) && Exec(p, bs, labels).Some? && Exec(p, bs, labels).value.pc == Returned
    ensures var s := Exec(p, bs, labels).value;
      && (s.outcome.Some? <==> s.ctx.Some?)
      && (s.ctx.Some? ==> ContextError(s.ctx.value) && !s.ctx.value.IsTransient())
      && (s.outcome.Some? ==> !s.outcome.value.IsTransient())
      && (s.outcome.Some? ==> forall e: Sentinel :: s.outcome.value.Is(e) <==> s.ctx.value.Is(e))
  {
    ReachableInv(p, bs, labels);
    var s := Exec(p, bs, labels).value;
    if s.planErrors != [] {
      assert s.planErrors[0] in s.planErrors;
      JoinedIs(s.planErrors);
    }
  }

  lemma {:induction false} JoinedIs(errs: seq<Error>)
    ensures forall s: Sentinel :: Joined(errs).Is(s) <==> exists i | 0 <= i < |errs| :: errs[i].Is(s)
  {
    forall s: Sentinel ensures Joined(errs).Is(s) <==> exists i | 0 <= i < |errs| :: errs[i].Is(s) {
      if e :| e in errs && e.Is(s) {
        var i :| 0 <= i < |errs| && errs[i] == e;
      }
    }
  }

  // -------------------------------------------------- concurrency

  /** The calls inside ExecuteTool. */
  ghost function InFlight(bs: seq<Batch>, s: State): set<nat> {
    (set w | 0 <= w < |s.workers| && s.workers[w].Busy? :: s.workers[w].job)
    + (if s.pc == RunningSerial && s.batch < |bs| && bs[s.batch].tasks != [] then {bs[s.batch].tasks[0]} else {})
  }

  ghost predicate InFlightOk(p: Plan, bs: seq<Batch>, s: State) {
    match s.pc
    case RunningSerial =>
      s.batch < |bs| && bs[s.batch].isSerial && bs[s.batch].tasks != [] && InFlight(bs, s) == {bs[s.batch].tasks[0]}
    case Draining =>
      && s.batch < |bs|
      && |InFlight(bs, s)| <= Min(p.maxWorkers, |bs[s.batch].tasks|)
      && (forall i | i in InFlight(bs, s) ::
        i in bs[s.batch].tasks && i in s.started && i !in s.ran && !bs[s.batch].isSerial)
    case _ => InFlight(bs, s) == {}
  }

  /** Nothing overlaps a serial call, a parallel batch has at most one call per worker in
      flight, all from that batch, and between batches nothing is in flight. */
  lemma {:induction false} InFlightBound(p: Plan, bs: seq<Batch>, labels: seq<Step>)
    requires Setup(p, bs) && Exec(p, bs, labels).Some?
    ensures InFlightOk(p, bs, Exec(p, bs, labels).value)
  {
    ReachableInv(p, bs, labels);
    InFlightInv(p, bs, Exec(p, bs, labels).value);
  }

  /** So of two calls in flight at once, neither is of a serial tool. */
  lemma {:induction false} SerialToolsRunAlone(p: Plan, bs: seq<Batch>, labels: seq<Step>, i: nat, k: nat)
    requires Setup(p, bs) && Exec(p, bs, labels).Some? && i != k
    requires i in InFlight(bs, Exec(p, bs, labels).value) && k in InFlight(bs, Exec(p, bs, labels).value)
    ensures i < |p.calls| && p.calls[i].name !in p.serialTools && i !in p.declined
  {
    hide Exec, InFlight;
    InFlightBound(p, bs, labels);
    var s := Exec(p, bs, labels).value;
    ReachableInv(p, bs, labels);
    if s.pc == Draining { TaskKinds(p, bs, s.batch); }
  }

  lemma InFlightInv(p: Plan, bs: seq<Batch>, s: State)
    requires Inv(p, bs, s)
    ensures InFlightOk(p, bs, s)
  {
    if s.pc == Draining { DrainingInFlight(p, bs, s); } else { QuietInFlight(p, bs, s); }
  }

  lemma QuietInFlight(p: Plan, bs: seq<Batch>, s: State)
    requires Shape(p, bs, s) && s.pc != Draining && Setup(p, bs)
    ensures InFlightOk(p, bs, s)
  {
    if s.pc == RunningSerial { TaskKinds(p, bs, s.batch); }
    assert forall w | 0 <= w < |s.workers| :: s.workers[w] in s.workers;
  }

  lemma DrainingInFlight(p: Plan, bs: seq<Batch>, s: State)
    requires Inv(p, bs, s) && s.pc == Draining
    ensures InFlightOk(p, bs, s)
  {
    ImageSize(s.workers, |s.workers|);
    assert InFlight(bs, s) == Jobs(s.workers, |s.workers|);
    forall i | i in InFlight(bs, s)
      ensures i in bs[s.batch].tasks && i in s.started && i !in s.ran && !bs[s.batch].isSerial
    {
      var w :| 0 <= w < |s.workers| && s.workers[w] == Busy(i);
      assert WorkerOk(s.workers[w], s.ctx, s.ran, s.started);
      HeldIsTask(p, bs, s, w, i);
    }
  }

  function Jobs(ws: seq<Worker>, n: nat): set<nat>
    requires n <= |ws|
  {
    set w | 0 <= w < n && ws[w].Busy? :: ws[w].job
  }

  lemma {:induction false} ImageSize(ws: seq<Worker>, n: nat)
    requires n <= |ws|
    ensures |Jobs(ws, n)| <= n
  {
    if n > 0 {
      ImageSize(ws, n - 1);
      assert Jobs(ws, n) == Jobs(ws, n - 1) + (if ws[n - 1].Busy? then {ws[n - 1].job} else {});
    }
  }

  // -------------------------------------------------- termination

  function WorkerCost(w: Worker): nat {
    match w
    case Idle => 3
    case Busy(_) => 6
    case Sending(m) => if m.Result? then 5 else 2
    case Exited => 0
  }

  function Cost(ws: seq<Worker>): nat { if ws == [] then 0 else WorkerCost(ws[0]) + Cost(ws[1..]) }

  function BatchCost(p: Plan, b: Batch): nat {
    if b.isSerial then 6 else 4 * |b.tasks| + 3 * Min(p.maxWorkers, |b.tasks|) + 4
  }

  function RestCost(p: Plan, bs: seq<Batch>): nat {
    if bs == [] then 1 else BatchCost(p, bs[0]) + RestCost(p, bs[1..])
  }

  /** An upper bound on the steps still to come. */
  function Potential(p: Plan, bs: seq<Batch>, s: State): nat
    requires s.batch <= |bs| && (s.pc in {RunningSerial, Draining, Evaluating} ==> s.batch < |bs|)
  {
    One(s.ctx.None?) +
    match s.pc
    case Check => RestCost(p, bs[s.batch..])
    case RunningSerial => RestCost(p, bs[s.batch + 1..]) + 4
    case Draining =>
      RestCost(p, bs[s.batch + 1..]) + 4 * |s.jobs| + Cost(s.workers) + |s.channel| + One(!s.closed) + 2
    case Evaluating => RestCost(p, bs[s.batch + 1..]) + 1
    case Returned => 0
  }

  lemma {:induction false} CostUpdate(ws: seq<Worker>, w: nat, x: Worker)
    requires w < |ws|
    ensures Cost(ws[w := x]) + WorkerCost(ws[w]) == Cost(ws) + WorkerCost(x)
  {
    if w == 0 {
      assert ws[w := x][1..] == ws[1..];
    } else {
      CostUpdate(ws[1..], w - 1, x);
      assert ws[w := x][1..] == ws[1..][w - 1 := x];
    }
  }

  lemma {:induction false} CostIdle(n: nat)
    ensures Cost(seq(n, _ => Idle)) == 3 * n
  {
    if n > 0 {
      CostIdle(n - 1);
      assert seq(n, _ => Idle)[1..] == seq(n - 1, _ => Idle);
    }
  }

  lemma {:induction false} RestCostSplit(p: Plan, bs: seq<Batch>, b: nat)
    requires b < |bs|
    ensures RestCost(p, bs[b..]) == BatchCost(p, bs[b]) + RestCost(p, bs[b + 1..])
  {
    assert bs[b..][1..] == bs[b + 1..];
  }

  lemma {:induction false} RestCostPositive(p: Plan, bs: seq<Batch>)
    ensures RestCost(p, bs) > 0
  {
    if bs != [] { RestCostPositive(p, bs[1..]); }
  }

  predicate WorkerStep(l: Step) { l.TakeJob? || l.ToolReturns? || l.Send? || l.SeeCancel? || l.WorkerExit? }

  predicate DrainStep(l: Step) { WorkerStep(l) || l.Cancel? || l.CloseResults? || l.Receive? || l.EndDrain? }

  lemma DrainStepCosts(p: Plan, bs: seq<Batch>, s: State, l: Step)
    requires Shape(p, bs, s) && Enabled(p, bs, s, l) && DrainStep(l)
    requires Shape(p, bs, Apply(p, bs, s, l))
    ensures Potential(p, bs, Apply(p, bs, s, l)) < Potential(p, bs, s)
  {
    hide RestCost, Cost;
    if WorkerStep(l) { WorkerStepCosts(p, bs, s, l); }
  }

  lemma WorkerStepCosts(p: Plan, bs: seq<Batch>, s: State, l: Step)
    requires Shape(p, bs, s) && Enabled(p, bs, s, l) && WorkerStep(l)
    requires Shape(p, bs, Apply(p, bs, s, l))
    ensures Potential(p, bs, Apply(p, bs, s, l)) < Potential(p, bs, s)
  {
    hide RestCost, Cost;
    CostUpdate(s.workers, l.w, Apply(p, bs, s, l).workers[l.w]);
  }

  lemma MainStepCosts(p: Plan, bs: seq<Batch>, s: State, l: Step)
    requires Shape(p, bs, s) && Enabled(p, bs, s, l) && !DrainStep(l)
    requires Shape(p, bs, Apply(p, bs, s, l))
    ensures Potential(p, bs, Apply(p, bs, s, l)) < Potential(p, bs, s)
  {
    hide FailRemaining, SkippedResult, ContextError;
    RestCostPositive(p, bs[s.batch..]);
    if s.batch < |bs| {
      RestCostSplit(p, bs, s.batch);
      RestCostPositive(p, bs[s.batch + 1..]);
    }
    if l.EnterBatch? { CostIdle(|Apply(p, bs, s, l).workers|); }
  }

  /** Every step of every goroutine uses up potential. */
  lemma StepCosts(p: Plan, bs: seq<Batch>, s: State, l: Step)
    requires Shape(p, bs, s) && Enabled(p, bs, s, l)
    requires Shape(p, bs, Apply(p, bs, s, l))
    ensures Potential(p, bs, Apply(p, bs, s, l)) < Potential(p, bs, s)
  {
    if DrainStep(l) { DrainStepCosts(p, bs, s, l); } else { MainStepCosts(p, bs, s, l); }
  }

  lemma {:induction false} CostBound(p: Plan, bs: seq<Batch>)
    requires forall b | b in bs :: WellBatched(p, b)
    ensures RestCost(p, bs) <= 11 * |Flatten(bs)| + 1
  {
    if bs != [] {
      assert WellBatched(p, bs[0]);
      CostBound(p, bs[1..]);
    }
  }

  lemma {:induction false} LiveLength(p: Plan, n: nat)
    requires n <= |p.calls|
    ensures |Live(p, n)| <= n
  {
    if n > 0 { LiveLength(p, n - 1); }
  }

  /** No interleaving takes more than 11 n + 2 steps for n calls, cancelled or not. */
  lemma {:induction false} PlanTerminates(p: Plan, bs: seq<Batch>, labels: seq<Step>)
    requires Setup(p, bs) && Exec(p, bs, labels).Some?
    ensures |labels| <= 11 * |p.calls| + 2
  {
    CostBound(p, bs);
    LiveLength(p, |p.calls|);
    assert bs[0..] == bs;
    Spent(p, bs, labels);
  }

  lemma {:induction false} Spent(p: Plan, bs: seq<Batch>, labels: seq<Step>)
    requires Setup(p, bs) && Exec(p, bs, labels).Some?
    ensures Inv(p, bs, Exec(p, bs, labels).value)
    ensures |labels| + Potential(p, bs, Exec(p, bs, labels).value) <= RestCost(p, bs[0..]) + 1
  {
    ReachableInv(p, bs, labels);
    if labels != [] {
      var before := labels[..|labels| - 1];
      Spent(p, bs, before);
      StepCosts(p, bs, Exec(p, bs, before).value, labels[|labels| - 1]);
    }
  }

  /** No deadlock: until the plan returns, some goroutine can step without a cancellation. */
  lemma NoDeadlock(p: Plan, bs: seq<Batch>, labels: seq<Step>) returns (l: Step)
    requires Setup(p, bs) && Exec(p, bs, labels).Some? && Exec(p, bs, labels).value.pc != Returned
    ensures Enabled(p, bs, Exec(p, bs, labels).value, l) && !l.Cancel?
  {
    var s := Exec(p, bs, labels).value;
    ReachableInv(p, bs, labels);
    if s.batch < |bs| { TaskKinds(p, bs, s.batch); }
    match s.pc
    case Check => l := if s.batch < |bs| then EnterBatch else FinishPlan;
    case RunningSerial => l := SerialReturns(EMPTY);
    case Evaluating =>
      assert bs[s.batch].tasks[0] in bs[s.batch].tasks;
      l := Evaluate;
    case Draining =>
      if s.channel != [] {
        assert s.channel[0] in s.channel && MessageOk(s.channel[0], s.ctx, s.ran);
        l := Receive;
      } else if s.closed {
        l := EndDrain;
      } else if AllExited(s.workers) {
        l := CloseResults;
      } else {
        var x :| x in s.workers && !x.Exited?;
        var w: nat :| w < |s.workers| && s.workers[w] == x;
        l := match x
          case Idle => if s.jobs == [] then WorkerExit(w) else TakeJob(w)
          case Busy(_) => ToolReturns(w, EMPTY)
          case _ => Send(w);
      }
  }

  // -------------------------------------------------- Execute

  /** What Dispatcher.Execute may return for a response with calls. */
  ghost predicate DispatcherReply(response: Content, turn: int, maxTurns: int, reply: Option<Content>,
          err: Option<Error>) {
    if Calls(response) == [] then reply.None? && err.None?
    else if turn >= maxTurns then reply.None? && err == Some(Base(MaxTurnsReached))
    else
      && reply.Some? && Answers(reply.value, response) && Calls(reply.value) == []
      && (err.Some? ==> ContextError(err.value))
  }

  /** Execute below the turn limit: whatever the interleaving, the assembled reply answers
      exactly the calls, and the error it returns is none or the context's. */
  lemma {:induction false} ExecuteConforms(response: Content, p: Plan, bs: seq<Batch>, labels: seq<Step>, turn: int,
          maxTurns: int, reply: Content)
    requires p.calls == Calls(response) && p.calls != [] && turn < maxTurns
    requires Setup(p, bs) && Exec(p, bs, labels).Some? && Exec(p, bs, labels).value.pc == Returned
    requires Reply(p.calls, Exec(p, bs, labels).value.results, reply)
    ensures var s := Exec(p, bs, labels).value;
      DispatcherReply(response, turn, maxTurns, Some(reply), if s.outcome.Some? then s.ctx else None)
  {
    PlanErrorIsContextError(p, bs, labels);
    ReplyAnswers(response, Exec(p, bs, labels).value.results, reply);
  }
}
