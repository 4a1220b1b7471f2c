/** runExecutionPlan as a state machine. The main goroutine walks the batches; for a
    parallel batch it starts workers that take jobs from one channel and send results on
    another, and it drains that channel while they run. Every label is one atomic step of
    one goroutine, so a sequence of labels is one interleaving. The context is a value that
    can only go from none to an error. A tool call may return any result. */
module PlanMachine {
  import opened Llm
  import opened Batching

  datatype Pc = Check | RunningSerial | Draining | Evaluating | Returned

  datatype Message = Result(index: nat, value: ToolResult) | CancelSignal(error: Error)

  /** A worker goroutine: at its select, inside ExecuteTool, about to send, or gone. */
  datatype Worker = Idle | Busy(job: nat) | Sending(message: Message) | Exited

  /** `ran`, `started` and `delivered` are history: what each finished tool call returned,
      the calls handed to ExecuteTool in order, and the results of the current batch that
      reached their slot. */
  datatype State = State(
    ctx: Option<Error>,
    pc: Pc,
    batch: nat,
    jobs: seq<nat>,
    workers: seq<Worker>,
    channel: seq<Message>,
    closed: bool,
    results: seq<ToolResult>,
    planErrors: seq<Error>,
    outcome: Option<Error>,
    ran: map<nat, ToolResult>,
    started: seq<nat>,
    delivered: seq<nat>)

  datatype Step =
    | Cancel(error: Error)
    | EnterBatch
    | FinishPlan
    | SerialReturns(value: ToolResult)
    | TakeJob(w: nat)
    | ToolReturns(w: nat, value: ToolResult)
    | Send(w: nat)
    | SeeCancel(w: nat)
    | WorkerExit(w: nat)
    | CloseResults
    | Receive
    | EndDrain
    | Evaluate

  function Min(a: nat, b: nat): nat { if a < b then a else b }

  function Init(p: Plan): State {
    State(None, Check, 0, [], [], [], true,
          DeclineBelow(p, seq(|p.calls|, _ => EMPTY), |p.calls|), [], None, map[], [], [])
  }

  predicate AllExited(workers: seq<Worker>) { forall w | w in workers :: w.Exited? }

  predicate Enabled(p: Plan, bs: seq<Batch>, s: State, l: Step) {
    match l
    case Cancel(e) => s.pc != Returned && s.ctx.None? && ContextError(e)
    case EnterBatch => s.pc == Check && s.batch < |bs| && bs[s.batch].tasks != []
    case FinishPlan => s.pc == Check && s.batch >= |bs|
    case SerialReturns(_) => s.pc == RunningSerial && s.batch < |bs| && bs[s.batch].tasks != []
    case TakeJob(w) => s.pc == Draining && w < |s.workers| && s.workers[w].Idle? && s.jobs != []
    case ToolReturns(w, _) => s.pc == Draining && w < |s.workers| && s.workers[w].Busy?
    case Send(w) =>
      s.pc == Draining && s.batch < |bs| && w < |s.workers| && s.workers[w].Sending?
      && |s.channel| < |bs[s.batch].tasks|
    case SeeCancel(w) => s.pc == Draining && w < |s.workers| && s.workers[w].Idle? && s.ctx.Some?
    case WorkerExit(w) => s.pc == Draining && w < |s.workers| && s.workers[w].Idle? && s.jobs == []
    case CloseResults => s.pc == Draining && !s.closed && AllExited(s.workers)
    case Receive =>
      s.pc == Draining && s.channel != [] && (s.channel[0].Result? ==> s.channel[0].index < |s.results|)
    case EndDrain => s.pc == Draining && s.channel == [] && s.closed
    case Evaluate =>
      s.pc == Evaluating && s.batch < |bs| && bs[s.batch].tasks != [] && bs[s.batch].tasks[0] < |s.results|
  }

  /** errors.Join: no error at all when there is nothing to join. */
  function Join(errs: seq<Error>): Option<Error> { if errs == [] then None else Some(Joined(errs)) }

  ghost function Apply(p: Plan, bs: seq<Batch>, s: State, l: Step): State
    requires Enabled(p, bs, s, l)
  {
    match l
    case Cancel(e) => s.(ctx := Some(e))
    case EnterBatch =>
      var b := bs[s.batch];
      if s.ctx.Some? then Halt(bs, s, -1, SkippedResult(INTERRUPTED, s.ctx))
      else if b.isSerial then
        s.(pc := RunningSerial, jobs := [], workers := [], channel := [], closed := false,
           started := s.started + [b.tasks[0]], delivered := [])
      else
        s.(pc := Draining, jobs := b.tasks, workers := seq(Min(p.maxWorkers, |b.tasks|), _ => Idle),
           channel := [], closed := false, delivered := [])
    case FinishPlan =>
      var errs := if s.ctx.Some? then s.planErrors + [s.ctx.value] else s.planErrors;
      s.(pc := Returned, planErrors := errs, outcome := Join(errs))
    case SerialReturns(v) =>
      var i := bs[s.batch].tasks[0];
      s.(pc := Draining, ran := s.ran[i := v], channel := [Result(i, v)], closed := true)
    case TakeJob(w) =>
      s.(jobs := s.jobs[1..], workers := s.workers[w := Busy(s.jobs[0])], started := s.started + [s.jobs[0]])
    case ToolReturns(w, v) =>
      var i := s.workers[w].job;
      s.(workers := s.workers[w := Sending(Result(i, v))], ran := s.ran[i := v])
    case Send(w) =>
      var m := s.workers[w].message;
      s.(workers := s.workers[w := if m.Result? then Idle else Exited], channel := s.channel + [m])
    case SeeCancel(w) => s.(workers := s.workers[w := Sending(CancelSignal(s.ctx.value))])
    case WorkerExit(w) => s.(workers := s.workers[w := Exited])
    case CloseResults => s.(closed := true)
    case Receive =>
      var rest := s.(channel := s.channel[1..]);
      (match s.channel[0]
       case CancelSignal(e) => rest.(planErrors := s.planErrors + [e])
       case Result(i, v) => rest.(results := s.results[i := v], delivered := s.delivered + [i]))
    case EndDrain => s.(pc := Evaluating)
    case Evaluate =>
      var b := bs[s.batch];
      if b.isSerial && (s.results[b.tasks[0]].error.Some? || s.ctx.Some?) then
        Halt(bs, s, b.tasks[0], SkippedResult(HALTED, None))
      else if !b.isSerial && s.ctx.Some? then
        Halt(bs, s, -1, SkippedResult(INTERRUPTED, s.ctx))
      else
        s.(pc := Check, batch := s.batch + 1)
  }

  /** Mark what is left of the plan and return; a cancelled context adds its error. */
  ghost function Halt(bs: seq<Batch>, s: State, skip: int, marker: ToolResult): State {
    var errs := if s.ctx.Some? then s.planErrors + [s.ctx.value] else s.planErrors;
    s.(pc := Returned, results := FailRemaining(bs, s.batch, skip, s.results, marker),
       planErrors := errs, outcome := Join(errs))
  }

  /** The state an interleaving leads to, if every step of it was possible. */
  ghost function Exec(p: Plan, bs: seq<Batch>, labels: seq<Step>): Option<State> {
    if labels == [] then Some(Init(p))
    else
      var before := Exec(p, bs, labels[..|labels| - 1]);
      var l := labels[|labels| - 1];
      if before.Some? && Enabled(p, bs, before.value, l) then Some(Apply(p, bs, before.value, l)) else None
  }

  ghost predicate Setup(p: Plan, bs: seq<Batch>) { Canonical(p, bs) && p.maxWorkers >= 1 }

  // ------------------------------------------------------- where each task is

  function One(b: bool): nat { if b then 1 else 0 }

  predicate Carries(m: Message, i: nat) { m.Result? && m.index == i }

  predicate Holds(w: Worker, i: nat) {
    match w
    case Busy(k) => k == i
    case Sending(m) => Carries(m, i)
    case _ => false
  }

  function Held(ws: seq<Worker>, i: nat): nat {
    if ws == [] then 0 else One(Holds(ws[0], i)) + Held(ws[1..], i)
  }

  function Queued(ms: seq<Message>, i: nat): nat {
    if ms == [] then 0 else One(Carries(ms[0], i)) + Queued(ms[1..], i)
  }

  function Count(xs: seq<nat>, i: nat): nat {
    if xs == [] then 0 else One(xs[0] == i) + Count(xs[1..], i)
  }

  /** How often task i is in the job channel, with a worker, in the result channel or in
      its slot. */
  function Places(s: State, i: nat): nat {
    Count(s.jobs, i) + Held(s.workers, i) + Queued(s.channel, i) + Count(s.delivered, i)
  }

  lemma {:induction false} HeldUpdate(ws: seq<Worker>, w: nat, x: Worker, i: nat)
    requires w < |ws|
    ensures Held(ws[w := x], i) + One(Holds(ws[w], i)) == Held(ws, i) + One(Holds(x, i))
  {
    var now := ws[w := x];
    if w == 0 {
      assert now[1..] == ws[1..];
    } else {
      HeldUpdate(ws[1..], w - 1, x, i);
      assert now[1..] == ws[1..][w - 1 := x];
    }
  }

  lemma {:induction false} QueuedSnoc(ms: seq<Message>, m: Message, i: nat)
    ensures Queued(ms + [m], i) == Queued(ms, i) + One(Carries(m, i))
  {
    if ms == [] {
      assert ms + [m] == [m] && [m][1..] == [];
    } else {
      QueuedSnoc(ms[1..], m, i);
      assert (ms + [m])[1..] == ms[1..] + [m];
    }
  }

  lemma {:induction false} CountSnoc(xs: seq<nat>, x: nat, i: nat)
    ensures Count(xs + [x], i) == Count(xs, i) + One(x == i)
  {
    if xs == [] {
      assert xs + [x] == [x] && [x][1..] == [];
    } else {
      CountSnoc(xs[1..], x, i);
      assert (xs + [x])[1..] == xs[1..] + [x];
    }
  }

  lemma {:induction false} CountIn(xs: seq<nat>, i: nat)
    ensures Count(xs, i) > 0 <==> i in xs
  {
    if xs != [] {
      CountIn(xs[1..], i);
    }
  }

  lemma {:induction false} CountSorted(xs: seq<nat>, i: nat)
    requires forall j, k :: 0 <= j < k < |xs| ==> xs[j] < xs[k]
    ensures Count(xs, i) == One(i in xs)
  {
    if xs != [] {
      CountSorted(xs[1..], i);
    }
  }

  lemma {:induction false} NothingHeld(ws: seq<Worker>, i: nat)
    requires forall w | w in ws :: !Holds(w, i)
    ensures Held(ws, i) == 0
  {
    if ws != [] {
      NothingHeld(ws[1..], i);
    }
  }

  lemma {:induction false} HeldSome(ws: seq<Worker>, w: nat, i: nat)
    requires w < |ws| && Holds(ws[w], i)
    ensures Held(ws, i) > 0
  {
    if w > 0 {
      HeldSome(ws[1..], w - 1, i);
    }
  }
}
