/** The invariant of the execution plan, kept by every step of every goroutine. */
module PlanInvariant {
  import opened Llm
  import opened Batching
  import opened PlanMachine

  /** The calls of the batches behind the main goroutine, and of those ahead of it. */
  function Past(bs: seq<Batch>, s: State): seq<nat>
    requires s.batch <= |bs|
  {
    Flatten(bs[..s.batch])
  }

  function Ahead(bs: seq<Batch>, s: State): seq<nat>
    requires s.batch <= |bs|
  {
    if s.pc == Check || s.batch == |bs| then Flatten(bs[s.batch..]) else Flatten(bs[s.batch + 1..])
  }

  /** Control: program counter, context, channel and workers agree. */
  ghost predicate Shape(p: Plan, bs: seq<Batch>, s: State) {
    && |s.results| == |p.calls|
    && s.batch <= |bs|
    && (s.ctx.Some? ==> ContextError(s.ctx.value))
    && (forall e | e in s.planErrors :: s.ctx == Some(e))
    && (s.ctx.None? ==> s.planErrors == [])
    && (s.pc != Draining ==> AllExited(s.workers))
    && (s.pc in {RunningSerial, Draining, Evaluating} ==> s.batch < |bs|)
    && (s.pc == RunningSerial ==>
          bs[s.batch].isSerial && s.workers == [] && s.jobs == [] && s.channel == [] && s.delivered == [])
    && (s.pc in {Draining, Evaluating} ==>
          && (s.closed ==> AllExited(s.workers))
          && (bs[s.batch].isSerial ==> s.workers == [] && s.jobs == [] && s.closed)
          && (!bs[s.batch].isSerial ==> s.workers != [])
          && |s.workers| <= Min(p.maxWorkers, |bs[s.batch].tasks|))
    && (s.pc == Evaluating ==> s.closed && s.channel == [])
  }

  ghost predicate DeclinedOk(p: Plan, results: seq<ToolResult>) {
    forall i: nat | i < |results| && i in p.declined :: results[i] == DECLINED
  }

  ghost predicate HistoryOk(p: Plan, ran: map<nat, ToolResult>, started: seq<nat>) {
    && (forall i | i in ran :: i in started)
    && (forall i | i in started :: p.IsLive(i))
    && (forall j, k | 0 <= j < k < |started| :: started[j] != started[k])
  }

  ghost predicate Settled(p: Plan, results: seq<ToolResult>, ran: map<nat, ToolResult>, i: nat) {
    i < |p.calls| && i < |results| && i in ran && results[i] == ran[i] && (p.IsSerial(i) ==> ran[i].error.None?)
  }

  ghost predicate PastOk(p: Plan, past: seq<nat>, results: seq<ToolResult>, ran: map<nat, ToolResult>) {
    forall i | i in past :: Settled(p, results, ran, i)
  }

  ghost predicate Untouched(results: seq<ToolResult>, started: seq<nat>, i: nat) {
    i < |results| && results[i] == EMPTY && i !in started
  }

  ghost predicate AheadOk(ahead: seq<nat>, results: seq<ToolResult>, started: seq<nat>) {
    forall i | i in ahead :: Untouched(results, started, i)
  }

  ghost predicate PlacesOk(tasks: seq<nat>, s: State) {
    forall i: nat :: Places(s, i) == One(i in tasks)
  }

  ghost predicate JobsOk(jobs: seq<nat>, started: seq<nat>) {
    forall i | i in jobs :: i !in started
  }

  ghost predicate MessageOk(m: Message, ctx: Option<Error>, ran: map<nat, ToolResult>) {
    match m
    case Result(i, v) => i in ran && ran[i] == v
    case CancelSignal(e) => ctx == Some(e)
  }

  ghost predicate WorkerOk(w: Worker, ctx: Option<Error>, ran: map<nat, ToolResult>, started: seq<nat>) {
    match w
    case Busy(i) => i in started && i !in ran
    case Sending(m) => MessageOk(m, ctx, ran)
    case _ => true
  }

  ghost predicate WorkersOk(ws: seq<Worker>, ctx: Option<Error>, ran: map<nat, ToolResult>, started: seq<nat>) {
    forall w | 0 <= w < |ws| :: WorkerOk(ws[w], ctx, ran, started)
  }

  ghost predicate ChannelOk(ms: seq<Message>, ctx: Option<Error>, ran: map<nat, ToolResult>) {
    forall m | m in ms :: MessageOk(m, ctx, ran)
  }

  ghost predicate DeliveredOk(delivered: seq<nat>, results: seq<ToolResult>, ran: map<nat, ToolResult>) {
    forall i | i in delivered :: i in ran && i < |results| && results[i] == ran[i]
  }

  ghost predicate UndeliveredOk(tasks: seq<nat>, delivered: seq<nat>, results: seq<ToolResult>) {
    forall i | i in tasks && i !in delivered :: i < |results| && results[i] == EMPTY
  }

  /** Only a worker that found no job left may be gone while nothing was cancelled. */
  ghost predicate ExitsOk(ws: seq<Worker>, jobs: seq<nat>, ctx: Option<Error>) {
    ctx.None? && jobs != [] ==> forall w | w in ws :: !w.Exited?
  }

  /** A call handed to ExecuteTool has returned, or is with the main goroutine or a worker. */
  ghost predicate StartedOk(bs: seq<Batch>, s: State) {
    forall i | i in s.started :: Located(bs, s, i)
  }

  ghost predicate Located(bs: seq<Batch>, s: State, i: nat) {
    || i in s.ran
    || (s.pc == Draining && Held(s.workers, i) > 0)
    || (s.pc == RunningSerial && s.batch < |bs| && bs[s.batch].tasks == [i])
  }

  ghost predicate BatchOk(bs: seq<Batch>, s: State)
    requires s.batch < |bs|
  {
    var tasks := bs[s.batch].tasks;
    && PlacesOk(tasks, s)
    && JobsOk(s.jobs, s.started)
    && WorkersOk(s.workers, s.ctx, s.ran, s.started)
    && ChannelOk(s.channel, s.ctx, s.ran)
    && DeliveredOk(s.delivered, s.results, s.ran)
    && UndeliveredOk(tasks, s.delivered, s.results)
    && ExitsOk(s.workers, s.jobs, s.ctx)
  }

  ghost predicate SerialOk(bs: seq<Batch>, s: State)
    requires s.batch < |bs|
  {
    |bs[s.batch].tasks| == 1 &&
    var t := bs[s.batch].tasks[0];
    t in s.started && t !in s.ran && t < |s.results| && s.results[t] == EMPTY
  }

  /** What a returned plan leaves in the slots. */
  ghost predicate Answered(p: Plan, s: State, i: nat)
    requires i < |s.results|
  {
    if i in s.ran then s.results[i] == s.ran[i] || (!Filled(s.ran[i]) && s.ctx.Some? && IsSkip(s.results[i], s.ctx))
    else IsSkip(s.results[i], s.ctx) && i !in s.started
  }

  /** The skip markers the dispatcher writes; the one for a cancellation says why. */
  ghost predicate IsSkip(r: ToolResult, ctx: Option<Error>) {
    r == SkippedResult(HALTED, None) || (ctx.Some? && r == SkippedResult(INTERRUPTED, ctx))
  }

  /** Call i comes after a serial call that ran and failed. */
  ghost predicate AfterFailure(p: Plan, s: State, i: nat) {
    exists k: nat :: k < i && FailedSerial(p, s, k)
  }

  ghost predicate FailedSerial(p: Plan, s: State, k: nat) {
    p.IsLive(k) && p.IsSerial(k) && k in s.ran && s.ran[k].error.Some?
  }

  ghost predicate DoneOk(p: Plan, s: State)
    requires |s.results| == |p.calls|
  {
    && s.outcome == Join(s.planErrors)
    && (s.planErrors == [] ==> s.ctx.None?)
    && (forall i: nat | p.IsLive(i) :: Answered(p, s, i))
    && (s.ctx.None? ==>
          forall i: nat | p.IsLive(i) ::
            if AfterFailure(p, s, i) then i !in s.ran && s.results[i] == SkippedResult(HALTED, None) else i in s.ran)
  }

  ghost predicate Inv(p: Plan, bs: seq<Batch>, s: State) {
    && Setup(p, bs)
    && Shape(p, bs, s)
    && DeclinedOk(p, s.results)
    && HistoryOk(p, s.ran, s.started)
    && StartedOk(bs, s)
    && (s.pc != Returned ==> PastOk(p, Past(bs, s), s.results, s.ran) && AheadOk(Ahead(bs, s), s.results, s.started))
    && (s.pc == RunningSerial ==> SerialOk(bs, s))
    && (s.pc in {Draining, Evaluating} ==> BatchOk(bs, s))
    && (s.pc == Returned ==> DoneOk(p, s))
  }

  // ------------------------------------------------------- the order of the calls

  lemma {:induction false} Cut(p: Plan, bs: seq<Batch>, b: nat)
    requires Canonical(p, bs) && b < |bs|
    ensures Live(p, |p.calls|) == Flatten(bs[..b]) + bs[b].tasks + Flatten(bs[b + 1..])
    ensures Flatten(bs[..b + 1]) == Flatten(bs[..b]) + bs[b].tasks
    ensures Flatten(bs[b..]) == bs[b].tasks + Flatten(bs[b + 1..])
  {
    assert bs == bs[..b] + bs[b..];
    FlattenConcat(bs[..b], bs[b..]);
    assert bs[b..][1..] == bs[b + 1..];
    assert bs[..b + 1] == bs[..b] + [bs[b]];
    FlattenSnoc(bs[..b], bs[b]);
  }

  ghost predicate AllBefore(xs: seq<nat>, ys: seq<nat>) { forall x, y | x in xs && y in ys :: x < y }

  /** Past, current and future calls are increasing, so they are different calls. */
  lemma Order(p: Plan, bs: seq<Batch>, b: nat)
    requires Canonical(p, bs) && b < |bs|
    ensures AllBefore(Flatten(bs[..b]), bs[b].tasks)
    ensures AllBefore(bs[b].tasks, Flatten(bs[b + 1..]))
    ensures AllBefore(Flatten(bs[..b]), Flatten(bs[b + 1..]))
    ensures forall j, k :: 0 <= j < k < |bs[b].tasks| ==> bs[b].tasks[j] < bs[b].tasks[k]
    ensures forall i: nat :: p.IsLive(i) <==> i in Flatten(bs[..b]) || i in bs[b].tasks || i in Flatten(bs[b + 1..])
  {
    Cut(p, bs, b);
    Increasing(Flatten(bs[..b]), bs[b].tasks, Flatten(bs[b + 1..]), Live(p, |p.calls|));
  }

  lemma Increasing(x: seq<nat>, y: seq<nat>, z: seq<nat>, all: seq<nat>)
    requires all == x + y + z
    requires forall j, k :: 0 <= j < k < |all| ==> all[j] < all[k]
    ensures AllBefore(x, y) && AllBefore(y, z) && AllBefore(x, z)
    ensures forall j, k :: 0 <= j < k < |y| ==> y[j] < y[k]
    ensures forall i :: i in all <==> i in x || i in y || i in z
  {
    assert forall j | 0 <= j < |x| :: all[j] == x[j];
    assert forall j | 0 <= j < |y| :: all[|x| + j] == y[j];
    assert forall j | 0 <= j < |z| :: all[|x| + |y| + j] == z[j];
  }

  lemma TaskKinds(p: Plan, bs: seq<Batch>, b: nat)
    requires Canonical(p, bs) && b < |bs|
    ensures bs[b].tasks != []
    ensures forall i | i in bs[b].tasks :: p.IsLive(i) && p.IsSerial(i) == bs[b].isSerial
    ensures bs[b].isSerial ==> |bs[b].tasks| == 1
  {
    assert WellBatched(p, bs[b]);
  }

  // ----------------------------------------------------------------- the steps

  lemma InitInv(p: Plan, bs: seq<Batch>)
    requires Setup(p, bs)
    ensures Inv(p, bs, Init(p))
  {
    var s := Init(p);
    assert bs[0..] == bs && bs[..0] == [];
    assert Flatten([]) == [];
  }

  lemma CancelInv(p: Plan, bs: seq<Batch>, s: State, e: Error)
    requires Inv(p, bs, s) && Enabled(p, bs, s, Cancel(e))
    ensures Inv(p, bs, Apply(p, bs, s, Cancel(e)))
  {
    var t := Apply(p, bs, s, Cancel(e));
    assert StartedOk(bs, t) by {
      forall i | i in t.started ensures Located(bs, t, i) { assert Located(bs, s, i); }
    }
    if s.pc in {Draining, Evaluating} {
      assert PlacesOk(bs[s.batch].tasks, t) by {
        forall i: nat ensures Places(t, i) == One(i in bs[s.batch].tasks) { assert Places(s, i) == Places(t, i); }
      }
      assert WorkersOk(t.workers, t.ctx, t.ran, t.started) by {
        forall w | 0 <= w < |t.workers| ensures WorkerOk(t.workers[w], t.ctx, t.ran, t.started) {
          assert WorkerOk(s.workers[w], s.ctx, s.ran, s.started);
        }
      }
      assert ChannelOk(t.channel, t.ctx, t.ran) by {
        forall m | m in t.channel ensures MessageOk(m, t.ctx, t.ran) { assert MessageOk(m, s.ctx, s.ran); }
      }
    }
  }

  lemma EnterInv(p: Plan, bs: seq<Batch>, s: State)
    requires Inv(p, bs, s) && Enabled(p, bs, s, EnterBatch) && s.ctx.None?
    ensures Inv(p, bs, Apply(p, bs, s, EnterBatch))
  {
    var t := Apply(p, bs, s, EnterBatch);
    EnterAhead(p, bs, s);
    EnterStarted(p, bs, s);
    TaskKinds(p, bs, s.batch);
    if !bs[s.batch].isSerial {
      EnterPlaces(p, bs, s);
      assert BatchOk(bs, t);
    } else {
      assert bs[s.batch].tasks[0] in bs[s.batch].tasks;
    }
  }

  /** Starting a batch leaves the calls after it untouched. */
  lemma AheadStays(tasks: seq<nat>, rest: seq<nat>, results: seq<ToolResult>, started: seq<nat>, now: seq<nat>)
    requires tasks != [] && AllBefore(tasks, rest) && AheadOk(tasks + rest, results, started)
    requires now == started || now == started + [tasks[0]]
    ensures AheadOk(rest, results, now) && AheadOk(tasks, results, started)
  {
    assert tasks[0] in tasks;
    forall i | i in rest ensures Untouched(results, now, i) {
      assert i in tasks + rest && Untouched(results, started, i);
    }
    forall i | i in tasks ensures Untouched(results, started, i) { assert i in tasks + rest; }
  }

  lemma EnterAhead(p: Plan, bs: seq<Batch>, s: State)
    requires Setup(p, bs) && Enabled(p, bs, s, EnterBatch) && s.ctx.None?
    requires AheadOk(Ahead(bs, s), s.results, s.started)
    ensures var t := Apply(p, bs, s, EnterBatch);
      AheadOk(Ahead(bs, t), t.results, t.started) && AheadOk(bs[s.batch].tasks, s.results, s.started)
  {
    hide AheadOk, AllBefore, Flatten, SkippedResult, Min;
    Cut(p, bs, s.batch);
    Order(p, bs, s.batch);
    AheadStays(bs[s.batch].tasks, Flatten(bs[s.batch + 1..]), s.results, s.started,
      Apply(p, bs, s, EnterBatch).started);
  }

  lemma EnterStarted(p: Plan, bs: seq<Batch>, s: State)
    requires Setup(p, bs) && Enabled(p, bs, s, EnterBatch) && s.ctx.None? && StartedOk(bs, s)
    ensures StartedOk(bs, Apply(p, bs, s, EnterBatch))
  {
    var t := Apply(p, bs, s, EnterBatch);
    TaskKinds(p, bs, s.batch);
    forall i | i in t.started ensures Located(bs, t, i) {
      if i in s.started { assert Located(bs, s, i); } else { assert bs[s.batch].tasks == [i]; }
    }
  }

  lemma EnterPlaces(p: Plan, bs: seq<Batch>, s: State)
    requires Setup(p, bs) && Enabled(p, bs, s, EnterBatch) && s.ctx.None? && !bs[s.batch].isSerial
    ensures PlacesOk(bs[s.batch].tasks, Apply(p, bs, s, EnterBatch))
  {
    var t := Apply(p, bs, s, EnterBatch);
    Order(p, bs, s.batch);
    forall i: nat ensures Places(t, i) == One(i in bs[s.batch].tasks) {
      NothingHeld(t.workers, i);
      CountSorted(bs[s.batch].tasks, i);
    }
  }

  lemma SerialReturnsPlaces(p: Plan, bs: seq<Batch>, s: State, v: ToolResult)
    requires Shape(p, bs, s) && Setup(p, bs) && Enabled(p, bs, s, SerialReturns(v))
    ensures PlacesOk(bs[s.batch].tasks, Apply(p, bs, s, SerialReturns(v)))
  {
    var t, tasks := Apply(p, bs, s, SerialReturns(v)), bs[s.batch].tasks;
    TaskKinds(p, bs, s.batch);
    forall i: nat ensures Places(t, i) == One(i in tasks) {
      assert t.channel[1..] == [] && (i in tasks <==> i == tasks[0]);
      assert Queued(t.channel, i) == One(Carries(t.channel[0], i)) + Queued(t.channel[1..], i);
      assert Count(t.jobs, i) == Held(t.workers, i) == Count(t.delivered, i) == 0;
    }
  }

  lemma SerialReturnsPast(p: Plan, bs: seq<Batch>, s: State, v: ToolResult)
    requires Setup(p, bs) && Enabled(p, bs, s, SerialReturns(v)) && PastOk(p, Past(bs, s), s.results, s.ran)
    ensures var t := Apply(p, bs, s, SerialReturns(v)); PastOk(p, Past(bs, t), t.results, t.ran)
  {
    var t, tasks := Apply(p, bs, s, SerialReturns(v)), bs[s.batch].tasks;
    Order(p, bs, s.batch);
    forall i | i in Past(bs, t) ensures Settled(p, t.results, t.ran, i) {
      assert Settled(p, s.results, s.ran, i);
      assert tasks[0] in bs[s.batch].tasks && i in Flatten(bs[..s.batch]);
      assert i < tasks[0];
    }
  }

  lemma SerialReturnsInv(p: Plan, bs: seq<Batch>, s: State, v: ToolResult)
    requires Inv(p, bs, s) && Enabled(p, bs, s, SerialReturns(v))
    ensures Inv(p, bs, Apply(p, bs, s, SerialReturns(v)))
  {
    hide Places, Queued, Count, SkippedResult, Flatten;
    var t := Apply(p, bs, s, SerialReturns(v));
    TaskKinds(p, bs, s.batch);
    SerialReturnsPlaces(p, bs, s, v);
    SerialReturnsPast(p, bs, s, v);
    assert StartedOk(bs, t) by {
      forall i | i in t.started ensures Located(bs, t, i) { assert Located(bs, s, i); }
    }
  }

  /** What every step that only moves a task along inside a parallel batch keeps. */
  lemma PastKept(p: Plan, bs: seq<Batch>, s: State, t: State, i: nat)
    requires Inv(p, bs, s) && s.pc == Draining && t.pc == Draining && t.batch == s.batch
    requires i in bs[s.batch].tasks
    requires t.results == s.results || (i < |t.results| == |s.results| && t.results == s.results[i := t.results[i]])
    requires t.ran == s.ran || (i in t.ran && t.ran == s.ran[i := t.ran[i]])
    requires t.started == s.started || t.started == s.started + [i]
    ensures PastOk(p, Past(bs, t), t.results, t.ran) && AheadOk(Ahead(bs, t), t.results, t.started)
    ensures DeclinedOk(p, t.results)
  {
    Order(p, bs, s.batch);
    TaskKinds(p, bs, s.batch);
    forall k | k in Past(bs, t) ensures Settled(p, t.results, t.ran, k) {
      assert Settled(p, s.results, s.ran, k);
    }
    forall k | k in Ahead(bs, t) ensures Untouched(t.results, t.started, k) {
      assert Untouched(s.results, s.started, k);
    }
  }

  /** A task with a worker is a task of the batch, and with no other worker. */
  lemma HeldIsTask(p: Plan, bs: seq<Batch>, s: State, w: nat, i: nat)
    requires Inv(p, bs, s) && s.pc == Draining && w < |s.workers| && Holds(s.workers[w], i)
    ensures i in bs[s.batch].tasks && i !in s.jobs && i !in s.delivered
    ensures forall v | 0 <= v < |s.workers| && v != w :: !Holds(s.workers[v], i)
  {
    assert Places(s, i) == One(i in bs[s.batch].tasks);
    HeldSome(s.workers, w, i);
    CountIn(s.jobs, i);
    CountIn(s.delivered, i);
    HeldUpdate(s.workers, w, Idle, i);
    forall v | 0 <= v < |s.workers| && v != w ensures !Holds(s.workers[v], i) {
      if Holds(s.workers[v], i) { HeldSome(s.workers[w := Idle], v, i); }
    }
  }

  lemma TakeJobPlaces(p: Plan, bs: seq<Batch>, s: State, w: nat)
    requires Enabled(p, bs, s, TakeJob(w)) && s.batch < |bs| && PlacesOk(bs[s.batch].tasks, s)
    ensures PlacesOk(bs[s.batch].tasks, Apply(p, bs, s, TakeJob(w)))
    ensures s.jobs[0] in bs[s.batch].tasks && s.jobs[0] !in s.jobs[1..]
  {
    var t, i, tasks := Apply(p, bs, s, TakeJob(w)), s.jobs[0], bs[s.batch].tasks;
    assert Places(s, i) == One(i in tasks);
    CountIn(t.jobs, i);
    forall k: nat ensures Places(t, k) == One(k in tasks) {
      assert Places(s, k) == One(k in tasks);
      HeldUpdate(s.workers, w, Busy(i), k);
    }
  }

  lemma TakeJobStarted(p: Plan, bs: seq<Batch>, s: State, w: nat)
    requires Enabled(p, bs, s, TakeJob(w)) && StartedOk(bs, s)
    ensures StartedOk(bs, Apply(p, bs, s, TakeJob(w)))
  {
    var t, i := Apply(p, bs, s, TakeJob(w)), s.jobs[0];
    forall k | k in t.started ensures Located(bs, t, k) {
      HeldUpdate(s.workers, w, Busy(i), k);
      if k != i { assert Located(bs, s, k); }
    }
  }

  lemma TakeJobInv(p: Plan, bs: seq<Batch>, s: State, w: nat)
    requires Inv(p, bs, s) && Enabled(p, bs, s, TakeJob(w))
    ensures Inv(p, bs, Apply(p, bs, s, TakeJob(w)))
  {
    hide DoneOk, SerialOk, DeclinedOk, Flatten;
    hide Places, Held, Queued, Count;
    var t, i := Apply(p, bs, s, TakeJob(w)), s.jobs[0];
    assert i in s.jobs && s.workers[w] in s.workers;
    TakeJobPlaces(p, bs, s, w);
    TakeJobStarted(p, bs, s, w);
    assert i !in s.ran;
    assert WorkersOk(t.workers, t.ctx, t.ran, t.started) by {
      forall v | 0 <= v < |t.workers| ensures WorkerOk(t.workers[v], t.ctx, t.ran, t.started) {
        assert WorkerOk(s.workers[v], s.ctx, s.ran, s.started);
      }
    }
    assert ExitsOk(t.workers, t.jobs, t.ctx);
    PastKept(p, bs, s, t, i);
  }

  lemma ToolReturnsPlaces(p: Plan, bs: seq<Batch>, s: State, w: nat, v: ToolResult)
    requires Inv(p, bs, s) && Enabled(p, bs, s, ToolReturns(w, v))
    ensures var t := Apply(p, bs, s, ToolReturns(w, v)); PlacesOk(bs[s.batch].tasks, t) && StartedOk(bs, t)
  {
    hide PastOk, AheadOk, DoneOk, SerialOk, DeliveredOk, UndeliveredOk, HistoryOk, DeclinedOk, JobsOk, Count, Queued,
      WorkersOk, ChannelOk, ExitsOk;
    var t := Apply(p, bs, s, ToolReturns(w, v));
    var (i, tasks) := (s.workers[w].job, bs[s.batch].tasks);
    forall k: nat ensures Places(t, k) == One(k in tasks) {
      assert Places(s, k) == One(k in tasks);
      HeldUpdate(s.workers, w, Sending(Result(i, v)), k);
    }
    forall k | k in t.started ensures Located(bs, t, k) {
      HeldUpdate(s.workers, w, Sending(Result(i, v)), k);
      assert Located(bs, s, k);
    }
  }

  /** A call that returned was with its worker only. */
  lemma ToolReturnsNew(p: Plan, bs: seq<Batch>, s: State, w: nat, v: ToolResult)
    requires Inv(p, bs, s) && Enabled(p, bs, s, ToolReturns(w, v))
    ensures var i := s.workers[w].job;
      && i !in s.ran && i in s.started && i in bs[s.batch].tasks
      && forall u | 0 <= u < |s.workers| && u != w :: !Holds(s.workers[u], i)
  {
    hide PastOk, AheadOk, DoneOk, SerialOk, DeliveredOk, UndeliveredOk, HistoryOk, DeclinedOk, JobsOk, Count, Queued,
      ChannelOk, ExitsOk, StartedOk;
    HeldIsTask(p, bs, s, w, s.workers[w].job);
    assert WorkerOk(s.workers[w], s.ctx, s.ran, s.started);
  }

  lemma ToolReturnsInv(p: Plan, bs: seq<Batch>, s: State, w: nat, v: ToolResult)
    requires Inv(p, bs, s) && Enabled(p, bs, s, ToolReturns(w, v))
    ensures Inv(p, bs, Apply(p, bs, s, ToolReturns(w, v)))
  {
    hide PlacesOk, StartedOk, PastOk, AheadOk, DoneOk, SerialOk, UndeliveredOk, Flatten, Canonical;
    var t := Apply(p, bs, s, ToolReturns(w, v));
    ToolReturnsPlaces(p, bs, s, w, v);
    ToolReturnsNew(p, bs, s, w, v);
    assert s.workers[w] in s.workers;
    assert WorkersOk(t.workers, t.ctx, t.ran, t.started) by {
      forall u | 0 <= u < |t.workers| ensures WorkerOk(t.workers[u], t.ctx, t.ran, t.started) {
        assert WorkerOk(s.workers[u], s.ctx, s.ran, s.started);
      }
    }
    assert ChannelOk(t.channel, t.ctx, t.ran) by {
      forall m | m in t.channel ensures MessageOk(m, t.ctx, t.ran) { assert MessageOk(m, s.ctx, s.ran); }
    }
    PastKept(p, bs, s, t, s.workers[w].job);
  }

  lemma SendInv(p: Plan, bs: seq<Batch>, s: State, w: nat)
    requires Inv(p, bs, s) && Enabled(p, bs, s, Send(w))
    ensures Inv(p, bs, Apply(p, bs, s, Send(w)))
  {
    hide PastOk, AheadOk, DoneOk, SerialOk, DeliveredOk, UndeliveredOk, HistoryOk, DeclinedOk, JobsOk, Count;
    var t := Apply(p, bs, s, Send(w));
    var m := s.workers[w].message;
    var x := if m.Result? then Idle else Exited;
    var tasks := bs[s.batch].tasks;
    assert WorkerOk(s.workers[w], s.ctx, s.ran, s.started);
    assert PlacesOk(tasks, t) by {
      forall k: nat ensures Places(t, k) == One(k in tasks) {
        assert Places(s, k) == One(k in tasks);
        HeldUpdate(s.workers, w, x, k);
        QueuedSnoc(s.channel, m, k);
      }
    }
    assert WorkersOk(t.workers, t.ctx, t.ran, t.started) by {
      forall u | 0 <= u < |t.workers| ensures WorkerOk(t.workers[u], t.ctx, t.ran, t.started) {
        assert WorkerOk(s.workers[u], s.ctx, s.ran, s.started);
      }
    }
    assert StartedOk(bs, t) by {
      forall k | k in t.started ensures Located(bs, t, k) {
        HeldUpdate(s.workers, w, x, k);
        assert Located(bs, s, k);
      }
    }
    assert s.workers[w] in s.workers;
    assert Past(bs, t) == Past(bs, s) && Ahead(bs, t) == Ahead(bs, s);
  }

  lemma WorkerGoesInv(p: Plan, bs: seq<Batch>, s: State, l: Step)
    requires Inv(p, bs, s) && Enabled(p, bs, s, l) && (l.SeeCancel? || l.WorkerExit?)
    ensures Inv(p, bs, Apply(p, bs, s, l))
  {
    hide PastOk, AheadOk, DoneOk, SerialOk, DeliveredOk, UndeliveredOk, HistoryOk, DeclinedOk, JobsOk, Count, Queued;
    var t := Apply(p, bs, s, l);
    var tasks := bs[s.batch].tasks;
    assert PlacesOk(tasks, t) by {
      forall k: nat ensures Places(t, k) == One(k in tasks) {
        assert Places(s, k) == One(k in tasks);
        HeldUpdate(s.workers, l.w, t.workers[l.w], k);
      }
    }
    assert WorkersOk(t.workers, t.ctx, t.ran, t.started) by {
      forall u | 0 <= u < |t.workers| ensures WorkerOk(t.workers[u], t.ctx, t.ran, t.started) {
        assert WorkerOk(s.workers[u], s.ctx, s.ran, s.started);
      }
    }
    assert StartedOk(bs, t) by {
      forall k | k in t.started ensures Located(bs, t, k) {
        HeldUpdate(s.workers, l.w, t.workers[l.w], k);
        assert Located(bs, s, k);
      }
    }
    assert s.workers[l.w] in s.workers;
    assert Past(bs, t) == Past(bs, s) && Ahead(bs, t) == Ahead(bs, s);
  }

  lemma CloseInv(p: Plan, bs: seq<Batch>, s: State, l: Step)
    requires Inv(p, bs, s) && Enabled(p, bs, s, l) && (l.CloseResults? || l.EndDrain?)
    ensures Inv(p, bs, Apply(p, bs, s, l))
  {
    var t := Apply(p, bs, s, l);
    assert PlacesOk(bs[s.batch].tasks, t) by {
      forall k: nat ensures Places(t, k) == One(k in bs[s.batch].tasks) { assert Places(s, k) == Places(t, k); }
    }
    assert StartedOk(bs, t) by {
      forall k | k in t.started ensures Located(bs, t, k) {
        assert Located(bs, s, k);
        if l.EndDrain? { NothingHeld(s.workers, k); }
      }
    }
    assert Past(bs, t) == Past(bs, s) && Ahead(bs, t) == Ahead(bs, s);
  }

  lemma ReceivePlaces(p: Plan, bs: seq<Batch>, s: State)
    requires Enabled(p, bs, s, Receive) && s.batch < |bs| && PlacesOk(bs[s.batch].tasks, s)
    ensures PlacesOk(bs[s.batch].tasks, Apply(p, bs, s, Receive))
  {
    var t, m := Apply(p, bs, s, Receive), s.channel[0];
    forall k: nat ensures Places(t, k) == One(k in bs[s.batch].tasks) {
      assert Places(s, k) == One(k in bs[s.batch].tasks);
      if m.Result? { CountSnoc(s.delivered, m.index, k); }
    }
  }

  lemma ReceivedIsTask(p: Plan, bs: seq<Batch>, s: State)
    requires s.batch < |bs| && PlacesOk(bs[s.batch].tasks, s) && s.channel != [] && s.channel[0].Result?
    ensures s.channel[0].index in bs[s.batch].tasks
  {
    var i := s.channel[0].index;
    assert Places(s, i) == One(i in bs[s.batch].tasks) && Queued(s.channel, i) > 0;
  }

  /** A received result fills the slot of its own task. */
  lemma ReceiveResult(p: Plan, bs: seq<Batch>, s: State)
    requires s.batch < |bs| && Inv(p, bs, s) && Enabled(p, bs, s, Receive) && s.channel[0].Result?
    requires PlacesOk(bs[s.batch].tasks, Apply(p, bs, s, Receive))
    requires MessageOk(s.channel[0], s.ctx, s.ran)
    ensures var t := Apply(p, bs, s, Receive);
      && t.batch == s.batch && BatchOk(bs, t) && DeclinedOk(p, t.results)
      && PastOk(p, Past(bs, t), t.results, t.ran) && AheadOk(Ahead(bs, t), t.results, t.started)
  {
    hide Places, Held, Queued, Count, SkippedResult, Flatten;
    var t, m, tasks := Apply(p, bs, s, Receive), s.channel[0], bs[s.batch].tasks;
    assert m in s.channel;
    ReceivedIsTask(p, bs, s);
    PastKept(p, bs, s, t, m.index);
    assert DeliveredOk(t.delivered, t.results, t.ran);
    assert UndeliveredOk(tasks, t.delivered, t.results);
    ChannelKept(s, t);
  }

  lemma ChannelKept(s: State, t: State)
    requires ChannelOk(s.channel, s.ctx, s.ran) && s.channel != [] && t.channel == s.channel[1..] && t.ctx == s.ctx &&
      t.ran == s.ran
    ensures ChannelOk(t.channel, t.ctx, t.ran)
  {
    forall x | x in t.channel ensures MessageOk(x, t.ctx, t.ran) { assert x in s.channel; }
  }

  lemma ReceiveInv(p: Plan, bs: seq<Batch>, s: State)
    requires Inv(p, bs, s) && Enabled(p, bs, s, Receive)
    ensures Inv(p, bs, Apply(p, bs, s, Receive))
  {
    hide DoneOk, SerialOk, HistoryOk, Count, Places, Flatten;
    var t := Apply(p, bs, s, Receive);
    assert s.channel[0] in s.channel && MessageOk(s.channel[0], s.ctx, s.ran);
    ReceivePlaces(p, bs, s);
    ChannelKept(s, t);
    assert StartedOk(bs, t) by {
      forall k | k in t.started ensures Located(bs, t, k) { assert Located(bs, s, k); }
    }
    if s.channel[0].Result? {
      ReceiveResult(p, bs, s);
    } else {
      assert Past(bs, t) == Past(bs, s) && Ahead(bs, t) == Ahead(bs, s);
      assert BatchOk(bs, t);
    }
  }

  // ------------------------------------------------- the steps of the main goroutine

  /** A batch that has drained: every task of it that ran is in its slot. */
  lemma Drained(p: Plan, bs: seq<Batch>, s: State)
    requires Inv(p, bs, s) && s.pc == Evaluating
    ensures forall i: nat | i in bs[s.batch].tasks && i in s.started :: i in s.ran
    ensures forall i: nat | i in bs[s.batch].tasks && i in s.ran :: s.results[i] == s.ran[i]
    ensures forall i: nat | i in bs[s.batch].tasks && i !in s.ran :: s.results[i] == EMPTY
    ensures s.ctx.None? ==> forall i | i in bs[s.batch].tasks :: i in s.ran
  {
    TaskKinds(p, bs, s.batch);
    forall i: nat | i in bs[s.batch].tasks
      ensures i in s.started ==> i in s.ran
      ensures i in s.ran ==> i in s.delivered
      ensures s.ctx.None? ==> i in s.delivered
    {
      if i in s.started { assert Located(bs, s, i); }
      assert Places(s, i) == One(i in bs[s.batch].tasks);
      NothingHeld(s.workers, i);
      CountIn(s.jobs, i);
      CountIn(s.delivered, i);
      if s.ctx.None? && s.jobs != [] && s.workers != [] { assert s.workers[0] in s.workers; }
    }
  }

  lemma InSuffix(bs: seq<Batch>, b: nat, j: nat, i: nat)
    requires b <= j < |bs| && i in bs[j].tasks
    ensures i in Flatten(bs[b..])
  {
    assert bs[b..][j - b] == bs[j];
    TaskInFlatten(bs[b..], j - b, i);
  }

  /** What failRemainingTasks does to a call, told by where the call stands. */
  lemma MarkedAt(p: Plan, bs: seq<Batch>, b: nat, skip: int, before: seq<ToolResult>, i: nat)
    requires Canonical(p, bs) && b < |bs| && i < |before| == |p.calls|
    ensures i in p.declined || i in Flatten(bs[..b]) ==> !NeedsMark(bs, b, skip, before, i)
    ensures i in bs[b].tasks ==> NeedsMark(bs, b, skip, before, i) == (i > skip && !Filled(before[i]))
    ensures i in Flatten(bs[b + 1..]) ==> NeedsMark(bs, b, skip, before, i) == !Filled(before[i])
  {
    Cut(p, bs, b);
    Order(p, bs, b);
    if i in Flatten(bs[b + 1..]) {
      var k := BatchOf(bs[b + 1..], i);
      assert bs[b + 1 + k] == bs[b + 1..][k];
      assert i in bs[b + 1 + k].tasks;
    }
    forall j | b <= j < |bs| && i in bs[j].tasks
      ensures (i in bs[b].tasks && j == b) || (i in Flatten(bs[b + 1..]) && j > b)
    {
      if j > b { InSuffix(bs, b + 1, j, i); }
    }
  }

  /** The task that triggered the halt, -1 when none did. */
  function Trigger(bs: seq<Batch>, s: State): int
    requires s.batch < |bs|
  {
    if s.pc == Evaluating && bs[s.batch].isSerial && bs[s.batch].tasks != [] then bs[s.batch].tasks[0] else -1
  }

  ghost predicate Halting(p: Plan, bs: seq<Batch>, s: State, marker: ToolResult) {
    && (s.pc == Check || s.pc == Evaluating) && s.batch < |bs| && IsSkip(marker, s.ctx)
    && (s.ctx.None? ==>
          && marker == SkippedResult(HALTED, None)
          && 0 <= Trigger(bs, s) < |s.results| && s.results[Trigger(bs, s)].error.Some?)
  }

  /** What the halt makes of one call, when its slot was settled, drained or untouched. */
  lemma HaltSlot(p: Plan, s: State, t: State, i: nat, marker: ToolResult, marked: bool)
    requires i < |s.results| && |t.results| == |s.results|
    requires t.results[i] == if marked then marker else s.results[i]
    requires t.ran == s.ran && t.started == s.started && t.ctx == s.ctx && IsSkip(marker, s.ctx)
    requires i in s.ran ==> s.results[i] == s.ran[i]
    requires i !in s.ran ==> s.results[i] == EMPTY && i !in s.started && marked
    requires marked ==> !Filled(s.results[i]) && (i in s.ran ==> s.ctx.Some?)
    ensures Answered(p, t, i)
    ensures i !in s.ran ==> t.results[i] == marker
  {
  }

  lemma SlotBefore(p: Plan, bs: seq<Batch>, s: State, i: nat)
    requires Inv(p, bs, s) && (s.pc == Check || s.pc == Evaluating) && s.batch < |bs| && p.IsLive(i)
    ensures i in s.ran ==> s.results[i] == s.ran[i]
    ensures i !in s.ran ==> s.results[i] == EMPTY && i !in s.started
    ensures i !in s.ran ==> NeedsMark(bs, s.batch, Trigger(bs, s), s.results, i)
    ensures i in Flatten(bs[..s.batch]) ==> i in s.ran
    ensures i in Flatten(bs[s.batch + 1..]) || (i in bs[s.batch].tasks && s.pc == Check) ==> i !in s.ran
    ensures s.ctx.None? && s.pc == Evaluating && i in bs[s.batch].tasks ==> i in s.ran
  {
    Order(p, bs, s.batch);
    Cut(p, bs, s.batch);
    MarkedAt(p, bs, s.batch, Trigger(bs, s), s.results, i);
    if i in Flatten(bs[..s.batch]) {
      assert Settled(p, s.results, s.ran, i);
    } else if i in bs[s.batch].tasks && s.pc == Evaluating {
      Drained(p, bs, s);
      TaskKinds(p, bs, s.batch);
      if bs[s.batch].isSerial { SerialRan(p, bs, s); }
    } else {
      assert Untouched(s.results, s.started, i);
    }
  }

  lemma SerialRan(p: Plan, bs: seq<Batch>, s: State)
    requires Inv(p, bs, s) && s.pc == Evaluating && bs[s.batch].isSerial
    ensures forall i | i in bs[s.batch].tasks :: i in s.ran
  {
    forall i | i in bs[s.batch].tasks ensures i in s.ran {
      assert Places(s, i) == One(i in bs[s.batch].tasks);
      CountIn(s.delivered, i);
    }
  }

  /** Returning early: cancelled at the top of the loop, or after a batch. */
  lemma HaltInv(p: Plan, bs: seq<Batch>, s: State, marker: ToolResult)
    requires Inv(p, bs, s) && Halting(p, bs, s, marker)
    ensures Inv(p, bs, Halt(bs, s, Trigger(bs, s), marker))
  {
    var skip := Trigger(bs, s);
    var t := Halt(bs, s, skip, marker);
    forall i: nat | i < |p.calls| && i in p.declined
      ensures t.results[i] == DECLINED
    {
      MarkedAt(p, bs, s.batch, skip, s.results, i);
    }
    forall i | i in t.started ensures Located(bs, t, i) {
      assert Located(bs, s, i);
      NothingHeld(s.workers, i);
    }
    forall i: nat | p.IsLive(i) ensures Answered(p, t, i) {
      HaltAnswers(p, bs, s, marker, i);
    }
    if s.ctx.None? {
      forall i: nat | p.IsLive(i)
        ensures if AfterFailure(p, t, i) then i !in t.ran && t.results[i] == SkippedResult(HALTED, None) else i in t.ran
      {
        HaltAnswers(p, bs, s, marker, i);
        HaltOrder(p, bs, s, marker, i);
      }
    }
  }

  lemma HaltAnswers(p: Plan, bs: seq<Batch>, s: State, marker: ToolResult, i: nat)
    requires Inv(p, bs, s) && Halting(p, bs, s, marker) && p.IsLive(i)
    ensures Answered(p, Halt(bs, s, Trigger(bs, s), marker), i)
    ensures i !in s.ran ==> Halt(bs, s, Trigger(bs, s), marker).results[i] == marker
  {
    var skip := Trigger(bs, s);
    SlotBefore(p, bs, s, i);
    OnlyBlankMarked(p, bs, s, marker, i);
    HaltSlot(p, s, Halt(bs, s, skip, marker), i, marker, NeedsMark(bs, s.batch, skip, s.results, i));
  }

  /** A marked slot is blank; without cancellation its call has not run. */
  lemma OnlyBlankMarked(p: Plan, bs: seq<Batch>, s: State, marker: ToolResult, i: nat)
    requires Canonical(p, bs) && Halting(p, bs, s, marker) && p.IsLive(i) && |s.results| == |p.calls|
    requires i in Flatten(bs[s.batch + 1..]) ==> i !in s.ran
    ensures NeedsMark(bs, s.batch, Trigger(bs, s), s.results, i) ==>
      !Filled(s.results[i]) && (i in s.ran ==> s.ctx.Some?)
  {
    MarkedAt(p, bs, s.batch, Trigger(bs, s), s.results, i);
    Order(p, bs, s.batch);
    SerialTask(p, bs, s);
  }

  lemma HaltOrder(p: Plan, bs: seq<Batch>, s: State, marker: ToolResult, i: nat)
    requires Inv(p, bs, s) && Halting(p, bs, s, marker) && p.IsLive(i) && s.ctx.None?
    ensures AfterFailure(p, Halt(bs, s, Trigger(bs, s), marker), i) == (i !in s.ran)
  {
    var t := Halt(bs, s, Trigger(bs, s), marker);
    var k: nat := Trigger(bs, s);
    TriggerFailed(p, bs, s, marker);
    RanUpTo(p, bs, s, marker, i);
    if i > k { assert FailedSerial(p, t, k); }
    if AfterFailure(p, t, i) {
      var m: nat :| m < i && FailedSerial(p, t, m);
      assert FailedSerial(p, s, m);
      FirstFailure(p, bs, s, m);
    }
  }

  lemma TriggerFailed(p: Plan, bs: seq<Batch>, s: State, marker: ToolResult)
    requires Inv(p, bs, s) && Halting(p, bs, s, marker) && s.ctx.None?
    ensures s.pc == Evaluating && bs[s.batch].isSerial
    ensures FailedSerial(p, s, Trigger(bs, s)) && forall i | i in bs[s.batch].tasks :: i == Trigger(bs, s)
  {
    hide BatchOk, SerialOk, DoneOk, PastOk, AheadOk, StartedOk, HistoryOk, DeclinedOk, Canonical, FailRemaining;
    TaskKinds(p, bs, s.batch);
    assert bs[s.batch].tasks[0] in bs[s.batch].tasks;
    SlotBefore(p, bs, s, bs[s.batch].tasks[0]);
  }

  lemma RanUpTo(p: Plan, bs: seq<Batch>, s: State, marker: ToolResult, i: nat)
    requires Inv(p, bs, s) && Halting(p, bs, s, marker) && s.ctx.None? && p.IsLive(i)
    ensures i in s.ran <==> i <= Trigger(bs, s)
  {
    SlotBefore(p, bs, s, i);
    Order(p, bs, s.batch);
    SerialTask(p, bs, s);
    assert bs[s.batch].tasks[0] in bs[s.batch].tasks;
  }

  /** No serial call before the current batch failed. */
  lemma FirstFailure(p: Plan, bs: seq<Batch>, s: State, m: nat)
    requires Inv(p, bs, s) && s.pc == Evaluating && bs[s.batch].isSerial && FailedSerial(p, s, m)
    ensures m in bs[s.batch].tasks
  {
    SlotBefore(p, bs, s, m);
    Order(p, bs, s.batch);
    assert m in Flatten(bs[..s.batch]) ==> Settled(p, s.results, s.ran, m);
  }

  lemma NextBatchInv(p: Plan, bs: seq<Batch>, s: State)
    requires Inv(p, bs, s) && s.pc == Evaluating && s.ctx.None?
    requires forall i | i in bs[s.batch].tasks && i < |s.results| && bs[s.batch].isSerial :: s.results[i].error.None?
    ensures Inv(p, bs, s.(pc := Check, batch := s.batch + 1))
  {
    hide Places, Queued, Count, BatchOk, Flatten;
    var t := s.(pc := Check, batch := s.batch + 1);
    Cut(p, bs, s.batch);
    assert StartedOk(bs, t) by {
      forall i | i in t.started ensures Located(bs, t, i) {
        assert Located(bs, s, i);
        NothingHeld(s.workers, i);
      }
    }
    NextBatchPast(p, bs, s);
    assert AheadOk(Ahead(bs, t), t.results, t.started);
  }

  /** The batch that has drained joins the past. */
  lemma NextBatchPast(p: Plan, bs: seq<Batch>, s: State)
    requires Inv(p, bs, s) && s.pc == Evaluating && s.ctx.None?
    requires forall i | i in bs[s.batch].tasks && i < |s.results| && bs[s.batch].isSerial :: s.results[i].error.None?
    ensures PastOk(p, Past(bs, s.(pc := Check, batch := s.batch + 1)), s.results, s.ran)
  {
    hide Places, Held, Queued, Count, Flatten, BatchOk;
    Cut(p, bs, s.batch);
    TaskKinds(p, bs, s.batch);
    Drained(p, bs, s);
    forall i | i in Flatten(bs[..s.batch + 1]) ensures Settled(p, s.results, s.ran, i) {
      if i in bs[s.batch].tasks { assert p.IsLive(i); } else { assert Settled(p, s.results, s.ran, i); }
    }
  }

  lemma FinishInv(p: Plan, bs: seq<Batch>, s: State)
    requires Inv(p, bs, s) && Enabled(p, bs, s, FinishPlan)
    ensures Inv(p, bs, Apply(p, bs, s, FinishPlan))
  {
    var t := Apply(p, bs, s, FinishPlan);
    assert bs[..|bs|] == bs;
    forall i | i in t.started ensures Located(bs, t, i) { assert Located(bs, s, i); }
    forall i: nat | p.IsLive(i)
      ensures Answered(p, t, i) && i in t.ran && !FailedSerial(p, t, i)
    {
      assert i in Past(bs, s);
      assert Settled(p, s.results, s.ran, i);
    }
  }

  /** The invariant holds after every step. */
  lemma StepInv(p: Plan, bs: seq<Batch>, s: State, l: Step)
    requires Inv(p, bs, s) && Enabled(p, bs, s, l)
    ensures Inv(p, bs, Apply(p, bs, s, l))
  {
    match l
    case Cancel(e) => CancelInv(p, bs, s, e);
    case EnterBatch =>
      if s.ctx.Some? {
        HaltInv(p, bs, s, SkippedResult(INTERRUPTED, s.ctx));
      } else {
        EnterInv(p, bs, s);
      }
    case FinishPlan => FinishInv(p, bs, s);
    case SerialReturns(v) => SerialReturnsInv(p, bs, s, v);
    case TakeJob(w) => TakeJobInv(p, bs, s, w);
    case ToolReturns(w, v) => ToolReturnsInv(p, bs, s, w, v);
    case Send(w) => SendInv(p, bs, s, w);
    case SeeCancel(w) => WorkerGoesInv(p, bs, s, l);
    case WorkerExit(w) => WorkerGoesInv(p, bs, s, l);
    case CloseResults => CloseInv(p, bs, s, l);
    case Receive => ReceiveInv(p, bs, s);
    case EndDrain => CloseInv(p, bs, s, l);
    case Evaluate => EvaluateInv(p, bs, s);
  }

  lemma EvaluateInv(p: Plan, bs: seq<Batch>, s: State)
    requires Inv(p, bs, s) && Enabled(p, bs, s, Evaluate)
    ensures Inv(p, bs, Apply(p, bs, s, Evaluate))
  {
    var b := bs[s.batch];
    if b.isSerial && (s.results[b.tasks[0]].error.Some? || s.ctx.Some?) {
      HaltInv(p, bs, s, SkippedResult(HALTED, None));
    } else if !b.isSerial && s.ctx.Some? {
      HaltInv(p, bs, s, SkippedResult(INTERRUPTED, s.ctx));
    } else {
      SerialTask(p, bs, s);
      NextBatchInv(p, bs, s);
    }
  }

  lemma SerialTask(p: Plan, bs: seq<Batch>, s: State)
    requires Canonical(p, bs) && s.batch < |bs|
    ensures bs[s.batch].isSerial ==> |bs[s.batch].tasks| == 1 && forall i | i in bs[s.batch].tasks ::
      i == bs[s.batch].tasks[0]
  {
    TaskKinds(p, bs, s.batch);
  }

  lemma {:induction false} ReachableInv(p: Plan, bs: seq<Batch>, labels: seq<Step>)
    requires Setup(p, bs) && Exec(p, bs, labels).Some?
    ensures Inv(p, bs, Exec(p, bs, labels).value)
  {
    if labels == [] {
      InitInv(p, bs);
    } else {
      ReachableInv(p, bs, labels[..|labels| - 1]);
      StepInv(p, bs, Exec(p, bs, labels[..|labels| - 1]).value, labels[|labels| - 1]);
    }
  }
}
