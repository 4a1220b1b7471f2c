/** What every step of the event bus keeps: the pending counter is exact, every queue is
    first-in first-out and bounded, no flush sleeps through a zero, and a flush that returns
    nil has seen everything accepted before it handled or drained. */
module EventBusProofs {
  import opened Llm
  import opened EventBus

  // ---------------------------------------------------------------- kinds of steps

  predicate LifecycleStep(step: Step) {
    || step.Subscribe? || step.Listen? || step.EndListenContext? || step.LeaveListen? || step.ReturnListen?
    || step.Close? || step.EndBusContext?
  }

  predicate PublisherStep(step: Step) { step.BeginPublish? || step.Count? || step.Abort? || step.Shed? || step.Undo? }

  predicate EnqueueStep(step: Step) { step.Enqueue? || step.HandOver? }

  predicate WorkerStep(step: Step) {
    step.Take? || step.HandlerReturns? || step.Release? || step.StopReceiving? || step.DrainOne? || step.DrainEnds?
  }

  predicate FlushStep(step: Step) { step.BeginFlush? || step.Check? || step.CancelFlush? || step.ReturnNil? }

  /** A worker changes its own subscriber only. */
  lemma {:induction false} WorkerTouchesOne(s: Bus, step: Step)
    requires Enabled(s, step) && WorkerStep(step)
    ensures step.w < |s.subs| && |Apply(s, step).subs| == |s.subs|
    ensures Apply(s, step).subs == s.subs[step.w := Apply(s, step).subs[step.w]]
    ensures Apply(s, step).pubs == s.pubs
  {
  }

  lemma {:induction false} EnqueueTouchesOne(s: Bus, step: Step)
    requires Enabled(s, step) && EnqueueStep(step)
    ensures var w := s.pubs[step.p].targets[0];
      |Apply(s, step).subs| == |s.subs| && Apply(s, step).subs == s.subs[w := Apply(s, step).subs[w]]
  {
  }

  lemma {:induction false} OthersTouchNone(s: Bus, step: Step)
    requires Enabled(s, step) &&
      (PublisherStep(step) || FlushStep(step) || (LifecycleStep(step) && !step.Subscribe? && !step.Listen?))
    ensures Apply(s, step).subs == s.subs
  {
    if PublisherStep(step) { PublisherLeavesSubs(s, step); }
  }

  lemma {:induction false} PublisherLeavesSubs(s: Bus, step: Step)
    requires Enabled(s, step) && PublisherStep(step)
    ensures Apply(s, step).subs == s.subs
  {
  }

  /** Settling an event may wake the waiters, at zero; no other step takes from the counter. */
  lemma {:induction false} DecrementWakes(s: Bus, step: Step)
    requires Enabled(s, step) && (step.Undo? || step.Release?)
    ensures Apply(s, step).pending == s.pending - 1
    ensures Apply(s, step).flushes == if s.pending == 1 then Broadcast(s.flushes) else s.flushes
  {
  }

  lemma {:induction false} PublisherKeeps(s: Bus, step: Step)
    requires Enabled(s, step) && (EnqueueStep(step) || (PublisherStep(step) && !step.Undo?))
    ensures Apply(s, step).pending >= s.pending && Apply(s, step).flushes == s.flushes
  {
    if EnqueueStep(step) { EnqueueKeeps(s, step); }
  }

  lemma {:induction false} EnqueueKeeps(s: Bus, step: Step)
    requires Enabled(s, step) && EnqueueStep(step)
    ensures Apply(s, step).pending == s.pending && Apply(s, step).flushes == s.flushes
  {
  }

  lemma {:induction false} WorkerKeeps(s: Bus, step: Step)
    requires Enabled(s, step) && WorkerStep(step) && !step.Release?
    ensures Apply(s, step).pending == s.pending && Apply(s, step).flushes == s.flushes
  {
    hide Apply, Enabled;
    if step.Take? || step.HandlerReturns? { ReceivingKeeps(s, step); } else { StoppingKeeps(s, step); }
  }

  lemma {:induction false} ReceivingKeeps(s: Bus, step: Step)
    requires Enabled(s, step) && (step.Take? || step.HandlerReturns?)
    ensures Apply(s, step).pending == s.pending && Apply(s, step).flushes == s.flushes
  {
  }

  lemma {:induction false} StoppingKeeps(s: Bus, step: Step)
    requires Enabled(s, step) && (step.StopReceiving? || step.DrainOne? || step.DrainEnds?)
    ensures Apply(s, step).pending == s.pending && Apply(s, step).flushes == s.flushes
  {
  }

  lemma {:induction false} OthersOnlyWake(s: Bus, step: Step)
    requires Enabled(s, step) && !FlushStep(step)
    ensures var s' := Apply(s, step);
      || (s'.flushes == s.flushes && (s'.pending >= s.pending || (s'.pending == s.pending - 1 && s.pending != 1)))
      || s'.flushes == Broadcast(s.flushes)
  {
    if step.Undo? || step.Release? { DecrementWakes(s, step); }
    else if WorkerStep(step) { WorkerKeeps(s, step); }
    else if !LifecycleStep(step) { PublisherKeeps(s, step); }
  }

  // ---------------------------------------------------------------- the counter

  function PubWeight(p: Publisher): nat { if p.stage == Ready then 0 else 1 }

  /** An event is pending while queued, while handled, and until its worker has said so. */
  function SubWeight(x: Subscriber): nat {
    |x.queue| + if x.worker.Handling? || x.worker == Returned || x.worker == Dropping then 1 else 0
  }

  function PubWeights(ps: seq<Publisher>): seq<nat> { seq(|ps|, i requires 0 <= i < |ps| => PubWeight(ps[i])) }
  function SubWeights(xs: seq<Subscriber>): seq<nat> { seq(|xs|, i requires 0 <= i < |xs| => SubWeight(xs[i])) }

  function Sum(ws: seq<nat>): nat { if ws == [] then 0 else Sum(ws[..|ws| - 1]) + ws[|ws| - 1] }

  lemma {:induction false} SumUpdate(ws: seq<nat>, i: nat, w: nat)
    requires i < |ws|
    ensures Sum(ws[i := w]) == Sum(ws) - ws[i] + w
  {
    var n := |ws| - 1;
    if i == n {
      assert ws[i := w][..n] == ws[..n];
    } else {
      assert ws[i := w][..n] == ws[..n][i := w];
      SumUpdate(ws[..n], i, w);
    }
  }

  lemma {:induction false} SumSnoc(ws: seq<nat>, w: nat)
    ensures Sum(ws + [w]) == Sum(ws) + w
  {
    assert (ws + [w])[..|ws|] == ws;
  }

  lemma {:induction false} SumZero(ws: seq<nat>)
    ensures Sum(ws) == 0 <==> forall i | 0 <= i < |ws| :: ws[i] == 0
  {
    if ws != [] {
      SumZero(ws[..|ws| - 1]);
      assert forall i | 0 <= i < |ws| - 1 :: ws[..|ws| - 1][i] == ws[i];
    }
  }

  predicate Accounted(s: Bus) { s.pending == Sum(PubWeights(s.pubs)) + Sum(SubWeights(s.subs)) }

  lemma {:induction false} PubUpdate(ps: seq<Publisher>, p: nat, x: Publisher)
    requires p < |ps|
    ensures Sum(PubWeights(ps[p := x])) == Sum(PubWeights(ps)) - PubWeight(ps[p]) + PubWeight(x)
  {
    assert PubWeights(ps[p := x]) == PubWeights(ps)[p := PubWeight(x)];
    SumUpdate(PubWeights(ps), p, PubWeight(x));
  }

  lemma {:induction false} SubUpdate(xs: seq<Subscriber>, w: nat, x: Subscriber)
    requires w < |xs|
    ensures Sum(SubWeights(xs[w := x])) == Sum(SubWeights(xs)) - SubWeight(xs[w]) + SubWeight(x)
  {
    assert SubWeights(xs[w := x]) == SubWeights(xs)[w := SubWeight(x)];
    SumUpdate(SubWeights(xs), w, SubWeight(x));
  }

  lemma {:induction false} PublishAccounted(s: Bus, step: Step)
    requires Accounted(s) && Enabled(s, step)
    requires PublisherStep(step)
    ensures Accounted(Apply(s, step))
  {
    hide Apply, Enabled;
    var s' := Apply(s, step);
    PublisherLeavesSubs(s, step);
    if step.BeginPublish? {
      NewPublisher(s, step);
      assert PubWeights(s'.pubs) == PubWeights(s.pubs) + [0];
      SumSnoc(PubWeights(s.pubs), 0);
    } else {
      PublisherWeighs(s, step);
      PubUpdate(s.pubs, step.p, s'.pubs[step.p]);
    }
  }

  lemma {:induction false} NewPublisher(s: Bus, step: Step)
    requires Enabled(s, step) && step.BeginPublish?
    ensures Apply(s, step).pending == s.pending
    ensures var x := Publisher(step.event, Targets(s.subs, step.event.topic), Ready);
      Apply(s, step).pubs == s.pubs + [x]
  {
  }

  lemma {:induction false} PublisherWeighs(s: Bus, step: Step)
    requires Enabled(s, step) && PublisherStep(step) && !step.BeginPublish?
    ensures var s' := Apply(s, step);
      && step.p < |s.pubs| && s'.pubs == s.pubs[step.p := s'.pubs[step.p]]
      && s'.pending - s.pending == PubWeight(s'.pubs[step.p]) - PubWeight(s.pubs[step.p])
  {
  }

  lemma {:induction false} EnqueueAccounted(s: Bus, step: Step)
    requires Accounted(s) && Enabled(s, step) && EnqueueStep(step)
    ensures Accounted(Apply(s, step))
  {
    var s' := Apply(s, step);
    var w := s.pubs[step.p].targets[0];
    PubUpdate(s.pubs, step.p, NextTarget(s.pubs[step.p]));
    SubUpdate(s.subs, w, s'.subs[w]);
  }

  lemma {:induction false} WorkerAccounted(s: Bus, step: Step)
    requires Accounted(s) && Enabled(s, step)
    requires WorkerStep(step)
    ensures Accounted(Apply(s, step))
  {
    WorkerTouchesOne(s, step);
    SubUpdate(s.subs, step.w, Apply(s, step).subs[step.w]);
  }

  lemma {:induction false} ListenAccounted(s: Bus, step: Step)
    requires Accounted(s) && Enabled(s, step) && (step.Subscribe? || step.Listen?)
    ensures Accounted(Apply(s, step))
  {
    var s' := Apply(s, step);
    if step.Subscribe? {
      assert SubWeights(s'.subs) == SubWeights(s.subs) + [0];
      SumSnoc(SubWeights(s.subs), 0);
    } else {
      assert SubWeights(s'.subs) == SubWeights(s.subs);
    }
  }

  lemma {:induction false} StepAccounted(s: Bus, step: Step)
    requires Accounted(s) && Enabled(s, step)
    ensures Accounted(Apply(s, step))
  {
    if WorkerStep(step) { WorkerAccounted(s, step); }
    else if EnqueueStep(step) { EnqueueAccounted(s, step); }
    else if PublisherStep(step) { PublishAccounted(s, step); }
    else if step.Subscribe? || step.Listen? { ListenAccounted(s, step); }
  }

  /** In every reachable state the counter is the publishers that have counted an event and
      not settled it, plus the queued events, plus the events at the workers. */
  lemma {:induction false} PendingIsExact(queueSize: nat, steps: seq<Step>)
    requires Run(queueSize, steps).Some?
    ensures Accounted(Run(queueSize, steps).value)
    ensures Run(queueSize, steps).value.pending >= 0
  {
    if steps == [] {
      assert PubWeights([]) == [] && SubWeights([]) == [];
    } else {
      PendingIsExact(queueSize, steps[..|steps| - 1]);
      StepAccounted(Run(queueSize, steps[..|steps| - 1]).value, steps[|steps| - 1]);
    }
  }

  // ---------------------------------------------------------------- the queues

  function Events(fates: seq<Fate>): seq<Event> { seq(|fates|, i requires 0 <= i < |fates| => fates[i].event) }

  function AtWorker(w: Worker): seq<Event> { if w.Handling? then [w.event] else [] }

  /** Events leave in the order in which they were accepted, each once: those that are done,
      then the one being handled, then the queue. The queue is bounded. */
  predicate Fifo(x: Subscriber, queueSize: nat) {
    && x.accepted == Events(x.done) + AtWorker(x.worker) + x.queue
    && |x.queue| <= queueSize
  }

  predicate AllFifo(s: Bus) { forall w | 0 <= w < |s.subs| :: Fifo(s.subs[w], s.queueSize) }

  lemma {:induction false} EventsSnoc(fates: seq<Fate>, fate: Fate)
    ensures Events(fates + [fate]) == Events(fates) + [fate.event]
  {
  }

  lemma {:induction false} EnqueueFifo(x: Subscriber, e: Event, queueSize: nat)
    requires Fifo(x, queueSize)
    ensures |x.queue| < queueSize ==> Fifo(x.(queue := x.queue + [e], accepted := x.accepted + [e]), queueSize)
    ensures x.queue == [] && x.worker == Idle ==>
      Fifo(x.(worker := Handling(e), accepted := x.accepted + [e]), queueSize)
  {
    var front := Events(x.done) + AtWorker(x.worker);
    assert front + x.queue + [e] == front + (x.queue + [e]);
    assert x.worker == Idle ==> front == Events(x.done);
  }

  lemma TakeFifo(x: Subscriber, queueSize: nat)
    requires Fifo(x, queueSize) && x.worker == Idle && x.queue != []
    ensures Fifo(x.(queue := x.queue[1..], worker := Handling(x.queue[0])), queueSize)
  {
    var done := Events(x.done);
    assert x.queue == [x.queue[0]] + x.queue[1..];
    assert done + [] + x.queue == done + [x.queue[0]] + x.queue[1..];
  }

  lemma ReturnFifo(x: Subscriber, queueSize: nat)
    requires Fifo(x, queueSize) && x.worker.Handling?
    ensures Fifo(x.(worker := Returned, done := x.done + [Handled(x.worker.event)]), queueSize)
  {
    EventsSnoc(x.done, Handled(x.worker.event));
    var done := Events(x.done);
    assert done + [x.worker.event] + x.queue == (done + [x.worker.event]) + [] + x.queue;
  }

  lemma DrainFifo(x: Subscriber, queueSize: nat)
    requires Fifo(x, queueSize) && x.worker == Draining && x.queue != []
    ensures Fifo(x.(queue := x.queue[1..], worker := Dropping, done := x.done + [Drained(x.queue[0])]), queueSize)
  {
    EventsSnoc(x.done, Drained(x.queue[0]));
    var done := Events(x.done);
    assert x.queue == [x.queue[0]] + x.queue[1..];
    assert done + [] + x.queue == done + [x.queue[0]] + [] + x.queue[1..];
  }

  lemma RestFifo(x: Subscriber, worker: Worker, queueSize: nat)
    requires Fifo(x, queueSize) && !x.worker.Handling? && !worker.Handling?
    ensures Fifo(x.(worker := worker), queueSize)
  {
  }

  lemma {:induction false} WorkerFifo(s: Bus, step: Step)
    requires AllFifo(s) && Enabled(s, step) && WorkerStep(step)
    ensures Fifo(Apply(s, step).subs[step.w], s.queueSize)
  {
    hide Fifo, Events;
    var x := s.subs[step.w];
    assert Fifo(x, s.queueSize);
    if step.Take? { TakeFifo(x, s.queueSize); }
    else if step.HandlerReturns? { ReturnFifo(x, s.queueSize); }
    else if step.DrainOne? { DrainFifo(x, s.queueSize); }
    else { RestFifo(x, Apply(s, step).subs[step.w].worker, s.queueSize); }
  }

  lemma {:induction false} OneSubFifo(s: Bus, s': Bus, w: nat, x: Subscriber)
    requires AllFifo(s) && w < |s.subs| && s'.queueSize == s.queueSize
    requires s'.subs == s.subs[w := x] && Fifo(x, s.queueSize)
    ensures AllFifo(s')
  {
    forall v | 0 <= v < |s'.subs| ensures Fifo(s'.subs[v], s'.queueSize) {
      if v != w { assert Fifo(s.subs[v], s.queueSize); }
    }
  }

  lemma {:induction false} StepFifo(s: Bus, step: Step)
    requires AllFifo(s) && Enabled(s, step)
    ensures AllFifo(Apply(s, step))
  {
    SizeStays(s, step);
    if WorkerStep(step) {
      WorkerTouchesOne(s, step);
      WorkerFifo(s, step);
      OneSubFifo(s, Apply(s, step), step.w, Apply(s, step).subs[step.w]);
    }
    else if EnqueueStep(step) { QueueFifo(s, step); }
    else if step.Subscribe? { NewSubFifo(s, step); }
    else if step.Listen? { ListenFifo(s); }
    else { OthersTouchNone(s, step); }
  }

  lemma {:induction false} SizeStays(s: Bus, step: Step)
    requires Enabled(s, step)
    ensures Apply(s, step).queueSize == s.queueSize
  {
    if WorkerStep(step) { WorkerKeepsSize(s, step); }
    else if PublisherStep(step) || EnqueueStep(step) { PublisherKeepsSize(s, step); }
  }

  lemma {:induction false} WorkerKeepsSize(s: Bus, step: Step)
    requires Enabled(s, step) && WorkerStep(step)
    ensures Apply(s, step).queueSize == s.queueSize
  {
  }

  lemma {:induction false} PublisherKeepsSize(s: Bus, step: Step)
    requires Enabled(s, step) && (PublisherStep(step) || EnqueueStep(step))
    ensures Apply(s, step).queueSize == s.queueSize
  {
  }

  lemma {:induction false} QueueFifo(s: Bus, step: Step)
    requires AllFifo(s) && Enabled(s, step) && EnqueueStep(step)
    ensures AllFifo(Apply(s, step))
  {
    var w := s.pubs[step.p].targets[0];
    assert Fifo(s.subs[w], s.queueSize);
    EnqueueFifo(s.subs[w], s.pubs[step.p].event, s.queueSize);
    EnqueueTouchesOne(s, step);
    OneSubFifo(s, Apply(s, step), w, Apply(s, step).subs[w]);
  }

  lemma {:induction false} NewSubFifo(s: Bus, step: Step)
    requires AllFifo(s) && Enabled(s, step) && step.Subscribe?
    ensures AllFifo(Apply(s, step))
  {
    var s' := Apply(s, step);
    forall v | 0 <= v < |s'.subs| ensures Fifo(s'.subs[v], s'.queueSize) {
      if v < |s.subs| { assert Fifo(s.subs[v], s.queueSize); }
    }
  }

  lemma {:induction false} ListenFifo(s: Bus)
    requires AllFifo(s) && Enabled(s, Listen)
    ensures AllFifo(Apply(s, Listen))
  {
    var s' := Apply(s, Listen);
    forall v | 0 <= v < |s'.subs| ensures Fifo(s'.subs[v], s'.queueSize) {
      assert Fifo(s.subs[v], s.queueSize) && s.subs[v].worker == Stopped;
    }
  }

  /** However publishers and workers interleave, each subscriber's events are handled or
      drained in the order in which they were accepted, each at most once. */
  lemma {:induction false} DeliveredInOrder(queueSize: nat, steps: seq<Step>)
    requires Run(queueSize, steps).Some?
    ensures AllFifo(Run(queueSize, steps).value)
  {
    if steps != [] {
      DeliveredInOrder(queueSize, steps[..|steps| - 1]);
      StepFifo(Run(queueSize, steps[..|steps| - 1]).value, steps[|steps| - 1]);
    }
  }

  /** The counter is zero exactly when nothing is under way: no event counted and not
      settled, none queued, none at a worker. */
  lemma {:induction false} ZeroIsQuiet(s: Bus)
    requires Accounted(s)
    ensures s.pending == 0 <==>
      && (forall p | 0 <= p < |s.pubs| :: s.pubs[p].stage == Ready)
      && (forall w | 0 <= w < |s.subs| :: SubWeight(s.subs[w]) == 0)
  {
    SumZero(PubWeights(s.pubs));
    SumZero(SubWeights(s.subs));
    assert forall p | 0 <= p < |s.pubs| :: PubWeights(s.pubs)[p] == PubWeight(s.pubs[p]);
    assert forall w | 0 <= w < |s.subs| :: SubWeights(s.subs)[w] == SubWeight(s.subs[w]);
  }

  // ---------------------------------------------------------------- flush

  /** Every event that was accepted when the call began is done. */
  predicate Covered(goal: seq<nat>, subs: seq<Subscriber>) {
    |goal| <= |subs| && forall w | 0 <= w < |goal| :: goal[w] <= |subs[w].done|
  }

  predicate Counted(goal: seq<nat>, subs: seq<Subscriber>) {
    |goal| <= |subs| && forall w | 0 <= w < |goal| :: goal[w] <= |subs[w].accepted|
  }

  /** A sleeping waiter has something to wait for; one that left uncancelled saw a zero. */
  predicate FlushOk(f: Flush, pending: int, subs: seq<Subscriber>) {
    && (f.waiter == Sleeping ==> pending > 0 && !f.cancelled)
    && (f.cancelled ==> f.result == Some(false))
    && (f.waiter == Gone && !f.cancelled ==> f.sawZero)
    && (f.result == Some(true) ==> f.waiter == Gone && f.sawZero)
    && (f.sawZero ==> Covered(f.goal, subs))
    && Counted(f.goal, subs)
  }

  predicate FlushesOk(s: Bus) { forall f | 0 <= f < |s.flushes| :: FlushOk(s.flushes[f], s.pending, s.subs) }

  /** Subscribers only gain accepted and finished events, and nobody unsubscribes. */
  predicate Grown(xs: seq<Subscriber>, ys: seq<Subscriber>) {
    |xs| <= |ys| && forall w | 0 <= w < |xs| :: xs[w].accepted <= ys[w].accepted && xs[w].done <= ys[w].done
  }

  lemma {:induction false} OneSubGrows(xs: seq<Subscriber>, w: nat, x: Subscriber)
    requires w < |xs| && xs[w].accepted <= x.accepted && xs[w].done <= x.done
    ensures Grown(xs, xs[w := x])
  {
  }

  lemma {:induction false} StepGrows(s: Bus, step: Step)
    requires Enabled(s, step)
    ensures Grown(s.subs, Apply(s, step).subs)
  {
    if WorkerStep(step) { WorkerGrows(s, step); }
    else if EnqueueStep(step) {
      var w := s.pubs[step.p].targets[0];
      EnqueueTouchesOne(s, step);
      OneSubGrows(s.subs, w, Apply(s, step).subs[w]);
    }
    else if !step.Subscribe? && !step.Listen? { OthersTouchNone(s, step); }
  }

  lemma {:induction false} WorkerGrows(s: Bus, step: Step)
    requires Enabled(s, step) && WorkerStep(step)
    ensures Grown(s.subs, Apply(s, step).subs)
  {
    WorkerTouchesOne(s, step);
    OneSubGrows(s.subs, step.w, Apply(s, step).subs[step.w]);
  }

  lemma {:induction false} FlushKept(f: Flush, pending: int, pending': int, xs: seq<Subscriber>, ys: seq<Subscriber>)
    requires FlushOk(f, pending, xs) && Grown(xs, ys) && (pending > 0 ==> pending' > 0)
    ensures FlushOk(f, pending', ys)
  {
  }

  lemma {:induction false} WokenKept(f: Flush, pending: int, pending': int, xs: seq<Subscriber>, ys: seq<Subscriber>)
    requires FlushOk(f, pending, xs) && Grown(xs, ys)
    ensures FlushOk(Woken(f), pending', ys)
  {
  }

  /** At a zero, every accepted event is done. */
  lemma {:induction false} ZeroCovers(s: Bus, goal: seq<nat>)
    requires Accounted(s) && AllFifo(s) && s.pending == 0 && Counted(goal, s.subs)
    ensures Covered(goal, s.subs)
  {
    ZeroIsQuiet(s);
    forall w | 0 <= w < |goal| ensures goal[w] <= |s.subs[w].done| {
      assert Fifo(s.subs[w], s.queueSize) && SubWeight(s.subs[w]) == 0;
    }
  }

  lemma {:induction false} CheckOk(s: Bus, f: nat)
    requires Accounted(s) && AllFifo(s) && FlushesOk(s) && Enabled(s, Check(f)) && s.pending >= 0
    ensures FlushesOk(Apply(s, Check(f)))
  {
    var s' := Apply(s, Check(f));
    assert FlushOk(s.flushes[f], s.pending, s.subs);
    if s.pending == 0 { ZeroCovers(s, s.flushes[f].goal); }
    forall g | 0 <= g < |s'.flushes| ensures FlushOk(s'.flushes[g], s'.pending, s'.subs) {
      assert FlushOk(s.flushes[g], s.pending, s.subs);
    }
  }

  lemma {:induction false} CancelOk(s: Bus, f: nat)
    requires FlushesOk(s) && Enabled(s, CancelFlush(f))
    ensures FlushesOk(Apply(s, CancelFlush(f)))
  {
    var s' := Apply(s, CancelFlush(f));
    forall g | 0 <= g < |s'.flushes| ensures FlushOk(s'.flushes[g], s'.pending, s'.subs) {
      WokenKept(s.flushes[g], s.pending, s.pending, s.subs, s.subs);
    }
  }

  lemma {:induction false} FlushCallOk(s: Bus, step: Step)
    requires FlushesOk(s) && Enabled(s, step) && (step.BeginFlush? || step.ReturnNil?)
    ensures FlushesOk(Apply(s, step))
  {
    var s' := Apply(s, step);
    forall g | 0 <= g < |s'.flushes| ensures FlushOk(s'.flushes[g], s'.pending, s'.subs) {
      if g < |s.flushes| { assert FlushOk(s.flushes[g], s.pending, s.subs); }
    }
  }

  /** The steps that leave the flushes alone or wake them all. */
  lemma {:induction false} OtherOk(s: Bus, step: Step)
    requires FlushesOk(s) && Enabled(s, step)
    requires !FlushStep(step)
    ensures FlushesOk(Apply(s, step))
  {
    var s' := Apply(s, step);
    StepGrows(s, step);
    OthersOnlyWake(s, step);
    AllKept(s, s');
  }

  lemma {:induction false} AllKept(s: Bus, s': Bus)
    requires FlushesOk(s) && Grown(s.subs, s'.subs)
    requires (s'.flushes == s.flushes && (s.pending > 0 ==> s'.pending > 0)) || s'.flushes == Broadcast(s.flushes)
    ensures FlushesOk(s')
  {
    forall g | 0 <= g < |s'.flushes| ensures FlushOk(s'.flushes[g], s'.pending, s'.subs) {
      assert FlushOk(s.flushes[g], s.pending, s.subs);
      if s'.flushes == Broadcast(s.flushes) {
        WokenKept(s.flushes[g], s.pending, s'.pending, s.subs, s'.subs);
      } else {
        FlushKept(s.flushes[g], s.pending, s'.pending, s.subs, s'.subs);
      }
    }
  }

  lemma {:induction false} ReachableFlushes(queueSize: nat, steps: seq<Step>)
    requires Run(queueSize, steps).Some?
    ensures FlushesOk(Run(queueSize, steps).value)
  {
    hide FlushesOk, Enabled, Apply, Accounted, AllFifo;
    if steps != [] {
      var front, step := steps[..|steps| - 1], steps[|steps| - 1];
      ReachableFlushes(queueSize, front);
      PendingIsExact(queueSize, front);
      DeliveredInOrder(queueSize, front);
      StepFlushes(Run(queueSize, front).value, step);
    } else {
      NoFlushes(queueSize);
    }
  }

  lemma {:induction false} NoFlushes(queueSize: nat)
    ensures FlushesOk(NewBus(queueSize))
  {
  }

  lemma {:induction false} StepFlushes(s: Bus, step: Step)
    requires FlushesOk(s) && Accounted(s) && AllFifo(s) && s.pending >= 0 && Enabled(s, step)
    ensures FlushesOk(Apply(s, step))
  {
    hide FlushesOk, Enabled, Apply, Accounted, AllFifo;
    match step
    case BeginFlush => FlushCallOk(s, step);
    case ReturnNil(_) => FlushCallOk(s, step);
    case Check(f) => CheckOk(s, f);
    case CancelFlush(f) => CancelOk(s, f);
    case _ => OtherOk(s, step);
  }

  /** What a flush's own step makes of the other calls and of its own. */
  lemma {:induction false} FlushStepEffect(s: Bus, step: Step, f: nat)
    requires Enabled(s, step) && FlushStep(step) && f < |s.flushes|
    ensures |Apply(s, step).flushes| == |s.flushes| + if step.BeginFlush? then 1 else 0
    ensures var (x, x') := (s.flushes[f], Apply(s, step).flushes[f]);
      x'.goal == x.goal && x'.sawZero == if step == Check(f) && (s.pending <= 0 || x.cancelled) then s.pending == 0
        else x.sawZero
  {
    match step
    case BeginFlush => assert Apply(s, step).flushes[f] == s.flushes[f];
    case Check(g) => CheckEffect(s, g);
    case CancelFlush(g) => CancelEffect(s, g);
    case ReturnNil(g) => ReturnEffect(s, g);
  }

  lemma {:induction false} CheckEffect(s: Bus, g: nat)
    requires Enabled(s, Check(g))
    ensures var (x, fs) := (s.flushes[g], Apply(s, Check(g)).flushes);
      && |fs| == |s.flushes| && (forall f | 0 <= f < |fs| && f != g :: fs[f] == s.flushes[f])
      && fs[g].goal == x.goal && fs[g].sawZero == if s.pending <= 0 || x.cancelled then s.pending == 0 else x.sawZero
  {
  }

  lemma {:induction false} CancelEffect(s: Bus, g: nat)
    requires Enabled(s, CancelFlush(g))
    ensures var fs := Apply(s, CancelFlush(g)).flushes;
      && |fs| == |s.flushes|
      && forall f | 0 <= f < |fs| :: fs[f].goal == s.flushes[f].goal && fs[f].sawZero == s.flushes[f].sawZero
  {
  }

  lemma {:induction false} ReturnEffect(s: Bus, g: nat)
    requires Enabled(s, ReturnNil(g))
    ensures var fs := Apply(s, ReturnNil(g)).flushes;
      && |fs| == |s.flushes|
      && forall f | 0 <= f < |fs| :: fs[f].goal == s.flushes[f].goal && fs[f].sawZero == s.flushes[f].sawZero
  {
  }

  lemma {:induction false} NewFlushIsBlind(s: Bus, step: Step)
    requires Enabled(s, step) && step.BeginFlush?
    ensures |Apply(s, step).flushes| == |s.flushes| + 1 && !Apply(s, step).flushes[|s.flushes|].sawZero
  {
  }

  /** Only a check of an empty counter makes a waiter see a zero, and calls stay returned. */
  lemma {:induction false} ZeroAtCheck(s: Bus, step: Step, f: nat)
    requires Enabled(s, step) && f < |Apply(s, step).flushes| && Apply(s, step).flushes[f].sawZero
    ensures f < |s.flushes| && (s.flushes[f].sawZero || (step == Check(f) && s.pending == 0))
  {
    if !FlushStep(step) {
      OthersOnlyWake(s, step);
    } else {
      if step.BeginFlush? { NewFlushIsBlind(s, step); }
      FlushStepSize(s, step);
      if f < |s.flushes| { FlushStepEffect(s, step, f); }
    }
  }

  lemma {:induction false} FlushStepSize(s: Bus, step: Step)
    requires Enabled(s, step) && FlushStep(step)
    ensures |Apply(s, step).flushes| == |s.flushes| + if step.BeginFlush? then 1 else 0
  {
  }

  /** A waiter that saw a zero saw it in a state of the run in which the call was under way. */
  lemma {:induction false} ZeroWasSeen(queueSize: nat, steps: seq<Step>, f: nat) returns (k: nat)
    requires Run(queueSize, steps).Some? && f < |Run(queueSize, steps).value.flushes|
    requires Run(queueSize, steps).value.flushes[f].sawZero
    ensures k < |steps| && Run(queueSize, steps[..k]).Some?
    ensures var s := Run(queueSize, steps[..k]).value;
      f < |s.flushes| && s.flushes[f].waiter == Checking && s.pending == 0
  {
    var front, step := steps[..|steps| - 1], steps[|steps| - 1];
    var s := Run(queueSize, front).value;
    ZeroAtCheck(s, step, f);
    if s.flushes[f].sawZero {
      k := ZeroWasSeen(queueSize, front, f);
      assert front[..k] == steps[..k];
    } else {
      k := |steps| - 1;
    }
  }

  predicate SameGoals(fs: seq<Flush>, gs: seq<Flush>) {
    |fs| <= |gs| && forall f | 0 <= f < |fs| :: gs[f].goal == fs[f].goal
  }

  lemma {:induction false} StepKeepsGoals(s: Bus, step: Step)
    requires Enabled(s, step)
    ensures SameGoals(s.flushes, Apply(s, step).flushes)
  {
    if !FlushStep(step) {
      OthersOnlyWake(s, step);
    } else {
      FlushStepSize(s, step);
      forall f | 0 <= f < |s.flushes| ensures Apply(s, step).flushes[f].goal == s.flushes[f].goal {
        FlushStepEffect(s, step, f);
      }
    }
  }

  lemma {:induction false} RunGrows(queueSize: nat, steps: seq<Step>, k: nat)
    requires k <= |steps| && Run(queueSize, steps).Some?
    ensures Run(queueSize, steps[..k]).Some?
    ensures Grown(Run(queueSize, steps[..k]).value.subs, Run(queueSize, steps).value.subs)
    ensures SameGoals(Run(queueSize, steps[..k]).value.flushes, Run(queueSize, steps).value.flushes)
    decreases |steps|
  {
    if k == |steps| {
      assert steps[..k] == steps;
    } else {
      var front, step := steps[..|steps| - 1], steps[|steps| - 1];
      RunGrows(queueSize, front, k);
      assert front[..k] == steps[..k];
      var s := Run(queueSize, front).value;
      StepGrows(s, step);
      StepKeepsGoals(s, step);
      GrownTwice(Run(queueSize, front[..k]).value.subs, s.subs, Apply(s, step).subs);
    }
  }

  lemma {:induction false} GrownTwice(xs: seq<Subscriber>, ys: seq<Subscriber>, zs: seq<Subscriber>)
    requires Grown(xs, ys) && Grown(ys, zs)
    ensures Grown(xs, zs)
  {
    forall w | 0 <= w < |xs| ensures xs[w].accepted <= zs[w].accepted && xs[w].done <= zs[w].done {
      assert xs[w].accepted <= ys[w].accepted <= zs[w].accepted;
      assert xs[w].done <= ys[w].done <= zs[w].done;
    }
  }

  /** A flush that began at step k and returned nil: everything accepted before it has been
      handled or drained, in order, and the counter was zero at some moment of the call. */
  lemma {:induction false} FlushWaits(queueSize: nat, steps: seq<Step>, k: nat, f: nat) returns (zero: nat)
    requires k < |steps| && steps[k] == BeginFlush && Run(queueSize, steps).Some?
    requires Run(queueSize, steps[..k]).Some? && f == |Run(queueSize, steps[..k]).value.flushes|
    requires f < |Run(queueSize, steps).value.flushes| && Run(queueSize, steps).value.flushes[f].result == Some(true)
    ensures var (before, now) := (Run(queueSize, steps[..k]).value, Run(queueSize, steps).value);
      |before.subs| <= |now.subs| && forall w | 0 <= w < |before.subs| ::
        before.subs[w].accepted <= Events(now.subs[w].done)
    ensures k < zero < |steps| && Run(queueSize, steps[..zero]).Some? &&
      Run(queueSize, steps[..zero]).value.pending == 0
  {
    var (before, now) := (Run(queueSize, steps[..k]).value, Run(queueSize, steps).value);
    ReachableFlushes(queueSize, steps);
    assert FlushOk(now.flushes[f], now.pending, now.subs);
    DeliveredInOrder(queueSize, steps);
    RunGrows(queueSize, steps, k);
    RunGrows(queueSize, steps, k + 1);
    assert steps[..k + 1][..k] == steps[..k];
    assert Run(queueSize, steps[..k + 1]).value.flushes[f].goal == Goal(before.subs);
    forall w | 0 <= w < |before.subs| ensures before.subs[w].accepted <= Events(now.subs[w].done) {
      assert Fifo(now.subs[w], now.queueSize);
      assert Goal(before.subs)[w] <= |now.subs[w].done|;
    }
    zero := ZeroWasSeen(queueSize, steps, f);
    if zero <= k {
      assert steps[..k][..zero] == steps[..zero];
      RunGrows(queueSize, steps[..k], zero);
    }
  }

  /** No wakeup is lost: once the counter is zero, a call that has not returned can return
      nil, after one more check by its waiter if that has not left yet. */
  lemma {:induction false} FlushCanReturn(queueSize: nat, steps: seq<Step>, f: nat)
    requires Run(queueSize, steps).Some? && f < |Run(queueSize, steps).value.flushes|
    requires Run(queueSize, steps).value.pending == 0 && Run(queueSize, steps).value.flushes[f].result.None?
    ensures var s := Run(queueSize, steps).value;
      Enabled(s, ReturnNil(f)) || (Enabled(s, Check(f)) && Enabled(Apply(s, Check(f)), ReturnNil(f)))
  {
    ReachableFlushes(queueSize, steps);
    assert FlushOk(Run(queueSize, steps).value.flushes[f], Run(queueSize, steps).value.pending,
      Run(queueSize, steps).value.subs);
  }
}
