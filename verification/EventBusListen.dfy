/** What a call of Listen promises: when it can return, and what its workers have done by
    then, whatever publishers, flushes and a shutdown do meanwhile. */
module EventBusListen {
  import opened Llm
  import opened EventBus
  import opened EventBusProofs

  lemma {:induction false} RunSnoc(queueSize: nat, steps: seq<Step>, step: Step)
    requires Run(queueSize, steps).Some? && Enabled(Run(queueSize, steps).value, step)
    ensures Run(queueSize, steps + [step]) == Some(Apply(Run(queueSize, steps).value, step))
  {
    assert (steps + [step])[..|steps|] == steps;
  }

  // ---------------------------------------------------------------- what is done at return

  /** How many events a subscriber had accepted when its worker was last running. */
  function LastRan(queueSize: nat, steps: seq<Step>, w: nat): nat
    requires Run(queueSize, steps).Some?
  {
    if steps == [] then 0
    else
      var s := Run(queueSize, steps).value;
      if w < |s.subs| && s.subs[w].worker != Stopped then |s.subs[w].accepted|
      else LastRan(queueSize, steps[..|steps| - 1], w)
  }

  lemma {:induction false} WorkerStoppedStep(s: Bus, step: Step)
    requires Enabled(s, step) && WorkerStep(step) && Apply(s, step).subs[step.w].worker == Stopped
    ensures step.DrainEnds? && s.subs[step.w].worker == Draining && s.subs[step.w].queue == []
    ensures Apply(s, step).subs[step.w].done == s.subs[step.w].done
  {
  }

  lemma {:induction false} EnqueueKeepsDone(s: Bus, step: Step)
    requires Enabled(s, step) && EnqueueStep(step)
    ensures var w := s.pubs[step.p].targets[0];
      && Apply(s, step).subs[w].done == s.subs[w].done
      && Apply(s, step).subs[w].worker in {s.subs[w].worker, Handling(s.pubs[step.p].event)}
  {
  }

  lemma {:induction false} ListenStarts(s: Bus)
    requires Enabled(s, Listen)
    ensures |Apply(s, Listen).subs| == |s.subs|
    ensures forall w | 0 <= w < |s.subs| :: Apply(s, Listen).subs[w].worker == Idle
  {
  }

  lemma {:induction false} SubscribeAdds(s: Bus, step: Step)
    requires Enabled(s, step) && step.Subscribe?
    ensures |Apply(s, step).subs| == |s.subs| + 1 && Apply(s, step).subs[..|s.subs|] == s.subs
    ensures Apply(s, step).subs[|s.subs|].done == [] && Apply(s, step).subs[|s.subs|].accepted == []
  {
  }

  /** A worker stops with an empty queue; without it, only the queue changes. */
  lemma {:induction false} StoppedStep(s: Bus, step: Step, w: nat)
    requires Enabled(s, step) && w < |s.subs| && w < |Apply(s, step).subs| && Apply(s, step).subs[w].worker == Stopped
    ensures Apply(s, step).subs[w].done == s.subs[w].done
    ensures s.subs[w].worker != Stopped ==> s.subs[w].worker == Draining && s.subs[w].queue == []
  {
    hide Apply, Enabled;
    if WorkerStep(step) {
      WorkerTouchesOne(s, step);
      if step.w == w { WorkerStoppedStep(s, step); }
    } else if EnqueueStep(step) {
      EnqueueTouchesOne(s, step);
      EnqueueKeepsDone(s, step);
    } else if step.Subscribe? {
      SubscribeAdds(s, step);
      assert Apply(s, step).subs[w] == Apply(s, step).subs[..|s.subs|][w];
    } else if step.Listen? {
      ListenStarts(s);
    } else {
      OthersTouchNone(s, step);
    }
  }

  lemma {:induction false} NewSubscriber(s: Bus, step: Step, w: nat)
    requires Enabled(s, step) && |s.subs| <= w < |Apply(s, step).subs|
    ensures Apply(s, step).subs[w].done == [] && Apply(s, step).subs[w].accepted == []
  {
    hide Apply, Enabled;
    if WorkerStep(step) { WorkerTouchesOne(s, step); }
    else if EnqueueStep(step) { EnqueueTouchesOne(s, step); }
    else if step.Subscribe? { SubscribeAdds(s, step); }
    else if step.Listen? { ListenStarts(s); }
    else { OthersTouchNone(s, step); }
  }

  lemma {:induction false} NotSubscribed(queueSize: nat, steps: seq<Step>, w: nat)
    requires Run(queueSize, steps).Some? && |Run(queueSize, steps).value.subs| <= w
    ensures LastRan(queueSize, steps, w) == 0
  {
    if steps != [] {
      StepGrows(Run(queueSize, steps[..|steps| - 1]).value, steps[|steps| - 1]);
      NotSubscribed(queueSize, steps[..|steps| - 1], w);
    }
  }

  /** What was accepted while the worker ran is done when it stops, and nothing else is. */
  lemma {:induction false} StoppedIsDrained(queueSize: nat, steps: seq<Step>, w: nat)
    requires Run(queueSize, steps).Some? && w < |Run(queueSize, steps).value.subs|
    requires Run(queueSize, steps).value.subs[w].worker == Stopped
    ensures |Run(queueSize, steps).value.subs[w].done| == LastRan(queueSize, steps, w)
  {
    var front, step := steps[..|steps| - 1], steps[|steps| - 1];
    var before := Run(queueSize, front).value;
    if w < |before.subs| {
      StoppedStep(before, step, w);
      if before.subs[w].worker == Stopped {
        StoppedIsDrained(queueSize, front, w);
      } else {
        DeliveredInOrder(queueSize, front);
        assert Fifo(before.subs[w], before.queueSize);
        WasRunning(queueSize, front, w);
      }
    } else {
      NewSubscriber(before, step, w);
      NotSubscribed(queueSize, front, w);
    }
  }

  lemma {:induction false} WasRunning(queueSize: nat, steps: seq<Step>, w: nat)
    requires Run(queueSize, steps).Some? && w < |Run(queueSize, steps).value.subs|
    requires Run(queueSize, steps).value.subs[w].worker != Stopped
    ensures LastRan(queueSize, steps, w) == |Run(queueSize, steps).value.subs[w].accepted|
  {
  }

  /** At step t the worker of w was running, and w had accepted more than i events. */
  predicate RanAt(queueSize: nat, steps: seq<Step>, t: nat, w: nat, i: nat) {
    && t <= |steps| && Run(queueSize, steps[..t]).Some?
    && var s := Run(queueSize, steps[..t]).value;
      w < |s.subs| && s.subs[w].worker != Stopped && i < |s.subs[w].accepted|
  }

  lemma {:induction false} LastRanWasRun(queueSize: nat, steps: seq<Step>, w: nat, i: nat) returns (t: nat)
    requires Run(queueSize, steps).Some? && i < LastRan(queueSize, steps, w)
    ensures RanAt(queueSize, steps, t, w, i)
  {
    var s := Run(queueSize, steps).value;
    if w < |s.subs| && s.subs[w].worker != Stopped {
      t := |steps|;
      assert steps[..t] == steps;
    } else {
      var front := steps[..|steps| - 1];
      t := LastRanWasRun(queueSize, front, w, i);
      assert front[..t] == steps[..t];
    }
  }

  lemma {:induction false} LastRanIsLast(queueSize: nat, steps: seq<Step>, t: nat, w: nat, i: nat)
    requires Run(queueSize, steps).Some? && RanAt(queueSize, steps, t, w, i)
    ensures i < LastRan(queueSize, steps, w)
    decreases |steps|
  {
    RunGrows(queueSize, steps, t);
    if t == |steps| {
      assert steps[..t] == steps;
      WasRunning(queueSize, steps, w);
    } else if Run(queueSize, steps).value.subs[w].worker != Stopped {
      WasRunning(queueSize, steps, w);
    } else {
      var front := steps[..|steps| - 1];
      assert front[..t] == steps[..t];
      LastRanIsLast(queueSize, front, t, w, i);
    }
  }

  /** Event i of w was accepted before its worker stopped for the last time. */
  ghost predicate SeenRunning(queueSize: nat, steps: seq<Step>, w: nat, i: nat) {
    exists t: nat :: RanAt(queueSize, steps, t, w, i)
  }

  lemma {:induction false} SeenExactly(queueSize: nat, steps: seq<Step>, w: nat, i: nat)
    requires Run(queueSize, steps).Some?
    ensures SeenRunning(queueSize, steps, w, i) <==> i < LastRan(queueSize, steps, w)
  {
    hide LastRan, RanAt, Run;
    if i < LastRan(queueSize, steps, w) { var t := LastRanWasRun(queueSize, steps, w, i); }
    if t: nat :| RanAt(queueSize, steps, t, w, i) { LastRanIsLast(queueSize, steps, t, w, i); }
  }

  /** When Listen returns, every worker has stopped and holds no event, and an accepted event
      is done exactly when it was accepted before its worker stopped; those accepted later
      wait in the queue, in order. */
  lemma {:induction false} ReturnedIsDrained(queueSize: nat, steps: seq<Step>, w: nat)
    requires Run(queueSize, steps).Some? && Enabled(Run(queueSize, steps).value, ReturnListen)
    requires w < |Run(queueSize, steps).value.subs|
    ensures var x := Run(queueSize, steps).value.subs[w];
      && x.worker == Stopped
      && x.accepted == Events(x.done) + x.queue
      && forall i: nat :: SeenRunning(queueSize, steps, w, i) <==> i < |x.done|
  {
    hide LastRan, SeenRunning, Run;
    var s := Run(queueSize, steps).value;
    DeliveredInOrder(queueSize, steps);
    assert Fifo(s.subs[w], s.queueSize);
    StoppedIsDrained(queueSize, steps, w);
    forall i: nat ensures SeenRunning(queueSize, steps, w, i) <==> i < |s.subs[w].done| {
      SeenExactly(queueSize, steps, w, i);
    }
  }

  // ---------------------------------------------------------------- while it listens

  /** The rest of the bus, which a worker that winds down leaves alone. */
  predicate OnlyWorker(s: Bus, s': Bus, w: nat) {
    && s'.running == s.running && s'.waiting == s.waiting && s'.listenEnded == s.listenEnded && s'.ended == s.ended
    && |s'.subs| == |s.subs| && forall v | 0 <= v < |s.subs| && v != w :: s'.subs[v] == s.subs[v]
  }

  lemma {:induction false} WorkerKeepsRest(s: Bus, step: Step)
    requires Enabled(s, step) && WorkerStep(step)
    ensures OnlyWorker(s, Apply(s, step), step.w)
  {
    WorkerTouchesOne(s, step);
  }

  predicate Serving(x: Subscriber) { x.worker == Idle || x.worker.Handling? || x.worker == Returned }

  /** While a Listen is under way and neither its context nor the bus has ended, everyone is
      served, whoever subscribes meanwhile. */
  predicate Served(s: Bus) {
    s.running && !s.listenEnded && !s.ended ==> forall w | 0 <= w < |s.subs| :: Serving(s.subs[w])
  }

  lemma {:induction false} WorkerServes(s: Bus, step: Step)
    requires Enabled(s, step) && WorkerStep(step) && Serving(s.subs[step.w]) && !s.listenEnded && !s.ended
    ensures Serving(Apply(s, step).subs[step.w])
  {
  }

  lemma {:induction false} StepServes(s: Bus, step: Step)
    requires Served(s) && Enabled(s, step)
    ensures Served(Apply(s, step))
  {
    hide Serving;
    if WorkerStep(step) {
      WorkerKeepsRest(s, step);
      WorkerTouchesOne(s, step);
      if s.running && !s.listenEnded && !s.ended { WorkerServes(s, step); }
    } else if EnqueueStep(step) {
      EnqueueServes(s, step);
    } else {
      RestServes(s, step);
    }
  }

  lemma {:induction false} EnqueueServes(s: Bus, step: Step)
    requires Served(s) && Enabled(s, step) && EnqueueStep(step)
    ensures Served(Apply(s, step))
  {
    EnqueueTouchesOne(s, step);
    EnqueueKeepsDone(s, step);
  }

  lemma {:induction false} RestServes(s: Bus, step: Step)
    requires Served(s) && Enabled(s, step) && !WorkerStep(step) && !EnqueueStep(step)
    ensures Served(Apply(s, step))
  {
    if !step.Subscribe? && !step.Listen? { OthersTouchNone(s, step); }
  }

  lemma {:induction false} EveryoneIsServed(queueSize: nat, steps: seq<Step>)
    requires Run(queueSize, steps).Some?
    ensures Served(Run(queueSize, steps).value)
  {
    hide Served, Enabled, Apply;
    if steps == [] {
      NobodyYet(queueSize);
    } else {
      EveryoneIsServed(queueSize, steps[..|steps| - 1]);
      StepServes(Run(queueSize, steps[..|steps| - 1]).value, steps[|steps| - 1]);
    }
  }

  lemma {:induction false} NobodyYet(queueSize: nat)
    ensures Served(NewBus(queueSize))
  {
  }

  // ---------------------------------------------------------------- whether it can return

  /** No call of Listen is under way. */
  predicate NobodyListens(s: Bus) { !s.running && s.waiting == 0 }

  /** Some continuation, in which no listen context ends, brings every Listen to its return. */
  ghost predicate CanReturn(queueSize: nat, steps: seq<Step>) {
    exists more :: ReturnsBy(queueSize, steps, more)
  }

  predicate ReturnsBy(queueSize: nat, steps: seq<Step>, more: seq<Step>) {
    EndListenContext !in more && Run(queueSize, steps + more).Some? && NobodyListens(Run(queueSize, steps + more).value)
  }

  lemma {:induction false} StepStaysBlocked(s: Bus, step: Step)
    requires Enabled(s, step) && s.running && !s.listenEnded && step != EndListenContext
    ensures Apply(s, step).running && !Apply(s, step).listenEnded
  {
  }

  /** While its context lives, nothing ends a Listen: not a shutdown, not stopped workers. */
  lemma {:induction false} StaysBlocked(queueSize: nat, steps: seq<Step>, more: seq<Step>)
    requires Run(queueSize, steps + more).Some? && Run(queueSize, steps).Some? && EndListenContext !in more
    requires Run(queueSize, steps).value.running && !Run(queueSize, steps).value.listenEnded
    ensures Run(queueSize, steps + more).value.running && !Run(queueSize, steps + more).value.listenEnded
    decreases |more|
  {
    if more == [] {
      assert steps + more == steps;
    } else {
      var front := more[..|more| - 1];
      assert (steps + more)[..|steps + more| - 1] == steps + front;
      StaysBlocked(queueSize, steps, front);
      StepStaysBlocked(Run(queueSize, steps + front).value, more[|more| - 1]);
    }
  }

  /** The steps a worker still takes until it stops, once its contexts have ended. */
  function Work(x: Subscriber): nat {
    match x.worker
    case Stopped => 0
    case Draining => 2 * |x.queue| + 1
    case Dropping => 2 * |x.queue| + 2
    case Idle => 2 * |x.queue| + 2
    case Returned => 2 * |x.queue| + 3
    case Handling(_) => 2 * |x.queue| + 4
  }

  function WindDown(x: Subscriber, w: nat): Step
    requires x.worker != Stopped
  {
    match x.worker
    case Handling(_) => HandlerReturns(w)
    case Returned => Release(w)
    case Dropping => Release(w)
    case Idle => StopReceiving(w)
    case Draining => if x.queue == [] then DrainEnds(w) else DrainOne(w)
  }

  lemma {:induction false} WindDownStep(s: Bus, w: nat)
    requires w < |s.subs| && s.subs[w].worker != Stopped && (s.listenEnded || s.ended)
    ensures var step := WindDown(s.subs[w], w);
      && WorkerStep(step) && step.w == w && Enabled(s, step)
      && Work(Apply(s, step).subs[w]) == Work(s.subs[w]) - 1
  {
    var x := s.subs[w];
    if x.worker.Handling? { assert WindDown(x, w) == HandlerReturns(w); }
    else if x.worker == Idle { assert WindDown(x, w) == StopReceiving(w); }
    else if x.worker != Draining { assert WindDown(x, w) == Release(w); }
  }

  /** Once a context has ended, a worker stops after its work, in exactly that many steps of
      its own. */
  lemma {:induction false} WorkerStops(queueSize: nat, steps: seq<Step>, w: nat) returns (more: seq<Step>)
    requires Run(queueSize, steps).Some? && w < |Run(queueSize, steps).value.subs|
    requires Run(queueSize, steps).value.listenEnded || Run(queueSize, steps).value.ended
    ensures EndListenContext !in more && |more| == Work(Run(queueSize, steps).value.subs[w])
    ensures Run(queueSize, steps + more).Some?
    ensures var (s, s') := (Run(queueSize, steps).value, Run(queueSize, steps + more).value);
      OnlyWorker(s, s', w) && s'.subs[w].worker == Stopped
    decreases Work(Run(queueSize, steps).value.subs[w])
  {
    hide Run, Enabled, Apply;
    var s := Run(queueSize, steps).value;
    if s.subs[w].worker == Stopped {
      more := [];
      assert steps + more == steps;
    } else {
      var step := WindDown(s.subs[w], w);
      WindDownStep(s, w);
      WorkerKeepsRest(s, step);
      RunSnoc(queueSize, steps, step);
      var rest := WorkerStops(queueSize, steps + [step], w);
      more := [step] + rest;
      assert steps + more == steps + [step] + rest;
    }
  }

  /** The listeners and contexts of both states are the same. */
  predicate SameListeners(s: Bus, s': Bus) {
    s'.running == s.running && s'.waiting == s.waiting && s'.listenEnded == s.listenEnded && s'.ended == s.ended
  }

  lemma {:induction false} WorkersStop(queueSize: nat, steps: seq<Step>, n: nat) returns (more: seq<Step>)
    requires Run(queueSize, steps).Some? && n <= |Run(queueSize, steps).value.subs|
    requires Run(queueSize, steps).value.listenEnded || Run(queueSize, steps).value.ended
    ensures EndListenContext !in more && Run(queueSize, steps + more).Some?
    ensures var (s, s') := (Run(queueSize, steps).value, Run(queueSize, steps + more).value);
      SameListeners(s, s') && |s'.subs| == |s.subs| && AllStopped(s'.subs[..n])
    decreases n
  {
    hide Run, Work;
    if n == 0 {
      more := [];
      assert steps + more == steps;
    } else {
      var front := WorkersStop(queueSize, steps, n - 1);
      var last := WorkerStops(queueSize, steps + front, n - 1);
      more := front + last;
      assert steps + more == steps + front + last;
      var (a, b) := (Run(queueSize, steps + front).value, Run(queueSize, steps + more).value);
      forall v | 0 <= v < n ensures b.subs[..n][v].worker == Stopped {
        if v < n - 1 { assert a.subs[..n - 1][v].worker == Stopped; }
      }
    }
  }

  lemma {:induction false} WaitersReturn(queueSize: nat, steps: seq<Step>) returns (more: seq<Step>)
    requires Run(queueSize, steps).Some? && AllStopped(Run(queueSize, steps).value.subs)
    requires !Run(queueSize, steps).value.running
    ensures ReturnsBy(queueSize, steps, more)
    decreases Run(queueSize, steps).value.waiting
  {
    var s := Run(queueSize, steps).value;
    if s.waiting == 0 {
      more := [];
      assert steps + more == steps;
    } else {
      RunSnoc(queueSize, steps, ReturnListen);
      var rest := WaitersReturn(queueSize, steps + [ReturnListen]);
      more := [ReturnListen] + rest;
      assert steps + more == steps + [ReturnListen] + rest;
    }
  }

  lemma {:induction false} EndedReturns(queueSize: nat, steps: seq<Step>) returns (more: seq<Step>)
    requires Run(queueSize, steps).Some? && Run(queueSize, steps).value.listenEnded
    ensures ReturnsBy(queueSize, steps, more)
  {
    hide Run, ReturnsBy;
    var s := Run(queueSize, steps).value;
    var stops := WorkersStop(queueSize, steps, |s.subs|);
    var stopped := steps + stops;
    var s' := Run(queueSize, stopped).value;
    assert s'.subs[..|s.subs|] == s'.subs;
    more := stops;
    if s'.running {
      RunSnoc(queueSize, stopped, LeaveListen);
      more := more + [LeaveListen];
    }
    assert steps + stops + [LeaveListen] == steps + (stops + [LeaveListen]);
    var rest := WaitersReturn(queueSize, steps + more);
    Joined(queueSize, steps, more, rest);
    more := more + rest;
  }

  lemma {:induction false} Joined(queueSize: nat, steps: seq<Step>, more: seq<Step>, rest: seq<Step>)
    requires EndListenContext !in more && ReturnsBy(queueSize, steps + more, rest)
    ensures ReturnsBy(queueSize, steps, more + rest)
  {
    assert steps + (more + rest) == steps + more + rest;
  }

  /** A Listen under way can return exactly when its own context has ended: then the workers
      can always wind down, whatever they hold; before, no further steps bring it back. */
  lemma {:induction false} ListenReturnsExactly(queueSize: nat, steps: seq<Step>)
    requires Run(queueSize, steps).Some? && Run(queueSize, steps).value.running
    ensures CanReturn(queueSize, steps) <==> Run(queueSize, steps).value.listenEnded
  {
    if Run(queueSize, steps).value.listenEnded {
      var more := EndedReturns(queueSize, steps);
    } else if more :| ReturnsBy(queueSize, steps, more) {
      StaysBlocked(queueSize, steps, more);
    }
  }

  const IDLE: Subscriber := Subscriber(None, [], Idle, [], [])

  lemma UpToListen(queueSize: nat) returns (steps: seq<Step>)
    ensures Run(queueSize, steps) == Some(NewBus(queueSize).(running := true, subs := [IDLE]))
    ensures steps == [Subscribe(None), Listen]
  {
    RunSnoc(queueSize, [], Subscribe(None));
    steps := [] + [Subscribe(None)];
    RunSnoc(queueSize, steps, Listen);
    steps := steps + [Listen];
    assert Run(queueSize, steps).value.subs == [IDLE];
  }

  function ShutDown(queueSize: nat): Bus {
    NewBus(queueSize).(running := true, closed := true, ended := true, subs := [IDLE])
  }

  lemma UpToShutdown(queueSize: nat) returns (steps: seq<Step>)
    ensures Run(queueSize, steps) == Some(ShutDown(queueSize)) &&
      steps == [Subscribe(None), Listen, Close, EndBusContext]
  {
    hide Run;
    steps := UpToListen(queueSize);
    RunSnoc(queueSize, steps, Close);
    steps := steps + [Close];
    RunSnoc(queueSize, steps, EndBusContext);
    steps := steps + [EndBusContext];
  }

  /** A run in which the bus is shut down and every worker has stopped, and nothing but the
      end of its context lets Listen return. */
  lemma ShutdownLeavesListen(queueSize: nat) returns (steps: seq<Step>)
    ensures Run(queueSize, steps).Some? && Close in steps && EndBusContext in steps
    ensures var s := Run(queueSize, steps).value;
      && s.running && |s.subs| == 1 && s.subs[0].worker == Stopped
    ensures !CanReturn(queueSize, steps)
  {
    hide Run;
    steps := UpToShutdown(queueSize);
    assert steps[2] == Close && steps[3] == EndBusContext;
    RunSnoc(queueSize, steps, StopReceiving(0));
    steps := steps + [StopReceiving(0)];
    assert Run(queueSize, steps).value.subs == [IDLE.(worker := Draining)];
    RunSnoc(queueSize, steps, DrainEnds(0));
    steps := steps + [DrainEnds(0)];
    assert steps[2] == Close && steps[3] == EndBusContext;
    ListenReturnsExactly(queueSize, steps);
  }

  const STOPPED: Subscriber := Subscriber(None, [], EventBus.Stopped, [], [])

  lemma UpToReturn(queueSize: nat) returns (steps: seq<Step>)
    ensures Run(queueSize, steps) == Some(NewBus(queueSize).(listenEnded := true, waiting := 1, subs := [STOPPED]))
  {
    hide Run;
    steps := UpToListen(queueSize);
    RunSnoc(queueSize, steps, EndListenContext);
    steps := steps + [EndListenContext];
    RunSnoc(queueSize, steps, LeaveListen);
    steps := steps + [LeaveListen];
    RunSnoc(queueSize, steps, StopReceiving(0));
    steps := steps + [StopReceiving(0)];
    assert Run(queueSize, steps).value.subs == [IDLE.(worker := Draining)];
    RunSnoc(queueSize, steps, DrainEnds(0));
    steps := steps + [DrainEnds(0)];
    assert Run(queueSize, steps).value.subs == [STOPPED];
  }

  /** A run in which an event is still queued, and pending, when Listen returns: it was
      published after the worker had stopped. */
  lemma ReturnCanLeaveQueued(queueSize: nat, event: Event) returns (steps: seq<Step>)
    requires queueSize > 0
    ensures Run(queueSize, steps).Some? && Enabled(Run(queueSize, steps).value, ReturnListen)
    ensures var s := Run(queueSize, steps).value; s.pending == 1 && |s.subs| == 1 && s.subs[0].queue == [event]
  {
    hide Run;
    steps := UpToReturn(queueSize);
    RunSnoc(queueSize, steps, BeginPublish(event));
    steps := steps + [BeginPublish(event)];
    OneTarget(STOPPED, event.topic);
    RunSnoc(queueSize, steps, Count(0));
    steps := steps + [Count(0)];
    RunSnoc(queueSize, steps, Enqueue(0));
    steps := steps + [Enqueue(0)];
  }

  lemma OneTarget(x: Subscriber, topic: string)
    requires x.topic == None
    ensures Targets([x], topic) == [0]
  {
    assert [x][..0] == [];
    assert Matching([x], Some(topic)) == [] && Matching([x], None) == [0];
  }
}
