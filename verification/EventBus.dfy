/** The asynchronous event bus as a state machine: publishers, one bounded queue and one
    worker for each subscriber, listeners, shutdown and flushes, one step at a time. */
module EventBus {
  import opened Llm

  datatype Event = Event(topic: string, body: nat)

  /** What became of an accepted event: handled (also by a handler that failed or panicked),
      or drained unhandled while the worker stopped. */
  datatype Fate = Handled(event: Event) | Drained(event: Event)

  /** A worker between its receives. Returned and Dropping are past the event, before the
      counter is told. */
  datatype Worker = Stopped | Idle | Handling(event: Event) | Returned | Draining | Dropping

  /** `topic` is None for a global subscriber. `accepted` and `done` record the events that
      entered the queue and their fates. */
  datatype Subscriber = Subscriber(
    topic: Option<string>, queue: seq<Event>, worker: Worker, accepted: seq<Event>, done: seq<Fate>)

  /** A publisher before it counts its next event, after it has, or about to take that back
      because the context ended or because the queue was full. */
  datatype Stage = Ready | Counted | Undoing(ctxEnded: bool)
  datatype Publisher = Publisher(event: Event, targets: seq<nat>, stage: Stage)

  datatype Waiter = Checking | Sleeping | Gone

  /** A call of Flush and its waiter. `sawZero`: the waiter left because the counter was zero;
      `goal`: how many events each subscriber had accepted when the call began. `result` is
      None until the call returns, then whether it returned nil. */
  datatype Flush = Flush(waiter: Waiter, cancelled: bool, sawZero: bool, goal: seq<nat>, result: Option<bool>)

  /** `running` holds from the start of a Listen until it notices that its context has ended;
      `waiting` counts the calls of Listen that have noticed and wait for the workers. */
  datatype Bus = Bus(
    queueSize: nat,
    closed: bool,
    ended: bool,
    running: bool,
    listenEnded: bool,
    waiting: nat,
    pending: int,
    subs: seq<Subscriber>,
    pubs: seq<Publisher>,
    flushes: seq<Flush>)

  function NewBus(queueSize: nat): Bus { Bus(queueSize, false, false, false, false, 0, 0, [], [], []) }

  datatype Step =
    | Subscribe(topic: Option<string>)
    | Listen
    | EndListenContext
    | LeaveListen
    | ReturnListen
    | Close
    | EndBusContext
    | BeginPublish(event: Event)
    | Count(p: nat)
    | Enqueue(p: nat)
    | HandOver(p: nat)
    | Abort(p: nat)
    | Shed(p: nat)
    | Undo(p: nat)
    | Take(w: nat)
    | HandlerReturns(w: nat)
    | Release(w: nat)
    | StopReceiving(w: nat)
    | DrainOne(w: nat)
    | DrainEnds(w: nat)
    | BeginFlush
    | Check(f: nat)
    | CancelFlush(f: nat)
    | ReturnNil(f: nat)

  // ---------------------------------------------------------------- helpers

  /** The subscribers registered for exactly this topic, in order. */
  function Matching(subs: seq<Subscriber>, topic: Option<string>): (targets: seq<nat>)
    ensures forall t | t in targets :: t < |subs|
  {
    if subs == [] then []
    else
      var n := |subs| - 1;
      Matching(subs[..n], topic) + if subs[n].topic == topic then [n] else []
  }

  /** The snapshot of a publish: the topic's subscribers, then the global ones. */
  function Targets(subs: seq<Subscriber>, topic: string): seq<nat> {
    Matching(subs, Some(topic)) + Matching(subs, None)
  }

  function Goal(subs: seq<Subscriber>): seq<nat> { seq(|subs|, i requires 0 <= i < |subs| => |subs[i].accepted|) }

  function Woken(f: Flush): Flush { if f.waiter == Sleeping then f.(waiter := Checking) else f }

  function Broadcast(fs: seq<Flush>): seq<Flush> { seq(|fs|, i requires 0 <= i < |fs| => Woken(fs[i])) }

  /** decPending: the last one wakes every waiter. */
  function Decremented(s: Bus): Bus {
    s.(pending := s.pending - 1, flushes := if s.pending == 1 then Broadcast(s.flushes) else s.flushes)
  }

  function WithPub(s: Bus, p: nat, x: Publisher): Bus
    requires p < |s.pubs|
  {
    s.(pubs := s.pubs[p := x])
  }

  function WithSub(s: Bus, w: nat, x: Subscriber): Bus
    requires w < |s.subs|
  {
    s.(subs := s.subs[w := x])
  }

  function WithFlush(s: Bus, f: nat, x: Flush): Bus
    requires f < |s.flushes|
  {
    s.(flushes := s.flushes[f := x])
  }

  predicate PubAt(s: Bus, p: nat, stage: Stage) {
    p < |s.pubs| && s.pubs[p].stage == stage && s.pubs[p].targets != [] && s.pubs[p].targets[0] < |s.subs|
  }

  function Target(s: Bus, p: nat): Subscriber
    requires p < |s.pubs| && s.pubs[p].targets != [] && s.pubs[p].targets[0] < |s.subs|
  {
    s.subs[s.pubs[p].targets[0]]
  }

  function NextTarget(p: Publisher): Publisher
    requires p.targets != []
  {
    p.(targets := p.targets[1..], stage := Ready)
  }

  predicate AllStopped(subs: seq<Subscriber>) { forall w | 0 <= w < |subs| :: subs[w].worker == Stopped }

  function WorkerStarted(x: Subscriber): Subscriber { x.(worker := Idle) }

  // ---------------------------------------------------------------- the steps

  predicate Enabled(s: Bus, step: Step) {
    match step
    case Subscribe(_) => !s.closed
    case Listen => !s.closed && !s.running && AllStopped(s.subs)
    case EndListenContext => s.running
    case LeaveListen => s.running && s.listenEnded
    case ReturnListen => s.waiting > 0 && AllStopped(s.subs)
    case Close => !s.closed
    case EndBusContext => true
    case BeginPublish(_) => !s.closed
    case Count(p) => PubAt(s, p, Ready)
    case Enqueue(p) => PubAt(s, p, Counted) && |Target(s, p).queue| < s.queueSize
    case HandOver(p) => PubAt(s, p, Counted) && Target(s, p).queue == [] && Target(s, p).worker == Idle
    case Abort(p) => PubAt(s, p, Counted)
    case Shed(p) => PubAt(s, p, Counted) && |Target(s, p).queue| >= s.queueSize
    case Undo(p) => p < |s.pubs| && s.pubs[p].stage.Undoing? && s.pubs[p].targets != []
    case Take(w) => w < |s.subs| && s.subs[w].worker == Idle && s.subs[w].queue != []
    case HandlerReturns(w) => w < |s.subs| && s.subs[w].worker.Handling?
    case Release(w) => w < |s.subs| && (s.subs[w].worker == Returned || s.subs[w].worker == Dropping)
    case StopReceiving(w) => w < |s.subs| && s.subs[w].worker == Idle && (s.listenEnded || s.ended)
    case DrainOne(w) => w < |s.subs| && s.subs[w].worker == Draining && s.subs[w].queue != []
    case DrainEnds(w) => w < |s.subs| && s.subs[w].worker == Draining && s.subs[w].queue == []
    case BeginFlush => !s.closed
    case Check(f) => f < |s.flushes| && s.flushes[f].waiter == Checking
    case CancelFlush(f) => f < |s.flushes| && s.flushes[f].result.None?
    case ReturnNil(f) => f < |s.flushes| && s.flushes[f].waiter == Gone && s.flushes[f].result.None?
  }

  function Apply(s: Bus, step: Step): Bus
    requires Enabled(s, step)
  {
    match step
    case Subscribe(topic) => s.(subs := s.subs + [Subscriber(topic, [], if s.running then Idle else Stopped, [], [])])
    case Listen =>
      s.(running := true, listenEnded := false,
         subs := seq(|s.subs|, i requires 0 <= i < |s.subs| => WorkerStarted(s.subs[i])))
    case EndListenContext => s.(listenEnded := true)
    case LeaveListen => s.(running := false, waiting := s.waiting + 1)
    case ReturnListen => s.(waiting := s.waiting - 1)
    case Close => s.(closed := true)
    case EndBusContext => s.(ended := true)
    case BeginPublish(event) => s.(pubs := s.pubs + [Publisher(event, Targets(s.subs, event.topic), Ready)])
    case Count(p) => WithPub(s, p, s.pubs[p].(stage := Counted)).(pending := s.pending + 1)
    case Enqueue(p) =>
      var (x, e) := (Target(s, p), s.pubs[p].event);
      WithPub(WithSub(s, s.pubs[p].targets[0], x.(queue := x.queue + [e], accepted := x.accepted + [e])), p,
        NextTarget(s.pubs[p]))
    case HandOver(p) =>
      var (x, e) := (Target(s, p), s.pubs[p].event);
      WithPub(WithSub(s, s.pubs[p].targets[0], x.(worker := Handling(e), accepted := x.accepted + [e])), p,
        NextTarget(s.pubs[p]))
    case Abort(p) => WithPub(s, p, s.pubs[p].(stage := Undoing(true)))
    case Shed(p) => WithPub(s, p, s.pubs[p].(stage := Undoing(false)))
    case Undo(p) =>
      var x := s.pubs[p];
      WithPub(Decremented(s), p, if x.stage.ctxEnded then x.(targets := [], stage := Ready) else NextTarget(x))
    case Take(w) => var x := s.subs[w]; WithSub(s, w, x.(queue := x.queue[1..], worker := Handling(x.queue[0])))
    case HandlerReturns(w) =>
      var x := s.subs[w];
      WithSub(s, w, x.(worker := Returned, done := x.done + [Handled(x.worker.event)]))
    case Release(w) =>
      WithSub(Decremented(s), w, s.subs[w].(worker := if s.subs[w].worker == Returned then Idle else Draining))
    case StopReceiving(w) => WithSub(s, w, s.subs[w].(worker := Draining))
    case DrainOne(w) =>
      var x := s.subs[w];
      WithSub(s, w, x.(queue := x.queue[1..], worker := Dropping, done := x.done + [Drained(x.queue[0])]))
    case DrainEnds(w) => WithSub(s, w, s.subs[w].(worker := Stopped))
    case BeginFlush => s.(flushes := s.flushes + [Flush(Checking, false, false, Goal(s.subs), None)])
    case Check(f) =>
      var x := s.flushes[f];
      WithFlush(s, f, if s.pending > 0 && !x.cancelled then x.(waiter := Sleeping)
        else x.(waiter := Gone, sawZero := s.pending == 0))
    case CancelFlush(f) =>
      var woken := s.(flushes := Broadcast(s.flushes));
      WithFlush(woken, f, woken.flushes[f].(cancelled := true, result := Some(false)))
    case ReturnNil(f) => WithFlush(s, f, s.flushes[f].(result := Some(true)))
  }

  /** The bus after a run, if every step was enabled. */
  function Run(queueSize: nat, steps: seq<Step>): Option<Bus> {
    if steps == [] then Some(NewBus(queueSize))
    else
      var before := Run(queueSize, steps[..|steps| - 1]);
      var step := steps[|steps| - 1];
      if before.Some? && Enabled(before.value, step) then Some(Apply(before.value, step)) else None
  }
}
