/** The bus as an object: its registry of subscribers and its operations, each run without
    interruption and tied to the steps of EventBus. */
module EventBusObject {
  import opened Llm
  import opened EventBus
  import opened EventBusProofs

  class SimpleEventBus {
    const queueSize: nat
    var closed: bool
    var ended: bool
    var running: bool
    var listenEnded: bool
    var waiting: nat
    var pendingCount: int
    var subs: seq<Subscriber>
    var pubs: seq<Publisher>
    var flushes: seq<Flush>
    /** The registry: indices of subscribers, by topic, and those of the global ones. */
    var subscribers: map<string, seq<nat>>
    var globalSubscribers: seq<nat>

    function View(): Bus
      reads this
    {
      Bus(queueSize, closed, ended, running, listenEnded, waiting, pendingCount, subs, pubs, flushes)
    }

    function ListOf(topic: string): seq<nat>
      reads this`subscribers
    {
      if topic in subscribers then subscribers[topic] else []
    }

    /** The registry lists every subscriber once, in the order of registration. */
    ghost predicate Valid()
      reads this
    {
      && globalSubscribers == Matching(subs, None)
      && (forall t :: ListOf(t) == Matching(subs, Some(t)))
    }

    constructor (queueSize: nat)
      ensures Valid() && View() == NewBus(queueSize)
    {
      this.queueSize, closed, ended, running, listenEnded := queueSize, false, false, false, false;
      waiting, pendingCount, subs, pubs, flushes := 0, 0, [], [], [];
      subscribers, globalSubscribers := map[], [];
    }

    /** A closed bus ignores the call. */
    method Subscribe(topic: Option<string>)
      requires Valid()
      modifies this
      ensures Valid()
      ensures View() == if old(closed) then old(View()) else Apply(old(View()), EventBus.Subscribe(topic))
    {
      if closed { return; }
      hide Matching;
      ghost var before := subs;
      var w := |subs|;
      var x := Subscriber(topic, [], if running then Idle else Stopped, [], []);
      subs := subs + [x];
      Register(topic, w);
      MatchingSnoc(before, x, None);
      forall t ensures ListOf(t) == Matching(subs, Some(t)) { MatchingSnoc(before, x, Some(t)); }
    }

    method Register(topic: Option<string>, w: nat)
      modifies this`subscribers, this`globalSubscribers
      ensures globalSubscribers == old(globalSubscribers) + if topic.None? then [w] else []
      ensures forall t :: ListOf(t) == old(ListOf(t)) + if topic == Some(t) then [w] else []
    {
      if topic.None? {
        globalSubscribers := globalSubscribers + [w];
      } else {
        subscribers := subscribers[topic.value := ListOf(topic.value) + [w]];
      }
    }

    method SnapshotSubscribers(topic: string) returns (targets: seq<nat>)
      requires Valid()
      ensures targets == Targets(subs, topic)
    {
      targets := ListOf(topic) + globalSubscribers;
    }

    method IncPending()
      modifies this`pendingCount
      ensures View() == old(View()).(pending := old(pendingCount) + 1)
    {
      pendingCount := pendingCount + 1;
    }

    /** The last one wakes every waiter. */
    method DecPending()
      modifies this`pendingCount, this`flushes
      ensures View() == Decremented(old(View()))
    {
      pendingCount := pendingCount - 1;
      if pendingCount == 0 {
        var woken := flushes;
        for i := 0 to |woken|
          invariant |woken| == |flushes| && flushes == old(flushes) && pendingCount == old(pendingCount) - 1
          invariant forall k | 0 <= k < |woken| :: woken[k] == if k < i then Woken(flushes[k]) else flushes[k]
        {
          if woken[i].waiter == Sleeping { woken := woken[i := woken[i].(waiter := Checking)]; }
        }
        flushes := woken;
        assert flushes == Broadcast(old(flushes));
      }
    }

    /** The counter stays incremented exactly when the event was enqueued. With the context
        done and room in the queue both cases of the select are ready, and `takesContext` is
        the one it takes. */
    method EnqueueEvent(w: nat, event: Event, ctxDone: bool, takesContext: bool) returns (failed: bool)
      requires w < |subs|
      modifies this`pendingCount, this`subs, this`flushes
      ensures (View(), failed) == AfterSelect(old(View()), w, event, ctxDone, takesContext)
    {
      IncPending();
      var room := |subs[w].queue| < queueSize;
      if ctxDone && (takesContext || !room) {
        DecPending();
        return true;
      }
      if room {
        var x := subs[w];
        subs := subs[w := x.(queue := x.queue + [event], accepted := x.accepted + [event])];
      } else {
        DecPending();
      }
      return false;
    }

    /** The event is offered to the targets in turn, up to the first at which the context
        ended the publish. */
    method DispatchAsync(targets: seq<nat>, event: Event, ctxDone: nat -> bool, takesContext: nat -> bool)
      returns (failed: bool)
      requires forall i | 0 <= i < |targets| :: targets[i] < |subs|
      modifies this`pendingCount, this`subs, this`flushes
      ensures (View(), failed) == AfterDispatch(old(View()), targets, event, ctxDone, takesContext)
    {
      assert targets[..0] == [];
      for i := 0 to |targets|
        invariant |subs| == |old(subs)|
        invariant (View(), false) == AfterDispatch(old(View()), targets[..i], event, ctxDone, takesContext)
      {
        assert targets[..i + 1][..i] == targets[..i];
        failed := EnqueueEvent(targets[i], event, ctxDone(i), takesContext(i));
        if failed {
          FailureEnds(old(View()), targets, i + 1, event, ctxDone, takesContext);
          return true;
        }
      }
      assert targets[..|targets|] == targets;
      return false;
    }

    /** Empties the queue of a stopped worker: every event is settled, in order, and the
        waiters are woken if these were the last ones. */
    method Drain(w: nat)
      requires w < |subs| && pendingCount >= |subs[w].queue|
      modifies this`pendingCount, this`subs, this`flushes
      ensures View() == AfterDrain(old(View()), w)
    {
      ghost var before := View();
      ghost var n := 0;
      DrainNone(before, w);
      while |subs[w].queue| > 0
        invariant w < |subs| && n <= |before.subs[w].queue|
        invariant View() == DrainedBy(before, w, n)
        decreases |subs[w].queue|
      {
        DrainNext(before, w, n);
        var x := subs[w];
        subs := subs[w := x.(queue := x.queue[1..], done := x.done + [Drained(x.queue[0])])];
        DecPending();
        n := n + 1;
      }
    }
  }

  /** An event that was counted and not enqueued. */
  function Refused(s: Bus): Bus { Decremented(s.(pending := s.pending + 1)) }

  /** One event offered to a subscriber: enqueued if there is room, dropped otherwise. */
  function AfterOffer(s: Bus, w: nat, e: Event): (s': Bus)
    requires w < |s.subs|
    ensures |s'.subs| == |s.subs| && s'.queueSize == s.queueSize
  {
    var x := s.subs[w];
    if |x.queue| < s.queueSize then
      WithSub(s, w, x.(queue := x.queue + [e], accepted := x.accepted + [e])).(pending := s.pending + 1)
    else Refused(s)
  }

  /** The select of one enqueue, and whether the context ended it. */
  function AfterSelect(s: Bus, w: nat, e: Event, ctxDone: bool, takesContext: bool): (r: (Bus, bool))
    requires w < |s.subs|
    ensures |r.0.subs| == |s.subs| && r.0.queueSize == s.queueSize
  {
    if ctxDone && (takesContext || |s.subs[w].queue| >= s.queueSize) then (Refused(s), true)
      else (AfterOffer(s, w, e), false)
  }

  function AfterDispatch(s: Bus, targets: seq<nat>, e: Event, ctxDone: nat -> bool,
          takesContext: nat -> bool): (r: (Bus, bool))
    requires forall i | 0 <= i < |targets| :: targets[i] < |s.subs|
    ensures |r.0.subs| == |s.subs| && r.0.queueSize == s.queueSize
  {
    if targets == [] then (s, false)
    else
      var n := |targets| - 1;
      var (t, failed) := AfterDispatch(s, targets[..n], e, ctxDone, takesContext);
      if failed then (t, true) else AfterSelect(t, targets[n], e, ctxDone(n), takesContext(n))
  }

  /** Targets after a failure are not tried. */
  lemma {:induction false} FailureEnds(s: Bus, targets: seq<nat>, k: nat, e: Event, ctxDone: nat -> bool,
          takesContext: nat -> bool)
    requires k <= |targets| && forall i | 0 <= i < |targets| :: targets[i] < |s.subs|
    requires AfterDispatch(s, targets[..k], e, ctxDone, takesContext).1
    ensures AfterDispatch(s, targets, e, ctxDone, takesContext) ==
      AfterDispatch(s, targets[..k], e, ctxDone, takesContext)
    decreases |targets|
  {
    if k == |targets| {
      assert targets[..k] == targets;
    } else {
      var front := targets[..|targets| - 1];
      assert front[..k] == targets[..k];
      FailureEnds(s, front, k, e, ctxDone, takesContext);
    }
  }

  lemma {:induction false} MatchingSnoc(subs: seq<Subscriber>, x: Subscriber, topic: Option<string>)
    ensures Matching(subs + [x], topic) == Matching(subs, topic) + if x.topic == topic then [|subs|] else []
  {
    assert (subs + [x])[..|subs|] == subs;
  }

  function DrainedFates(queue: seq<Event>): seq<Fate> { seq(|queue|, i requires 0 <= i < |queue| => Drained(queue[i])) }

  /** The bus after the first n events of w's queue were drained. */
  function DrainedBy(s: Bus, w: nat, n: nat): Bus
    requires w < |s.subs| && n <= |s.subs[w].queue|
  {
    var x := s.subs[w];
    WithSub(s, w, x.(queue := x.queue[n..], done := x.done + DrainedFates(x.queue[..n]))).(
      pending := s.pending - n,
      flushes := if n > 0 && s.pending == n then Broadcast(s.flushes) else s.flushes)
  }

  function AfterDrain(s: Bus, w: nat): Bus
    requires w < |s.subs|
  {
    DrainedBy(s, w, |s.subs[w].queue|)
  }

  lemma {:induction false} DrainNone(s: Bus, w: nat)
    requires w < |s.subs|
    ensures DrainedBy(s, w, 0) == s
  {
    var x := s.subs[w];
    assert x.queue[0..] == x.queue && x.done + DrainedFates(x.queue[..0]) == x.done;
    assert s.subs[w := x] == s.subs;
  }

  /** One more event drained. */
  lemma {:induction false} DrainNext(s: Bus, w: nat, n: nat)
    requires w < |s.subs| && n < |s.subs[w].queue| <= s.pending
    ensures var now := DrainedBy(s, w, n);
      var x := now.subs[w];
      && x.queue != []
      && DrainedBy(s, w, n + 1) ==
        Decremented(WithSub(now, w, x.(queue := x.queue[1..], done := x.done + [Drained(x.queue[0])])))
  {
    var q, done := s.subs[w].queue, s.subs[w].done;
    var now := DrainedBy(s, w, n);
    assert q[n..][1..] == q[n + 1..];
    assert done + DrainedFates(q[..n + 1]) == done + DrainedFates(q[..n]) + [Drained(q[n])];
    assert now.subs[w := DrainedBy(s, w, n + 1).subs[w]] == DrainedBy(s, w, n + 1).subs;
  }

  // ---------------------------------------------------------------- as steps

  /** An uninterrupted offer is a count and an enqueue, or a count that is taken back. */
  lemma {:induction false} OfferIsSteps(s: Bus, p: nat)
    requires PubAt(s, p, Ready)
    ensures Enabled(s, Count(p))
    ensures var (counted, after) := (Apply(s, Count(p)), AfterOffer(s, s.pubs[p].targets[0], s.pubs[p].event));
      if |Target(s, p).queue| < s.queueSize then
        Enabled(counted, Enqueue(p)) && Apply(counted, Enqueue(p)) == WithPub(after, p, NextTarget(s.pubs[p]))
      else
        Enabled(counted, Shed(p)) && Enabled(Apply(counted, Shed(p)), Undo(p)) &&
        Apply(Apply(counted, Shed(p)), Undo(p)) == WithPub(after, p, NextTarget(s.pubs[p]))
  {
    hide Apply, Enabled, AfterOffer, WithPub;
    CountIs(s, p);
    if |Target(s, p).queue| < s.queueSize { EnqueueIs(s, p); } else { ShedIs(s, p); }
  }

  /** The bus after Count. */
  function Counted(s: Bus, p: nat): Bus
    requires p < |s.pubs|
  {
    WithPub(s, p, s.pubs[p].(stage := EventBus.Counted)).(pending := s.pending + 1)
  }

  lemma {:induction false} CountIs(s: Bus, p: nat)
    requires PubAt(s, p, Ready)
    ensures Enabled(s, Count(p)) && Apply(s, Count(p)) == Counted(s, p)
    ensures PubAt(Counted(s, p), p, EventBus.Counted) && Target(Counted(s, p), p) == Target(s, p)
  {
  }

  lemma {:induction false} EnqueueIs(s: Bus, p: nat)
    requires PubAt(s, p, Ready) && |Target(s, p).queue| < s.queueSize
    ensures Enabled(Counted(s, p), Enqueue(p))
    ensures Apply(Counted(s, p), Enqueue(p)) ==
      WithPub(AfterOffer(s, s.pubs[p].targets[0], s.pubs[p].event), p, NextTarget(s.pubs[p]))
  {
    var counted := Counted(s, p);
    assert counted.pubs[p := NextTarget(counted.pubs[p])] == s.pubs[p := NextTarget(s.pubs[p])];
  }

  lemma {:induction false} ShedIs(s: Bus, p: nat)
    requires PubAt(s, p, Ready) && |Target(s, p).queue| >= s.queueSize
    ensures Enabled(Counted(s, p), Shed(p)) && Enabled(Apply(Counted(s, p), Shed(p)), Undo(p))
    ensures Apply(Apply(Counted(s, p), Shed(p)), Undo(p)) ==
      WithPub(AfterOffer(s, s.pubs[p].targets[0], s.pubs[p].event), p, NextTarget(s.pubs[p]))
  {
    var shed := Apply(Counted(s, p), Shed(p));
    assert shed.pubs[p := NextTarget(shed.pubs[p])] == s.pubs[p := NextTarget(s.pubs[p])];
  }

  /** An offer that the context ends is a count, an abort and an undo, which ends the publish. */
  lemma {:induction false} AbortIsSteps(s: Bus, p: nat)
    requires PubAt(s, p, Ready)
    ensures var counted := Apply(s, Count(p));
      && Enabled(counted, Abort(p)) && Enabled(Apply(counted, Abort(p)), Undo(p))
      && Apply(Apply(counted, Abort(p)), Undo(p)) == WithPub(Refused(s), p, s.pubs[p].(targets := []))
  {
    var aborted := Apply(Apply(s, Count(p)), Abort(p));
    assert aborted.pubs[p := s.pubs[p].(targets := [])] == s.pubs[p := s.pubs[p].(targets := [])];
  }

  /** Draining one event is a receive and a release. */
  lemma {:induction false} DrainIsSteps(s: Bus, w: nat)
    requires Enabled(s, DrainOne(w)) && |s.subs[w].queue| <= s.pending
    ensures var taken := Apply(s, DrainOne(w));
      Enabled(taken, Release(w)) && Apply(taken, Release(w)) == DrainedBy(s, w, 1)
  {
    hide DrainedBy;
    DrainNone(s, w);
    DrainNext(s, w, 0);
    var (taken, x) := (Apply(s, DrainOne(w)), s.subs[w]);
    var drained := x.(queue := x.queue[1..], done := x.done + [Drained(x.queue[0])]);
    assert taken.subs[w := taken.subs[w].(worker := Draining)] == s.subs[w := drained];
  }
}
