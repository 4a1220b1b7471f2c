/** Who gets a published event: the subscribers of its topic and the global ones, each offered
    it once, in order. */
module EventBusTargets {
  import opened Llm
  import opened EventBus
  import opened EventBusProofs

  // ---------------------------------------------------------------- the targets

  predicate Increasing(xs: seq<nat>) { forall i, j | 0 <= i < j < |xs| :: xs[i] < xs[j] }

  lemma {:induction false} MatchingExactly(subs: seq<Subscriber>, topic: Option<string>)
    ensures forall w: nat :: w in Matching(subs, topic) <==> w < |subs| && subs[w].topic == topic
    ensures Increasing(Matching(subs, topic))
  {
    if subs != [] {
      var front := Matching(subs[..|subs| - 1], topic);
      MatchingExactly(subs[..|subs| - 1], topic);
      assert forall i | 0 <= i < |front| :: front[i] in front;
    }
  }

  /** The targets of a topic are its subscribers and the global ones, each once: those of the
      topic first, and each kind in the order of registration. */
  lemma {:induction false} TargetsExactly(subs: seq<Subscriber>, topic: string)
    ensures forall w: nat :: w in Targets(subs, topic) <==>
      w < |subs| && (subs[w].topic == None || subs[w].topic == Some(topic))
    ensures var ts := Targets(subs, topic);
      forall i, j | 0 <= i < j < |ts| ::
        ts[i] < |subs| && ts[j] < |subs| &&
        if subs[ts[i]].topic == subs[ts[j]].topic then ts[i] < ts[j]
        else subs[ts[i]].topic == Some(topic) && subs[ts[j]].topic == None
  {
    hide Matching;
    var (own, global) := (Matching(subs, Some(topic)), Matching(subs, None));
    MatchingExactly(subs, Some(topic));
    MatchingExactly(subs, None);
    assert Targets(subs, topic) == own + global;
    assert forall i | 0 <= i < |own| :: own[i] in own;
    assert forall i | 0 <= i < |global| :: global[i] in global;
  }

  // ---------------------------------------------------------------- the offers of a publish

  /** An event offered to a subscriber, and whether it was accepted. */
  datatype Offer = Offer(w: nat, accepted: bool)

  /** What a step offers on behalf of publisher p. */
  function OfferOf(s: Bus, step: Step, p: nat): seq<Offer>
    requires Enabled(s, step)
  {
    match step
    case Enqueue(q) => if q == p then [Offer(s.pubs[q].targets[0], true)] else []
    case HandOver(q) => if q == p then [Offer(s.pubs[q].targets[0], true)] else []
    case Shed(q) => if q == p then [Offer(s.pubs[q].targets[0], false)] else []
    case _ => []
  }

  /** The offers of publisher p in a run. */
  function Offers(queueSize: nat, steps: seq<Step>, p: nat): seq<Offer>
    requires Run(queueSize, steps).Some?
  {
    if steps == [] then []
    else
      var front := steps[..|steps| - 1];
      Offers(queueSize, front, p) + OfferOf(Run(queueSize, front).value, steps[|steps| - 1], p)
  }

  /** An accepted event is the last that the subscriber accepted; one that is refused found the
      queue full, and no subscriber accepts anything. No other step of anybody does. */
  lemma {:induction false} OfferMeans(s: Bus, step: Step, p: nat)
    requires Enabled(s, step) && p < |s.pubs| && OfferOf(s, step, p) != []
    ensures var (offer, s') := (OfferOf(s, step, p)[0], Apply(s, step));
      && OfferOf(s, step, p) == [offer] && offer.w < |s.subs| && |s'.subs| == |s.subs|
      && (forall v | 0 <= v < |s.subs| && v != offer.w :: s'.subs[v] == s.subs[v])
      && s'.subs[offer.w].accepted ==
           s.subs[offer.w].accepted + (if offer.accepted then [s.pubs[p].event] else [])
      && (!offer.accepted ==> |s.subs[offer.w].queue| >= s.queueSize)
  {
    if EnqueueStep(step) { EnqueueTouchesOne(s, step); }
  }

  /** Whom p still has to offer its event: the head is done with while it is being taken back. */
  function Remaining(x: Publisher): seq<nat> {
    if x.stage.Undoing? && x.targets != [] then x.targets[1..] else x.targets
  }

  function Offered(offers: seq<Offer>): seq<nat> { seq(|offers|, i requires 0 <= i < |offers| => offers[i].w) }

  /** No context ended this publish. */
  predicate NotAborted(steps: seq<Step>, p: nat) { Abort(p) !in steps }

  lemma {:induction false} PublisherStepKeeps(s: Bus, step: Step, p: nat)
    requires Enabled(s, step) && p < |s.pubs| && step != Abort(p) && s.pubs[p].stage != Undoing(true)
    ensures var s' := Apply(s, step);
      && p < |s'.pubs| && s'.pubs[p].event == s.pubs[p].event && s'.pubs[p].stage != Undoing(true)
      && Offered(OfferOf(s, step, p)) + Remaining(s'.pubs[p]) == Remaining(s.pubs[p])
  {
    if EnqueueStep(step) { EnqueueOffers(s, step, p); }
    else if PublisherStep(step) { PublisherOffers(s, step, p); }
    else { OthersKeepPublishers(s, step); }
  }

  lemma {:induction false} OthersKeepPublishers(s: Bus, step: Step)
    requires Enabled(s, step) && !EnqueueStep(step) && !PublisherStep(step)
    ensures Apply(s, step).pubs == s.pubs
  {
    if WorkerStep(step) { WorkerTouchesOne(s, step); }
  }

  lemma {:induction false} EnqueueOffers(s: Bus, step: Step, p: nat)
    requires Enabled(s, step) && p < |s.pubs| && EnqueueStep(step) && s.pubs[p].stage != Undoing(true)
    ensures var s' := Apply(s, step);
      && p < |s'.pubs| && s'.pubs[p].event == s.pubs[p].event && s'.pubs[p].stage != Undoing(true)
      && Offered(OfferOf(s, step, p)) + Remaining(s'.pubs[p]) == Remaining(s.pubs[p])
  {
    hide Apply;
    var x := s.pubs[p];
    EnqueuePublisher(s, step);
    if step.p == p { assert [x.targets[0]] + x.targets[1..] == x.targets; }
  }

  lemma {:induction false} EnqueuePublisher(s: Bus, step: Step)
    requires Enabled(s, step) && EnqueueStep(step)
    ensures Apply(s, step).pubs == s.pubs[step.p := NextTarget(s.pubs[step.p])]
  {
  }

  lemma {:induction false} PublisherOffers(s: Bus, step: Step, p: nat)
    requires Enabled(s, step) && p < |s.pubs| && PublisherStep(step)
    requires step != Abort(p) && s.pubs[p].stage != Undoing(true)
    ensures var s' := Apply(s, step);
      && p < |s'.pubs| && s'.pubs[p].event == s.pubs[p].event && s'.pubs[p].stage != Undoing(true)
      && Offered(OfferOf(s, step, p)) + Remaining(s'.pubs[p]) == Remaining(s.pubs[p])
  {
    hide Apply;
    var x := s.pubs[p];
    PublisherPublishers(s, step);
    if step == Shed(p) { assert [x.targets[0]] + x.targets[1..] == x.targets; }
  }

  /** What a publisher's own step makes of it. */
  function AfterOwn(x: Publisher, step: Step): Publisher {
    match step
    case Count(_) => x.(stage := EventBus.Counted)
    case Abort(_) => x.(stage := Undoing(true))
    case Shed(_) => x.(stage := Undoing(false))
    case Undo(_) =>
      if x.stage == Undoing(true) then x.(targets := [], stage := Ready)
      else if x.targets != [] then NextTarget(x) else x
    case _ => x
  }

  lemma {:induction false} PublisherPublishers(s: Bus, step: Step)
    requires Enabled(s, step) && PublisherStep(step)
    ensures if step.BeginPublish? then
        |Apply(s, step).pubs| == |s.pubs| + 1 && Apply(s, step).pubs[..|s.pubs|] == s.pubs
      else step.p < |s.pubs| && Apply(s, step).pubs == s.pubs[step.p := AfterOwn(s.pubs[step.p], step)]
  {
  }

  lemma {:induction false} OffersConcat(a: seq<Offer>, b: seq<Offer>)
    ensures Offered(a + b) == Offered(a) + Offered(b)
  {
  }

  /** One step hands offers over from those that remain. */
  lemma {:induction false} StepOffers(queueSize: nat, steps: seq<Step>, p: nat)
    requires steps != [] && Run(queueSize, steps).Some? && steps[|steps| - 1] != Abort(p)
    requires var before := Run(queueSize, steps[..|steps| - 1]).value;
      p < |before.pubs| && before.pubs[p].stage != Undoing(true)
    ensures var (before, now) := (Run(queueSize, steps[..|steps| - 1]).value, Run(queueSize, steps).value);
      && p < |now.pubs| && now.pubs[p].event == before.pubs[p].event && now.pubs[p].stage != Undoing(true)
      && Offered(Offers(queueSize, steps, p)) + Remaining(now.pubs[p]) ==
           Offered(Offers(queueSize, steps[..|steps| - 1], p)) + Remaining(before.pubs[p])
  {
    hide Enabled, Apply, OfferOf, Remaining, Offered;
    var front, step := steps[..|steps| - 1], steps[|steps| - 1];
    var s := Run(queueSize, front).value;
    PublisherStepKeeps(s, step, p);
    OffersConcat(Offers(queueSize, front, p), OfferOf(s, step, p));
    var (a, b) := (Offered(Offers(queueSize, front, p)), Offered(OfferOf(s, step, p)));
    var c := Remaining(Apply(s, step).pubs[p]);
    assert a + b + c == a + (b + c);
  }

  lemma {:induction false} BeginOffers(s: Bus, event: Event)
    requires Enabled(s, BeginPublish(event))
    ensures var (s', p) := (Apply(s, BeginPublish(event)), |s.pubs|);
      && p < |s'.pubs| && s'.pubs[p].event == event && s'.pubs[p].stage != Undoing(true)
      && Remaining(s'.pubs[p]) == Targets(s.subs, event.topic) && OfferOf(s, BeginPublish(event), p) == []
  {
    hide Targets;
  }

  /** A publish that began at step k: those it has offered the event, followed by those it has
      still to offer it, are always the targets of that moment, each once and in order. */
  lemma {:induction false} OffersAreTargets(queueSize: nat, steps: seq<Step>, k: nat, event: Event, p: nat)
    requires k < |steps| && steps[k] == BeginPublish(event) && Run(queueSize, steps).Some? && NotAborted(steps, p)
    requires Run(queueSize, steps[..k]).Some? && p == |Run(queueSize, steps[..k]).value.pubs|
    ensures var (before, now) := (Run(queueSize, steps[..k]).value, Run(queueSize, steps).value);
      && p < |now.pubs| && now.pubs[p].event == event && now.pubs[p].stage != Undoing(true)
      && Offered(Offers(queueSize, steps, p)) + Remaining(now.pubs[p]) == Targets(before.subs, event.topic)
    decreases |steps|
  {
    hide Targets, Enabled, Apply, OfferOf, Remaining;
    var front := steps[..|steps| - 1];
    assert steps == front + [steps[|steps| - 1]];
    if k == |steps| - 1 {
      BeginOffers(Run(queueSize, front).value, event);
      NoOffersBefore(queueSize, front, p);
      assert Offered([]) == [];
    } else {
      assert front[..k] == steps[..k];
      OffersAreTargets(queueSize, front, k, event, p);
      StepOffers(queueSize, steps, p);
    }
  }

  lemma {:induction false} PublishersStay(s: Bus, step: Step)
    requires Enabled(s, step)
    ensures |s.pubs| <= |Apply(s, step).pubs|
  {
    if !EnqueueStep(step) && !PublisherStep(step) { OthersKeepPublishers(s, step); }
  }

  lemma {:induction false} NoOffersBefore(queueSize: nat, steps: seq<Step>, p: nat)
    requires Run(queueSize, steps).Some? && |Run(queueSize, steps).value.pubs| <= p
    ensures Offers(queueSize, steps, p) == []
  {
    if steps != [] {
      var front, step := steps[..|steps| - 1], steps[|steps| - 1];
      var s := Run(queueSize, front).value;
      PublishersStay(s, step);
      NoOffersBefore(queueSize, front, p);
      NoOfferOf(s, step, p);
    }
  }

  lemma {:induction false} NoOfferOf(s: Bus, step: Step, p: nat)
    requires Enabled(s, step) && |s.pubs| <= p
    ensures OfferOf(s, step, p) == []
  {
  }

  /** A publish that finishes without its context ending has offered the event to exactly the
      topic's subscribers and the global ones, each once, in order. */
  lemma {:induction false} EveryoneIsOffered(queueSize: nat, steps: seq<Step>, k: nat, event: Event, p: nat)
    requires k < |steps| && steps[k] == BeginPublish(event) && Run(queueSize, steps).Some? && NotAborted(steps, p)
    requires Run(queueSize, steps[..k]).Some? && p == |Run(queueSize, steps[..k]).value.pubs|
    requires p < |Run(queueSize, steps).value.pubs| && Run(queueSize, steps).value.pubs[p].targets == []
    ensures var subs := Run(queueSize, steps[..k]).value.subs;
      && Offered(Offers(queueSize, steps, p)) == Targets(subs, event.topic)
      && forall w: nat :: w in Offered(Offers(queueSize, steps, p)) <==>
        w < |subs| && (subs[w].topic == None || subs[w].topic == Some(event.topic))
  {
    hide Targets, Offers, Run;
    OffersAreTargets(queueSize, steps, k, event, p);
    TargetsExactly(Run(queueSize, steps[..k]).value.subs, event.topic);
    assert Offered(Offers(queueSize, steps, p)) + [] == Offered(Offers(queueSize, steps, p));
  }

  // ---------------------------------------------------------------- a publish that is ended

  /** The context of this publish has ended it: it is taking back its last offer, or has done. */
  predicate Ended(x: Publisher) { x.stage == Undoing(true) || x.targets == [] }

  lemma {:induction false} EndedStays(s: Bus, step: Step, p: nat)
    requires Enabled(s, step) && p < |s.pubs| && Ended(s.pubs[p])
    ensures p < |Apply(s, step).pubs| && Ended(Apply(s, step).pubs[p]) && OfferOf(s, step, p) == []
  {
    hide Apply;
    if EnqueueStep(step) { EnqueuePublisher(s, step); }
    else if PublisherStep(step) { PublisherPublishers(s, step); }
    else { OthersKeepPublishers(s, step); }
  }

  /** Once its context has ended a publish, it offers the event to nobody any more. */
  lemma {:induction false} AbortEndsOffers(queueSize: nat, steps: seq<Step>, k: nat, p: nat)
    requires k <= |steps| && Run(queueSize, steps).Some? && Run(queueSize, steps[..k]).Some?
    requires p < |Run(queueSize, steps[..k]).value.pubs| && Ended(Run(queueSize, steps[..k]).value.pubs[p])
    ensures p < |Run(queueSize, steps).value.pubs| && Ended(Run(queueSize, steps).value.pubs[p])
    ensures Offers(queueSize, steps, p) == Offers(queueSize, steps[..k], p)
    decreases |steps|
  {
    hide Enabled, Apply, OfferOf, Ended;
    if k == |steps| {
      assert steps[..k] == steps;
    } else {
      var front := steps[..|steps| - 1];
      assert front[..k] == steps[..k];
      AbortEndsOffers(queueSize, front, k, p);
      EndedStays(Run(queueSize, front).value, steps[|steps| - 1], p);
    }
  }
}
