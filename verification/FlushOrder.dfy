/** In which order flushes write episodes, and when the drop count stays exact: for every
    interleaving, overlapping flushes included. */
module FlushOrder {
  import opened Llm
  import opened SessionBuffer
  import opened FlushProtocol

  // ---------------------------------------------------------------- the line

  /** What the flushes hold, in the order of their claims. */
  function Held(fs: seq<Flush>): seq<nat> { if fs == [] then [] else Held(fs[..|fs| - 1]) + Holding(fs[|fs| - 1]) }

  /** Written, then held, then buffered. */
  function Line(s: State): seq<nat> { s.written + Held(s.flushes) + Buffered(s) }

  predicate Increasing(xs: seq<nat>) { forall i, j :: 0 <= i < j < |xs| ==> xs[i] < xs[j] }

  predicate Below(xs: seq<nat>, n: nat) { forall i | 0 <= i < |xs| :: xs[i] < n }

  /** Episodes were written in the order in which they were accepted, and whatever is still
      to be written comes after all that was, in that order too. */
  predicate InOrder(s: State) { Increasing(Line(s)) && Below(Line(s), s.accepted) }

  predicate Holds(f: Flush) { f.status == Claimed || f.status == Failed }

  predicate NoneHolds(fs: seq<Flush>) { forall f | 0 <= f < |fs| :: !Holds(fs[f]) }

  /** What a caller can check before a step: nobody writes past an earlier claim that is
      still open, and nobody restores behind a later one. */
  predicate Guarded(s: State, step: Step) {
    match step
    case Write(f, true) => f < |s.flushes| && NoneHolds(s.flushes[..f])
    case Restore(f) => f < |s.flushes| && NoneHolds(s.flushes[f + 1..])
    case _ => true
  }

  predicate NonEmptyFlushes(s: State) { forall f | 0 <= f < |s.flushes| :: s.flushes[f].episodes != [] }

  lemma {:induction false} ClaimsAreNotEmpty(steps: seq<Step>)
    requires Run(steps).Some?
    ensures NonEmptyFlushes(Run(steps).value)
  {
    if steps != [] { ClaimsAreNotEmpty(steps[..|steps| - 1]); }
  }

  // ---------------------------------------------------------------- sequences

  /** Taking elements out of the middle or the end keeps the order. */
  lemma Thinned(a: seq<nat>, b: seq<nat>, c: seq<nat>, n: nat)
    requires Increasing(a + b + c) && Below(a + b + c, n)
    ensures Increasing(a + c) && Below(a + c, n)
  {
    var whole, rest := a + b + c, a + c;
    assert forall i | 0 <= i < |a| :: rest[i] == whole[i];
    assert forall i | |a| <= i < |rest| :: rest[i] == whole[i + |b|];
  }

  lemma Extended(xs: seq<nat>, n: nat)
    requires Increasing(xs) && Below(xs, n)
    ensures Increasing(xs + [n]) && Below(xs + [n], n + 1)
  {
  }

  lemma Reassociate(front: seq<nat>, buffered: seq<nat>, x: seq<nat>, gone: seq<nat>, kept: seq<nat>)
    requires gone + kept == buffered + x
    ensures front + buffered + x == front + gone + kept
  {
    assert front + buffered + x == front + (buffered + x);
    assert front + gone + kept == front + (gone + kept);
  }

  /** Exchanging two neighbouring stretches keeps the order exactly when one is empty. */
  lemma Swapped(p: seq<nat>, x: seq<nat>, y: seq<nat>, q: seq<nat>, n: nat)
    requires Increasing(p + x + y + q) && Below(p + x + y + q, n)
    ensures Increasing(p + y + x + q) && Below(p + y + x + q, n) <==> x == [] || y == []
  {
    var before, now := p + x + y + q, p + y + x + q;
    if x == [] {
      assert p + x + y == p + y + x;
    } else if y == [] {
      assert p + x + y == p + y + x;
    } else {
      assert now[|p|] == y[0] == before[|p| + |x|];
      assert now[|p| + |y|] == x[0] == before[|p|];
    }
  }

  // ---------------------------------------------------------------- what is held

  lemma {:induction false} HeldConcat(a: seq<Flush>, b: seq<Flush>)
    ensures Held(a + b) == Held(a) + Held(b)
    decreases |b|
  {
    hide Holding;
    if b == [] {
      assert a + b == a;
    } else {
      var n := |b| - 1;
      assert (a + b)[..|a| + n] == a + b[..n] && (a + b)[|a| + n] == b[n];
      HeldConcat(a, b[..n]);
      var (x, y, z) := (Held(a), Held(b[..n]), Holding(b[n]));
      assert (x + y) + z == x + (y + z);
    }
  }

  lemma {:induction false} HeldOne(x: Flush)
    ensures Held([x]) == Holding(x)
  {
    assert [x][..0] == [] && Held([]) == [];
  }

  /** The claims before f, f's own, and those after it. */
  lemma {:induction false} HeldSplit(fs: seq<Flush>, f: nat, x: Flush)
    requires f < |fs|
    ensures Held(fs[f := x]) == Held(fs[..f]) + Holding(x) + Held(fs[f + 1..])
  {
    assert fs[f := x] == fs[..f] + [x] + fs[f + 1..];
    HeldConcat(fs[..f] + [x], fs[f + 1..]);
    HeldConcat(fs[..f], [x]);
    HeldOne(x);
  }

  lemma {:induction false} HeldNothing(fs: seq<Flush>)
    requires forall f | 0 <= f < |fs| :: fs[f].episodes != []
    ensures Held(fs) == [] <==> NoneHolds(fs)
  {
    if fs != [] { HeldNothing(fs[..|fs| - 1]); }
  }

  /** A flush's place in the line, before and after it is marked. */
  lemma {:induction false} SplitLine(s: State, f: nat, status: Status) returns (before: seq<nat>, after: seq<nat>)
    requires f < |s.flushes| && NonEmptyFlushes(s)
    ensures Held(s.flushes) == before + Holding(s.flushes[f]) + after
    ensures Held(Marked(s, f, status)) == before + Holding(s.flushes[f].(status := status)) + after
    ensures before == [] <==> NoneHolds(s.flushes[..f])
    ensures after == [] <==> NoneHolds(s.flushes[f + 1..])
  {
    before, after := Held(s.flushes[..f]), Held(s.flushes[f + 1..]);
    assert s.flushes[f := s.flushes[f]] == s.flushes;
    HeldSplit(s.flushes, f, s.flushes[f]);
    HeldSplit(s.flushes, f, s.flushes[f].(status := status));
    HeldNothing(s.flushes[..f]);
    HeldNothing(s.flushes[f + 1..]);
  }

  lemma RegroupWrite(w: seq<nat>, a: seq<nat>, e: seq<nat>, c: seq<nat>, b: seq<nat>)
    ensures w + (a + e + c) + b == w + a + e + (c + b)
    ensures (w + e) + (a + [] + c) + b == w + e + a + (c + b)
  {
  }

  lemma RegroupRestore(w: seq<nat>, a: seq<nat>, e: seq<nat>, c: seq<nat>, b: seq<nat>)
    ensures w + (a + e + c) + b == (w + a) + e + c + b
    ensures w + (a + [] + c) + (e + b) == (w + a) + c + e + b
  {
  }

  lemma RegroupDrop(w: seq<nat>, a: seq<nat>, e: seq<nat>, c: seq<nat>, b: seq<nat>)
    ensures w + (a + e + c) + b == (w + a) + e + (c + b)
    ensures (w + a) + (c + b) == (w + a + c) + b + []
    ensures w + (a + [] + c) + [] == (w + a + c) + []
  {
  }

  // ---------------------------------------------------------------- the steps

  lemma AppendOrdered(s: State)
    requires InOrder(s)
    ensures InOrder(Apply(s, Append(false)))
  {
    var s' := Apply(s, Append(false));
    var (gone, kept) := (Evicted(RingOf(s.entry), s.accepted), Push(RingOf(s.entry), s.accepted).episodes);
    var front := s.written + Held(s.flushes);
    Extended(Line(s), s.accepted);
    PushKeepsOrder(RingOf(s.entry), s.accepted);
    Reassociate(front, Buffered(s), [s.accepted], gone, kept);
    Thinned(front, gone, kept, s'.accepted);
    assert Line(s') == front + kept;
  }

  /** Claims may overlap. */
  lemma ClaimOrdered(s: State)
    requires InOrder(s)
    ensures InOrder(Apply(s, Claim))
  {
    hide Increasing, Below, Held;
    HeldConcat(s.flushes, [Flush(Buffered(s), Claimed)]);
    HeldOne(Flush(Buffered(s), Claimed));
    var (w, h, b) := (s.written, Held(s.flushes), Buffered(s));
    assert w + (h + b) + [] == w + h + b;
  }

  lemma DisabledOrdered(s: State)
    requires InOrder(s)
    ensures InOrder(Apply(s, ClaimDisabled))
  {
    var kept := s.written + Held(s.flushes);
    assert Line(s) == kept + Buffered(s) + [];
    Thinned(kept, Buffered(s), [], s.accepted);
  }

  lemma NoClientOrdered(s: State, f: nat)
    requires InOrder(s) && NonEmptyFlushes(s) && Has(s, f, Claimed)
    ensures InOrder(Apply(s, NoClient(f)))
  {
    hide Increasing, Below, Held;
    var before, after := SplitLine(s, f, Done);
    var (w, eps, b) := (s.written, s.flushes[f].episodes, Buffered(s));
    RegroupDrop(w, before, eps, after, b);
    Thinned(w + before, eps, after + b, s.accepted);
    Thinned(w + before + after, b, [], s.accepted);
  }

  lemma WriteOrdered(s: State, f: nat, ok: bool)
    requires InOrder(s) && NonEmptyFlushes(s) && Has(s, f, Claimed)
    ensures InOrder(Apply(s, Write(f, ok))) <==> Guarded(s, Write(f, ok))
  {
    hide Increasing, Below, Held;
    var before, after := SplitLine(s, f, if ok then Succeeded else Failed);
    var (w, eps, b) := (s.written, s.flushes[f].episodes, Buffered(s));
    RegroupWrite(w, before, eps, after, b);
    Swapped(w, before, eps, after + b, s.accepted);
  }

  lemma RestoreOrdered(s: State, f: nat)
    requires InOrder(s) && NonEmptyFlushes(s) && Has(s, f, Failed)
    ensures InOrder(Apply(s, Restore(f))) <==> Guarded(s, Restore(f))
  {
    hide Increasing, Below, Held;
    var before, after := SplitLine(s, f, Done);
    var (w, eps, b) := (s.written, s.flushes[f].episodes, Buffered(s));
    RegroupRestore(w, before, eps, after, b);
    Swapped(w + before, eps, after, b, s.accepted);
  }

  lemma FinalizeOrdered(s: State, f: nat)
    requires InOrder(s) && NonEmptyFlushes(s) && Has(s, f, Succeeded)
    ensures InOrder(Apply(s, Finalize(f)))
  {
    var before, after := SplitLine(s, f, Done);
  }

  /** From an ordered line, a step keeps it ordered exactly when it is guarded. */
  lemma StepOrder(s: State, step: Step)
    requires InOrder(s) && NonEmptyFlushes(s) && Enabled(s, step)
    ensures InOrder(Apply(s, step)) <==> Guarded(s, step)
  {
    match step
    case Append(skipped) => if skipped { assert Line(Apply(s, step)) == Line(s); } else { AppendOrdered(s); }
    case Claim => ClaimOrdered(s);
    case ClaimDisabled => DisabledOrdered(s);
    case NoClient(f) => NoClientOrdered(s, f);
    case Write(f, ok) => WriteOrdered(s, f, ok);
    case Restore(f) => RestoreOrdered(s, f);
    case Finalize(f) => FinalizeOrdered(s, f);
  }

  // ---------------------------------------------------------------- runs

  /** Every step of the run was guarded when it was taken. */
  predicate GuardedRun(steps: seq<Step>) {
    steps == [] ||
    var front, step := steps[..|steps| - 1], steps[|steps| - 1];
    GuardedRun(front) && (Run(front).Some? ==> Guarded(Run(front).value, step))
  }

  predicate AlwaysInOrder(steps: seq<Step>)
    requires Run(steps).Some?
    decreases |steps|
  {
    InOrder(Run(steps).value) && (steps == [] || AlwaysInOrder(steps[..|steps| - 1]))
  }

  /** However flushes overlap, the line is in order all along exactly when every write and
      every restore of the run met its guard. */
  lemma {:induction false} OrderedExactlyWhenGuarded(steps: seq<Step>)
    requires Run(steps).Some?
    ensures AlwaysInOrder(steps) <==> GuardedRun(steps)
  {
    if steps == [] {
      assert Line(INITIAL) == [];
    } else {
      var front, step := steps[..|steps| - 1], steps[|steps| - 1];
      OrderedExactlyWhenGuarded(front);
      ClaimsAreNotEmpty(front);
      if AlwaysInOrder(front) { StepOrder(Run(front).value, step); }
    }
  }

  predicate Idle(s: State) { forall f | 0 <= f < |s.flushes| :: s.flushes[f].status == Done }

  /** A run in which a flush starts only after the last one has ended. */
  predicate OneAtATime(steps: seq<Step>) {
    steps == [] ||
    var front := steps[..|steps| - 1];
    OneAtATime(front) && (steps[|steps| - 1] == Claim && Run(front).Some? ==> Idle(Run(front).value))
  }

  /** The flush that has not ended, if any: only the last can be. */
  predicate OnlyLastActive(s: State) { forall f | 0 <= f < |s.flushes| - 1 :: s.flushes[f].status == Done }

  lemma {:induction false} OneAtATimeIsGuarded(steps: seq<Step>)
    requires Run(steps).Some? && OneAtATime(steps)
    ensures GuardedRun(steps) && OnlyLastActive(Run(steps).value)
  {
    hide Held;
    if steps != [] { OneAtATimeIsGuarded(steps[..|steps| - 1]); }
  }

  /** So without overlap episodes are written in the order of acceptance. */
  lemma {:induction false} WrittenInOrder(steps: seq<Step>)
    requires Run(steps).Some? && OneAtATime(steps)
    ensures InOrder(Run(steps).value)
  {
    OneAtATimeIsGuarded(steps);
    OrderedExactlyWhenGuarded(steps);
  }

  lemma PushAlone(x: nat)
    ensures Evicted(Ring([], 0), x) == [] && Push(Ring([], 0), x) == Ring([x], 0)
  {
  }

  const BOTH_CLAIMED := State(Some(Ring([], 0)), [Flush([0], Claimed), Flush([1], Claimed)], 2, [], [], [], 0)

  lemma ClaimTwice() returns (steps: seq<Step>)
    ensures Run(steps) == Some(BOTH_CLAIMED)
  {
    PushAlone(0);
    PushAlone(1);
    RunSnoc([], Append(false));
    steps := [] + [Append(false)];
    assert Run(steps).value == State(Some(Ring([0], 0)), [], 1, [], [], [], 0);
    RunSnoc(steps, Claim);
    steps := steps + [Claim];
    assert Run(steps).value == State(Some(Ring([], 0)), [Flush([0], Claimed)], 1, [], [], [], 0);
    RunSnoc(steps, Append(false));
    steps := steps + [Append(false)];
    assert Run(steps).value == State(Some(Ring([1], 0)), [Flush([0], Claimed)], 2, [], [], [], 0);
    RunSnoc(steps, Claim);
    steps := steps + [Claim];
    assert Run(steps).value.flushes == BOTH_CLAIMED.flushes;
  }

  /** An unguarded run: a later episode is written before an earlier one. */
  lemma OverlapReorders() returns (steps: seq<Step>)
    ensures Run(steps).Some? && Run(steps).value.written == [1, 0] && !GuardedRun(steps)
  {
    steps := ClaimTwice();
    RunSnoc(steps, Write(1, true));
    steps := steps + [Write(1, true)];
    RunSnoc(steps, Write(0, true));
    steps := steps + [Write(0, true)];
    assert Line(Run(steps).value)[..2] == [1, 0];
    OrderedExactlyWhenGuarded(steps);
  }

  // ---------------------------------------------------------------- the drop count

  predicate CountExact(s: State) { RingOf(s.entry).dropped == s.evictions }

  /** A claim that finds the ring empty, while evictions are counted, removes the entry with
      its count. */
  predicate LosesCount(s: State, step: Step) { step == Claim && Buffered(s) == [] && s.evictions > 0 }

  /** A new window opens: the buffer was dropped, or a successful flush ended. */
  predicate OpensWindow(step: Step) { step.ClaimDisabled? || step.NoClient? || step.Finalize? }

  /** The count never exceeds the evictions; a step of any interleaving keeps an exact count
      exact unless it loses it, a lost one stays lost until a window opens, and a window
      always opens with an exact one. */
  lemma StepCount(s: State, step: Step)
    requires Enabled(s, step) && RingOf(s.entry).dropped <= s.evictions
    ensures RingOf(Apply(s, step).entry).dropped <= Apply(s, step).evictions
    ensures CountExact(Apply(s, step)) <==> OpensWindow(step) || (CountExact(s) && !LosesCount(s, step))
  {
    if step == Append(false) { PushKeepsOrder(RingOf(s.entry), s.accepted); }
  }

  /** A claim of the run lost the count, and no window has opened since. */
  predicate CountLost(steps: seq<Step>) {
    steps != [] &&
    var front, step := steps[..|steps| - 1], steps[|steps| - 1];
    !OpensWindow(step) && (CountLost(front) || (Run(front).Some? && LosesCount(Run(front).value, step)))
  }

  /** For every run, `dropped` is the number of evictions since the last window opened,
      exactly unless a claim has lost the count since then. */
  lemma {:induction false} CountIsExactUnlessLost(steps: seq<Step>)
    requires Run(steps).Some?
    ensures CountExact(Run(steps).value) <==> !CountLost(steps)
    ensures RingOf(Run(steps).value.entry).dropped <= Run(steps).value.evictions
  {
    if steps != [] {
      var front := steps[..|steps| - 1];
      CountIsExactUnlessLost(front);
      StepCount(Run(front).value, steps[|steps| - 1]);
    }
  }

  /** Between flushes an empty ring has nothing to count. */
  predicate NothingToLose(s: State) { Idle(s) && Buffered(s) == [] ==> s.evictions == 0 }

  lemma NothingToLoseStep(s: State, step: Step)
    requires Enabled(s, step) && NothingToLose(s) && CountExact(s) && NonEmptyFlushes(s) && OnlyLastActive(s)
    requires step == Claim ==> Idle(s)
    ensures NothingToLose(Apply(s, step))
  {
    var s' := Apply(s, step);
    match step
    case Append(skipped) => if !skipped { PushKeepsOrder(RingOf(s.entry), s.accepted); }
    case Claim => if Buffered(s) != [] { assert s'.flushes[|s.flushes|].status == Claimed; }
    case Write(f, _) => assert s'.flushes[f].status != Done;
    case Restore(f) => assert s.flushes[f].episodes != [];
    case _ =>
  }

  /** Without overlap no claim loses the count. */
  lemma {:induction false} OneAtATimeLosesNothing(steps: seq<Step>)
    requires Run(steps).Some? && OneAtATime(steps)
    ensures !CountLost(steps) && NothingToLose(Run(steps).value)
  {
    if steps != [] {
      var front := steps[..|steps| - 1];
      OneAtATimeLosesNothing(front);
      OneAtATimeIsGuarded(front);
      ClaimsAreNotEmpty(front);
      CountIsExactUnlessLost(front);
      NothingToLoseStep(Run(front).value, steps[|steps| - 1]);
    }
  }

  /** So without overlap `dropped` is always exact. */
  lemma {:induction false} DroppedIsExact(steps: seq<Step>)
    requires Run(steps).Some? && OneAtATime(steps)
    ensures CountExact(Run(steps).value)
  {
    OneAtATimeLosesNothing(steps);
    CountIsExactUnlessLost(steps);
  }

  function Appends(n: nat): seq<Step> { if n == 0 then [] else Appends(n - 1) + [Append(false)] }

  lemma {:induction false} AfterAppends(n: nat)
    ensures Run(Appends(n)).Some?
    ensures var s := Run(Appends(n)).value;
      && s.evictions == RingOf(s.entry).dropped == (if n <= MAX_EPISODES then 0 else n - MAX_EPISODES)
      && |Buffered(s)| == (if n <= MAX_EPISODES then n else MAX_EPISODES)
  {
    if n > 0 {
      AfterAppends(n - 1);
      RunSnoc(Appends(n - 1), Append(false));
    }
  }

  /** A run that loses the count. */
  lemma CountCanBeLost() returns (steps: seq<Step>)
    ensures Run(steps).Some? && CountLost(steps) && RingOf(Run(steps).value.entry).dropped < Run(steps).value.evictions
  {
    steps := Appends(MAX_EPISODES + 1);
    AfterAppends(MAX_EPISODES + 1);
    RunSnoc(steps, Claim);
    RunSnoc(steps + [Claim], Claim);
    steps := steps + [Claim] + [Claim];
    CountIsExactUnlessLost(steps);
  }
}
