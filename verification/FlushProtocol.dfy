/** Flushing one session's ring while turns go on appending to it: the write happens outside
    the lock, so a flush is several steps, and flushes may overlap. Episodes are numbered in
    the order in which they were accepted. */
module FlushProtocol {
  import opened Llm
  import opened SessionBuffer

  /** The session's entry in the table of buffers. */
  type Entry<T> = Option<Ring<T>>

  function RingOf<T>(e: Entry<T>): Ring<T> { if e.Some? then e.value else Ring([], 0) }

  /** Appending creates the entry, even for an episode that is skipped. */
  function Appended<T>(e: Entry<T>, x: Option<T>): Entry<T> {
    Some(Offered(RingOf(e), x))
  }

  /** A claim empties the ring but keeps its entry; nothing to claim removes the entry. */
  function AfterClaim<T>(e: Entry<T>): Entry<T> {
    if e.None? || e.value.episodes == [] then None else Some(Emptied(e.value))
  }

  function AfterRestore<T>(e: Entry<T>, claimed: seq<T>): Entry<T> { Some(Restored(RingOf(e), claimed)) }

  function AfterSuccess<T>(e: Entry<T>): Entry<T> {
    if e.None? || e.value.episodes == [] then None else Some(e.value.(dropped := 0))
  }

  datatype Status = Claimed | Succeeded | Failed | Done
  datatype Flush = Flush(episodes: seq<nat>, status: Status)

  /** The entry, the flushes so far, and where episodes went: `accepted` of them in all, some
      written, evicted by the bound, or discarded without a write. `evictions` counts those
      since the retention window opened. */
  datatype State = State(
    entry: Entry<nat>,
    flushes: seq<Flush>,
    accepted: nat,
    written: seq<nat>,
    evicted: seq<nat>,
    discarded: seq<nat>,
    evictions: nat)

  const INITIAL := State(None, [], 0, [], [], [], 0)

  /** Append: a turn's episode enters, or is skipped as blank. Claim: a flush takes the ring.
      ClaimDisabled: memory is switched off, the buffer is drained and dropped. NoClient: no
      client to write with, the claim and the buffer are dropped. Write: the outcome of the
      batch write. Restore and Finalize: what a flush does about its outcome. */
  datatype Step =
    | Append(skipped: bool)
    | Claim
    | ClaimDisabled
    | NoClient(f: nat)
    | Write(f: nat, ok: bool)
    | Restore(f: nat)
    | Finalize(f: nat)

  function Buffered(s: State): seq<nat> { RingOf(s.entry).episodes }

  predicate Has(s: State, f: nat, status: Status) { f < |s.flushes| && s.flushes[f].status == status }

  predicate Enabled(s: State, step: Step) {
    match step
    case Append(_) => true
    case Claim => true
    case ClaimDisabled => true
    case NoClient(f) => Has(s, f, Claimed)
    case Write(f, _) => Has(s, f, Claimed)
    case Restore(f) => Has(s, f, Failed)
    case Finalize(f) => Has(s, f, Succeeded)
  }

  function Marked(s: State, f: nat, status: Status): seq<Flush>
    requires f < |s.flushes|
  {
    s.flushes[f := s.flushes[f].(status := status)]
  }

  function Apply(s: State, step: Step): State
    requires Enabled(s, step)
  {
    match step
    case Append(true) => s.(entry := Appended(s.entry, None))
    case Append(false) =>
      var gone := Evicted(RingOf(s.entry), s.accepted);
      s.(entry := Appended(s.entry, Some(s.accepted)), accepted := s.accepted + 1,
         evicted := s.evicted + gone, evictions := s.evictions + |gone|)
    case Claim =>
      s.(entry := AfterClaim(s.entry),
         flushes := if Buffered(s) == [] then s.flushes else s.flushes + [Flush(Buffered(s), Claimed)])
    case ClaimDisabled => s.(entry := None, discarded := s.discarded + Buffered(s), evictions := 0)
    case NoClient(f) =>
      s.(entry := None, flushes := Marked(s, f, Done),
         discarded := s.discarded + s.flushes[f].episodes + Buffered(s), evictions := 0)
    case Write(f, ok) =>
      if ok then s.(flushes := Marked(s, f, Succeeded), written := s.written + s.flushes[f].episodes)
      else s.(flushes := Marked(s, f, Failed))
    case Restore(f) => s.(entry := AfterRestore(s.entry, s.flushes[f].episodes), flushes := Marked(s, f, Done))
    case Finalize(f) => s.(entry := AfterSuccess(s.entry), flushes := Marked(s, f, Done), evictions := 0)
  }

  /** The state after a run, if every step was enabled. */
  function Run(steps: seq<Step>): Option<State> {
    if steps == [] then Some(INITIAL)
    else
      var before := Run(steps[..|steps| - 1]);
      var step := steps[|steps| - 1];
      if before.Some? && Enabled(before.value, step) then Some(Apply(before.value, step)) else None
  }

  lemma {:induction false} RunSnoc(steps: seq<Step>, step: Step)
    requires Run(steps).Some? && Enabled(Run(steps).value, step)
    ensures Run(steps + [step]) == Some(Apply(Run(steps).value, step))
  {
    assert (steps + [step])[..|steps|] == steps;
  }

  // ---------------------------------------------------------------- conservation

  function Count(xs: seq<nat>, id: nat): nat {
    if xs == [] then 0 else (if xs[0] == id then 1 else 0) + Count(xs[1..], id)
  }

  lemma {:induction false} CountConcat(a: seq<nat>, b: seq<nat>, id: nat)
    ensures Count(a + b, id) == Count(a, id) + Count(b, id)
  {
    if a == [] {
      assert a + b == b;
    } else {
      assert (a + b)[1..] == a[1..] + b;
      CountConcat(a[1..], b, id);
    }
  }

  lemma {:induction false} CountOne(x: nat, id: nat)
    ensures Count([x], id) == if x == id then 1 else 0
  {
    assert [x][1..] == [];
  }

  /** The episodes a flush holds outside the ring and not yet written. */
  function Holding(f: Flush): seq<nat> { if f.status == Claimed || f.status == Failed then f.episodes else [] }

  /** How often an episode is held by flushes. */
  function HeldCount(fs: seq<Flush>, id: nat): nat {
    if fs == [] then 0 else HeldCount(fs[..|fs| - 1], id) + Count(Holding(fs[|fs| - 1]), id)
  }

  lemma {:induction false} HeldUpdate(fs: seq<Flush>, f: nat, x: Flush, id: nat)
    requires f < |fs|
    ensures HeldCount(fs[f := x], id) + Count(Holding(fs[f]), id) == HeldCount(fs, id) + Count(Holding(x), id)
    decreases |fs|
  {
    var n := |fs| - 1;
    if f == n {
      assert fs[f := x][..n] == fs[..n];
    } else {
      assert fs[f := x][..n] == fs[..n][f := x];
      HeldUpdate(fs[..n], f, x, id);
    }
  }

  lemma {:induction false} HeldCountSnoc(fs: seq<Flush>, x: Flush, id: nat)
    ensures HeldCount(fs + [x], id) == HeldCount(fs, id) + Count(Holding(x), id)
  {
    assert (fs + [x])[..|fs|] == fs;
  }

  /** In how many places an episode is. */
  function Places(s: State, id: nat): nat {
    Count(Buffered(s), id) + HeldCount(s.flushes, id) + Count(s.written, id) + Count(s.evicted, id) +
      Count(s.discarded, id)
  }

  lemma {:induction false} PushCounts(r: Ring<nat>, x: nat, id: nat)
    ensures Count(Evicted(r, x), id) + Count(Push(r, x).episodes, id) == Count(r.episodes, id) + if x == id then 1
      else 0
  {
    PushKeepsOrder(r, x);
    CountConcat(Evicted(r, x), Push(r, x).episodes, id);
    CountConcat(r.episodes, [x], id);
    CountOne(x, id);
  }

  lemma ClaimConserves(s: State, id: nat)
    ensures Places(Apply(s, Claim), id) == Places(s, id)
  {
    HeldCountSnoc(s.flushes, Flush(Buffered(s), Claimed), id);
  }

  lemma AppendConserves(s: State, id: nat)
    ensures Places(Apply(s, Append(false)), id) == Places(s, id) + if id == s.accepted then 1 else 0
  {
    PushCounts(RingOf(s.entry), s.accepted, id);
    CountConcat(s.evicted, Evicted(RingOf(s.entry), s.accepted), id);
  }

  lemma WriteConserves(s: State, f: nat, ok: bool, id: nat)
    requires Has(s, f, Claimed)
    ensures Places(Apply(s, Write(f, ok)), id) == Places(s, id)
  {
    var eps := s.flushes[f].episodes;
    HeldUpdate(s.flushes, f, Flush(eps, if ok then Succeeded else Failed), id);
    CountConcat(s.written, eps, id);
  }

  lemma RestoreConserves(s: State, f: nat, id: nat)
    requires Has(s, f, Failed)
    ensures Places(Apply(s, Restore(f)), id) == Places(s, id)
  {
    var eps := s.flushes[f].episodes;
    HeldUpdate(s.flushes, f, Flush(eps, Done), id);
    CountConcat(eps, Buffered(s), id);
  }

  lemma FinalizeConserves(s: State, f: nat, id: nat)
    requires Has(s, f, Succeeded)
    ensures Places(Apply(s, Finalize(f)), id) == Places(s, id)
  {
    HeldUpdate(s.flushes, f, Flush(s.flushes[f].episodes, Done), id);
  }

  lemma NoClientConserves(s: State, f: nat, id: nat)
    requires Has(s, f, Claimed)
    ensures Places(Apply(s, NoClient(f)), id) == Places(s, id)
  {
    var eps := s.flushes[f].episodes;
    HeldUpdate(s.flushes, f, Flush(eps, Done), id);
    CountConcat(s.discarded, eps, id);
    CountConcat(s.discarded + eps, Buffered(s), id);
  }

  lemma StepConserves(s: State, step: Step, id: nat)
    requires Enabled(s, step)
    ensures Places(Apply(s, step), id) == Places(s, id) + if step == Append(false) && id == s.accepted then 1 else 0
  {
    match step
    case Append(skipped) => if !skipped { AppendConserves(s, id); }
    case Claim => ClaimConserves(s, id);
    case ClaimDisabled => CountConcat(s.discarded, Buffered(s), id);
    case NoClient(f) => NoClientConserves(s, f, id);
    case Write(f, ok) => WriteConserves(s, f, ok, id);
    case Restore(f) => RestoreConserves(s, f, id);
    case Finalize(f) => FinalizeConserves(s, f, id);
  }

  /** However appends and flushes interleave, every accepted episode is in exactly one place:
      buffered, held by one flush, written once, evicted, or discarded. */
  lemma {:induction false} Conservation(steps: seq<Step>, id: nat)
    requires Run(steps).Some?
    ensures Places(Run(steps).value, id) == if id < Run(steps).value.accepted then 1 else 0
  {
    if steps == [] {
      assert HeldCount([], id) == 0;
    } else {
      var front := steps[..|steps| - 1];
      Conservation(front, id);
      StepConserves(Run(front).value, steps[|steps| - 1], id);
    }
  }

  /** No two flushes write the same episode, and nothing evicted or discarded is written. */
  lemma {:induction false} WrittenOnce(steps: seq<Step>, id: nat)
    requires Run(steps).Some?
    ensures Count(Run(steps).value.written, id) <= 1
    ensures Count(Run(steps).value.written, id) == 1 ==>
      Count(Run(steps).value.evicted, id) == 0 && Count(Run(steps).value.discarded, id) == 0
  {
    Conservation(steps, id);
  }
}
