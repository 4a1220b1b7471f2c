/** The loop detector of a run: a sliding window of the last responses, and a counter per
    tool call. JSON followed by SHA-256 is read as injective, so a hash is the message it
    was taken from, and a call's arguments are their JSON text. */
module LoopDetection {
  import opened Llm

  const MAX_REPETITIONS: nat := 5

  datatype Detector = Detector(counts: map<string, nat>, recent: seq<Content>)

  const FRESH := Detector(map[], [])

  /** The response without its ID, which the history assigns. */
  function Fingerprint(c: Content): Content { c.(id := "") }

  function Key(c: FunctionCall): string { c.name + ":" + c.args }

  function Times(counts: map<string, nat>, key: string): nat { if key in counts then counts[key] else 0 }

  /** Count the calls up to and including the first that exceeds the limit. */
  function CountCalls(counts: map<string, nat>, calls: seq<FunctionCall>): (r: (map<string, nat>, bool))
    decreases |calls|
  {
    if calls == [] then (counts, false)
    else
      var n := Times(counts, Key(calls[0])) + 1;
      var more := counts[Key(calls[0]) := n];
      if n > MAX_REPETITIONS then (more, true) else CountCalls(more, calls[1..])
  }

  function Remember(recent: seq<Content>, f: Content): seq<Content> {
    var more := recent + [f];
    if |more| > MAX_REPETITIONS then more[1..] else more
  }

  function Detect(d: Detector, response: Content): (Detector, bool) {
    var f := Fingerprint(response);
    if f in d.recent then (d, true)
    else
      var (counts, flagged) := CountCalls(d.counts, Calls(response));
      (Detector(counts, Remember(d.recent, f)), flagged)
  }

  lemma CallsFrom(parts: seq<Part>, i: nat)
    requires i < |parts|
    ensures CallsOf(parts[i..]) == CallOf(parts[i]) + CallsOf(parts[i + 1..])
    ensures parts[i].call.None? ==> CallsOf(parts[i..]) == CallsOf(parts[i + 1..])
    ensures parts[i].call.Some? ==>
      CallsOf(parts[i..]) != [] && CallsOf(parts[i..])[0] == parts[i].call.value &&
        CallsOf(parts[i..])[1..] == CallsOf(parts[i + 1..])
  {
    assert parts[i..][1..] == parts[i + 1..];
  }

  lemma CallsOfNothing()
    ensures CallsOf([]) == []
  {
  }

  lemma RememberIs(recent: seq<Content>, f: Content)
    ensures Remember(recent, f) == if |recent + [f]| > MAX_REPETITIONS then (recent + [f])[1..] else recent + [f]
  {
  }

  class LoopDetector {
    var toolCallCount: map<string, nat>
    var recentResponseHashes: seq<Content>
    var seenRateLimit: bool

    constructor ()
      ensures View() == FRESH && !seenRateLimit
    {
      toolCallCount, recentResponseHashes, seenRateLimit := map[], [], false;
    }

    function View(): Detector
      reads this
    {
      Detector(toolCallCount, recentResponseHashes)
    }

    method IsDuplicateResponse(currentHash: Content) returns (duplicate: bool)
      ensures duplicate <==> currentHash in recentResponseHashes
    {
      for i := 0 to |recentResponseHashes|
        invariant currentHash !in recentResponseHashes[..i]
      {
        if recentResponseHashes[i] == currentHash { return true; }
      }
      return false;
    }

    method DetectLoop(response: Content) returns (flagged: bool)
      modifies this
      ensures (View(), flagged) == Detect(old(View()), response)
      ensures seenRateLimit == old(seenRateLimit)
    {
      hide Fingerprint, Key, CallsOf, Remember;
      var currentHash := Fingerprint(response);
      var duplicate := IsDuplicateResponse(currentHash);
      if duplicate { return true; }
      recentResponseHashes := recentResponseHashes + [currentHash];
      if |recentResponseHashes| > MAX_REPETITIONS {
        recentResponseHashes := recentResponseHashes[1..];
      }
      var parts := response.parts;
      ghost var counts := toolCallCount;
      assert parts[0..] == parts;
      CallsOfNothing();
      RememberIs(old(recentResponseHashes), currentHash);
      for i := 0 to |parts|
        invariant CountCalls(counts, Calls(response)) == CountCalls(toolCallCount, CallsOf(parts[i..]))
        invariant recentResponseHashes == Remember(old(recentResponseHashes), currentHash)
        invariant seenRateLimit == old(seenRateLimit)
      {
        CallsFrom(parts, i);
        match parts[i].call {
          case None =>
          case Some(call) =>
            var key := Key(call);
            var n := (if key in toolCallCount then toolCallCount[key] else 0) + 1;
            toolCallCount := toolCallCount[key := n];
            if n > MAX_REPETITIONS { return true; }
        }
      }
      assert parts[|parts|..] == [];
      return false;
    }
  }

  // -------------------------------------------------- a run of responses

  /** The detector after a run of responses. */
  function After(rs: seq<Content>): Detector {
    if rs == [] then FRESH else Detect(After(rs[..|rs| - 1]), rs[|rs| - 1]).0
  }

  predicate Flagged(rs: seq<Content>, k: nat)
    requires k < |rs|
  {
    Detect(After(rs[..k]), rs[k]).1
  }

  predicate Duplicate(rs: seq<Content>, k: nat)
    requires k < |rs|
  {
    Fingerprint(rs[k]) in After(rs[..k]).recent
  }

  /** The fingerprints the run recorded, oldest first. */
  function Recorded(rs: seq<Content>): seq<Content> {
    if rs == [] then []
    else
      var k := |rs| - 1;
      Recorded(rs[..k]) + (if Fingerprint(rs[k]) in After(rs[..k]).recent then [] else [Fingerprint(rs[k])])
  }

  function LastFive(xs: seq<Content>): seq<Content> {
    if |xs| <= MAX_REPETITIONS then xs else xs[|xs| - MAX_REPETITIONS..]
  }

  predicate Distinct<T(==)>(xs: seq<T>) { forall j, k :: 0 <= j < k < |xs| ==> xs[j] != xs[k] }

  /** The log of a run one response longer. */
  lemma RecordedSnoc(rs: seq<Content>, k: nat)
    requires k < |rs|
    ensures Recorded(rs[..k + 1]) == Recorded(rs[..k]) + if Duplicate(rs, k) then [] else [Fingerprint(rs[k])]
    ensures After(rs[..k + 1]) == Detect(After(rs[..k]), rs[k]).0
  {
    hide Fingerprint, Detect;
    assert rs[..k + 1][..k] == rs[..k] && rs[..k + 1][k] == rs[k];
  }

  lemma WindowStep(d: Detector, r: Content)
    ensures Detect(d, r).0.recent == if Fingerprint(r) in d.recent then d.recent else Remember(d.recent, Fingerprint(r))
  {
    hide Fingerprint, Remember;
  }

  lemma LastFiveSnoc(xs: seq<Content>, f: Content)
    ensures LastFive(xs + [f]) == Remember(LastFive(xs), f)
  {
  }

  lemma DistinctRemember(xs: seq<Content>, f: Content)
    requires Distinct(xs) && |xs| <= MAX_REPETITIONS && f !in xs
    ensures Distinct(Remember(xs, f)) && |Remember(xs, f)| <= MAX_REPETITIONS
  {
  }

  /** The window is always the last five recorded responses, and they are distinct. */
  lemma {:induction false} WindowInv(rs: seq<Content>)
    ensures After(rs).recent == LastFive(Recorded(rs))
    ensures |After(rs).recent| <= MAX_REPETITIONS && Distinct(After(rs).recent)
  {
    hide Fingerprint, Detect, Remember, LastFive, Distinct;
    if rs == [] {
      EmptyWindow();
    } else {
      var k := |rs| - 1;
      WindowInv(rs[..k]);
      RecordedSnoc(rs, k);
      assert rs[..k + 1] == rs;
      var f := Fingerprint(rs[k]);
      WindowStep(After(rs[..k]), rs[k]);
      if f in After(rs[..k]).recent {
        assert Recorded(rs[..k]) + [] == Recorded(rs[..k]);
      } else {
        LastFiveSnoc(Recorded(rs[..k]), f);
        DistinctRemember(After(rs[..k]).recent, f);
      }
    }
  }

  lemma EmptyWindow()
    ensures LastFive([]) == [] && Distinct<Content>([])
  {
  }

  /** No unflagged response equals any of the previous five recorded ones. */
  lemma UnflaggedIsNew(rs: seq<Content>, k: nat)
    requires k < |rs| && !Flagged(rs, k)
    ensures Fingerprint(rs[k]) !in LastFive(Recorded(rs[..k]))
  {
    WindowInv(rs[..k]);
  }

  /** A response recorded at j is flagged when it comes back within five responses. */
  lemma RepeatIsFlagged(rs: seq<Content>, j: nat, k: nat)
    requires j < k < |rs| && k <= j + MAX_REPETITIONS
    requires !Duplicate(rs, j) && Fingerprint(rs[k]) == Fingerprint(rs[j])
    ensures Flagged(rs, k) && Duplicate(rs, k)
  {
    StillRemembered(rs, j, k);
  }

  /** f is among the last `age` entries of the window. */
  ghost predicate RememberedAt(recent: seq<Content>, f: Content, age: nat) {
    exists m | 0 <= m < |recent| :: m + age >= |recent| && recent[m] == f
  }

  lemma RememberKeeps(recent: seq<Content>, f: Content, g: Content, age: nat)
    requires RememberedAt(recent, f, age) && age < MAX_REPETITIONS
    ensures RememberedAt(Remember(recent, g), f, age + 1)
    ensures RememberedAt(recent, f, age + 1)
  {
    var m :| 0 <= m < |recent| && m + age >= |recent| && recent[m] == f;
    var now := Remember(recent, g);
    if |recent| + 1 > MAX_REPETITIONS { assert now[m - 1] == f; } else { assert now[m] == f; }
  }

  lemma {:induction false} StillRemembered(rs: seq<Content>, j: nat, k: nat)
    requires j < k <= |rs| && k <= j + MAX_REPETITIONS && !Duplicate(rs, j)
    ensures RememberedAt(After(rs[..k]).recent, Fingerprint(rs[j]), k - j)
  {
    hide Fingerprint, Detect, Remember, RememberedAt, After;
    var before, now, f := After(rs[..k - 1]).recent, After(rs[..k]).recent, Fingerprint(rs[k - 1]);
    RecordedSnoc(rs, k - 1);
    WindowStep(After(rs[..k - 1]), rs[k - 1]);
    if k == j + 1 {
      RememberNew(before, f);
    } else {
      StillRemembered(rs, j, k - 1);
      RememberKeeps(before, Fingerprint(rs[j]), f, k - 1 - j);
    }
  }

  lemma RememberNew(recent: seq<Content>, f: Content)
    ensures RememberedAt(Remember(recent, f), f, 1)
  {
    var now := Remember(recent, f);
    assert now[|now| - 1] == f;
  }

  /** A response that comes back within five responses is flagged then, unless it was already
      flagged when it came the first time: so a cycle of period at most five is flagged within
      its first period and one response. */
  lemma CycleIsFlagged(rs: seq<Content>, s: nat, period: nat)
    requires 1 <= period <= MAX_REPETITIONS && s + period < |rs|
    requires Fingerprint(rs[s + period]) == Fingerprint(rs[s])
    ensures Flagged(rs, s) || Flagged(rs, s + period)
  {
    if !Flagged(rs, s) { RepeatIsFlagged(rs, s, s + period); }
  }

  /** How many responses of the run are recorded. */
  function RecordedCount(rs: seq<Content>): nat { |Recorded(rs)| }

  /** The response at k repeats one that was recorded at j, with at most four recorded in
      between. */
  predicate RepeatsRecent(rs: seq<Content>, j: nat, k: nat)
    requires j < k < |rs|
  {
    && !Duplicate(rs, j) && Fingerprint(rs[j]) == Fingerprint(rs[k])
    && RecordedCount(rs[..k]) <= RecordedCount(rs[..j]) + MAX_REPETITIONS
  }

  lemma {:induction false} RecordedPrefix(rs: seq<Content>, j: nat, k: nat)
    requires j <= k <= |rs|
    ensures Recorded(rs[..j]) <= Recorded(rs[..k])
    decreases k
  {
    hide Recorded, Fingerprint;
    if j < k {
      RecordedPrefix(rs, j, k - 1);
      RecordedSnoc(rs, k - 1);
    }
  }

  /** The entry at n of the log of recorded responses was recorded by some response. */
  lemma {:induction false} WhoRecorded(rs: seq<Content>, k: nat, n: nat) returns (j: nat)
    requires k <= |rs| && n < RecordedCount(rs[..k])
    ensures j < k && !Duplicate(rs, j) && Fingerprint(rs[j]) == Recorded(rs[..k])[n] && RecordedCount(rs[..j]) == n
    decreases k
  {
    assert rs[..k][..k - 1] == rs[..k - 1] && rs[..k][k - 1] == rs[k - 1];
    if n < RecordedCount(rs[..k - 1]) {
      j := WhoRecorded(rs, k - 1, n);
    } else {
      j := k - 1;
    }
  }

  lemma {:induction false} RecordedAt(rs: seq<Content>, j: nat, k: nat)
    requires j < k <= |rs| && !Duplicate(rs, j)
    ensures RecordedCount(rs[..j]) < RecordedCount(rs[..k])
    ensures Recorded(rs[..k])[RecordedCount(rs[..j])] == Fingerprint(rs[j])
  {
    assert rs[..j + 1][..j] == rs[..j] && rs[..j + 1][j] == rs[j];
    RecordedPrefix(rs, j + 1, k);
    assert Recorded(rs[..j + 1]) <= Recorded(rs[..k]);
  }

  lemma LastFiveAt(log: seq<Content>, n: nat)
    requires n < |log| <= n + MAX_REPETITIONS
    ensures log[n] in LastFive(log)
  {
    assert log[n] == LastFive(log)[n - (|log| - |LastFive(log)|)];
  }

  lemma FromLastFive(log: seq<Content>, f: Content) returns (n: nat)
    requires f in LastFive(log)
    ensures n < |log| <= n + MAX_REPETITIONS && log[n] == f
  {
    var m: nat :| m < |LastFive(log)| && LastFive(log)[m] == f;
    n := |log| - |LastFive(log)| + m;
  }

  /** The duplicate test hits exactly when the response repeats a recorded one after which
      fewer than five were recorded. */
  lemma DuplicateExactly(rs: seq<Content>, k: nat)
    requires k < |rs|
    ensures Duplicate(rs, k) <==> exists j: nat | j < k :: RepeatsRecent(rs, j, k)
  {
    hide LastFive, Recorded, After, Fingerprint;
    WindowInv(rs[..k]);
    var log := Recorded(rs[..k]);
    if Duplicate(rs, k) {
      var n := FromLastFive(log, Fingerprint(rs[k]));
      var j := WhoRecorded(rs, k, n);
      assert RepeatsRecent(rs, j, k);
    }
    if j: nat :| j < k && RepeatsRecent(rs, j, k) {
      RecordedAt(rs, j, k);
      LastFiveAt(log, RecordedCount(rs[..j]));
    }
  }

  // -------------------------------------------------- a repeat that is missed

  predicate OneCallEach(x: seq<Content>) { forall i | 0 <= i < |x| :: |Calls(x[i])| == 1 }

  /** The key of a response's only call. */
  function KeyOf(r: Content): string
    requires |Calls(r)| == 1
  {
    Key(Calls(r)[0])
  }

  function Keys(x: seq<Content>): seq<string>
    requires OneCallEach(x)
  {
    seq(|x|, i requires 0 <= i < |x| => KeyOf(x[i]))
  }

  /** A response with one call that the counter has seen at most four times. */
  lemma {:induction false} OneCounted(d: Detector, r: Content)
    requires |Calls(r)| == 1 && Times(d.counts, KeyOf(r)) < MAX_REPETITIONS
    ensures Detect(d, r) == if Fingerprint(r) in d.recent then (d, true)
      else (Detector(d.counts[KeyOf(r) := Times(d.counts, KeyOf(r)) + 1], Remember(d.recent, Fingerprint(r))), false)
  {
    hide Fingerprint, Key, Remember, CallsOf;
    var calls := Calls(r);
    var more := d.counts[Key(calls[0]) := Times(d.counts, Key(calls[0])) + 1];
    assert calls[1..] == [] && CountCalls(more, []) == (more, false);
  }

  function Prints(x: seq<Content>): seq<Content> { seq(|x|, i requires 0 <= i < |x| => Fingerprint(x[i])) }

  lemma {:induction false} SamePrintSameCalls(a: Content, b: Content)
    ensures Fingerprint(a) == Fingerprint(b) ==> Calls(a) == Calls(b)
  {
  }

  lemma {:induction false} NewKeyNewPrint(rs: seq<Content>, i: nat, j: nat)
    requires OneCallEach(rs) && i < |rs| && j < |rs| && Keys(rs)[i] != Keys(rs)[j]
    ensures Fingerprint(rs[i]) != Fingerprint(rs[j])
  {
    SamePrintSameCalls(rs[i], rs[j]);
  }

  lemma {:induction false} RememberShort(xs: seq<Content>, f: Content)
    requires |xs| < MAX_REPETITIONS
    ensures Remember(xs, f) == xs + [f]
  {
  }

  /** Up to five new responses with new calls are all recorded, and none is flagged. */
  lemma {:induction false} AllNew(x: seq<Content>, k: nat)
    requires OneCallEach(x) && Distinct(Keys(x)) && k <= |x| && k <= MAX_REPETITIONS
    ensures After(x[..k]).recent == Prints(x)[..k]
    ensures forall key :: Times(After(x[..k]).counts, key) == if key in Keys(x)[..k] then 1 else 0
    ensures forall i | 0 <= i < k :: !Flagged(x, i)
  {
    hide Fingerprint, After, Distinct, Remember, Detect, Calls, Prints, Keys;
    if k == 0 {
      assert x[..0] == [];
      AfterNothing();
    } else {
      AllNew(x, k - 1);
      NewAmong(x, k - 1);
      RecordedSnoc(x, k - 1);
      OneCounted(After(x[..k - 1]), x[k - 1]);
      RememberShort(Prints(x)[..k - 1], Fingerprint(x[k - 1]));
      assert Keys(x)[..k] == Keys(x)[..k - 1] + [Keys(x)[k - 1]];
      assert Prints(x)[..k] == Prints(x)[..k - 1] + [Prints(x)[k - 1]];
    }
  }

  /** Among responses with distinct calls, neither call nor fingerprint of one occurs before. */
  lemma {:induction false} NewAmong(x: seq<Content>, k: nat)
    requires OneCallEach(x) && Distinct(Keys(x)) && k < |x|
    ensures |Keys(x)| == |Prints(x)| == |x| && Keys(x)[k] == KeyOf(x[k]) && Prints(x)[k] == Fingerprint(x[k])
    ensures Keys(x)[k] !in Keys(x)[..k] && Fingerprint(x[k]) !in Prints(x)[..k]
    ensures forall i | 0 <= i < |x| && i != k :: Keys(x)[i] != Keys(x)[k] && Prints(x)[i] != Prints(x)[k]
  {
    hide Fingerprint, KeyOf;
    forall i | 0 <= i < |x| && i != k ensures Keys(x)[i] != Keys(x)[k] && Prints(x)[i] != Prints(x)[k] {
      NewKeyNewPrint(x, i, k);
    }
  }

  lemma AfterNothing()
    ensures After([]) == FRESH
  {
  }

  /** The first return after a flagged one can go unnoticed: of a, b, c, d, e, a, f, a, each a
      message with a call of its own, the response at 5 is flagged, and its repeat at 7 is
      not, nor is any other. */
  lemma RepeatCanBeMissed(x: seq<Content>) returns (rs: seq<Content>)
    requires |x| == 6 && OneCallEach(x) && Distinct(Keys(x))
    ensures rs == x[..5] + [x[0], x[5], x[0]]
    ensures Flagged(rs, 5) && forall k | 0 <= k < 8 && k != 5 :: !Flagged(rs, k)
  {
    hide Fingerprint, After, Detect, Distinct, Flagged, Calls, OneCallEach, Keys, Prints;
    rs := x[..5] + [x[0], x[5], x[0]];
    AllNew(x, 5);
    forall k | 0 <= k < 5 ensures !Flagged(rs, k) { SameStart(x, rs, k); }
    assert rs[..5] == x[..5];
    Missed(x, rs);
  }

  lemma SameStart(x: seq<Content>, rs: seq<Content>, k: nat)
    requires k < |x| && k < |rs| && x[..k + 1] == rs[..k + 1]
    ensures Flagged(x, k) == Flagged(rs, k)
  {
    assert x[k] == x[..k + 1][k] && x[..k] == x[..k + 1][..k];
    assert rs[k] == rs[..k + 1][k] && rs[..k] == rs[..k + 1][..k];
  }

  lemma Missed(x: seq<Content>, rs: seq<Content>)
    requires |x| == 6 && OneCallEach(x) && Distinct(Keys(x)) && rs == x[..5] + [x[0], x[5], x[0]]
    requires After(rs[..5]).recent == Prints(x)[..5]
    requires forall key :: Times(After(rs[..5]).counts, key) == if key in Keys(x)[..5] then 1 else 0
    ensures Flagged(rs, 5) && !Flagged(rs, 6) && !Flagged(rs, 7)
  {
    hide Fingerprint, After, Distinct, Remember, Detect, Calls, Keys, Prints, KeyOf;
    NewAmong(x, 0);
    NewAmong(x, 5);
    var (keys, prints) := (Keys(x), Prints(x));
    assert keys[..5][0] == keys[0] && prints[..5][0] == prints[0];
    RecordedSnoc(rs, 5);
    RecordedSnoc(rs, 6);
    OneCounted(After(rs[..5]), rs[5]);
    OneCounted(After(rs[..6]), rs[6]);
    Pushed(prints);
    OneCounted(After(rs[..7]), rs[7]);
  }

  lemma {:induction false} Pushed(p: seq<Content>)
    requires |p| == 6 && forall i | 0 < i < 6 :: p[i] != p[0]
    ensures Remember(p[..5], p[5]) == p[1..] && p[0] !in p[1..]
  {
    assert Remember(p[..5], p[5]) == p[1..];
  }

  // -------------------------------------------------- the call counter

  function Occurrences(calls: seq<FunctionCall>, key: string): nat {
    if calls == [] then 0 else (if Key(calls[0]) == key then 1 else 0) + Occurrences(calls[1..], key)
  }

  lemma {:induction false} CountCallsAt(counts: map<string, nat>, calls: seq<FunctionCall>, key: string)
    ensures Times(CountCalls(counts, calls).0, key) >= Times(counts, key)
    ensures !CountCalls(counts, calls).1 ==>
      && Times(CountCalls(counts, calls).0, key) == Times(counts, key) + Occurrences(calls, key)
      && (Occurrences(calls, key) > 0 ==> Times(CountCalls(counts, calls).0, key) <= MAX_REPETITIONS)
    decreases |calls|
  {
    if calls != [] {
      var n := Times(counts, Key(calls[0])) + 1;
      var more := counts[Key(calls[0]) := n];
      if n <= MAX_REPETITIONS { CountCallsAt(more, calls[1..], key); }
    }
  }

  /** How often a key occurs in the unflagged responses of a run. */
  function Accepted(rs: seq<Content>, key: string): nat {
    if rs == [] then 0
    else
      var k := |rs| - 1;
      Accepted(rs[..k], key) + (if Detect(After(rs[..k]), rs[k]).1 then 0 else Occurrences(Calls(rs[k]), key))
  }

  /** One detection, seen from a key whose count so far is at most the limit. */
  lemma {:induction false} DetectBound(d: Detector, response: Content, key: string, accepted: nat)
    requires accepted <= Times(d.counts, key) && accepted <= MAX_REPETITIONS
    ensures var (after, flagged) := Detect(d, response);
      var accepted' := if flagged then accepted else accepted + Occurrences(Calls(response), key);
      accepted' <= Times(after.counts, key) && accepted' <= MAX_REPETITIONS
  {
    CountCallsAt(d.counts, Calls(response), key);
  }

  /** No tool call, by name and arguments, occurs more than five times in the unflagged
      responses of a run. */
  lemma {:induction false} AcceptedBound(rs: seq<Content>, key: string)
    ensures Accepted(rs, key) <= MAX_REPETITIONS
    ensures Accepted(rs, key) <= Times(After(rs).counts, key)
  {
    if rs != [] {
      AcceptedBound(rs[..|rs| - 1], key);
      DetectBound(After(rs[..|rs| - 1]), rs[|rs| - 1], key, Accepted(rs[..|rs| - 1], key));
    }
  }
}
