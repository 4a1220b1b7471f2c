/** The loop detector told without its hashes and keys: by role, parts, and the names and
    arguments of calls. */
module LoopCounts {
  import opened Llm
  import opened LoopDetection

  predicate SameCall(c: FunctionCall, d: FunctionCall) { c.name == d.name && c.args == d.args }

  predicate SameMessage(a: Content, b: Content) { a.role == b.role && a.parts == b.parts }

  /** How many of the calls have the name and the arguments of c. */
  function CountCall(calls: seq<FunctionCall>, c: FunctionCall): nat {
    if calls == [] then 0
    else CountCall(calls[..|calls| - 1], c) + if SameCall(calls[|calls| - 1], c) then 1 else 0
  }

  predicate ColonFree(calls: seq<FunctionCall>) { forall c | c in calls :: ':' !in c.name }

  // ---------------------------------------------------------------- repeats

  /** The response at k has the role and parts of an earlier one that is no repeat itself,
      and at most four more that are none came between. */
  ghost predicate Repeats(rs: seq<Content>, k: nat)
    requires k < |rs|
    decreases k, 1
  {
    exists j: nat | j < k :: !Repeats(rs, j) && SameMessage(rs[j], rs[k]) && News(rs, j, k) <= 5
  }

  /** How many of the responses from j on, below k, are no repeats. */
  ghost function News(rs: seq<Content>, j: nat, k: nat): nat
    requires j <= k <= |rs|
    decreases k, 0
  {
    if j == k then 0 else News(rs, j, k - 1) + if Repeats(rs, k - 1) then 0 else 1
  }

  lemma {:induction false} PrintIsMessage(a: Content, b: Content)
    ensures Fingerprint(a) == Fingerprint(b) <==> SameMessage(a, b)
  {
  }

  lemma {:induction false} CountedNews(rs: seq<Content>, j: nat, k: nat)
    requires j <= k <= |rs|
    requires forall i | j <= i < k :: Duplicate(rs, i) <==> Repeats(rs, i)
    ensures RecordedCount(rs[..k]) == RecordedCount(rs[..j]) + News(rs, j, k)
    decreases k
  {
    hide Recorded, Duplicate, Repeats, After, Detect, Fingerprint;
    if j < k {
      CountedNews(rs, j, k - 1);
      RecordedSnoc(rs, k - 1);
      assert Duplicate(rs, k - 1) <==> Repeats(rs, k - 1);
    }
  }

  /** The duplicate test, by role and parts. */
  lemma {:induction false} DuplicateIsRepeat(rs: seq<Content>, k: nat)
    requires k < |rs|
    ensures Duplicate(rs, k) <==> Repeats(rs, k)
    decreases k
  {
    hide Duplicate, Fingerprint, RecordedCount;
    forall j: nat | j < k ensures Duplicate(rs, j) <==> Repeats(rs, j) { DuplicateIsRepeat(rs, j); }
    DuplicateExactly(rs, k);
    forall j: nat | j < k
      ensures RepeatsRecent(rs, j, k) <==> !Repeats(rs, j) && SameMessage(rs[j], rs[k]) && News(rs, j, k) <= 5
    {
      PrintIsMessage(rs[j], rs[k]);
      CountedNews(rs, j, k);
    }
  }

  // ---------------------------------------------------------------- counts

  /** Of names without a colon, the key tells names and arguments apart. */
  lemma {:induction false} KeyTells(c: FunctionCall, d: FunctionCall)
    requires ':' !in c.name && ':' !in d.name
    ensures Key(c) == Key(d) <==> SameCall(c, d)
  {
    var (m, n) := (|c.name|, |d.name|);
    assert Key(c)[m] == ':' && Key(d)[n] == ':';
    if m < n {
      assert Key(d)[m] == d.name[m];
    } else if n < m {
      assert Key(c)[n] == c.name[n];
    } else {
      assert c.name == Key(c)[..m] && d.name == Key(d)[..m];
      assert c.args == Key(c)[m + 1..] && d.args == Key(d)[m + 1..];
    }
  }

  /** With colons, two different calls can share a key. */
  lemma KeysCanCollide(id: string, a: string, b: string, args: string)
    ensures var (c, d) := (FunctionCall(id, a + ":" + b, args), FunctionCall(id, a, b + ":" + args));
      Key(c) == Key(d) && !SameCall(c, d)
  {
    assert a + ":" + b + ":" + args == a + ":" + (b + ":" + args);
    assert |a + ":" + b| > |a|;
  }

  /** The log with the calls that the detector counts: up to the first that is there more than
      five times. */
  function Seen(log: seq<FunctionCall>, calls: seq<FunctionCall>): seq<FunctionCall>
    decreases |calls|
  {
    if calls == [] then log
    else
      var more := log + [calls[0]];
      if CountCall(more, calls[0]) > 5 then more else Seen(more, calls[1..])
  }

  /** The calls that were counted in a run. */
  ghost function Log(rs: seq<Content>): seq<FunctionCall> {
    if rs == [] then []
    else
      var k := |rs| - 1;
      if Repeats(rs, k) then Log(rs[..k]) else Seen(Log(rs[..k]), Calls(rs[k]))
  }

  ghost predicate Agrees(counts: map<string, nat>, log: seq<FunctionCall>) {
    ColonFree(log) && forall c: FunctionCall | ':' !in c.name :: Times(counts, Key(c)) == CountCall(log, c)
  }

  lemma {:induction false} CountSnoc(log: seq<FunctionCall>, d: FunctionCall, c: FunctionCall)
    ensures CountCall(log + [d], c) == CountCall(log, c) + if SameCall(d, c) then 1 else 0
  {
    assert (log + [d])[..|log|] == log;
  }

  lemma {:induction false} CountGrows(log: seq<FunctionCall>, more: seq<FunctionCall>, c: FunctionCall)
    ensures CountCall(log + more, c) == CountCall(log, c) + CountCall(more, c)
    decreases |more|
  {
    if more == [] {
      assert log + more == log;
    } else {
      var n := |more| - 1;
      assert log + more == log + more[..n] + [more[n]];
      CountGrows(log, more[..n], c);
      CountSnoc(log + more[..n], more[n], c);
    }
  }

  lemma {:induction false} CountFound(calls: seq<FunctionCall>, c: FunctionCall) returns (d: FunctionCall)
    requires CountCall(calls, c) > 0
    ensures d in calls && SameCall(d, c)
  {
    var n := |calls| - 1;
    if SameCall(calls[n], c) { d := calls[n]; } else { d := CountFound(calls[..n], c); }
  }

  lemma {:induction false} CountSame(calls: seq<FunctionCall>, c: FunctionCall, d: FunctionCall)
    requires SameCall(c, d)
    ensures CountCall(calls, c) == CountCall(calls, d)
  {
    if calls != [] { CountSame(calls[..|calls| - 1], c, d); }
  }

  lemma {:induction false} AgreesSnoc(counts: map<string, nat>, log: seq<FunctionCall>, d: FunctionCall)
    requires Agrees(counts, log) && ':' !in d.name
    ensures Agrees(counts[Key(d) := Times(counts, Key(d)) + 1], log + [d])
  {
    hide Key;
    var more := counts[Key(d) := Times(counts, Key(d)) + 1];
    forall c: FunctionCall | ':' !in c.name ensures Times(more, Key(c)) == CountCall(log + [d], c) {
      CountSnoc(log, d, c);
      KeyTells(d, c);
    }
  }

  /** Some call is there more than five times. */
  predicate Exceeds(log: seq<FunctionCall>, calls: seq<FunctionCall>) {
    exists c | c in calls :: CountCall(log + calls, c) > 5
  }

  lemma {:induction false} ExceedsNow(log: seq<FunctionCall>, calls: seq<FunctionCall>)
    requires calls != [] && CountCall(log + [calls[0]], calls[0]) > 5
    ensures Exceeds(log, calls)
  {
    assert log + calls == log + [calls[0]] + calls[1..];
    CountGrows(log + [calls[0]], calls[1..], calls[0]);
    assert calls[0] in calls;
  }

  lemma {:induction false} ExceedsLater(log: seq<FunctionCall>, calls: seq<FunctionCall>)
    requires calls != [] && CountCall(log + [calls[0]], calls[0]) <= 5
    ensures Exceeds(log, calls) <==> Exceeds(log + [calls[0]], calls[1..])
  {
    var (more, rest) := (log + [calls[0]], calls[1..]);
    assert log + calls == more + rest;
    assert calls == [calls[0]] + rest;
    if Exceeds(log, calls) {
      var c :| c in calls && CountCall(log + calls, c) > 5;
      if c !in rest {
        CountGrows(more, rest, c);
        var d := CountFound(rest, c);
        CountSame(more + rest, d, c);
      }
    }
  }

  lemma {:induction false} CountsAreSeen(counts: map<string, nat>, log: seq<FunctionCall>, calls: seq<FunctionCall>)
    requires Agrees(counts, log) && ColonFree(calls)
    ensures Agrees(CountCalls(counts, calls).0, Seen(log, calls))
    ensures CountCalls(counts, calls).1 <==> Exceeds(log, calls)
    decreases |calls|
  {
    hide Key, Agrees, Exceeds;
    if calls == [] {
      NothingExceeds(log);
    } else {
      var c := calls[0];
      var more := counts[Key(c) := Times(counts, Key(c)) + 1];
      AgreesSnoc(counts, log, c);
      AgreesAt(more, log + [c], c);
      if CountCall(log + [c], c) > 5 {
        ExceedsNow(log, calls);
      } else {
        ExceedsLater(log, calls);
        CountsAreSeen(more, log + [c], calls[1..]);
      }
    }
  }

  lemma {:induction false} AgreesAt(counts: map<string, nat>, log: seq<FunctionCall>, c: FunctionCall)
    requires Agrees(counts, log) && ':' !in c.name
    ensures Times(counts, Key(c)) == CountCall(log, c)
  {
  }

  lemma {:induction false} NothingExceeds(log: seq<FunctionCall>)
    ensures !Exceeds(log, [])
  {
  }

  predicate AllColonFree(rs: seq<Content>) { forall r | r in rs :: ColonFree(Calls(r)) }

  lemma {:induction false} LogAgrees(rs: seq<Content>)
    requires AllColonFree(rs)
    ensures Agrees(After(rs).counts, Log(rs))
  {
    hide Calls, Fingerprint, Remember, Repeats, Agrees, CountCalls;
    if rs == [] {
      NothingCounted();
    } else {
      var k := |rs| - 1;
      LogAgrees(rs[..k]);
      DuplicateIsRepeat(rs, k);
      assert ColonFree(Calls(rs[k]));
      CountsAreSeen(After(rs[..k]).counts, Log(rs[..k]), Calls(rs[k]));
    }
  }

  lemma {:induction false} NothingCounted()
    ensures Agrees(After([]).counts, Log([]))
  {
  }

  /** A response is flagged exactly when it repeats a recent one by role and parts, or when one
      of its calls is there, by name and arguments, more than five times among the calls
      counted before and its own. */
  lemma {:induction false} FlaggedExactly(rs: seq<Content>, k: nat)
    requires k < |rs| && AllColonFree(rs)
    ensures Flagged(rs, k) <==> Repeats(rs, k) || Exceeds(Log(rs[..k]), Calls(rs[k]))
  {
    hide Calls, Fingerprint, Remember, Repeats, Agrees, CountCalls, Exceeds, After, Log;
    DuplicateIsRepeat(rs, k);
    LogAgrees(rs[..k]);
    assert ColonFree(Calls(rs[k]));
    CountsAreSeen(After(rs[..k]).counts, Log(rs[..k]), Calls(rs[k]));
  }

  // ---------------------------------------------------------------- the plain count

  /** All calls of the responses that are no repeats. */
  ghost function NewCalls(rs: seq<Content>): seq<FunctionCall> {
    if rs == [] then []
    else NewCalls(rs[..|rs| - 1]) + if Repeats(rs, |rs| - 1) then [] else Calls(rs[|rs| - 1])
  }

  lemma {:induction false} SeenAll(log: seq<FunctionCall>, calls: seq<FunctionCall>)
    ensures !Exceeds(log, calls) ==> Seen(log, calls) == log + calls
    decreases |calls|
  {
    hide Exceeds;
    if calls == [] {
      assert log + calls == log;
    } else {
      if CountCall(log + [calls[0]], calls[0]) > 5 { ExceedsNow(log, calls); } else { ExceedsLater(log, calls); }
      SeenAll(log + [calls[0]], calls[1..]);
      assert log + calls == log + [calls[0]] + calls[1..];
    }
  }

  /** While no new response was flagged, the detector has counted every call of every new one. */
  lemma {:induction false} AllAreCounted(rs: seq<Content>)
    requires AllColonFree(rs) && forall i | 0 <= i < |rs| && !Repeats(rs, i) :: !Flagged(rs, i)
    ensures Log(rs) == NewCalls(rs)
  {
    hide Calls, Flagged, Exceeds, Repeats, Seen;
    if rs != [] {
      var k := |rs| - 1;
      forall i | 0 <= i < k ensures Repeats(rs[..k], i) == Repeats(rs, i) && Flagged(rs[..k], i) == Flagged(rs, i) {
        RepeatsPrefix(rs, i, k);
        FlaggedPrefix(rs, i, k);
      }
      AllAreCounted(rs[..k]);
      FlaggedExactly(rs, k);
      SeenAll(Log(rs[..k]), Calls(rs[k]));
      assert NewCalls(rs[..k]) + [] == NewCalls(rs[..k]);
    }
  }

  lemma {:induction false} FlaggedPrefix(rs: seq<Content>, i: nat, k: nat)
    requires i < k <= |rs|
    ensures Flagged(rs[..k], i) == Flagged(rs, i)
  {
    assert rs[..k][..i] == rs[..i] && rs[..k][i] == rs[i];
  }

  lemma {:induction false} RepeatsPrefix(rs: seq<Content>, i: nat, k: nat)
    requires i < k <= |rs|
    ensures Repeats(rs[..k], i) == Repeats(rs, i)
  {
    hide Duplicate, Repeats;
    DuplicateIsRepeat(rs[..k], i);
    DuplicateIsRepeat(rs, i);
    DuplicatePrefix(rs, i, k);
  }

  lemma {:induction false} DuplicatePrefix(rs: seq<Content>, i: nat, k: nat)
    requires i < k <= |rs|
    ensures Duplicate(rs[..k], i) == Duplicate(rs, i)
  {
    assert rs[..k][..i] == rs[..i] && rs[..k][i] == rs[i];
  }

  /** So until a response is flagged for its calls, the plain count decides. */
  lemma {:induction false} PlainCountDecides(rs: seq<Content>, k: nat)
    requires k < |rs| && AllColonFree(rs) && !Repeats(rs, k)
    requires forall i | 0 <= i < k && !Repeats(rs, i) :: !Flagged(rs, i)
    ensures Flagged(rs, k) <==> exists c | c in Calls(rs[k]) :: CountCall(NewCalls(rs[..k]) + Calls(rs[k]), c) > 5
  {
    hide Calls, Flagged, Repeats, NewCalls;
    FlaggedExactly(rs, k);
    forall i | 0 <= i < k ensures Repeats(rs[..k], i) == Repeats(rs, i) && Flagged(rs[..k], i) == Flagged(rs, i) {
      RepeatsPrefix(rs, i, k);
      FlaggedPrefix(rs, i, k);
    }
    AllAreCounted(rs[..k]);
  }

  // ---------------------------------------------------------------- different calls

  /** Every response has a call, and no two calls of the run agree in name and arguments. */
  predicate DifferentCalls(rs: seq<Content>) {
    && (forall i | 0 <= i < |rs| :: Calls(rs[i]) != [])
    && forall i, j | 0 <= i < |rs| && 0 <= j < |rs| :: Apart(Calls(rs[i]), Calls(rs[j]), i == j)
  }

  predicate Apart(a: seq<FunctionCall>, b: seq<FunctionCall>, same: bool) {
    forall x, y | 0 <= x < |a| && 0 <= y < |b| && !(same && x == y) :: !SameCall(a[x], b[y])
  }

  lemma {:induction false} CountNone(calls: seq<FunctionCall>, c: FunctionCall)
    requires forall x | 0 <= x < |calls| :: !SameCall(calls[x], c)
    ensures CountCall(calls, c) == 0
  {
    if calls != [] { CountNone(calls[..|calls| - 1], c); }
  }

  lemma {:induction false} CountOnce(calls: seq<FunctionCall>, x: nat)
    requires x < |calls| && forall y | 0 <= y < |calls| && y != x :: !SameCall(calls[y], calls[x])
    ensures CountCall(calls, calls[x]) == 1
  {
    var n := |calls| - 1;
    if x == n { CountNone(calls[..n], calls[x]); } else { CountOnce(calls[..n], x); }
  }

  lemma {:induction false} CountBefore(rs: seq<Content>, k: nat, c: FunctionCall)
    requires k <= |rs|
    requires forall i | 0 <= i < k :: forall x | 0 <= x < |Calls(rs[i])| :: !SameCall(Calls(rs[i])[x], c)
    ensures CountCall(NewCalls(rs[..k]), c) == 0
  {
    hide Calls, Repeats;
    if k > 0 {
      CountBefore(rs, k - 1, c);
      assert rs[..k][..k - 1] == rs[..k - 1] && rs[..k][k - 1] == rs[k - 1];
      CountNone(Calls(rs[k - 1]), c);
      CountGrows(NewCalls(rs[..k - 1]), Calls(rs[k - 1]), c);
      CountGrows(NewCalls(rs[..k - 1]), [], c);
    }
  }

  lemma {:induction false} DifferentIsNoRepeat(rs: seq<Content>, k: nat)
    requires k < |rs| && DifferentCalls(rs)
    ensures !Repeats(rs, k)
  {
    forall j: nat | j < k ensures !SameMessage(rs[j], rs[k]) {
      var (a, b) := (Calls(rs[j]), Calls(rs[k]));
      assert a != [] && Apart(a, b, false);
      assert !SameCall(a[0], b[0]);
      assert SameMessage(rs[j], rs[k]) ==> a == b;
    }
  }

  lemma {:induction false} OwnCount(rs: seq<Content>, k: nat, c: FunctionCall)
    requires k < |rs| && DifferentCalls(rs) && c in Calls(rs[k])
    ensures CountCall(NewCalls(rs[..k]) + Calls(rs[k]), c) == 1
  {
    hide Calls, NewCalls;
    var calls := Calls(rs[k]);
    var x: nat :| x < |calls| && calls[x] == c;
    assert Apart(calls, calls, true);
    CountOnce(calls, x);
    forall i, y | 0 <= i < k && 0 <= y < |Calls(rs[i])| ensures !SameCall(Calls(rs[i])[y], c) {
      assert Apart(Calls(rs[i]), calls, false);
    }
    CountBefore(rs, k, c);
    CountGrows(NewCalls(rs[..k]), calls, c);
  }

  /** A run of responses whose calls differ pairwise in name or arguments is never flagged. */
  lemma {:induction false} DifferentIsNeverFlagged(rs: seq<Content>, k: nat)
    requires k < |rs| && AllColonFree(rs) && DifferentCalls(rs)
    ensures !Flagged(rs, k)
    decreases k
  {
    hide Calls, Flagged, Repeats, NewCalls, DifferentCalls, AllColonFree, CountCall;
    forall i | 0 <= i < k ensures !Flagged(rs, i) { DifferentIsNeverFlagged(rs, i); }
    DifferentIsNoRepeat(rs, k);
    PlainCountDecides(rs, k);
    forall c | c in Calls(rs[k]) ensures CountCall(NewCalls(rs[..k]) + Calls(rs[k]), c) == 1 { OwnCount(rs, k, c); }
  }

  // ---------------------------------------------------------------- calls that are not counted

  const A := FunctionCall("", "a", "")
  const B := FunctionCall("", "b", "")

  function CallPart(c: FunctionCall): Part { Part("", false, None, Some(c), None, "", "") }

  function CallParts(calls: seq<FunctionCall>): seq<Part> {
    seq(|calls|, i requires 0 <= i < |calls| => CallPart(calls[i]))
  }

  lemma {:induction false} CallPartsCall(calls: seq<FunctionCall>)
    ensures CallsOf(CallParts(calls)) == calls
  {
    if calls != [] {
      CallPartsCall(calls[1..]);
      assert CallParts(calls)[1..] == CallParts(calls[1..]);
      assert calls == [calls[0]] + calls[1..];
    }
  }

  function Many(c: FunctionCall, n: nat): seq<FunctionCall> { seq(n, _ => c) }

  /** Six calls of A and one of B; then one of B each, with texts of different lengths. */
  function Skipping(n: nat): Content {
    if n == 0 then Content("", Model, CallParts(Many(A, 6) + [B]))
    else Content("", Model, [TextPart(seq(n, _ => 'x'))] + CallParts([B]))
  }

  lemma {:induction false} SkippingCalls(n: nat)
    ensures Calls(Skipping(n)) == if n == 0 then Many(A, 6) + [B] else [B]
  {
    CallPartsCall(Many(A, 6) + [B]);
    CallPartsCall([B]);
    assert ([TextPart(seq(n, _ => 'x'))] + CallParts([B]))[1..] == CallParts([B]);
  }

  lemma {:induction false} SkippingDiffer(m: nat, n: nat)
    requires m < n
    ensures !SameMessage(Skipping(m), Skipping(n))
  {
    assert |Skipping(n).parts| == 2 && |Skipping(n).parts[0].text| == n;
    if m > 0 { assert |Skipping(m).parts[0].text| == m; }
  }

  function Skippings(n: nat): seq<Content> { seq(n, i requires 0 <= i => Skipping(i)) }

  lemma {:induction false} SkippingIsNew(n: nat, k: nat)
    requires k < n
    ensures !Repeats(Skippings(n), k)
  {
    forall j: nat | j < k ensures !SameMessage(Skippings(n)[j], Skippings(n)[k]) { SkippingDiffer(j, k); }
  }

  lemma {:induction false} CountMany(c: FunctionCall, n: nat, d: FunctionCall)
    ensures CountCall(Many(c, n), d) == if SameCall(c, d) then n else 0
  {
    if n > 0 {
      assert Many(c, n) == Many(c, n - 1) + [c];
      CountSnoc(Many(c, n - 1), c, d);
      CountMany(c, n - 1, d);
    }
  }

  /** Of the first response, the last call is not counted. */
  lemma {:induction false} SixAreSeen(n: nat)
    requires n <= 6
    ensures Seen(Many(A, n), Many(A, 6 - n) + [B]) == Many(A, 6) || n == 6
    decreases 6 - n
  {
    if n < 6 {
      var calls := Many(A, 6 - n) + [B];
      assert calls[0] == A && calls[1..] == Many(A, 5 - n) + [B];
      assert Many(A, n) + [A] == Many(A, n + 1);
      CountMany(A, n + 1, A);
      SixAreSeen(n + 1);
    }
  }

  lemma {:induction false} LogSnoc(rs: seq<Content>)
    requires rs != [] && !Repeats(rs, |rs| - 1)
    ensures Log(rs) == Seen(Log(rs[..|rs| - 1]), Calls(rs[|rs| - 1]))
    ensures NewCalls(rs) == NewCalls(rs[..|rs| - 1]) + Calls(rs[|rs| - 1])
  {
    hide Seen, Calls, Repeats;
  }

  lemma {:induction false} SeenOne(log: seq<FunctionCall>, c: FunctionCall)
    ensures Seen(log, [c]) == log + [c]
  {
    assert [c][1..] == [];
  }

  lemma {:induction false} SkippingLog(n: nat)
    requires n > 0
    ensures Log(Skippings(n)) == Many(A, 6) + Many(B, n - 1)
    ensures NewCalls(Skippings(n)) == Many(A, 6) + [B] + Many(B, n - 1)
  {
    hide Repeats, Skipping, CountCall, Seen, Log, NewCalls, Calls;
    var k := n - 1;
    assert Skippings(n)[..k] == Skippings(k);
    SkippingIsNew(n, k);
    SkippingCalls(k);
    LogSnoc(Skippings(n));
    if k == 0 {
      NothingLogged();
      SixAreSeen(0);
      assert Many(A, 0) == [] && Many(B, 0) == [];
    } else {
      SkippingLog(k);
      SeenOne(Log(Skippings(k)), B);
      assert Many(B, k - 1) + [B] == Many(B, k);
    }
  }

  lemma NothingLogged()
    ensures Log([]) == [] && NewCalls([]) == []
  {
  }

  /** In general the plain count is too high: calls behind the one that exceeds are skipped. Of
      six responses that are no repeats, the last brings the calls of B to six, and is not
      flagged. */
  lemma PlainCountCanBeOff() returns (rs: seq<Content>)
    ensures |rs| == 6 && AllColonFree(rs) && !Repeats(rs, 5) && !Flagged(rs, 5)
    ensures Calls(rs[5]) == [B] && CountCall(NewCalls(rs[..5]) + [B], B) == 6
  {
    hide Repeats, Skipping, CountCall, Flagged;
    rs := Skippings(6);
    forall r | r in rs ensures ColonFree(Calls(r)) {
      var i: nat :| i < 6 && rs[i] == r;
      SkippingCalls(i);
    }
    SkippingIsNew(6, 5);
    SkippingCalls(5);
    assert rs[..5] == Skippings(5);
    SkippingLog(5);
    FlaggedExactly(rs, 5);
    CountOfB();
    assert forall c | c in [B] :: c == B;
  }

  lemma CountOfB()
    ensures CountCall(Many(A, 6) + Many(B, 4) + [B], B) == 5
    ensures CountCall(Many(A, 6) + [B] + Many(B, 4) + [B], B) == 6
  {
    CountMany(A, 6, B);
    CountMany(B, 4, B);
    CountGrows(Many(A, 6), Many(B, 4), B);
    CountSnoc(Many(A, 6) + Many(B, 4), B, B);
    CountSnoc(Many(A, 6), B, B);
    CountGrows(Many(A, 6) + [B], Many(B, 4), B);
    CountSnoc(Many(A, 6) + [B] + Many(B, 4), B, B);
  }
}
