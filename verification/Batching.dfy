/** How the dispatcher cuts a model's tool calls into batches, marks the calls it will not
    run, and assembles the reply. Loops over the results slice are loops over an array. */
module Batching {
  import opened Llm

  datatype ToolResult = ToolResult(text: string, error: Option<Error>, media: seq<Blob>)

  const EMPTY := ToolResult("", None, [])
  const DECLINED := ToolResult("User explicitly denied this action.", Some(Base(UserDeclined)), [])
  const HALTED := "skipped: execution halted due to previous serial tool error, timeout or cancellation"
  const INTERRUPTED := "batch interrupted"

  /** A slot counts as filled once its text or its error is set. */
  predicate Filled(r: ToolResult) { r.text != "" || r.error.Some? }

  /** What the dispatcher was asked: the calls, the registry's serial tools, the declined
      indices, and the configured number of workers. */
  datatype Plan = Plan(calls: seq<FunctionCall>, serialTools: set<string>, declined: set<nat>, maxWorkers: nat) {
    predicate IsSerial(i: nat)
      requires i < |calls|
    {
      calls[i].name in serialTools
    }

    predicate IsLive(i: nat) { i < |calls| && i !in declined }
  }

  datatype Batch = Batch(isSerial: bool, tasks: seq<nat>)

  /** The calls below n that were not declined, in call order. */
  function Live(p: Plan, n: nat): (s: seq<nat>)
    requires n <= |p.calls|
    ensures forall i: nat :: i in s <==> i < n && i !in p.declined
    ensures forall j, k :: 0 <= j < k < |s| ==> s[j] < s[k]
  {
    if n == 0 then []
    else
      var before := Live(p, n - 1);
      if n - 1 in p.declined then before
      else
        assert forall k | 0 <= k < |before| :: before[k] in before;
        before + [n - 1]
  }

  function Flatten(batches: seq<Batch>): seq<nat> {
    if batches == [] then [] else batches[0].tasks + Flatten(batches[1..])
  }

  lemma {:induction false} FlattenConcat(a: seq<Batch>, b: seq<Batch>)
    ensures Flatten(a + b) == Flatten(a) + Flatten(b)
  {
    if a == [] {
      assert a + b == b;
    } else {
      FlattenConcat(a[1..], b);
      var head, rest, last := a[0].tasks, Flatten(a[1..]), Flatten(b);
      assert (a + b)[1..] == a[1..] + b && (a + b)[0] == a[0];
      assert Flatten(a + b) == head + (rest + last) == (head + rest) + last;
    }
  }

  lemma {:induction false} FlattenSnoc(a: seq<Batch>, b: Batch)
    ensures Flatten(a + [b]) == Flatten(a) + b.tasks
  {
    FlattenConcat(a, [b]);
    assert [b][1..] == [];
    assert Flatten([b]) == b.tasks + Flatten([]);
  }

  predicate WellBatched(p: Plan, b: Batch) {
    && b.tasks != []
    && (forall i | i in b.tasks :: p.IsLive(i) && p.IsSerial(i) == b.isSerial)
    && (b.isSerial ==> |b.tasks| == 1)
  }

  predicate NoAdjacentParallel(batches: seq<Batch>) {
    forall j | 0 < j < |batches| :: batches[j - 1].isSerial || batches[j].isSerial
  }

  /** The canonical partition of the live calls. */
  predicate Canonical(p: Plan, batches: seq<Batch>) {
    && Flatten(batches) == Live(p, |p.calls|)
    && (forall b | b in batches :: WellBatched(p, b))
    && NoAdjacentParallel(batches)
  }

  function DeclineBelow(p: Plan, results: seq<ToolResult>, n: nat): seq<ToolResult>
    requires n <= |results|
  {
    seq(|results|, i requires 0 <= i < |results| => if i < n && i in p.declined then DECLINED else results[i])
  }

  /** Closed batches that hold the live calls below i. */
  predicate Closed(p: Plan, batches: seq<Batch>, i: nat)
    requires i <= |p.calls|
  {
    && Flatten(batches) == Live(p, i)
    && (forall b | b in batches :: WellBatched(p, b))
    && NoAdjacentParallel(batches)
  }

  /** The loop's state after the calls below i: closed batches and the open parallel one. */
  predicate Partial(p: Plan, batches: seq<Batch>, current: seq<nat>, i: nat)
    requires i <= |p.calls|
  {
    && Flatten(batches) + current == Live(p, i)
    && (forall b | b in batches :: WellBatched(p, b))
    && NoAdjacentParallel(batches)
    && (forall t | t in current :: p.IsLive(t) && !p.IsSerial(t))
    && (batches != [] ==> batches[|batches| - 1].isSerial)
  }

  lemma CloseEmpty(p: Plan, batches: seq<Batch>, i: nat)
    requires i <= |p.calls| && Partial(p, batches, [], i)
    ensures Closed(p, batches, i)
  {
    assert Flatten(batches) + [] == Flatten(batches);
  }

  lemma CloseParallel(p: Plan, batches: seq<Batch>, current: seq<nat>, i: nat)
    requires i <= |p.calls| && Partial(p, batches, current, i) && current != []
    ensures Closed(p, batches + [Batch(false, current)], i)
  {
    FlattenSnoc(batches, Batch(false, current));
  }

  lemma AddSerial(p: Plan, batches: seq<Batch>, i: nat)
    requires i < |p.calls| && Closed(p, batches, i) && p.IsLive(i) && p.IsSerial(i)
    ensures Partial(p, batches + [Batch(true, [i])], [], i + 1)
  {
    var more := batches + [Batch(true, [i])];
    FlattenSnoc(batches, Batch(true, [i]));
    assert Flatten(more) + [] == Flatten(more);
    assert Live(p, i + 1) == Live(p, i) + [i];
  }

  lemma AddParallel(p: Plan, batches: seq<Batch>, current: seq<nat>, i: nat)
    requires i < |p.calls| && Partial(p, batches, current, i) && p.IsLive(i) && !p.IsSerial(i)
    ensures Partial(p, batches, current + [i], i + 1)
  {
    assert Flatten(batches) + (current + [i]) == (Flatten(batches) + current) + [i];
  }

  /** The part of the loop body that places one live call. */
  method PlaceCall(p: Plan, batches: seq<Batch>, current: seq<nat>, i: nat)
    returns (batches': seq<Batch>, current': seq<nat>)
    requires i < |p.calls| && p.IsLive(i) && Partial(p, batches, current, i)
    ensures Partial(p, batches', current', i + 1)
  {
    batches', current' := batches, current;
    if p.IsSerial(i) {
      if |current'| > 0 {
        CloseParallel(p, batches', current', i);
        batches' := batches' + [Batch(false, current')];
        current' := [];
      } else {
        CloseEmpty(p, batches', i);
      }
      AddSerial(p, batches', i);
      batches' := batches' + [Batch(true, [i])];
    } else {
      AddParallel(p, batches', current', i);
      current' := current' + [i];
    }
  }

  method BuildExecutionBatches(p: Plan, results: array<ToolResult>) returns (batches: seq<Batch>)
    requires results.Length == |p.calls|
    modifies results
    ensures Canonical(p, batches)
    ensures results[..] == DeclineBelow(p, old(results[..]), |p.calls|)
  {
    ghost var before := results[..];
    batches := [];
    var current: seq<nat> := [];
    for i := 0 to |p.calls|
      invariant results[..] == DeclineBelow(p, before, i)
      invariant Partial(p, batches, current, i)
    {
      if i in p.declined {
        results[i] := DECLINED;
        assert results[..] == DeclineBelow(p, before, i + 1);
      } else {
        batches, current := PlaceCall(p, batches, current, i);
      }
    }
    if |current| > 0 {
      CloseParallel(p, batches, current, |p.calls|);
      batches := batches + [Batch(false, current)];
    } else {
      CloseEmpty(p, batches, |p.calls|);
    }
  }

  /** The four conditions leave no choice: a plan has one canonical partition. */
  lemma CanonicalIsUnique(p: Plan, a: seq<Batch>, b: seq<Batch>)
    requires Canonical(p, a) && Canonical(p, b)
    ensures a == b
  {
    UniqueGivenFlatten(p, a, b);
  }

  lemma {:induction false} UniqueGivenFlatten(p: Plan, a: seq<Batch>, b: seq<Batch>)
    requires Flatten(a) == Flatten(b)
    requires forall x | x in a :: WellBatched(p, x)
    requires forall x | x in b :: WellBatched(p, x)
    requires NoAdjacentParallel(a) && NoAdjacentParallel(b)
    ensures a == b
  {
    if a != [] {
      assert WellBatched(p, a[0]);
      FirstTask(a);
    }
    if b != [] {
      assert WellBatched(p, b[0]);
      FirstTask(b);
    }
    if a != [] && b != [] {
      FirstBatchNotShorter(p, a, b);
      FirstBatchNotShorter(p, b, a);
      var x, y, z := a[0].tasks, b[0].tasks, Flatten(a);
      assert z == x + Flatten(a[1..]) == y + Flatten(b[1..]);
      assert x == z[..|x|] == y;
      assert Flatten(a[1..]) == z[|x|..] == Flatten(b[1..]);
      NoAdjacentTail(a);
      NoAdjacentTail(b);
      UniqueGivenFlatten(p, a[1..], b[1..]);
      assert WellBatched(p, a[0]) && WellBatched(p, b[0]);
      assert x[0] in x;
      assert a[0] == b[0];
      assert a == [a[0]] + a[1..] && b == [b[0]] + b[1..];
    }
  }

  lemma TaskKind(p: Plan, b: Batch, k: nat)
    requires WellBatched(p, b) && k < |b.tasks|
    ensures p.IsLive(b.tasks[k]) && p.IsSerial(b.tasks[k]) == b.isSerial
    ensures k > 0 ==> !b.isSerial
  {
    assert b.tasks[k] in b.tasks;
  }

  lemma {:induction false} FirstBatchNotShorter(p: Plan, a: seq<Batch>, b: seq<Batch>)
    requires a != [] && b != [] && Flatten(a) == Flatten(b)
    requires forall x | x in a :: WellBatched(p, x)
    requires WellBatched(p, b[0])
    requires NoAdjacentParallel(a)
    ensures |a[0].tasks| >= |b[0].tasks|
  {
    assert WellBatched(p, a[0]);
    TaskKind(p, a[0], 0);
    TaskKind(p, b[0], 0);
    FirstTask(a);
    FirstTask(b);
    if |a| > 1 {
      assert WellBatched(p, a[1]);
      TaskKind(p, a[1], 0);
      FirstTask(a[1..]);
      assert a[1 - 1].isSerial || a[1].isSerial;
    }
  }

  lemma {:induction false} FirstTask(a: seq<Batch>)
    requires a != []
    ensures |Flatten(a)| == |a[0].tasks| + |Flatten(a[1..])|
    ensures forall k | 0 <= k < |a[0].tasks| :: Flatten(a)[k] == a[0].tasks[k]
    ensures forall k | 0 <= k < |Flatten(a[1..])| :: Flatten(a)[|a[0].tasks| + k] == Flatten(a[1..])[k]
  {
  }

  lemma NoAdjacentTail(a: seq<Batch>)
    requires a != [] && NoAdjacentParallel(a)
    ensures NoAdjacentParallel(a[1..])
  {
    var t := a[1..];
    forall j | 0 < j < |t|
      ensures t[j - 1].isSerial || t[j].isSerial
    {
      assert t[j] == a[j + 1] && t[j - 1] == a[j + 1 - 1];
    }
  }

  lemma {:induction false} TaskInFlatten(batches: seq<Batch>, k: nat, y: nat)
    requires k < |batches| && y in batches[k].tasks
    ensures y in Flatten(batches)
  {
    if k > 0 {
      TaskInFlatten(batches[1..], k - 1, y);
    }
  }

  lemma {:induction false} BatchOf(batches: seq<Batch>, y: nat) returns (k: nat)
    requires y in Flatten(batches)
    ensures k < |batches| && y in batches[k].tasks
  {
    if y in batches[0].tasks {
      k := 0;
    } else {
      k := BatchOf(batches[1..], y);
      k := k + 1;
    }
  }

  // ---------------------------------------------------------------- skipping

  /** buildSkippedResult; `Describe` stands for err.Error(). */
  function SkippedResult(reason: string, err: Option<Error>): (r: ToolResult)
    ensures reason != "" ==> Filled(r)
    ensures reason <= r.text && r.media == [] && r.error.Some? == err.Some?
    ensures err.Some? ==> forall s: Sentinel :: r.error.value.Is(s) <==> err.value.Is(s)
  {
    match err
    case None => ToolResult(reason, None, [])
    case Some(e) => ToolResult(reason + ": " + Describe(e), Some(Wrap(reason, e)), [])
  }

  function Describe(e: Error): string {
    match e
    case Base(Canceled) => "context canceled"
    case Base(DeadlineExceeded) => "context deadline exceeded"
    case _ => "error"
  }

  /** shouldSkipTask: the slot is left as it is. `skip` is -1 when no task triggered. */
  predicate KeepsSlot(j: nat, task: nat, start: nat, skip: int, r: ToolResult) {
    (j == start && task <= skip) || Filled(r)
  }

  /** What failRemainingTasks leaves in every slot: the marker goes to the slots of the
      batches from `start` on that are neither kept nor filled. */
  ghost function FailRemaining(batches: seq<Batch>, start: nat, skip: int, before: seq<ToolResult>,
          marker: ToolResult): seq<ToolResult> {
    seq(|before|, i requires 0 <= i < |before| => if NeedsMark(batches, start, skip, before, i) then marker
      else before[i])
  }

  ghost predicate NeedsMark(batches: seq<Batch>, start: nat, skip: int, before: seq<ToolResult>, i: nat)
    requires i < |before|
  {
    exists j | start <= j < |batches| :: i in batches[j].tasks && !KeepsSlot(j, i, start, skip, before[i])
  }

  /** The marker goes to the slots without text and error of the batches from `start` on, but
      not to the tasks of that batch up to the one that triggered. */
  lemma {:induction false} FailRemainingExactly(batches: seq<Batch>, start: nat, skip: int, before: seq<ToolResult>,
          marker: ToolResult, i: nat)
    requires i < |before|
    ensures var (now, open) :=
      (FailRemaining(batches, start, skip, before, marker), before[i].text == "" && before[i].error.None?);
      && |now| == |before|
      && (!open ==> now[i] == before[i])
      && ((exists j | start < j < |batches| :: i in batches[j].tasks) && open ==> now[i] == marker)
      && (start < |batches| && i in batches[start].tasks && i > skip && open ==> now[i] == marker)
      && ((forall j | start <= j < |batches| :: i !in batches[j].tasks) ==> now[i] == before[i])
  {
    if j :| start < j < |batches| && i in batches[j].tasks {
      assert before[i].text == "" && before[i].error.None? ==> !KeepsSlot(j, i, start, skip, before[i]);
    }
  }

  ghost predicate InRange(batches: seq<Batch>, n: nat) {
    forall j, t | 0 <= j < |batches| && t in batches[j].tasks :: t < n
  }

  method FailRemainingTasks(batches: seq<Batch>, start: nat, skip: int, results: array<ToolResult>, err: Option<Error>,
          reason: string)
    requires start <= |batches| && InRange(batches, results.Length) && reason != ""
    modifies results
    ensures results[..] == FailRemaining(batches, start, skip, old(results[..]), SkippedResult(reason, err))
  {
    hide KeepsSlot, SkippedResult;
    ghost var before := results[..];
    var marker := SkippedResult(reason, err);
    for j := start to |batches|
      invariant forall i | 0 <= i < results.Length ::
        results[i] == if NeedsMark(batches[..j], start, skip, before, i) then marker else before[i]
    {
      var tasks := batches[j].tasks;
      assert forall m | 0 <= m < j :: batches[..j + 1][m] == batches[..j][m];
      forall i | 0 <= i < |before|
        ensures NeedsMark(batches[..j + 1], start, skip, before, i) ==
          (NeedsMark(batches[..j], start, skip, before, i) || (i in tasks && !KeepsSlot(j, i, start, skip, before[i])))
      {
        assert batches[..j + 1][j] == batches[j];
      }
      for k := 0 to |tasks|
        invariant forall i | 0 <= i < results.Length ::
          results[i] == if NeedsMark(batches[..j], start, skip, before, i) ||
            (i in tasks[..k] && !KeepsSlot(j, i, start, skip, before[i]))
                        then marker else before[i]
      {
        assert tasks[..k + 1] == tasks[..k] + [tasks[k]];
        assert tasks[k] in batches[j].tasks;
        if !KeepsSlot(j, tasks[k], start, skip, results[tasks[k]]) {
          results[tasks[k]] := marker;
        }
      }
      assert tasks[..|tasks|] == tasks;
    }
    assert batches[..|batches|] == batches;
  }

  // ---------------------------------------------------------------- the reply

  function Media(results: seq<ToolResult>): seq<Part> {
    if results == [] then [] else MediaParts(results[0].media) + Media(results[1..])
  }

  function MediaParts(blobs: seq<Blob>): seq<Part> {
    seq(|blobs|, k requires 0 <= k < |blobs| => MediaPart(blobs[k]))
  }

  /** markdownStrategy.Format: the answer keeps the call's ID and name. */
  function Format(call: FunctionCall, result: ToolResult): Part {
    ResponsePart(FunctionResponse(call.id, call.name, result.text))
  }

  /** How many media the first n results carry. */
  function MediaBefore(results: seq<ToolResult>, n: nat): nat
    requires n <= |results|
  {
    if n == 0 then 0 else MediaBefore(results, n - 1) + |results[n - 1].media|
  }

  lemma {:induction false} MediaLength(results: seq<ToolResult>, n: nat)
    requires n <= |results|
    ensures |Media(results[..n])| == MediaBefore(results, n)
  {
    if n == 0 {
      assert results[..0] == [];
    } else {
      MediaLength(results, n - 1);
      assert results[..n] == results[..n - 1] + [results[n - 1]];
      MediaSnoc(results[..n - 1], results[n - 1]);
    }
  }

  /** Every medium of every result is there, once, in order, and nothing else. */
  lemma {:induction false} MediaExactly(results: seq<ToolResult>, i: nat, k: nat)
    requires i < |results| && k < |results[i].media|
    ensures |Media(results)| == MediaBefore(results, |results|)
    ensures MediaBefore(results, i) + k < |Media(results)|
    ensures Media(results)[MediaBefore(results, i) + k] == MediaPart(results[i].media[k])
  {
    hide Media;
    MediaLength(results, i);
    MediaLength(results, |results|);
    assert results[..|results|] == results;
    assert results == results[..i] + [results[i]] + results[i + 1..];
    MediaConcat(results[..i] + [results[i]], results[i + 1..]);
    MediaSnoc(results[..i], results[i]);
  }

  lemma {:induction false} MediaConcat(a: seq<ToolResult>, b: seq<ToolResult>)
    ensures Media(a + b) == Media(a) + Media(b)
  {
    if a == [] {
      assert a + b == b;
    } else {
      MediaConcat(a[1..], b);
      var head, rest, last := MediaParts(a[0].media), Media(a[1..]), Media(b);
      assert (a + b)[1..] == a[1..] + b && (a + b)[0] == a[0];
      assert Media(a + b) == head + (rest + last) == (head + rest) + last;
    }
  }

  predicate NoResponse(parts: seq<Part>) { forall p | p in parts :: p.response.None? && p.media.Some? }

  lemma {:induction false} MediaHasNoResponse(results: seq<ToolResult>)
    ensures NoResponse(Media(results))
  {
    if results != [] {
      MediaHasNoResponse(results[1..]);
    }
  }

  lemma {:induction false} NoResponseNoAnswers(parts: seq<Part>)
    requires NoResponse(parts)
    ensures AnswersOf(parts) == []
  {
    if parts != [] {
      NoResponseNoAnswers(parts[1..]);
    }
  }

  lemma {:induction false} MediaSnoc(results: seq<ToolResult>, r: ToolResult)
    ensures Media(results + [r]) == Media(results) + MediaParts(r.media)
  {
    if results == [] {
      assert results + [r] == [r] && [r][1..] == [];
    } else {
      MediaSnoc(results[1..], r);
      var head, rest, last := MediaParts(results[0].media), Media(results[1..]), MediaParts(r.media);
      assert (results + [r])[1..] == results[1..] + [r] && (results + [r])[0] == results[0];
      assert Media(results + [r]) == head + (rest + last) == (head + rest) + last;
    }
  }

  /** The reply as the parser needs it: all media first, then one function response per
      call, in call order, with the call's ID and name and the slot's text. */
  ghost predicate Reply(calls: seq<FunctionCall>, results: seq<ToolResult>, reply: Content) {
    && |calls| == |results|
    && reply.role == User
    && |reply.parts| == |Media(results)| + |calls|
    && reply.parts[..|Media(results)|] == Media(results)
    && forall i | 0 <= i < |calls| ::
         reply.parts[|Media(results)| + i] ==
           ResponsePart(FunctionResponse(calls[i].id, calls[i].name, results[i].text))
  }

  method AssembleResponse(calls: seq<FunctionCall>, results: array<ToolResult>) returns (reply: Content)
    requires |calls| == results.Length
    ensures Reply(calls, results[..], reply)
  {
    var parts: seq<Part> := [];
    for i := 0 to results.Length
      invariant parts == Media(results[..i])
    {
      MediaSnoc(results[..i], results[i]);
      assert results[..i + 1] == results[..i] + [results[i]];
      var blobs := results[i].media;
      for k := 0 to |blobs|
        invariant parts == Media(results[..i]) + MediaParts(blobs[..k])
      {
        parts := parts + [MediaPart(blobs[k])];
      }
      assert blobs[..|blobs|] == blobs;
    }
    assert results[..results.Length] == results[..];
    ghost var m := |parts|;
    for i := 0 to results.Length
      invariant |parts| == m + i
      invariant parts[..m] == Media(results[..])
      invariant forall k | 0 <= k < i :: parts[m + k] == Format(calls[k], results[k])
    {
      parts := parts + [Format(calls[i], results[i])];
    }
    reply := Content("", User, parts);
  }

  /** Such a reply answers every call exactly once and nothing else. */
  lemma ReplyAnswers(call: Content, results: seq<ToolResult>, reply: Content)
    requires Reply(Calls(call), results, reply)
    ensures Answers(reply, call)
    ensures Calls(reply) == []
  {
    hide AnswersOf, CallsOf, Asked, Media;
    var m := |Media(results)|;
    var tail := reply.parts[m..];
    assert reply.parts == reply.parts[..m] + tail;
    AnswersOfConcat(reply.parts[..m], tail);
    CallsOfConcat(reply.parts[..m], tail);
    MediaHasNoResponse(results);
    NoResponseNoAnswers(Media(results));
    MediaHasNoCalls(results);
    forall i | 0 <= i < |tail|
      ensures tail[i] == Format(Calls(call)[i], results[i])
    {
      assert tail[i] == reply.parts[m + i];
    }
    ResponsesAnswer(Calls(call), tail);
  }

  lemma {:induction false} MediaHasNoCalls(results: seq<ToolResult>)
    ensures CallsOf(Media(results)) == []
  {
    if results != [] {
      MediaHasNoCalls(results[1..]);
      CallsOfConcat(MediaParts(results[0].media), Media(results[1..]));
      NoCalls(MediaParts(results[0].media));
    }
  }

  lemma {:induction false} NoCalls(parts: seq<Part>)
    requires forall p | p in parts :: p.call.None?
    ensures CallsOf(parts) == []
  {
    if parts != [] {
      NoCalls(parts[1..]);
    }
  }

  lemma {:induction false} ResponsesAnswer(calls: seq<FunctionCall>, parts: seq<Part>)
    requires |parts| == |calls|
    requires forall i | 0 <= i < |calls| ::
      parts[i].call.None? && parts[i].response.Some?
      && parts[i].response.value.id == calls[i].id && parts[i].response.value.name == calls[i].name
    ensures AnswersOf(parts) == Asked(calls) && CallsOf(parts) == []
  {
    if calls != [] {
      ResponsesAnswer(calls[1..], parts[1..]);
      assert Asked(calls) == [(calls[0].id, calls[0].name)] + Asked(calls[1..]);
    }
  }
}
