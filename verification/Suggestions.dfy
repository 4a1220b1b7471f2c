/** The list of recent prompts, most recent first and bounded, and the merging of suggestions
    from two sources. */
module Suggestions {
  const MAX_HISTORY: nat := 100

  function Remove(xs: seq<string>, x: string): seq<string> {
    if xs == [] then [] else (if xs[0] == x then [] else [xs[0]]) + Remove(xs[1..], x)
  }

  /** Recording on a list without a bound. */
  function MoveToFront(xs: seq<string>, x: string): seq<string> { if x == "" then xs else [x] + Remove(xs, x) }

  function First(xs: seq<string>, n: nat): seq<string> { if |xs| <= n then xs else xs[..n] }

  function Record(xs: seq<string>, x: string): seq<string> {
    if x == "" then xs else First(MoveToFront(xs, x), MAX_HISTORY)
  }

  predicate Distinct(xs: seq<string>) { forall i, j :: 0 <= i < j < |xs| ==> xs[i] != xs[j] }

  /** The distinct elements, in the order of their first occurrence. */
  function Dedup(xs: seq<string>): (r: seq<string>)
    ensures forall x :: x in r <==> x in xs
  {
    if xs == [] then []
    else
      var front, x := Dedup(xs[..|xs| - 1]), xs[|xs| - 1];
      assert xs == xs[..|xs| - 1] + [x];
      if x in front then front else front + [x]
  }

  class SuggestionService {
    var history: seq<string>

    /** The top prompts, then the session's, each once. */
    constructor (topPrompts: seq<string>, recentHistory: seq<string>)
      ensures history == Dedup(topPrompts + recentHistory)
    {
      history := [];
      new;
      assert Dedup([]) == [] && [] + topPrompts == topPrompts;
      Preload(topPrompts, []);
      Preload(recentHistory, topPrompts);
    }

    method Preload(prompts: seq<string>, ghost before: seq<string>)
      requires history == Dedup(before)
      modifies this
      ensures history == Dedup(before + prompts)
    {
      assert before + prompts[..0] == before;
      for i := 0 to |prompts|
        invariant history == Dedup(before + prompts[..i])
      {
        assert before + prompts[..i + 1] == before + prompts[..i] + [prompts[i]];
        DedupSnoc(before + prompts[..i], prompts[i]);
        if prompts[i] !in history {
          history := history + [prompts[i]];
        }
      }
      assert prompts[..|prompts|] == prompts;
    }

    method RecordPrompt(prompt: string)
      modifies this
      ensures history == Record(old(history), prompt)
    {
      if prompt == "" { return; }
      var updated := [prompt];
      for i := 0 to |history|
        invariant history == old(history)
        invariant updated == [prompt] + Remove(history[..i], prompt)
      {
        assert history[..i + 1] == history[..i] + [history[i]];
        RemoveSnoc(history[..i], history[i], prompt);
        if history[i] != prompt {
          updated := updated + [history[i]];
        }
      }
      assert history[..|history|] == history;
      if |updated| > MAX_HISTORY {
        updated := updated[..MAX_HISTORY];
      }
      history := updated;
    }
  }

  lemma {:induction false} RemoveSnoc(xs: seq<string>, y: string, x: string)
    ensures Remove(xs + [y], x) == Remove(xs, x) + if y == x then [] else [y]
  {
    if xs == [] {
      assert [y][1..] == [];
    } else {
      assert (xs + [y])[1..] == xs[1..] + [y];
      RemoveSnoc(xs[1..], y, x);
    }
  }

  // ---------------------------------------------------------------- the bound refines

  function Recorded(xs: seq<string>, prompts: seq<string>): seq<string> {
    if prompts == [] then xs else Record(Recorded(xs, prompts[..|prompts| - 1]), prompts[|prompts| - 1])
  }

  function Unbounded(xs: seq<string>, prompts: seq<string>): seq<string> {
    if prompts == [] then xs else MoveToFront(Unbounded(xs, prompts[..|prompts| - 1]), prompts[|prompts| - 1])
  }

  lemma {:induction false} RemoveKeeps(xs: seq<string>, x: string)
    ensures forall y :: y in Remove(xs, x) <==> y in xs && y != x
    ensures |Remove(xs, x)| <= |xs|
    ensures x !in xs ==> Remove(xs, x) == xs
  {
    if xs != [] {
      RemoveKeeps(xs[1..], x);
      assert xs == [xs[0]] + xs[1..];
    }
  }

  lemma {:induction false} RemoveDistinct(xs: seq<string>, x: string)
    requires Distinct(xs)
    ensures Distinct(Remove(xs, x))
    ensures |Remove(xs, x)| == if x in xs then |xs| - 1 else |xs|
  {
    if xs != [] {
      var rest := Remove(xs[1..], x);
      RemoveDistinct(xs[1..], x);
      RemoveKeeps(xs[1..], x);
      assert xs == [xs[0]] + xs[1..];
      assert xs[0] !in xs[1..];
      if xs[0] != x { DistinctCons(xs[0], rest); }
    }
  }

  lemma {:induction false} DistinctCons(x: string, xs: seq<string>)
    requires Distinct(xs) && x !in xs
    ensures Distinct([x] + xs)
  {
    var all := [x] + xs;
    forall i, j | 0 <= i < j < |all| ensures all[i] != all[j] {
      assert all[j] == xs[j - 1];
      if i > 0 { assert all[i] == xs[i - 1]; }
    }
  }

  /** Removing from the first n, or from all: the same up to what one removal brings in. */
  lemma {:induction false} RemoveFirst(xs: seq<string>, n: nat, x: string)
    requires Distinct(xs) && n > 0
    ensures First(Remove(First(xs, n), x), n - 1) == First(Remove(xs, x), n - 1)
    decreases |xs|
  {
    RemoveDistinct(xs, x);
    RemoveDistinct(First(xs, n), x);
    if |xs| > n {
      RemoveConcat(xs[..n], xs[n..], x);
      assert xs == xs[..n] + xs[n..];
      assert |Remove(xs[..n], x)| >= n - 1;
    }
  }

  lemma {:induction false} RemoveConcat(a: seq<string>, b: seq<string>, x: string)
    ensures Remove(a + b, x) == Remove(a, x) + Remove(b, x)
  {
    if a == [] {
      assert a + b == b;
    } else {
      assert (a + b)[1..] == a[1..] + b;
      RemoveConcat(a[1..], b, x);
    }
  }

  /** One recording on the bounded prefix is the bounded prefix of one recording. */
  lemma {:induction false} RecordRefines(xs: seq<string>, x: string)
    requires Distinct(xs) && x != ""
    ensures Record(First(xs, MAX_HISTORY), x) == First(MoveToFront(xs, x), MAX_HISTORY)
    ensures Record(xs, x) == First(MoveToFront(xs, x), MAX_HISTORY)
  {
    RemoveFirst(xs, MAX_HISTORY, x);
    FirstCons(x, Remove(First(xs, MAX_HISTORY), x), MAX_HISTORY);
    FirstCons(x, Remove(xs, x), MAX_HISTORY);
  }

  lemma {:induction false} FirstCons(x: string, xs: seq<string>, n: nat)
    requires n > 0
    ensures First([x] + xs, n) == [x] + First(xs, n - 1)
  {
  }

  lemma {:induction false} UnboundedDistinct(xs: seq<string>, prompts: seq<string>)
    requires Distinct(xs)
    ensures Distinct(Unbounded(xs, prompts))
  {
    if prompts != [] {
      var front, x := Unbounded(xs, prompts[..|prompts| - 1]), prompts[|prompts| - 1];
      UnboundedDistinct(xs, prompts[..|prompts| - 1]);
      RemoveDistinct(front, x);
      RemoveKeeps(front, x);
      if x != "" { DistinctCons(x, Remove(front, x)); }
    }
  }

  /** Recording puts a prompt in front of the others, which keep their order, and drops what no
      longer fits; the empty prompt changes nothing. */
  lemma {:induction false} RecordExactly(xs: seq<string>, x: string)
    requires Distinct(xs)
    ensures x == "" ==> Record(xs, x) == xs
    ensures x != "" && x !in xs ==> Record(xs, x) == if |xs| < 100 then [x] + xs else [x] + xs[..99]
    ensures forall k | x != "" && 0 <= k < |xs| && xs[k] == x ::
      var rest := xs[..k] + xs[k + 1..]; Record(xs, x) == if |rest| < 100 then [x] + rest else [x] + rest[..99]
  {
    RemoveKeeps(xs, x);
    forall k | 0 <= k < |xs| && xs[k] == x ensures Remove(xs, x) == xs[..k] + xs[k + 1..] { RemoveAt(xs, k); }
    FirstCons(x, Remove(xs, x), MAX_HISTORY);
  }

  lemma {:induction false} OnlyOnce(xs: seq<string>, k: nat)
    requires k < |xs| && Distinct(xs)
    ensures xs[k] !in xs[..k] && xs[k] !in xs[k + 1..]
  {
    var rest := xs[k + 1..];
    forall i | 0 <= i < |rest| ensures rest[i] != xs[k] { assert rest[i] == xs[k + 1 + i]; }
  }

  lemma {:induction false} RemoveAt(xs: seq<string>, k: nat)
    requires k < |xs| && Distinct(xs)
    ensures Remove(xs, xs[k]) == xs[..k] + xs[k + 1..]
  {
    hide Remove, Distinct;
    var (a, b, x) := (xs[..k], xs[k + 1..], xs[k]);
    assert xs == a + [x] + b;
    OnlyOnce(xs, k);
    RemoveKeeps(a, x);
    RemoveKeeps(b, x);
    RemoveConcat(a + [x], b, x);
    RemoveSnoc(a, x, x);
  }

  predicate AnyPrompt(prompts: seq<string>) { exists p | p in prompts :: p != "" }

  /** After any prompts, at least one of them not empty, the stored list is the first hundred
      of the list that forgets nothing; it never holds a prompt twice. Before that it is the
      initial list, which may be longer. */
  lemma {:induction false} HistoryRefines(xs: seq<string>, prompts: seq<string>)
    requires Distinct(xs)
    ensures Recorded(xs, prompts) == if AnyPrompt(prompts) then First(Unbounded(xs, prompts), MAX_HISTORY) else xs
    ensures Distinct(Recorded(xs, prompts))
  {
    hide Distinct, MoveToFront, First, Record, AnyPrompt;
    if prompts == [] {
      NoPrompt();
    } else {
      var front, x := prompts[..|prompts| - 1], prompts[|prompts| - 1];
      HistoryRefines(xs, front);
      UnboundedDistinct(xs, front);
      AnySnoc(front, x);
      assert prompts == front + [x];
      if !AnyPrompt(front) { UnboundedSame(xs, front); }
      EmptyIsIgnored(Unbounded(xs, front), Recorded(xs, front));
      if x != "" { RecordRefines(Unbounded(xs, front), x); }
      UnboundedDistinct(xs, prompts);
      FirstDistinct(Unbounded(xs, prompts), MAX_HISTORY);
    }
  }

  lemma {:induction false} NoPrompt()
    ensures !AnyPrompt([])
  {
  }

  lemma {:induction false} EmptyIsIgnored(xs: seq<string>, ys: seq<string>)
    ensures MoveToFront(xs, "") == xs && Record(ys, "") == ys
  {
  }

  lemma {:induction false} FirstDistinct(xs: seq<string>, n: nat)
    requires Distinct(xs)
    ensures Distinct(First(xs, n))
  {
  }

  lemma {:induction false} AnySnoc(prompts: seq<string>, x: string)
    ensures AnyPrompt(prompts + [x]) <==> AnyPrompt(prompts) || x != ""
  {
    assert x in prompts + [x] && forall p | p in prompts :: p in prompts + [x];
  }

  lemma {:induction false} UnboundedSame(xs: seq<string>, prompts: seq<string>)
    requires !AnyPrompt(prompts)
    ensures Unbounded(xs, prompts) == xs
  {
    if prompts != [] {
      var front, x := prompts[..|prompts| - 1], prompts[|prompts| - 1];
      assert prompts == front + [x];
      AnySnoc(front, x);
      UnboundedSame(xs, front);
    }
  }

  lemma {:induction false} DedupDistinct(xs: seq<string>)
    ensures Distinct(Dedup(xs))
  {
    if xs != [] { DedupDistinct(xs[..|xs| - 1]); }
  }

  /** It keeps each first occurrence, in their order. */
  lemma {:induction false} DedupOrder(xs: seq<string>, i: nat, j: nat, n: nat)
    requires i < j < |Dedup(xs)| && n < |xs| && xs[n] == Dedup(xs)[j]
    ensures exists m | 0 <= m < n :: xs[m] == Dedup(xs)[i]
  {
    var front, x := xs[..|xs| - 1], xs[|xs| - 1];
    assert Dedup(front)[i] in Dedup(front);
    var m :| 0 <= m < |front| && front[m] == Dedup(front)[i];
    assert n < |front| ==> front[n] in front && j < |Dedup(front)|;
    if n < |front| { DedupOrder(front, i, j, n); }
  }

  // ---------------------------------------------------------------- merging

  method MergeSuggestions(s1: seq<string>, s2: seq<string>, limit: nat) returns (merged: seq<string>)
    ensures merged == First(Dedup(s1 + s2), limit)
  {
    merged := [];
    for i := 0 to |s1|
      invariant merged == Dedup(s1[..i])
    {
      assert s1[..i + 1] == s1[..i] + [s1[i]];
      DedupSnoc(s1[..i], s1[i]);
      if s1[i] !in merged { merged := merged + [s1[i]]; }
    }
    assert s1[..|s1|] == s1;
    merged := AddSuggestions(s1, merged, s2, limit);
    if |merged| > limit { merged := merged[..limit]; }
  }

  method AddSuggestions(ghost s1: seq<string>, from: seq<string>, s2: seq<string>, limit: nat)
    returns (merged: seq<string>)
    requires from == Dedup(s1)
    ensures First(merged, limit) == First(Dedup(s1 + s2), limit)
  {
    hide Dedup;
    merged := from;
    assert s1 + s2[..0] == s1;
    var j := 0;
    while j < |s2| && |merged| < limit
      invariant j <= |s2| && merged == Dedup(s1 + s2[..j])
    {
      ExtendPrefix(s1, s2, j);
      DedupSnoc(s1 + s2[..j], s2[j]);
      if s2[j] !in merged { merged := merged + [s2[j]]; }
      j := j + 1;
    }
    DedupGrows(s1 + s2[..j], s2[j..]);
    assert s1 + s2[..j] + s2[j..] == s1 + s2;
    assert s2[..|s2|] == s2;
  }

  lemma {:induction false} ExtendPrefix(s1: seq<string>, s2: seq<string>, j: nat)
    requires j < |s2|
    ensures s1 + s2[..j + 1] == s1 + s2[..j] + [s2[j]]
  {
  }

  lemma {:induction false} DedupSnoc(xs: seq<string>, x: string)
    ensures Dedup(xs + [x]) == if x in Dedup(xs) then Dedup(xs) else Dedup(xs) + [x]
  {
    assert (xs + [x])[..|xs|] == xs;
  }

  /** More input only adds at the end. */
  lemma {:induction false} DedupGrows(xs: seq<string>, ys: seq<string>)
    ensures Dedup(xs) <= Dedup(xs + ys)
    decreases |ys|
  {
    if ys == [] {
      assert xs + ys == xs;
    } else {
      var n := |ys| - 1;
      assert (xs + ys)[..|xs| + n] == xs + ys[..n];
      DedupGrows(xs, ys[..n]);
    }
  }
}
