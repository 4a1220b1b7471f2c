/** What the redaction of a flow value covers: the entry of the first deny-listed token, and
    nothing after it. */
module RedactFlows {
  import opened Llm
  import opened Utf8
  import opened Redact

  /** s[a..b] is a whole token. */
  predicate IsToken(s: Bytes, a: nat, b: nat) {
    && a < b <= |s|
    && (forall j | a <= j < b :: IsTokenChar(s[j]))
    && (a == 0 || !IsTokenChar(s[a - 1]))
    && (b == |s| || !IsTokenChar(s[b]))
  }

  /** The search finds a deny-listed token, and no earlier one exists. */
  lemma {:induction false} FirstSecretIsFirst(secret: DenyList, s: Bytes, i: nat, a: nat, b: nat)
    requires i <= |s| && (i == 0 || i == |s| || !IsTokenChar(s[i]) || !IsTokenChar(s[i - 1]))
    ensures var r := FirstSecret(secret, s, i);
      r.Some? ==> IsToken(s, r.value, TokenEnd(s, r.value)) && secret(s[r.value..TokenEnd(s, r.value)])
    ensures i <= a && IsToken(s, a, b) && secret(s[a..b]) ==>
      FirstSecret(secret, s, i).Some? && FirstSecret(secret, s, i).value <= a
    decreases |s| - i
  {
    if i < |s| {
      if !IsTokenChar(s[i]) {
        FirstSecretIsFirst(secret, s, i + 1, a, b);
      } else {
        var e := TokenEnd(s, i);
        if i == a && IsToken(s, a, b) { assert e == b; }
        if !secret(s[i..e]) { FirstSecretIsFirst(secret, s, e, a, b); }
      }
    }
  }

  /** Opened minus closed braces. */
  function Depth(s: Bytes): int {
    if s == [] then 0
    else Depth(s[..|s| - 1]) + if s[|s| - 1] == OPEN then 1 else if s[|s| - 1] == CLOSE then -1 else 0
  }

  /** At k, a comma or a closing brace outside every brace opened since the start. */
  predicate EndsEntry(s: Bytes, start: nat, k: nat) {
    start <= k < |s| && (s[k] == COMMA || s[k] == CLOSE) && Depth(s[start..k]) == 0
  }

  lemma {:induction false} FlowEndFrom(s: Bytes, start: nat, i: nat)
    requires start <= i <= |s| && Depth(s[start..i]) >= 0
    ensures var e := FlowEnd(s, i, Depth(s[start..i]));
      && (e < |s| ==> EndsEntry(s, start, e))
      && forall k | i <= k < e :: !EndsEntry(s, start, k)
    decreases |s| - i
  {
    if i < |s| {
      assert s[start..i + 1][..|s[start..i + 1]| - 1] == s[start..i];
      if !EndsEntry(s, start, i) { FlowEndFrom(s, start, i + 1); }
    }
  }

  /** The redacted extent of a flow entry reaches to the first comma or closing brace of its
      own level, or to the end. */
  lemma {:induction false} FlowEndIsFirst(s: Bytes, start: nat)
    requires start <= |s|
    ensures var e := FlowEnd(s, start, 0);
      && start <= e <= |s|
      && (e < |s| ==> EndsEntry(s, start, e))
      && forall k | start <= k < e :: !EndsEntry(s, start, k)
  {
    assert s[start..start] == [];
    FlowEndFrom(s, start, start);
  }

  lemma {:induction false} TokenEndPrefix(s: Bytes, t: Bytes, i: nat)
    requires i <= |s| && TokenEnd(s, i) < |s|
    ensures TokenEnd(s + t, i) == TokenEnd(s, i)
    decreases |s| - i
  {
    if IsTokenChar(s[i]) { TokenEndPrefix(s, t, i + 1); }
  }

  /** A secret token that ends inside s is still the first one of any longer text. */
  lemma {:induction false} FirstSecretPrefix(secret: DenyList, s: Bytes, t: Bytes, i: nat)
    requires i <= |s| && FirstSecret(secret, s, i).Some? && TokenEnd(s, FirstSecret(secret, s, i).value) < |s|
    ensures FirstSecret(secret, s + t, i) == FirstSecret(secret, s, i)
    decreases |s| - i
  {
    if !IsTokenChar(s[i]) {
      FirstSecretPrefix(secret, s, t, i + 1);
    } else {
      TokenBefore(secret, s, i);
      TokenEndPrefix(s, t, i);
      var e := TokenEnd(s, i);
      assert (s + t)[i..e] == s[i..e];
      if !secret(s[i..e]) { FirstSecretPrefix(secret, s, t, e); }
    }
  }

  lemma {:induction false} TokenBefore(secret: DenyList, s: Bytes, i: nat)
    requires i < |s| && IsTokenChar(s[i]) && FirstSecret(secret, s, i).Some?
    requires TokenEnd(s, FirstSecret(secret, s, i).value) < |s|
    ensures TokenEnd(s, i) < |s|
  {
  }

  // ---------------------------------------------------------------- which values change

  ghost predicate HasSecretToken(secret: DenyList, s: Bytes) {
    exists a: nat, b: nat :: IsToken(s, a, b) && secret(s[a..b])
  }

  lemma {:induction false} SearchFinds(secret: DenyList, s: Bytes)
    ensures FirstSecret(secret, s, 0).Some? <==> HasSecretToken(secret, s)
    ensures FirstSecret(secret, s, 0).Some? ==> IsTokenChar(s[FirstSecret(secret, s, 0).value])
  {
    FirstSecretIsFirst(secret, s, 0, 0, 0);
    if a: nat, b: nat :| IsToken(s, a, b) && secret(s[a..b]) { FirstSecretIsFirst(secret, s, 0, a, b); }
  }

  lemma MarkBytes()
    ensures MARK == [0x5B, 0x52, 0x45, 0x44, 0x41, 0x43, 0x54, 0x45, 0x44, 0x5D]
  {
    assert |MARK| == 10;
  }

  lemma {:induction false} MarkedHasNoBrace(rest: Bytes)
    requires rest == rest[..Indent(rest)] + MARK
    ensures OPEN !in rest
  {
    MarkBytes();
    IndentSkips(rest);
  }

  /** A value stays as it is exactly when it holds no deny-listed token, with or without a
      colon, or is its own redaction already. */
  lemma {:induction false} FlowUnchangedExactly(secret: DenyList, rest: Bytes)
    ensures RedactFlow(secret, rest) == rest <==> !HasSecretToken(secret, rest) || rest == rest[..Indent(rest)] + MARK
  {
    hide FirstSecret, FlowEnd, HasSecretToken, Indent;
    SearchFinds(secret, rest);
    var start := FirstSecret(secret, rest, 0);
    if start.Some? && OPEN in rest[..start.value] {
      MarkBytes();
      assert RedactFlow(secret, rest)[start.value] == MARK[0] == 0x5B;
      if rest == rest[..Indent(rest)] + MARK { MarkedHasNoBrace(rest); }
    }
  }

  lemma {:induction false} WholeToken(s: Bytes, i: nat)
    requires i <= |s| && forall j | i <= j < |s| :: IsTokenChar(s[j])
    ensures TokenEnd(s, i) == |s|
    decreases |s| - i
  {
    if i < |s| { WholeToken(s, i + 1); }
  }

  /** A deny-listed name alone is redacted, although no colon follows it. */
  lemma BareNameIsRedacted(secret: DenyList, name: Bytes)
    requires name != [] && secret(name) && forall j | 0 <= j < |name| :: IsTokenChar(name[j])
    ensures COLON !in [SPACE] + name && RedactFlow(secret, [SPACE] + name) == [SPACE] + MARK
  {
    var s := [SPACE] + name;
    WholeToken(s, 1);
    assert s[1..|s|] == name;
    assert FirstSecret(secret, s, 1) == Some(1);
    assert FirstSecret(secret, s, 0) == Some(1);
    IndentIs(s, 1);
    assert s[..1] == [SPACE];
  }

  // ---------------------------------------------------------------- two flow values

  /** The place of the entry that is redacted: the first deny-listed token, after a brace. */
  predicate StartsAt(secret: DenyList, rest: Bytes, start: nat) {
    FirstSecret(secret, rest, 0) == Some(start) && OPEN in rest[..start]
  }

  /** Two flow values whose first deny-listed tokens stand at the same place come out alike
      exactly when they agree before it and from the end of its entry on. */
  lemma {:induction false} FlowTwoRuns(secret: DenyList, x: Bytes, y: Bytes, start: nat)
    requires start < |x| && start < |y| && StartsAt(secret, x, start) && StartsAt(secret, y, start)
    ensures RedactFlow(secret, x) == RedactFlow(secret, y) <==>
      x[..start] == y[..start] && x[FlowEnd(x, start, 0)..] == y[FlowEnd(y, start, 0)..]
  {
    hide FlowEnd, FirstSecret;
    var (a, b) := (RedactFlow(secret, x), RedactFlow(secret, y));
    var n := start + |MARK|;
    assert a[..start] == x[..start] && b[..start] == y[..start];
    assert a[n..] == x[FlowEnd(x, start, 0)..] && b[n..] == y[FlowEnd(y, start, 0)..];
  }

  lemma {:induction false} SliceOfTail(s: Bytes, n: nat, a: nat, b: nat)
    requires n <= a <= b <= |s|
    ensures s[n..][a - n..b - n] == s[a..b]
  {
  }

  /** Whatever follows the first secret's entry survives, deny-listed or not. */
  lemma {:induction false} RestSurvives(secret: DenyList, rest: Bytes, start: nat, a: nat, b: nat)
    requires start < |rest| && StartsAt(secret, rest, start) && FlowEnd(rest, start, 0) <= a <= b <= |rest|
    ensures var shift := start + |MARK| - FlowEnd(rest, start, 0);
      0 <= a + shift && b + shift <= |RedactFlow(secret, rest)| &&
        RedactFlow(secret, rest)[a + shift..b + shift] == rest[a..b]
  {
    hide FlowEnd, FirstSecret;
    var e, out := FlowEnd(rest, start, 0), RedactFlow(secret, rest);
    var n := start + |MARK|;
    assert out[n..] == rest[e..];
    SliceOfTail(rest, e, a, b);
    SliceOfTail(out, n, n + a - e, n + b - e);
  }

  lemma {:induction false} FlowEndShift(a: Bytes, b: Bytes, i: nat, depth: nat)
    requires i <= |b|
    ensures FlowEnd(a + b, |a| + i, depth) == |a| + FlowEnd(b, i, depth)
    decreases |b| - i
  {
    if i < |b| {
      assert (a + b)[|a| + i] == b[i];
      FlowEndShift(a, b, i + 1, depth);
      FlowEndShift(a, b, i + 1, depth + 1);
      if depth > 0 { FlowEndShift(a, b, i + 1, depth - 1); }
    }
  }

  lemma {:induction false} FlowEndPrefix(s: Bytes, t: Bytes, i: nat, depth: nat)
    requires i <= |s| && FlowEnd(s, i, depth) < |s|
    ensures FlowEnd(s + t, i, depth) == FlowEnd(s, i, depth)
    decreases |s| - i
  {
    assert (s + t)[i] == s[i];
    if s[i] == OPEN { FlowEndPrefix(s, t, i + 1, depth + 1); }
    else if s[i] == CLOSE { if depth > 0 { FlowEndPrefix(s, t, i + 1, depth - 1); } }
    else if !(s[i] == COMMA && depth == 0) { FlowEndPrefix(s, t, i + 1, depth); }
  }

  /** The braces still open at the end of a text in which the entry does not end. */
  function DepthAfter(s: Bytes, i: nat, depth: nat): nat
    requires i <= |s| && FlowEnd(s, i, depth) == |s|
    decreases |s| - i
  {
    if i == |s| then depth
    else if s[i] == OPEN then DepthAfter(s, i + 1, depth + 1)
    else if s[i] == CLOSE then DepthAfter(s, i + 1, depth - 1)
    else DepthAfter(s, i + 1, depth)
  }

  /** An entry that does not end in s goes on behind it. */
  lemma {:induction false} FlowEndThrough(s: Bytes, t: Bytes, i: nat, depth: nat)
    requires i <= |s| && FlowEnd(s, i, depth) == |s|
    ensures FlowEnd(s + t, i, depth) == |s| + FlowEnd(t, 0, DepthAfter(s, i, depth))
    decreases |s| - i
  {
    if i == |s| {
      FlowEndShift(s, t, 0, depth);
    } else {
      assert (s + t)[i] == s[i];
      FlowEndThrough(s, t, i + 1, if s[i] == OPEN then depth + 1 else if s[i] == CLOSE then depth - 1 else depth);
    }
  }

  /** A secret key that stands in a flow after `pre`, with what parts it from its value. */
  predicate SecretKey(secret: DenyList, pre: Bytes, key: Bytes) {
    && key != [] && TokenEnd(pre + key, |pre|) < |pre + key|
    && IsToken(pre + key, |pre|, TokenEnd(pre + key, |pre|)) && secret((pre + key)[|pre|..TokenEnd(pre + key, |pre|)])
  }

  /** The first deny-listed token up to that key, the key's own at the latest. */
  lemma FirstUpTo(secret: DenyList, pre: Bytes, key: Bytes, v: Bytes, post: Bytes) returns (start: nat)
    requires SecretKey(secret, pre, key)
    ensures start <= |pre| && FirstSecret(secret, pre + key, 0) == Some(start)
    ensures FirstSecret(secret, pre + key + v + post, 0) == Some(start)
  {
    var s := pre + key;
    FirstSecretIsFirst(secret, s, 0, |pre|, TokenEnd(s, |pre|));
    start := FirstSecret(secret, s, 0).value;
    FirstSecretPrefix(secret, s, v + post, 0);
    assert s + (v + post) == pre + key + v + post;
  }

  /** What the redaction leaves readable behind the placeholder, from the end of the first
      secret's entry on. It may have ended before this key, or end in its value or behind. */
  function Readable(pre: Bytes, rest: Bytes, start: nat): Bytes
    requires start <= |pre|
  {
    if OPEN !in pre[..start] then []
    else if FlowEnd(pre, start, 0) < |pre| then pre[FlowEnd(pre, start, 0)..] + rest
    else rest[FlowEnd(rest, 0, DepthAfter(pre, start, 0))..]
  }

  /** Where the redaction goes on after an entry that pre leaves open. */
  lemma {:induction false} CoveredOut(secret: DenyList, pre: Bytes, rest: Bytes, start: nat)
    requires start <= |pre| && OPEN in pre[..start] && FlowEnd(pre, start, 0) == |pre|
    requires FirstSecret(secret, pre + rest, 0) == Some(start)
    ensures RedactFlow(secret, pre + rest) == pre[..start] + MARK + Readable(pre, rest, start)
  {
    hide FirstSecret;
    var x, e := pre + rest, FlowEnd(rest, 0, DepthAfter(pre, start, 0));
    FlowEndThrough(pre, rest, start, 0);
    assert x[..start] == pre[..start] && x[|pre| + e..] == rest[e..];
  }

  lemma {:induction false} UncoveredOut(secret: DenyList, pre: Bytes, rest: Bytes, start: nat)
    requires start <= |pre| && OPEN in pre[..start] && FlowEnd(pre, start, 0) < |pre|
    requires FirstSecret(secret, pre + rest, 0) == Some(start)
    ensures RedactFlow(secret, pre + rest) == pre[..start] + MARK + Readable(pre, rest, start)
  {
    hide FirstSecret;
    var x, e := pre + rest, FlowEnd(pre, start, 0);
    FlowEndPrefix(pre, rest, start, 0);
    assert x[..start] == pre[..start] && x[e..] == pre[e..] + rest;
  }

  lemma {:induction false} PlainOut(secret: DenyList, pre: Bytes, key: Bytes, v: Bytes, post: Bytes, start: nat)
    requires start <= |pre| && OPEN !in pre[..start] && key != [] && IsTokenChar(key[0])
    requires FirstSecret(secret, pre + key + v + post, 0) == Some(start)
    ensures RedactFlow(secret, pre + key + v + post) == (pre + key)[..Indent(pre + key)] + MARK
  {
    hide FirstSecret;
    var (s, x) := (pre + key, pre + key + v + post);
    IndentSkips(s);
    assert s[|pre|] == key[0];
    assert forall j | 0 <= j < |s| :: x[j] == s[j];
    IndentIs(x, Indent(s));
    assert x[..Indent(s)] == s[..Indent(s)] && x[..start] == pre[..start];
  }

  /** The exact output for a secret key anywhere in a flow with a brace before the first
      secret. */
  lemma FlowValueOut(secret: DenyList, pre: Bytes, key: Bytes, v: Bytes, post: Bytes) returns (start: nat)
    requires SecretKey(secret, pre, key)
    ensures start <= |pre| && FirstSecret(secret, pre + key, 0) == Some(start)
    ensures RedactFlow(secret, pre + key + v + post) ==
      if OPEN in pre[..start] then pre[..start] + MARK + Readable(pre, key + v + post, start)
      else (pre + key)[..Indent(pre + key)] + MARK
  {
    hide RedactFlow, FirstSecret, FlowEnd, Indent, Readable, DepthAfter;
    start := FirstUpTo(secret, pre, key, v, post);
    var rest := key + v + post;
    assert pre + key + v + post == pre + rest;
    assert (pre + key)[|pre|] == key[0];
    if OPEN !in pre[..start] { PlainOut(secret, pre, key, v, post, start); }
    else if FlowEnd(pre, start, 0) == |pre| { CoveredOut(secret, pre, rest, start); }
    else { UncoveredOut(secret, pre, rest, start); }
  }

  /** Two values of a secret key in a flow come out alike exactly when nothing readable tells
      them apart: always without a brace; never once the first secret's entry is over before
      the key; otherwise when what follows the end of that entry is the same. */
  lemma FlowValueHiddenExactly(secret: DenyList, pre: Bytes, key: Bytes, v: Bytes, w: Bytes, post: Bytes)
      returns (start: nat)
    requires SecretKey(secret, pre, key)
    ensures start <= |pre| && FirstSecret(secret, pre + key, 0) == Some(start)
    ensures
      RedactFlow(secret, pre + key + v + post) == RedactFlow(secret, pre + key + w + post) <==>
        if OPEN !in pre[..start] then true
        else if FlowEnd(pre, start, 0) < |pre| then v == w
        else
          var (x, y, depth) := (key + v + post, key + w + post, DepthAfter(pre, start, 0));
          x[FlowEnd(x, 0, depth)..] == y[FlowEnd(y, 0, depth)..]
  {
    hide RedactFlow, FirstSecret, FlowEnd, Indent, DepthAfter, SecretKey, Readable;
    start := FlowValueOut(secret, pre, key, v, post);
    var _ := FlowValueOut(secret, pre, key, w, post);
    if OPEN in pre[..start] {
      ReadableAlike(pre, key, v, w, post, start);
      SameFront(pre[..start] + MARK, Readable(pre, key + v + post, start), Readable(pre, key + w + post, start));
    }
  }

  lemma {:induction false} ReadableAlike(pre: Bytes, key: Bytes, v: Bytes, w: Bytes, post: Bytes, start: nat)
    requires start <= |pre| && OPEN in pre[..start]
    ensures var (x, y) := (key + v + post, key + w + post);
      Readable(pre, x, start) == Readable(pre, y, start) <==>
        if FlowEnd(pre, start, 0) < |pre| then v == w
        else
          var depth := DepthAfter(pre, start, 0);
          x[FlowEnd(x, 0, depth)..] == y[FlowEnd(y, 0, depth)..]
  {
    hide FlowEnd, DepthAfter;
    SameFront(pre[FlowEnd(pre, start, 0)..], key + v + post, key + w + post);
    if key + v + post == key + w + post { Cancel(key, v, w, post); }
  }

  lemma SameFront(a: Bytes, x: Bytes, y: Bytes)
    ensures a + x == a + y <==> x == y
  {
    assert x == (a + x)[|a|..] && y == (a + y)[|a|..];
  }

  /** The entry of the first secret key is replaced with its whole value and its siblings
      kept, exactly when no comma or closing brace of the entry's own level, be it in square
      brackets or quotes, comes before the end of the value, and one comes there. */
  lemma {:induction false} FlowEntryHidden(secret: DenyList, pre: Bytes, key: Bytes, v: Bytes, post: Bytes)
    requires SecretKey(secret, pre, key) && FirstSecret(secret, pre + key, 0) == Some(|pre|) && OPEN in pre
    ensures var (x, end) := (pre + key + v + post, |pre + key + v|);
      RedactFlow(secret, x) == pre + MARK + post <==>
        (post == [] || EndsEntry(x, |pre|, end)) && forall k | |pre| <= k < end :: !EndsEntry(x, |pre|, k)
  {
    hide FirstSecret, FlowEnd, Indent, SecretKey, EndsEntry;
    var (x, end) := (pre + key + v + post, |pre + key + v|);
    var start := FirstUpTo(secret, pre, key, v, post);
    assert x[..|pre|] == pre;
    FlowEndIsFirst(x, |pre|);
    var e := FlowEnd(x, |pre|, 0);
    assert RedactFlow(secret, x) == pre + MARK + x[e..];
    assert x[end..] == post;
    SameFront(pre + MARK, x[e..], post);
  }

  lemma Cancel(a: Bytes, v: Bytes, w: Bytes, b: Bytes)
    requires a + v + b == a + w + b
    ensures v == w
  {
    assert |v| == |w|;
    assert v == (a + v + b)[|a|..|a| + |v|];
    assert w == (a + w + b)[|a|..|a| + |w|];
  }

  /** A second secret of a flow leaks: only the first one's entry is redacted. */
  lemma SecondSecretLeaks(secret: DenyList, v: Bytes)
    requires secret(Ascii("a")) && secret(Ascii("b"))
    ensures RedactFlow(secret, Ascii("{a:1,b:") + v + [CLOSE]) == [OPEN] + MARK + Ascii(",b:") + v + [CLOSE]
  {
    var head, tail := Ascii("{a:1,b:"), v + [CLOSE];
    var rest := head + tail;
    assert head == [0x7B, 0x61, 0x3A, 0x31, 0x2C, 0x62, 0x3A];
    assert rest == Ascii("{a:1,b:") + v + [CLOSE];
    assert forall j | 0 <= j < 7 :: rest[j] == head[j];
    LeakStart(secret, rest);
    assert FlowEnd(rest, 4, 0) == 4 && FlowEnd(rest, 3, 0) == 4 && FlowEnd(rest, 2, 0) == 4 && FlowEnd(rest, 1, 0) == 4;
    assert rest[..1] == [OPEN] && rest[4..] == Ascii(",b:") + v + [CLOSE];
  }

  /** The entry of a secret key is cut at the first comma outside braces, wherever that stands:
      what follows it in a list or in quotes leaks. */
  lemma CommaLeaks(secret: DenyList, front: Bytes, v: Bytes)
    requires secret(Ascii("a")) && COMMA !in front && OPEN !in front && CLOSE !in front
    ensures RedactFlow(secret, Ascii("{a:") + front + [COMMA] + v) == [OPEN] + MARK + [COMMA] + v
  {
    var head, tail := Ascii("{a:"), front + [COMMA] + v;
    var rest := head + tail;
    assert head == [0x7B, 0x61, 0x3A];
    assert rest == Ascii("{a:") + front + [COMMA] + v;
    assert forall j | 0 <= j < 3 :: rest[j] == head[j];
    LeakStart(secret, rest);
    FlowEndShift(head, tail, 0, 0);
    ToComma(front, v, 0);
    assert FlowEnd(rest, 2, 0) == FlowEnd(rest, 3, 0) && FlowEnd(rest, 1, 0) == FlowEnd(rest, 2, 0);
    assert rest[..1] == [OPEN] && rest[3 + |front|..] == [COMMA] + v;
  }

  lemma {:induction false} ToComma(front: Bytes, v: Bytes, i: nat)
    requires i <= |front| && COMMA !in front && OPEN !in front && CLOSE !in front
    ensures FlowEnd(front + [COMMA] + v, i, 0) == |front|
    decreases |front| - i
  {
    if i < |front| {
      assert (front + [COMMA] + v)[i] == front[i];
      ToComma(front, v, i + 1);
    } else {
      assert (front + [COMMA] + v)[i] == COMMA;
    }
  }

  /** The second item of a secret list, and the text after a comma in a quoted secret. */
  lemma ListAndQuoteLeak(secret: DenyList, v: Bytes)
    requires secret(Ascii("a"))
    ensures RedactFlow(secret, Ascii("{a:[x,") + v + Ascii("]}")) == [OPEN] + MARK + [COMMA] + v + Ascii("]}")
    ensures RedactFlow(secret, Ascii("{a:\"x,") + v + Ascii("\"}")) == [OPEN] + MARK + [COMMA] + v + Ascii("\"}")
  {
    hide RedactFlow;
    var (list, quote) := (Ascii("[x"), Ascii("\"x"));
    assert list == [0x5B, 0x78] && quote == [0x22, 0x78];
    CommaLeaks(secret, list, v + Ascii("]}"));
    CommaLeaks(secret, quote, v + Ascii("\"}"));
    assert Ascii("{a:") + list + [COMMA] + (v + Ascii("]}")) == Ascii("{a:[x,") + v + Ascii("]}");
    assert Ascii("{a:") + quote + [COMMA] + (v + Ascii("\"}")) == Ascii("{a:\"x,") + v + Ascii("\"}");
    assert [OPEN] + MARK + [COMMA] + (v + Ascii("]}")) == [OPEN] + MARK + [COMMA] + v + Ascii("]}");
    assert [OPEN] + MARK + [COMMA] + (v + Ascii("\"}")) == [OPEN] + MARK + [COMMA] + v + Ascii("\"}");
  }

  lemma {:induction false} LeakStart(secret: DenyList, rest: Bytes)
    requires secret(Ascii("a")) && |rest| > 2 && rest[0] == OPEN && rest[1] == 0x61 && rest[2] == COLON
    ensures FirstSecret(secret, rest, 0) == Some(1)
  {
    assert TokenEnd(rest, 2) == 2 && TokenEnd(rest, 1) == 2;
    assert rest[1..2] == Ascii("a");
    assert FirstSecret(secret, rest, 1) == Some(1);
  }
}
