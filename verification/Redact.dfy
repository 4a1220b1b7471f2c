/** Redaction of a raw configuration dump, line by line. The deny-list is an arbitrary
    predicate on keys. */
module Redact {
  import opened Llm
  import opened Utf8

  type DenyList = Bytes -> bool

  const NEWLINE: byte := 0x0A
  const TAB: byte := 0x09
  const SPACE: byte := 0x20
  const DOUBLE_QUOTE: byte := 0x22
  const SINGLE_QUOTE: byte := 0x27
  const COMMA: byte := 0x2C
  const DASH: byte := 0x2D
  const COLON: byte := 0x3A
  const OPEN: byte := 0x7B
  const CLOSE: byte := 0x7D
  const MARK: Bytes := Ascii("[REDACTED]")

  // ---------------------------------------------------------------- the parts of a line

  /** The index of the first b in s, or the length. */
  function IndexOf(s: Bytes, b: byte): (i: nat)
    ensures i <= |s|
  {
    if s == [] then 0 else if s[0] == b then 0 else 1 + IndexOf(s[1..], b)
  }

  function Indent(line: Bytes): (n: nat)
    ensures n <= |line|
  {
    if line != [] && (line[0] == SPACE || line[0] == TAB) then 1 + Indent(line[1..]) else 0
  }

  /** Where the body starts: after the indentation and a "- " sequence prefix. */
  function BodyStart(line: Bytes): (n: nat)
    ensures n <= |line|
  {
    var i := Indent(line);
    if i + 1 < |line| && line[i] == DASH && line[i + 1] == SPACE then i + 2 else i
  }

  /** The index of the first colon of the body, or the length of the line. */
  function ColonAt(line: Bytes): (n: nat)
    ensures BodyStart(line) <= n <= |line|
  {
    BodyStart(line) + IndexOf(line[BodyStart(line)..], COLON)
  }

  predicate HasColon(line: Bytes) { ColonAt(line) < |line| }

  function TrimQuotesLeft(s: Bytes): Bytes {
    if s != [] && (s[0] == DOUBLE_QUOTE || s[0] == SINGLE_QUOTE) then TrimQuotesLeft(s[1..]) else s
  }

  function TrimQuotesRight(s: Bytes): Bytes {
    if s != [] && (s[|s| - 1] == DOUBLE_QUOTE || s[|s| - 1] == SINGLE_QUOTE) then TrimQuotesRight(s[..|s| - 1]) else s
  }

  function NormalizeKeyToken(s: Bytes): Bytes {
    var trimmed := TrimSpace(s);
    var body := if |trimmed| >= 2 && trimmed[0] == DASH && trimmed[1] == SPACE then trimmed[2..] else trimmed;
    TrimQuotesRight(TrimQuotesLeft(TrimSpace(body[..IndexOf(body, COLON)])))
  }

  function KeyOf(line: Bytes): Bytes { NormalizeKeyToken(line[BodyStart(line)..ColonAt(line)]) }

  predicate IsSecretLine(secret: DenyList, line: Bytes) { !Blank(line) && HasColon(line) && secret(KeyOf(line)) }

  // ---------------------------------------------------------------- flow values

  predicate IsTokenChar(c: byte) { 0x61 <= c <= 0x7A || 0x41 <= c <= 0x5A || 0x30 <= c <= 0x39 || c == 0x5F }

  function TokenEnd(s: Bytes, i: nat): (e: nat)
    requires i <= |s|
    ensures i <= e <= |s| && (e < |s| ==> !IsTokenChar(s[e]))
    ensures forall j | i <= j < e :: IsTokenChar(s[j])
    decreases |s| - i
  {
    if i < |s| && IsTokenChar(s[i]) then TokenEnd(s, i + 1) else i
  }

  /** The start of the first deny-listed token at or after i. */
  function FirstSecret(secret: DenyList, s: Bytes, i: nat): (start: Option<nat>)
    requires i <= |s|
    ensures start.Some? ==> i <= start.value < |s| && IsTokenChar(s[start.value])
    decreases |s| - i
  {
    if i == |s| then None
    else if !IsTokenChar(s[i]) then FirstSecret(secret, s, i + 1)
    else if secret(s[i..TokenEnd(s, i)]) then Some(i)
    else FirstSecret(secret, s, TokenEnd(s, i))
  }

  /** The end of the flow entry that s[i] is in, `depth` braces below its start. */
  function FlowEnd(s: Bytes, i: nat, depth: nat): (e: nat)
    requires i <= |s|
    ensures i <= e <= |s|
    decreases |s| - i
  {
    if i == |s| then i
    else if s[i] == OPEN then FlowEnd(s, i + 1, depth + 1)
    else if s[i] == CLOSE then if depth == 0 then i else FlowEnd(s, i + 1, depth - 1)
    else if s[i] == COMMA && depth == 0 then i
    else FlowEnd(s, i + 1, depth)
  }

  function RedactFlow(secret: DenyList, rest: Bytes): Bytes {
    var start := FirstSecret(secret, rest, 0);
    if start.None? then rest
    else if OPEN in rest[..start.value] then rest[..start.value] + MARK + rest[FlowEnd(rest, start.value, 0)..]
    else rest[..Indent(rest)] + MARK
  }

  predicate IsQuotedOrEmpty(value: Bytes) {
    var trimmed := TrimSpace(value);
    trimmed == [] || trimmed[0] == DOUBLE_QUOTE || trimmed[0] == SINGLE_QUOTE
  }

  // ---------------------------------------------------------------- lines

  /** The column of the secret key whose block is being dropped, if any. */
  type Mode = Option<nat>

  predicate Drops(mode: Mode, line: Bytes) {
    && mode.Some? && !Blank(line)
    && (Indent(line) > mode.value || (Indent(line) == mode.value && !HasColon(line)))
  }

  function ModeAfter(secret: DenyList, mode: Mode, line: Bytes): Mode {
    if Blank(line) || Drops(mode, line) then mode
    else if IsSecretLine(secret, line) then Some(Indent(line))
    else None
  }

  /** Up to the first byte that starts white space. */
  function FirstWord(s: Bytes): Bytes {
    if s == [] || SpaceLength(s) > 0 then [] else [s[0]] + FirstWord(s[1..])
  }

  function FirstField(line: Bytes): Bytes { FirstWord(TrimLeft(line)) }

  function ValueOut(secret: DenyList, line: Bytes, k: nat): Bytes
    requires k <= |line|
  {
    if IsQuotedOrEmpty(line[k..]) then line else line[..k] + RedactFlow(secret, line[k..])
  }

  /** A secret line keeps its indentation, its prefix and its key. */
  function KeyOnly(line: Bytes, key: Bytes): Bytes { line[..BodyStart(line)] + key + [COLON, SPACE] + MARK }

  /** What is written for a line that is neither blank nor dropped. */
  function LineOut(secret: DenyList, line: Bytes): Bytes {
    if !HasColon(line) then
      if secret(FirstField(line)) then FirstField(line) + [SPACE] + MARK else line
    else if secret(KeyOf(line)) then KeyOnly(line, KeyOf(line))
    else ValueOut(secret, line, ColonAt(line) + 1)
  }

  /** What a line contributes. */
  function Emitted(secret: DenyList, mode: Mode, line: Bytes): seq<Bytes> {
    if Blank(line) then [line] else if Drops(mode, line) then [] else [LineOut(secret, line)]
  }

  function RedactLines(secret: DenyList, mode: Mode, lines: seq<Bytes>): seq<Bytes>
    decreases |lines|
  {
    if lines == [] then []
    else
      Emitted(secret, mode, lines[0]) + RedactLines(secret, ModeAfter(secret, mode, lines[0]), lines[1..])
  }

  function Split(content: Bytes): (lines: seq<Bytes>)
    ensures lines != []
    decreases |content|
  {
    var i := IndexOf(content, NEWLINE);
    if i == |content| then [content] else [content[..i]] + Split(content[i + 1..])
  }

  function Join(lines: seq<Bytes>): Bytes {
    if lines == [] then [] else if |lines| == 1 then lines[0] else lines[0] + [NEWLINE] + Join(lines[1..])
  }

  function Redacted(secret: DenyList, content: Bytes): Bytes { Join(RedactLines(secret, None, Split(content))) }

  // ---------------------------------------------------------------- the loops

  method LeadingWhitespaceLen(s: Bytes) returns (i: nat)
    ensures i == Indent(s)
  {
    i := 0;
    while i < |s| && (s[i] == SPACE || s[i] == TAB)
      invariant i <= |s| && i + Indent(s[i..]) == Indent(s)
    {
      assert s[i..][1..] == s[i + 1..];
      i := i + 1;
    }
  }

  method FirstSecretTokenIndex(secret: DenyList, rest: Bytes) returns (start: Option<nat>)
    ensures start == FirstSecret(secret, rest, 0)
  {
    var i := 0;
    while i < |rest|
      invariant i <= |rest| && FirstSecret(secret, rest, i) == FirstSecret(secret, rest, 0)
    {
      while i < |rest| && !IsTokenChar(rest[i])
        invariant i <= |rest| && FirstSecret(secret, rest, i) == FirstSecret(secret, rest, 0)
      {
        i := i + 1;
      }
      var first := i;
      while i < |rest| && IsTokenChar(rest[i])
        invariant first <= i <= |rest| && TokenEnd(rest, i) == TokenEnd(rest, first)
        decreases |rest| - i
      {
        i := i + 1;
      }
      if first < i && secret(rest[first..i]) { return Some(first); }
    }
    return None;
  }

  method FlowExtentEnd(rest: Bytes, start: nat) returns (end: nat)
    requires start <= |rest|
    ensures end == FlowEnd(rest, start, 0)
  {
    var depth: nat := 0;
    for i := start to |rest|
      invariant FlowEnd(rest, i, depth) == FlowEnd(rest, start, 0)
    {
      if rest[i] == OPEN {
        depth := depth + 1;
      } else if rest[i] == CLOSE {
        if depth == 0 { return i; }
        depth := depth - 1;
      } else if rest[i] == COMMA && depth == 0 {
        return i;
      }
    }
    return |rest|;
  }

  method RedactFlowEntry(secret: DenyList, rest: Bytes) returns (out: Bytes)
    ensures out == RedactFlow(secret, rest)
  {
    var start := FirstSecretTokenIndex(secret, rest);
    if start.None? { return rest; }
    if OPEN in rest[..start.value] {
      var end := FlowExtentEnd(rest, start.value);
      return rest[..start.value] + MARK + rest[end..];
    }
    var n := LeadingWhitespaceLen(rest);
    return rest[..n] + MARK;
  }

  lemma {:induction false} RedactOne(secret: DenyList, mode: Mode, line: Bytes)
    ensures RedactLines(secret, mode, [line]) == Emitted(secret, mode, line)
    ensures ModeAfterAll(secret, mode, [line]) == ModeAfter(secret, mode, line)
  {
    assert [line][1..] == [];
  }

  lemma {:induction false} RedactLinesSnoc(secret: DenyList, mode: Mode, lines: seq<Bytes>, line: Bytes)
    ensures ModeAfterAll(secret, mode, lines + [line]) == ModeAfter(secret, ModeAfterAll(secret, mode, lines), line)
    ensures RedactLines(secret, mode, lines + [line]) ==
      RedactLines(secret, mode, lines) + Emitted(secret, ModeAfterAll(secret, mode, lines), line)
  {
    RedactLinesConcat(secret, mode, lines, [line]);
    RedactOne(secret, ModeAfterAll(secret, mode, lines), line);
  }

  function ModeAfterAll(secret: DenyList, mode: Mode, lines: seq<Bytes>): Mode
    decreases |lines|
  {
    if lines == [] then mode else ModeAfterAll(secret, ModeAfter(secret, mode, lines[0]), lines[1..])
  }

  lemma {:induction false} RedactLinesConcat(secret: DenyList, mode: Mode, a: seq<Bytes>, b: seq<Bytes>)
    ensures ModeAfterAll(secret, mode, a + b) == ModeAfterAll(secret, ModeAfterAll(secret, mode, a), b)
    ensures RedactLines(secret, mode, a + b) ==
      RedactLines(secret, mode, a) + RedactLines(secret, ModeAfterAll(secret, mode, a), b)
    decreases |a|
  {
    if a == [] {
      assert a + b == b;
    } else {
      assert (a + b)[1..] == a[1..] + b;
      RedactLinesConcat(secret, ModeAfter(secret, mode, a[0]), a[1..], b);
    }
  }

  lemma {:induction false} SplitAt(s: Bytes, k: nat)
    requires k <= |s|
    ensures s[..k] + s[k..] == s
  {
  }

  method RedactColonless(secret: DenyList, line: Bytes) returns (out: Bytes)
    requires !HasColon(line)
    ensures out == LineOut(secret, line)
  {
    var field := FirstField(line);
    if secret(field) { return field + [SPACE] + MARK; }
    return line;
  }

  /** A line whose key is not secret; the value starts at k. */
  method RedactValue(secret: DenyList, line: Bytes, k: nat) returns (out: Bytes)
    requires k <= |line|
    ensures out == ValueOut(secret, line, k)
  {
    if IsQuotedOrEmpty(line[k..]) { return line; }
    var redacted := RedactFlowEntry(secret, line[k..]);
    SplitAt(line, k);
    if redacted != line[k..] { return line[..k] + redacted; }
    return line;
  }

  method RedactKept(secret: DenyList, line: Bytes) returns (out: Bytes)
    ensures out == LineOut(secret, line)
  {
    hide TrimSpace, FirstField, KeyOf, RedactFlow, IsQuotedOrEmpty;
    if !HasColon(line) {
      out := RedactColonless(secret, line);
      return;
    }
    var key := KeyOf(line);
    if secret(key) { return KeyOnly(line, key); }
    out := RedactValue(secret, line, ColonAt(line) + 1);
  }

  /** The body of the loop: the line's contribution and the new suppression state. */
  method RedactLine(secret: DenyList, mode: Mode, line: Bytes) returns (emitted: seq<Bytes>, next: Mode)
    ensures emitted == Emitted(secret, mode, line) && next == ModeAfter(secret, mode, line)
  {
    if Blank(line) { return [line], mode; }
    var indent := LeadingWhitespaceLen(line);
    if mode.Some? && (indent > mode.value || (indent == mode.value && !HasColon(line))) { return [], mode; }
    assert !Drops(mode, line);
    var secretKey := HasColon(line) && secret(KeyOf(line));
    var out := RedactKept(secret, line);
    emitted, next := [out], if secretKey then Some(indent) else None;
  }

  method RedactRawContent(secret: DenyList, content: Bytes) returns (out: Bytes)
    ensures out == Redacted(secret, content)
  {
    hide Emitted, ModeAfter;
    var lines := Split(content);
    var kept: seq<Bytes> := [];
    var mode: Mode := None;
    for k := 0 to |lines|
      invariant mode == ModeAfterAll(secret, None, lines[..k])
      invariant kept == RedactLines(secret, None, lines[..k])
    {
      assert lines[..k + 1] == lines[..k] + [lines[k]];
      RedactLinesSnoc(secret, None, lines[..k], lines[k]);
      var emitted;
      emitted, mode := RedactLine(secret, mode, lines[k]);
      kept := kept + emitted;
    }
    assert lines[..|lines|] == lines;
    out := Join(kept);
  }

  // ---------------------------------------------------------------- what stays

  function BlankLines(lines: seq<Bytes>): seq<Bytes> {
    if lines == [] then [] else (if Blank(lines[0]) then [lines[0]] else []) + BlankLines(lines[1..])
  }

  lemma {:induction false} BlankLinesConcat(a: seq<Bytes>, b: seq<Bytes>)
    ensures BlankLines(a + b) == BlankLines(a) + BlankLines(b)
  {
    hide Blank;
    if a == [] {
      assert a + b == b;
    } else {
      assert (a + b)[1..] == a[1..] + b && (a + b)[0] == a[0];
      BlankLinesConcat(a[1..], b);
      var head, rest, last := if Blank(a[0]) then [a[0]] else [], BlankLines(a[1..]), BlankLines(b);
      assert (head + rest) + last == head + (rest + last);
    }
  }

  lemma {:induction false} MarkedIsNotBlank(a: Bytes, b: Bytes)
    ensures !Blank(a + MARK + b)
  {
    hide Blank;
    assert (a + MARK + b)[|a|] == MARK[0] && MARK[0] == 0x5B by { assert "[REDACTED]"[0] as int % 0x80 == 0x5B; }
    VisibleIsNotBlank(a + MARK + b, |a|);
  }

  lemma {:induction false} FlowIsNotBlank(secret: DenyList, head: Bytes, rest: Bytes)
    requires !Blank(head + rest)
    ensures !Blank(head + RedactFlow(secret, rest))
  {
    hide Blank, FirstSecret, FlowEnd, Indent;
    var start := FirstSecret(secret, rest, 0);
    if start.Some? {
      if OPEN in rest[..start.value] {
        MarkInside(head, rest[..start.value], rest[FlowEnd(rest, start.value, 0)..]);
      } else {
        MarkInside(head, rest[..Indent(rest)], []);
        assert rest[..Indent(rest)] + MARK + [] == rest[..Indent(rest)] + MARK;
      }
    }
  }

  lemma MarkInside(head: Bytes, a: Bytes, b: Bytes)
    ensures !Blank(head + (a + MARK + b))
  {
    hide Blank;
    MarkedIsNotBlank(head + a, b);
    assert head + (a + MARK + b) == (head + a) + MARK + b;
  }

  lemma {:induction false} LineOutIsNotBlank(secret: DenyList, line: Bytes)
    requires !Blank(line)
    ensures !Blank(LineOut(secret, line))
  {
    hide Blank, TrimSpace, FirstField, KeyOf, RedactFlow, IsQuotedOrEmpty;
    var k := ColonAt(line) + 1;
    if !HasColon(line) {
      MarkedIsNotBlank(FirstField(line) + [SPACE], []);
      assert FirstField(line) + [SPACE] + MARK + [] == FirstField(line) + [SPACE] + MARK;
    } else if secret(KeyOf(line)) {
      var head := line[..BodyStart(line)] + KeyOf(line) + [COLON, SPACE];
      MarkedIsNotBlank(head, []);
      assert head + MARK + [] == KeyOnly(line, KeyOf(line));
    } else {
      SplitAt(line, k);
      FlowIsNotBlank(secret, line[..k], line[k..]);
    }
  }

  /** Blank lines, and only they, come out blank: the same ones, in the same order. */
  lemma {:induction false} BlankLinesSurvive(secret: DenyList, mode: Mode, lines: seq<Bytes>)
    ensures BlankLines(RedactLines(secret, mode, lines)) == BlankLines(lines)
    decreases |lines|
  {
    hide Blank, Drops, LineOut, ModeAfter;
    if lines != [] {
      var line := lines[0];
      BlankLinesSurvive(secret, ModeAfter(secret, mode, line), lines[1..]);
      BlankLinesConcat(Emitted(secret, mode, line), RedactLines(secret, ModeAfter(secret, mode, line), lines[1..]));
      BlankOfOne(line);
      BlankOfOne(LineOut(secret, line));
      if !Blank(line) { LineOutIsNotBlank(secret, line); }
    }
  }

  lemma {:induction false} BlankOfOne(line: Bytes)
    ensures BlankLines([line]) == if Blank(line) then [line] else []
  {
    hide Blank;
    assert [line][1..] == [];
  }

  // ---------------------------------------------------------------- two runs

  /** A secret line up to and including its first colon. */
  function KeyPart(line: Bytes): Bytes
    requires HasColon(line)
  {
    line[..ColonAt(line) + 1]
  }

  predicate IsSecretWord(secret: DenyList, line: Bytes) { !Blank(line) && !HasColon(line) && secret(FirstField(line)) }

  /** Lines of one plain key whose unquoted values differ only inside the entry of the first
      deny-listed token, or after that token if no brace comes before it. */
  predicate SameFlow(secret: DenyList, x: Bytes, y: Bytes) {
    && HasColon(x) && HasColon(y) && KeyPart(x) == KeyPart(y)
    && !IsSecretLine(secret, x) && !IsSecretLine(secret, y) && !Blank(x) && !Blank(y)
    && var (v, w) := (x[ColonAt(x) + 1..], y[ColonAt(y) + 1..]);
       && !IsQuotedOrEmpty(v) && !IsQuotedOrEmpty(w) && SameOutside(secret, v, w)
  }

  predicate SameOutside(secret: DenyList, v: Bytes, w: Bytes) {
    var (s, t) := (FirstSecret(secret, v, 0), FirstSecret(secret, w, 0));
    && s.Some? && s == t && v[..s.value] == w[..s.value]
    && (OPEN in v[..s.value] ==> v[FlowEnd(v, s.value, 0)..] == w[FlowEnd(w, s.value, 0)..])
  }

  lemma SameOutsideSameFlow(secret: DenyList, v: Bytes, w: Bytes)
    requires SameOutside(secret, v, w)
    ensures RedactFlow(secret, v) == RedactFlow(secret, w)
  {
    hide FlowEnd, FirstSecret, Indent;
    var start := FirstSecret(secret, v, 0).value;
    if OPEN !in v[..start] {
      IndentSkips(v);
      IndentSkips(w);
      IndentBefore(v, start);
      var n := Indent(v);
      assert forall j | 0 <= j < n :: v[j] == v[..start][j] && w[j] == w[..start][j];
      if n < start { assert v[n] == v[..start][n] && w[n] == w[..start][n]; }
      IndentIs(w, n);
      assert v[..n] == v[..start][..n] == w[..n];
    }
  }

  lemma {:induction false} IndentBefore(s: Bytes, k: nat)
    requires k < |s| && IsTokenChar(s[k])
    ensures Indent(s) <= k
  {
    IndentSkips(s);
  }

  /** Equal, or secret lines that differ after the colon only, or lines without a colon that
      differ after a secret first word only, or flow values that differ inside a secret entry. */
  predicate SameKey(secret: DenyList, x: Bytes, y: Bytes) {
    || x == y
    || (IsSecretLine(secret, x) && IsSecretLine(secret, y) && KeyPart(x) == KeyPart(y))
    || (IsSecretWord(secret, x) && IsSecretWord(secret, y) && FirstField(x) == FirstField(y))
    || SameFlow(secret, x, y)
  }

  /** Two dumps that differ in what follows secret keys and in the lines dropped below them. */
  predicate Related(secret: DenyList, mode: Mode, xs: seq<Bytes>, ys: seq<Bytes>)
    decreases |xs| + |ys|
  {
    if xs != [] && Drops(mode, xs[0]) then Related(secret, mode, xs[1..], ys)
    else if ys != [] && Drops(mode, ys[0]) then Related(secret, mode, xs, ys[1..])
    else if xs == [] || ys == [] then xs == ys
    else SameKey(secret, xs[0], ys[0]) && Related(secret, ModeAfter(secret, mode, xs[0]), xs[1..], ys[1..])
  }

  lemma {:induction false} IndentIs(line: Bytes, n: nat)
    requires n <= |line| && (n < |line| ==> line[n] != SPACE && line[n] != TAB)
    requires forall j | 0 <= j < n :: line[j] == SPACE || line[j] == TAB
    ensures Indent(line) == n
    decreases n
  {
    if n > 0 { IndentIs(line[1..], n - 1); }
  }

  lemma {:induction false} IndentSkips(line: Bytes)
    ensures Indent(line) < |line| ==> line[Indent(line)] != SPACE && line[Indent(line)] != TAB
    ensures forall j | 0 <= j < Indent(line) :: line[j] == SPACE || line[j] == TAB
  {
    if line != [] && (line[0] == SPACE || line[0] == TAB) { IndentSkips(line[1..]); }
  }

  lemma {:induction false} IndexOfIs(s: Bytes, b: byte, i: nat)
    requires i < |s| && s[i] == b && forall j | 0 <= j < i :: s[j] != b
    ensures IndexOf(s, b) == i
    decreases i
  {
    if i > 0 { IndexOfIs(s[1..], b, i - 1); }
  }

  lemma {:induction false} IndexOfFinds(s: Bytes, b: byte)
    ensures IndexOf(s, b) < |s| ==> s[IndexOf(s, b)] == b
    ensures forall j | 0 <= j < IndexOf(s, b) :: s[j] != b
  {
    if s != [] && s[0] != b { IndexOfFinds(s[1..], b); }
  }

  /** The part up to the colon decides the indentation, the prefix and the key. */
  lemma {:induction false} KeyPartDecides(x: Bytes, y: Bytes)
    requires HasColon(x) && HasColon(y) && KeyPart(x) == KeyPart(y)
    ensures Indent(x) == Indent(y) && BodyStart(x) == BodyStart(y) && KeyOf(x) == KeyOf(y) && ColonAt(x) == ColonAt(y)
  {
    hide NormalizeKeyToken, IndexOf, Indent;
    var c := ColonAt(x);
    assert |KeyPart(x)| == c + 1 && ColonAt(y) == c;
    ColonIs(x);
    SameStart(x, y, c);
    SameSlice(x, y, BodyStart(x), c);
  }

  lemma {:induction false} SameSlice(x: Bytes, y: Bytes, a: nat, c: nat)
    requires a <= c < |x| && c < |y| && x[..c + 1] == y[..c + 1]
    ensures x[a..c] == y[a..c]
  {
    forall j | a <= j < c ensures x[j] == y[j] { assert x[j] == x[..c + 1][j] && y[j] == y[..c + 1][j]; }
  }

  lemma ColonIs(x: Bytes)
    requires HasColon(x)
    ensures x[ColonAt(x)] == COLON
  {
    IndexOfFinds(x[BodyStart(x)..], COLON);
  }

  /** Lines that agree up to a colon have the same indentation and prefix. */
  lemma {:induction false} SameStart(x: Bytes, y: Bytes, c: nat)
    requires c < |x| && c < |y| && x[..c + 1] == y[..c + 1] && x[c] == COLON && Indent(x) <= BodyStart(x) <= c
    ensures Indent(x) == Indent(y) && BodyStart(x) == BodyStart(y)
  {
    hide Indent;
    assert forall j | 0 <= j <= c :: x[j] == x[..c + 1][j] == y[j];
    IndentSkips(x);
    IndentIs(y, Indent(x));
  }

  lemma {:induction false} SameKeySameOut(secret: DenyList, mode: Mode, x: Bytes, y: Bytes)
    requires SameKey(secret, x, y) && !Drops(mode, x) && !Drops(mode, y)
    ensures Emitted(secret, mode, x) == Emitted(secret, mode, y) &&
      ModeAfter(secret, mode, x) == ModeAfter(secret, mode, y)
  {
    hide Blank, KeyOf, FirstField, RedactFlow, SameOutside, IsQuotedOrEmpty;
    if x != y && HasColon(x) {
      KeyPartDecides(x, y);
      var n := BodyStart(x);
      assert x[..n] == KeyPart(x)[..n] == y[..n];
      if !IsSecretLine(secret, x) { SameOutsideSameFlow(secret, x[ColonAt(x) + 1..], y[ColonAt(y) + 1..]); }
    }
  }

  /** Related dumps are redacted to the same output: nothing after the colon of a secret
      line, and nothing dropped below it, can be told from the result. */
  lemma {:induction false} NonInterference(secret: DenyList, mode: Mode, xs: seq<Bytes>, ys: seq<Bytes>)
    requires Related(secret, mode, xs, ys)
    ensures RedactLines(secret, mode, xs) == RedactLines(secret, mode, ys)
    decreases |xs| + |ys|
  {
    hide Blank, SameKey, LineOut, IsSecretLine;
    if xs != [] && Drops(mode, xs[0]) {
      NonInterference(secret, mode, xs[1..], ys);
    } else if ys != [] && Drops(mode, ys[0]) {
      NonInterference(secret, mode, xs, ys[1..]);
    } else if xs != [] && ys != [] {
      SameKeySameOut(secret, mode, xs[0], ys[0]);
      NonInterference(secret, ModeAfter(secret, mode, xs[0]), xs[1..], ys[1..]);
    }
  }
}
