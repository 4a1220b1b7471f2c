/** Which key a line has, and what becomes of the line, told by the bytes it is made of. */
module RedactKeys {
  import opened Llm
  import opened Utf8
  import opened Redact
  import opened RedactProofs

  // ---------------------------------------------------------------- lines by their pieces

  predicate Spaces(s: Bytes) { forall b | b in s :: b == SPACE || b == TAB }

  predicate Prefix(s: Bytes) { s == [] || s == [DASH, SPACE] }

  predicate Quote(s: Bytes) { s == [] || s == [DOUBLE_QUOTE] || s == [SINGLE_QUOTE] }

  /** Visible characters that are neither quotes nor colons. */
  predicate Name(s: Bytes) {
    s != [] && forall b | b in s :: 0x21 <= b < 0x7F && b != DOUBLE_QUOTE && b != SINGLE_QUOTE && b != COLON
  }

  /** indent, "- " or nothing, the name, quoted or not, blanks, a colon, anything. */
  datatype KeyLine = KeyLine(indent: Bytes, prefix: Bytes, quote: Bytes, name: Bytes, pad: Bytes, value: Bytes) {
    /** A bare dash before a blank would be read as the prefix. */
    predicate Valid() {
      && Spaces(indent) && Prefix(prefix) && Quote(quote) && Name(name) && Spaces(pad)
      && (quote == [] && name == [DASH] ==> pad == [])
    }

    function Quoted(): Bytes { quote + name + quote }

    function Body(): Bytes { Quoted() + pad + [COLON] + value }

    function Head(): Bytes { indent + prefix + Quoted() + pad + [COLON] }

    function Line(): Bytes { Head() + value }

    function Hidden(): Bytes { indent + prefix + name + [COLON, SPACE] + MARK }
  }

  lemma {:induction false} Pieces(k: KeyLine)
    ensures k.Line() == k.indent + (k.prefix + k.Body())
    ensures k.Line() == (k.indent + k.prefix) + k.Body()
    ensures k.Body() == (k.Quoted() + k.pad) + ([COLON] + k.value)
  {
  }

  lemma {:induction false} QuotedEnds(k: KeyLine)
    requires k.Valid()
    ensures k.Quoted() != [] && Visible(k.Quoted()[0]) && Visible(k.Quoted()[|k.Quoted()| - 1])
    ensures COLON !in k.Quoted() && SPACE !in k.Quoted() && TAB !in k.Quoted()
  {
    var q := k.Quoted();
    assert q[0] in k.quote || q[0] == k.name[0];
    assert q[|q| - 1] in k.quote || q[|q| - 1] == k.name[|k.name| - 1];
    assert k.name[0] in k.name && k.name[|k.name| - 1] in k.name;
  }

  lemma {:induction false} IndentOf(k: KeyLine)
    requires k.Valid()
    ensures Indent(k.Line()) == |k.indent| && BodyStart(k.Line()) == |k.indent| + |k.prefix|
  {
    hide Indent;
    var (line, n) := (k.Line(), |k.indent|);
    Pieces(k);
    QuotedEnds(k);
    assert forall j | 0 <= j < n :: line[j] == k.indent[j] && k.indent[j] in k.indent;
    var rest := k.prefix + k.Body();
    assert line[n] == rest[0];
    if k.prefix == [] {
      assert rest == k.Body() && rest[0] == k.Quoted()[0] && k.Quoted()[0] in k.Quoted();
      IndentIs(line, n);
      NoPrefix(k);
    } else {
      assert rest[0] == DASH && rest[1] == SPACE && line[n + 1] == rest[1];
      IndentIs(line, n);
    }
  }

  /** Without the prefix, what follows the indentation is not one either. */
  lemma {:induction false} NoPrefix(k: KeyLine)
    requires k.Valid() && k.prefix == []
    ensures var (line, n) := (k.Line(), |k.indent|); !(n + 1 < |line| && line[n] == DASH && line[n + 1] == SPACE)
  {
    var (line, n, q) := (k.Line(), |k.indent|, k.Quoted());
    Pieces(k);
    QuotedEnds(k);
    assert line[n] == k.Body()[0] == q[0];
    if |q| > 1 {
      assert line[n + 1] == k.Body()[1] == q[1] && q[1] in q;
    } else if line[n] == DASH && n + 1 < |line| {
      assert k.quote == [] && q == k.name;
      assert k.name == [k.name[0]];
      assert line[n + 1] == COLON;
    }
  }

  lemma {:induction false} NoColonInFront(k: KeyLine)
    requires k.Valid()
    ensures COLON !in k.Quoted() + k.pad
  {
    QuotedEnds(k);
    hide KeyLine.Quoted;
    assert COLON !in k.pad;
  }

  lemma {:induction false} BodyOf(k: KeyLine)
    requires k.Valid()
    ensures k.Line()[BodyStart(k.Line())..] == k.Body()
  {
    hide Indent, BodyStart, KeyLine.Body;
    Pieces(k);
    IndentOf(k);
  }

  lemma {:induction false} FirstColon(front: Bytes, rest: Bytes)
    requires COLON !in front
    ensures IndexOf(front + ([COLON] + rest), COLON) == |front|
  {
    var s := front + ([COLON] + rest);
    assert forall j | 0 <= j < |front| :: s[j] == front[j] && front[j] in front;
    assert s[|front|] == COLON;
    IndexOfIs(s, COLON, |front|);
  }

  lemma {:induction false} ColonOf(k: KeyLine)
    requires k.Valid()
    ensures HasColon(k.Line()) && ColonAt(k.Line()) == |k.Head()| - 1
    ensures k.Line()[BodyStart(k.Line())..ColonAt(k.Line())] == k.Quoted() + k.pad
  {
    hide Indent, BodyStart, IndexOf, KeyLine.Valid;
    var (line, front) := (k.Line(), k.Quoted() + k.pad);
    Pieces(k);
    IndentOf(k);
    BodyOf(k);
    NoColonInFront(k);
    FirstColon(front, k.value);
    assert line[BodyStart(line)..][..|front|] == front;
  }

  // ---------------------------------------------------------------- trimming

  lemma {:induction false} TrimLeftSpaces(a: Bytes, b: Bytes)
    requires Spaces(a) && b != [] && Visible(b[0])
    ensures TrimLeft(a + b) == b
    decreases |a|
  {
    if a == [] {
      assert a + b == b;
    } else {
      assert a[0] in a && (a + b)[0] == a[0] && forall x | x in a[1..] :: x in a;
      assert (a + b)[1..] == a[1..] + b;
      TrimLeftSpaces(a[1..], b);
    }
  }

  lemma {:induction false} TrimRightSpaces(b: Bytes, c: Bytes)
    requires Spaces(c) && b != [] && Visible(b[|b| - 1])
    ensures TrimRight(b + c) == b
    decreases |c|
  {
    var n := |b + c| - 1;
    if c == [] {
      assert b + c == b;
    } else {
      assert c[|c| - 1] in c && (b + c)[n] == c[|c| - 1];
      assert forall i | 0 <= i < |c| - 1 :: c[..|c| - 1][i] == c[i] && c[i] in c;
      assert (b + c)[..n] == b + c[..|c| - 1];
      TrimRightSpaces(b, c[..|c| - 1]);
    }
  }

  /** Blanks around a text with visible ends are trimmed, and nothing else. */
  lemma {:induction false} TrimSpaceIs(a: Bytes, b: Bytes, c: Bytes)
    requires Spaces(a) && Spaces(c) && b != [] && Visible(b[0]) && Visible(b[|b| - 1])
    ensures TrimSpace(a + b + c) == b
  {
    assert a + b + c == a + (b + c);
    TrimLeftSpaces(a, b + c);
    TrimRightSpaces(b, c);
  }

  lemma {:induction false} IndexOfNone(s: Bytes, b: byte)
    requires b !in s
    ensures IndexOf(s, b) == |s|
  {
    if s != [] { IndexOfNone(s[1..], b); }
  }

  lemma {:induction false} QuotesTrimmed(k: KeyLine)
    requires k.Valid()
    ensures TrimQuotesRight(TrimQuotesLeft(k.Quoted())) == k.name
  {
    var name := k.name;
    assert name[0] in name && name[|name| - 1] in name;
    if k.quote == [] {
      assert k.Quoted() == name;
    } else {
      var q := k.quote[0];
      assert k.Quoted()[1..] == name + [q] && k.Quoted()[0] == q;
      assert TrimQuotesLeft(name + [q]) == name + [q];
      assert (name + [q])[..|name|] == name;
    }
  }

  lemma {:induction false} NormalizedIs(k: KeyLine)
    requires k.Valid()
    ensures NormalizeKeyToken(k.Quoted() + k.pad) == k.name
  {
    hide TrimSpace, TrimQuotesLeft, TrimQuotesRight;
    var q := k.Quoted();
    QuotedEnds(k);
    assert [] + q + k.pad == q + k.pad && [] + q + [] == q;
    TrimSpaceIs([], q, k.pad);
    TrimSpaceIs([], q, []);
    if |q| >= 2 { assert q[1] in q; }
    IndexOfNone(q, COLON);
    assert q[..|q|] == q;
    QuotesTrimmed(k);
  }

  /** The key of such a line is its name, whatever surrounds it. */
  lemma {:induction false} KeyIsName(k: KeyLine)
    requires k.Valid()
    ensures KeyOf(k.Line()) == k.name && !Blank(k.Line())
  {
    hide NormalizeKeyToken, ColonAt, BodyStart, Blank;
    ColonOf(k);
    NormalizedIs(k);
    QuotedEnds(k);
    Pieces(k);
    var n := |k.indent| + |k.prefix|;
    assert k.Line()[n] == k.Body()[0] == k.Quoted()[0];
    VisibleIsNotBlank(k.Line(), n);
  }

  // ---------------------------------------------------------------- one line

  /** A line whose name is deny-listed becomes indentation, prefix, name and placeholder,
      whatever its value. */
  lemma {:induction false} SecretKeyLine(secret: DenyList, k: KeyLine)
    requires k.Valid() && secret(k.name)
    ensures LineOut(secret, k.Line()) == k.Hidden() && IsSecretLine(secret, k.Line())
  {
    hide KeyOf, ColonAt, BodyStart, Blank;
    ColonOf(k);
    KeyIsName(k);
    IndentOf(k);
    assert k.Line()[..|k.indent| + |k.prefix|] == k.indent + k.prefix;
  }

  /** Blanks alone, or blanks and then a quote. */
  ghost predicate QuotedValue(v: Bytes) {
    Spaces(v) || exists a, q, rest :: Spaces(a) && |q| == 1 && Quote(q) && Opens(a, q, rest) == v
  }

  function Opens(a: Bytes, q: Bytes, rest: Bytes): Bytes { a + q + rest }

  /** Blanks and then a visible character that is no quote. */
  ghost predicate PlainValue(v: Bytes) {
    exists a, c, rest :: Spaces(a) && |c| == 1 && Visible(c[0]) && !Quote(c) && Opens(a, c, rest) == v
  }

  lemma {:induction false} FirstVisible(a: Bytes, c: Bytes, rest: Bytes)
    requires Spaces(a) && |c| == 1 && Visible(c[0])
    ensures TrimSpace(Opens(a, c, rest)) != [] && TrimSpace(Opens(a, c, rest))[0] == c[0]
  {
    var v := c + rest;
    assert Opens(a, c, rest) == a + v;
    TrimLeftSpaces(a, v);
    TrimRightStarts(v);
  }

  lemma {:induction false} VisibleIsNoSpace(s: Bytes)
    requires s != [] && Visible(s[0])
    ensures SpaceLength(s) == 0
  {
  }

  lemma {:induction false} TrimRightStarts(s: Bytes)
    requires s != [] && Visible(s[0])
    ensures TrimRight(s) != [] && TrimRight(s)[0] == s[0]
    decreases |s|
  {
    hide SpaceLength, LastSpaceLength;
    var n := LastSpaceLength(s);
    if n > 0 {
      LastSpaceIsSpace(s);
      assert s[0..] == s;
      VisibleIsNoSpace(s);
      TrimRightStarts(s[..|s| - n]);
    }
  }

  lemma {:induction false} SpacesAreBlank(s: Bytes)
    requires Spaces(s)
    ensures TrimLeft(s) == []
    decreases |s|
  {
    if s != [] {
      assert s[0] in s && forall x | x in s[1..] :: x in s;
      SpacesAreBlank(s[1..]);
    }
  }

  lemma {:induction false} QuotedExactly(v: Bytes)
    ensures QuotedValue(v) ==> IsQuotedOrEmpty(v)
    ensures PlainValue(v) ==> !IsQuotedOrEmpty(v)
  {
    hide TrimSpace;
    if Spaces(v) {
      SpacesAreBlank(v);
      BlankIsTrimmed(v);
    } else if a, q, rest :| Spaces(a) && |q| == 1 && Quote(q) && Opens(a, q, rest) == v {
      FirstVisible(a, q, rest);
    }
    if a, c, rest :| Spaces(a) && |c| == 1 && Visible(c[0]) && !Quote(c) && Opens(a, c, rest) == v {
      FirstVisible(a, c, rest);
      assert c == [c[0]];
    }
  }

  /** A line whose name is not deny-listed keeps all up to its colon; a value that is empty or
      quoted is kept too, any other is read as a flow. */
  lemma {:induction false} PlainKeyLine(secret: DenyList, k: KeyLine)
    requires k.Valid() && !secret(k.name)
    ensures !IsSecretLine(secret, k.Line())
    ensures LineOut(secret, k.Line()) in {k.Line(), k.Head() + RedactFlow(secret, k.value)}
    ensures QuotedValue(k.value) ==> LineOut(secret, k.Line()) == k.Line()
    ensures PlainValue(k.value) ==> LineOut(secret, k.Line()) == k.Head() + RedactFlow(secret, k.value)
  {
    hide KeyOf, ColonAt, BodyStart, Blank, IsQuotedOrEmpty, RedactFlow, QuotedValue, PlainValue;
    ColonOf(k);
    KeyIsName(k);
    QuotedExactly(k.value);
    assert k.Line()[..|k.Head()|] == k.Head() && k.Line()[|k.Head()|..] == k.value;
  }

  /** A line without a colon whose first word is deny-listed becomes the word and the
      placeholder; with another first word it stays. */
  lemma {:induction false} WordLine(secret: DenyList, indent: Bytes, word: Bytes, rest: Bytes)
    requires Spaces(indent) && Name(word) && COLON !in rest && (rest == [] || rest[0] == SPACE || rest[0] == TAB)
    ensures var line := indent + word + rest;
      !HasColon(line) && LineOut(secret, line) == if secret(word) then word + [SPACE] + MARK else line
  {
    hide BodyStart, TrimLeft, FirstWord;
    var line := indent + word + rest;
    assert word[0] in word;
    assert line == indent + (word + rest);
    TrimLeftSpaces(indent, word + rest);
    FirstWordIs(word, rest);
    NoColonIn(indent, word, rest);
    assert forall b | b in line[BodyStart(line)..] :: b in line;
    IndexOfNone(line[BodyStart(line)..], COLON);
  }

  lemma {:induction false} NoColonIn(indent: Bytes, word: Bytes, rest: Bytes)
    requires Spaces(indent) && Name(word) && COLON !in rest
    ensures COLON !in indent + word + rest
  {
  }

  lemma {:induction false} FirstWordIs(word: Bytes, rest: Bytes)
    requires (forall b | b in word :: Visible(b)) && (rest == [] || rest[0] == SPACE || rest[0] == TAB)
    ensures FirstWord(word + rest) == word
    decreases |word|
  {
    if word == [] {
      assert word + rest == rest;
    } else {
      assert word[0] in word && (word + rest)[1..] == word[1..] + rest;
      FirstWordIs(word[1..], rest);
      assert word == [word[0]] + word[1..];
    }
  }

  // ---------------------------------------------------------------- whole dumps

  /** The line starts with more than n blanks. */
  predicate DeeperThan(line: Bytes, n: nat) {
    |line| > n && forall j | 0 <= j <= n :: line[j] == SPACE || line[j] == TAB
  }

  /** The line starts with exactly n blanks. */
  predicate AtColumn(line: Bytes, n: nat) {
    && |line| > n && line[n] != SPACE && line[n] != TAB
    && forall j | 0 <= j < n :: line[j] == SPACE || line[j] == TAB
  }

  /** What belongs to a key at column n: deeper lines, and lines at the column without a colon. */
  predicate BelongsTo(line: Bytes, n: nat) { DeeperThan(line, n) || (AtColumn(line, n) && COLON !in line) }

  lemma {:induction false} IndentExactly(line: Bytes, n: nat)
    ensures Indent(line) > n <==> DeeperThan(line, n)
    ensures Indent(line) == n < |line| <==> AtColumn(line, n)
  {
    IndentSkips(line);
    if AtColumn(line, n) { IndentIs(line, n); }
  }

  lemma {:induction false} HasColonExactly(line: Bytes)
    ensures HasColon(line) <==> COLON in line
  {
    hide Indent;
    var n := BodyStart(line);
    IndentSkips(line);
    IndexOfFinds(line[n..], COLON);
    if COLON in line {
      var j: nat :| j < |line| && line[j] == COLON;
      assert j >= n && line[n..][j - n] == COLON;
    } else {
      assert forall b | b in line[n..] :: b in line;
      IndexOfNone(line[n..], COLON);
    }
  }

  lemma {:induction false} DropsExactly(line: Bytes, n: nat)
    ensures Drops(Some(n), line) <==> !Blank(line) && BelongsTo(line, n)
  {
    hide Blank, HasColon, Indent;
    IndentExactly(line, n);
    HasColonExactly(line);
    if Indent(line) == n == |line| {
      IndentSkips(line);
      assert Spaces(line);
      AllSpacesBlank(line);
    }
  }

  lemma {:induction false} AllSpacesBlank(line: Bytes)
    requires Spaces(line)
    ensures Blank(line)
  {
    SpacesAreBlank(line);
  }

  /** Lines that belong to a key at column n, and blank ones between them. */
  predicate BlockOf(block: seq<Bytes>, n: nat) { forall l | l in block :: Blank(l) || BelongsTo(l, n) }

  /** The next line, if any, does not belong to the key. */
  predicate EndsBlock(post: seq<Bytes>, n: nat) { post != [] ==> !Blank(post[0]) && !BelongsTo(post[0], n) }

  lemma {:induction false} BlockIsDropped(secret: DenyList, block: seq<Bytes>, post: seq<Bytes>, n: nat)
    requires BlockOf(block, n) && EndsBlock(post, n)
    ensures RedactLines(secret, Some(n), block + post) == BlankLines(block) + RedactLines(secret, None, post)
    decreases |block|
  {
    hide Blank, BelongsTo, LineOut, IsSecretLine, Drops;
    if block == [] {
      assert block + post == post;
      if post != [] {
        DropsExactly(post[0], n);
        NothingDropped(post[0]);
      }
    } else {
      assert (block + post)[1..] == block[1..] + post && (block + post)[0] == block[0] && block[0] in block;
      assert forall l | l in block[1..] :: l in block;
      DropsExactly(block[0], n);
      BlockIsDropped(secret, block[1..], post, n);
    }
  }

  lemma {:induction false} NothingDropped(line: Bytes)
    ensures !Drops(None, line)
  {
  }

  /** In a dump, a deny-listed key with its value and all that belongs to it becomes one line;
      only blank lines between stay. `mode` is what the lines before leave: no key whose block
      the line belongs to. */
  lemma {:induction false} SecretBlock(secret: DenyList, mode: Mode, k: KeyLine, block: seq<Bytes>, post: seq<Bytes>)
    requires k.Valid() && secret(k.name) && (mode.Some? ==> |k.indent| <= mode.value)
    requires BlockOf(block, |k.indent|) && EndsBlock(post, |k.indent|)
    ensures RedactLines(secret, mode, [k.Line()] + block + post) ==
      [k.Hidden()] + BlankLines(block) + RedactLines(secret, None, post)
  {
    hide LineOut, Blank, KeyOf, BlockOf, EndsBlock, RedactLines, Emitted, ModeAfter, BlankLines;
    var (line, rest) := (k.Line(), block + post);
    SecretEmits(secret, mode, k);
    assert [line] + block + post == [line] + rest;
    FirstLine(secret, mode, line, rest);
    BlockIsDropped(secret, block, post, |k.indent|);
    var (head, mid, tail) := ([k.Hidden()], BlankLines(block), RedactLines(secret, None, post));
    assert head + (mid + tail) == head + mid + tail;
  }

  lemma {:induction false} FirstLine(secret: DenyList, mode: Mode, line: Bytes, rest: seq<Bytes>)
    ensures RedactLines(secret, mode, [line] + rest) ==
      Emitted(secret, mode, line) + RedactLines(secret, ModeAfter(secret, mode, line), rest)
  {
    hide Emitted, ModeAfter;
    assert ([line] + rest)[1..] == rest;
  }

  lemma {:induction false} SecretEmits(secret: DenyList, mode: Mode, k: KeyLine)
    requires k.Valid() && secret(k.name) && (mode.Some? ==> |k.indent| <= mode.value)
    ensures Emitted(secret, mode, k.Line()) == [k.Hidden()] && ModeAfter(secret, mode, k.Line()) == Some(|k.indent|)
  {
    hide LineOut, Blank, KeyOf, IsSecretLine;
    SecretKeyLine(secret, k);
    KeyIsName(k);
    IndentOf(k);
    ColonOf(k);
  }

  /** The same on the text of a whole dump, behind lines whose last key does not reach it. */
  lemma {:induction false} SecretDump(secret: DenyList, pre: seq<Bytes>, k: KeyLine, block: seq<Bytes>,
          post: seq<Bytes>)
    requires k.Valid() && secret(k.name) && BlockOf(block, |k.indent|) && EndsBlock(post, |k.indent|)
    requires var mode := ModeAfterAll(secret, None, pre); mode.Some? ==> |k.indent| <= mode.value
    requires forall l | l in pre + ([k.Line()] + block + post) :: OneLine(l)
    ensures Redacted(secret, Join(pre + ([k.Line()] + block + post))) ==
      Join(RedactLines(secret, None, pre) + ([k.Hidden()] + BlankLines(block) + RedactLines(secret, None, post)))
  {
    hide BlockOf, EndsBlock;
    var rest := [k.Line()] + block + post;
    SplitJoin(pre + rest);
    RedactLinesConcat(secret, None, pre, rest);
    SecretBlock(secret, ModeAfterAll(secret, None, pre), k, block, post);
  }
}
