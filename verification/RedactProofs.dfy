/** Consequences of the line rules for whole dumps. */
module RedactProofs {
  import opened Llm
  import opened Utf8
  import opened Redact

  // ---------------------------------------------------------------- whole dumps

  predicate OneLine(s: Bytes) { NEWLINE !in s }

  lemma {:induction false} JoinSplit(content: Bytes)
    ensures Join(Split(content)) == content
    ensures forall l | l in Split(content) :: OneLine(l)
    decreases |content|
  {
    var i := IndexOf(content, NEWLINE);
    IndexOfFinds(content, NEWLINE);
    if i < |content| {
      JoinSplit(content[i + 1..]);
      var rest := Split(content[i + 1..]);
      assert Split(content)[1..] == rest && |Split(content)| > 1;
      assert content == content[..i] + [NEWLINE] + content[i + 1..];
    }
  }

  lemma {:induction false} SplitFirst(line: Bytes, rest: Bytes)
    requires OneLine(line)
    ensures Split(line) == [line]
    ensures Split(line + [NEWLINE] + rest) == [line] + Split(rest)
  {
    var whole := line + [NEWLINE] + rest;
    IndexOfIs(whole, NEWLINE, |line|);
    assert whole[..|line|] == line && whole[|line| + 1..] == rest;
    IndexOfFinds(line, NEWLINE);
  }

  lemma {:induction false} SplitJoin(lines: seq<Bytes>)
    requires lines != [] && forall l | l in lines :: OneLine(l)
    ensures Split(Join(lines)) == lines
    decreases |lines|
  {
    SplitFirst(lines[0], []);
    if |lines| > 1 {
      SplitJoin(lines[1..]);
      SplitFirst(lines[0], Join(lines[1..]));
      assert lines == [lines[0]] + lines[1..];
    }
  }

  /** Two dumps of related lines are redacted to the same text. */
  lemma {:induction false} RelatedDumps(secret: DenyList, x: Bytes, y: Bytes)
    requires Related(secret, None, Split(x), Split(y))
    ensures Redacted(secret, x) == Redacted(secret, y)
  {
    NonInterference(secret, None, Split(x), Split(y));
  }

  /** Lines below a secret key, further in than its column. */
  predicate Below(block: seq<Bytes>, column: nat) {
    forall i | 0 <= i < |block| :: !Blank(block[i]) && Indent(block[i]) > column
  }

  lemma {:induction false} BlockVanishes(secret: DenyList, block: seq<Bytes>, column: nat)
    requires Below(block, column)
    ensures RedactLines(secret, Some(column), block) == [] && ModeAfterAll(secret, Some(column), block) == Some(column)
    decreases |block|
  {
    hide Blank, LineOut, IsSecretLine;
    if block != [] { BlockVanishes(secret, block[1..], column); }
  }

  /** A secret line with its block becomes its key alone, whatever the value and the block. */
  lemma {:induction false} SecretBecomesKey(secret: DenyList, pre: seq<Bytes>, line: Bytes, block: seq<Bytes>,
          post: seq<Bytes>)
    requires IsSecretLine(secret, line) && !Drops(ModeAfterAll(secret, None, pre), line) && Below(block, Indent(line))
    ensures RedactLines(secret, None, pre + [line] + block + post) ==
      RedactLines(secret, None, pre) + [KeyOnly(line, KeyOf(line))] + RedactLines(secret, Some(Indent(line)), post)
  {
    hide Blank, KeyOf, KeyOnly, FirstField, ValueOut;
    var column := Indent(line);
    RedactLinesConcat(secret, None, pre + [line] + block, post);
    RedactLinesConcat(secret, None, pre + [line], block);
    RedactLinesSnoc(secret, None, pre, line);
    BlockVanishes(secret, block, column);
    var front := RedactLines(secret, None, pre) + [KeyOnly(line, KeyOf(line))];
    assert RedactLines(secret, None, pre + [line] + block) == front + [] == front;
  }

  /** So two dumps that differ in one secret's value and block come out the same. */
  lemma {:induction false} SecretIsHidden(secret: DenyList, pre: seq<Bytes>, x: Bytes, y: Bytes, block: seq<Bytes>,
          block': seq<Bytes>, post: seq<Bytes>)
    requires IsSecretLine(secret, x) && IsSecretLine(secret, y) && KeyPart(x) == KeyPart(y)
    requires !Drops(ModeAfterAll(secret, None, pre), x) && Below(block, Indent(x)) && Below(block', Indent(x))
    ensures RedactLines(secret, None, pre + [x] + block + post) == RedactLines(secret, None, pre + [y] + block' + post)
  {
    hide Blank, KeyOf, RedactLines, ModeAfterAll;
    KeyPartDecides(x, y);
    var n := BodyStart(x);
    assert x[..n] == KeyPart(x)[..n] == y[..n];
    SecretBecomesKey(secret, pre, x, block, post);
    SecretBecomesKey(secret, pre, y, block', post);
  }

  // ---------------------------------------------------------------- nothing to hide

  lemma {:induction false} NoToken(secret: DenyList, s: Bytes, i: nat)
    requires i <= |s| && forall k :: !secret(k)
    ensures FirstSecret(secret, s, i) == None
    decreases |s| - i
  {
    if i < |s| { NoToken(secret, s, if IsTokenChar(s[i]) then TokenEnd(s, i) else i + 1); }
  }

  lemma {:induction false} LineUntouched(secret: DenyList, line: Bytes)
    requires forall k :: !secret(k)
    ensures LineOut(secret, line) == line && !IsSecretLine(secret, line)
  {
    hide Blank, KeyOf, FirstField, IsQuotedOrEmpty;
    if HasColon(line) {
      var k := ColonAt(line) + 1;
      NoToken(secret, line[k..], 0);
      SplitAt(line, k);
    }
  }

  lemma {:induction false} LinesUntouched(secret: DenyList, lines: seq<Bytes>)
    requires forall k :: !secret(k)
    ensures RedactLines(secret, None, lines) == lines
    decreases |lines|
  {
    hide Blank, LineOut, IsSecretLine;
    if lines != [] {
      LineUntouched(secret, lines[0]);
      LinesUntouched(secret, lines[1..]);
      assert lines == [lines[0]] + lines[1..];
    }
  }

  /** With an empty deny-list the dump is unchanged. */
  lemma {:induction false} NothingToHide(secret: DenyList, content: Bytes)
    requires forall k :: !secret(k)
    ensures Redacted(secret, content) == content
  {
    LinesUntouched(secret, Split(content));
    JoinSplit(content);
  }
}
