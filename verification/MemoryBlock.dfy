/** The memory block of a prompt: one marked part of the first system message, replaced in
    place, stripped when memory is off, and cut to a byte budget. */
module MemoryBlock {
  import opened Llm
  import opened Utf8
  import opened SessionBuffer

  const EM_DASH: Bytes := [0xE2, 0x80, 0x94]
  const MARKER: Bytes := Ascii("## PLUR MEMORY")
  const FOOTER: Bytes := Ascii("[/PLUR-MEMORY]")
  const TRUST: Bytes := Ascii(
    " recalled from the local memory store (user-authored or learned from your own sessions); "
    + "follow them unless they conflict with explicit user instructions.")
  const HEADER: Bytes := MARKER + Ascii(" ") + EM_DASH + TRUST

  /** `data` stands for the fields of a part that are not text. */
  datatype TextPart = TextPart(text: Bytes, data: nat)
  datatype Message = Message(id: string, role: string, parts: seq<Option<TextPart>>)
  type History = seq<Option<Message>>

  predicate OccursAt(s: Bytes, i: nat, sub: Bytes) { i + |sub| <= |s| && s[i..i + |sub|] == sub }

  predicate Contains(s: Bytes, sub: Bytes) { exists i: nat | i <= |s| :: OccursAt(s, i, sub) }

  predicate Marked(p: Option<TextPart>) { p.Some? && Contains(p.value.text, MARKER) }

  function Unmarked(parts: seq<Option<TextPart>>): (rest: seq<Option<TextPart>>)
    ensures |rest| <= |parts|
  {
    if parts == [] then []
    else
      var front, p := Unmarked(parts[..|parts| - 1]), parts[|parts| - 1];
      if Marked(p) then front else front + [p]
  }

  predicate IsSystem(m: Option<Message>) { m.Some? && m.value.role == "system" }

  /** The index of the first system message, or the length. */
  function FirstSystem(h: History): (i: nat)
    ensures i <= |h|
    ensures forall j | 0 <= j < i :: !IsSystem(h[j])
    ensures i < |h| ==> IsSystem(h[i])
  {
    if h == [] then 0 else if IsSystem(h[0]) then 0 else 1 + FirstSystem(h[1..])
  }

  /** The index of the first marked part, or the length. */
  function FirstMarked(parts: seq<Option<TextPart>>): (i: nat)
    ensures i <= |parts|
    ensures forall j | 0 <= j < i :: !Marked(parts[j])
    ensures i < |parts| ==> Marked(parts[i])
  {
    if parts == [] then 0 else if Marked(parts[0]) then 0 else 1 + FirstMarked(parts[1..])
  }

  /** The parts of the first system message. */
  function SystemParts(h: History): seq<Option<TextPart>> {
    if FirstSystem(h) < |h| then h[FirstSystem(h)].value.parts else []
  }

  function WithParts(h: History, i: nat, parts: seq<Option<TextPart>>): History
    requires i < |h| && h[i].Some?
  {
    h[i := Some(h[i].value.(parts := parts))]
  }

  function WithBlock(parts: seq<Option<TextPart>>, block: Bytes): seq<Option<TextPart>> {
    var k := FirstMarked(parts);
    if k < |parts| then parts[k := Some(parts[k].value.(text := block))] else parts + [Some(TextPart(block, 0))]
  }

  function Insert(h: History, block: Bytes): History {
    var i := FirstSystem(h);
    if i < |h| then WithParts(h, i, WithBlock(h[i].value.parts, block))
    else [Some(Message("", "system", [Some(TextPart(block, 0))]))] + h
  }

  function Without(h: History, i: nat): History
    requires i < |h|
  {
    h[..i] + h[i + 1..]
  }

  /** Message i without its marked parts, gone if it has no other. */
  function Cleaned(h: History, i: nat, rest: seq<Option<TextPart>>): History
    requires i < |h| && h[i].Some?
  {
    if rest == [] then Without(h, i) else WithParts(h, i, rest)
  }

  /** The history without the block, and whether there was one. */
  function Strip(h: History): (History, bool) {
    var i := FirstSystem(h);
    if i == |h| || Unmarked(h[i].value.parts) == h[i].value.parts then (h, false)
    else (Cleaned(h, i, Unmarked(h[i].value.parts)), true)
  }

  // ---------------------------------------------------------------- the request

  class ContextRequest {
    var history: History
    var persistHistory: bool

    constructor (history: History)
      ensures this.history == history && !persistHistory
    {
      this.history, persistHistory := history, false;
    }

    method StripMemoryBlock() returns (stripped: bool)
      modifies this`history
      ensures (history, stripped) == Strip(old(history))
    {
      for i := 0 to |history|
        invariant history == old(history)
        invariant i <= FirstSystem(history)
      {
        if IsSystem(history[i]) {
          assert FirstSystem(history) == i;
          var m := history[i].value;
          var filtered, removed := FilterParts(m.parts);
          if !removed { return false; }
          history := history[i := Some(m.(parts := filtered))];
          if |filtered| == 0 {
            history := history[..i] + history[i + 1..];
          }
          return true;
        }
      }
      return false;
    }

    method InsertMemoryBlock(block: Bytes)
      modifies this`history
      ensures history == Insert(old(history), block)
    {
      for i := 0 to |history|
        invariant history == old(history)
        invariant i <= FirstSystem(history)
      {
        if IsSystem(history[i]) {
          assert FirstSystem(history) == i;
          var m := history[i].value;
          var k := FindMarked(m.parts);
          if k < |m.parts| {
            history := history[i := Some(m.(parts := m.parts[k := Some(m.parts[k].value.(text := block))]))];
          } else {
            history := history[i := Some(m.(parts := m.parts + [Some(TextPart(block, 0))]))];
          }
          return;
        }
      }
      history := [Some(Message("", "system", [Some(TextPart(block, 0))]))] + history;
    }

    /** `recall` is what the memory server returned. */
    method ApplyMemoryTransformation(recall: Bytes, budget: int) returns (inserted: bool)
      modifies this`history
      ensures inserted <==> Fit(recall, budget).Some?
      ensures history == Applied(old(history), recall, budget)
    {
      var body := TrimSpace(recall);
      var block := Block(body);
      if |block| / 4 > budget {
        var maxBody := budget * 4 - |HEADER| - |FOOTER| - 4;
        if maxBody < 0 {
          var _ := StripMemoryBlock();
          return false;
        }
        if |body| > maxBody {
          body := TruncateToBytes(body, maxBody);
        }
        block := Block(body);
      }
      InsertMemoryBlock(block);
      return true;
    }

    /** One pass: `recall` is None when the query failed. */
    method Transform(cfg: Option<MemoryConfig>, hasClient: bool, recall: Option<Bytes>)
      modifies this
      ensures history == Transformed(old(history), cfg, hasClient, recall)
      ensures persistHistory == (old(persistHistory) || (cfg.Some? && !cfg.value.enabled && Strip(old(history)).1))
    {
      if cfg.None? { return; }
      if !cfg.value.enabled {
        var stripped := StripMemoryBlock();
        if stripped { persistHistory := true; }
        return;
      }
      if !hasClient { return; }
      if recall.None? {
        var _ := StripMemoryBlock();
        return;
      }
      var _ := ApplyMemoryTransformation(recall.value, cfg.value.injectBudget);
    }
  }

  method FilterParts(parts: seq<Option<TextPart>>) returns (filtered: seq<Option<TextPart>>, removed: bool)
    ensures filtered == Unmarked(parts) && (removed <==> Unmarked(parts) != parts)
  {
    filtered, removed := [], false;
    for j := 0 to |parts|
      invariant filtered == Unmarked(parts[..j])
      invariant if removed then |filtered| < j else filtered == parts[..j]
    {
      assert parts[..j + 1][..j] == parts[..j] && parts[..j + 1] == parts[..j] + [parts[j]];
      if Marked(parts[j]) {
        removed := true;
      } else {
        filtered := filtered + [parts[j]];
      }
    }
    assert parts[..|parts|] == parts;
  }

  method FindMarked(parts: seq<Option<TextPart>>) returns (k: nat)
    ensures k == FirstMarked(parts)
  {
    k := 0;
    while k < |parts| && !Marked(parts[k])
      invariant k <= FirstMarked(parts)
    {
      k := k + 1;
    }
  }

  function Applied(h: History, recall: Bytes, budget: int): History {
    var fit := Fit(recall, budget);
    if fit.Some? then Insert(h, fit.value) else Strip(h).0
  }

  datatype MemoryConfig = MemoryConfig(enabled: bool, injectBudget: int)

  function Transformed(h: History, cfg: Option<MemoryConfig>, hasClient: bool, recall: Option<Bytes>): History {
    if cfg.None? then h
    else if !cfg.value.enabled then Strip(h).0
    else if !hasClient then h
    else if recall.None? then Strip(h).0
    else Applied(h, recall.value, cfg.value.injectBudget)
  }

  // ---------------------------------------------------------------- the budget

  const LINE_END: Bytes := [0x0A]

  function Block(body: Bytes): Bytes { HEADER + (LINE_END + LINE_END) + body + LINE_END + FOOTER }

  /** The block that is inserted for a recall, if one fits. */
  function Fit(recall: Bytes, budget: int): Option<Bytes> {
    var body := TrimSpace(recall);
    if |Block(body)| / 4 <= budget then Some(Block(body))
    else
      var maxBody := budget * 4 - |HEADER| - |FOOTER| - 4;
      if maxBody < 0 then None else Some(Block(if |body| > maxBody then Truncated(body, maxBody) else body))
  }

  lemma BlockLength(body: Bytes)
    ensures |Block(body)| == |HEADER| + |FOOTER| + 3 + |body|
  {
  }

  /** A block is the header, an empty line, the body, a line end and the footer. */
  lemma {:induction false} BlockHolds(body: Bytes)
    ensures var (b, n) := (Block(body), |HEADER|);
      && HEADER <= b && b[n..n + 2] == [0x0A, 0x0A] && b[n + 2..n + 2 + |body|] == body
      && b[n + 2 + |body|..] == [0x0A] + FOOTER
  {
  }

  /** A block is inserted exactly when the whole recall fits, or the budget holds the frame. */
  lemma FitsWhen(recall: Bytes, budget: int)
    ensures Fit(recall, budget).None? <==>
      (|HEADER| + |FOOTER| + 3 + |TrimSpace(recall)|) / 4 > budget && 4 * budget < |HEADER| + |FOOTER| + 4
  {
    BlockLength(TrimSpace(recall));
  }

  /** An inserted block is within the budget; its body is the recall, cut at most. */
  lemma FitIsWithinBudget(recall: Bytes, budget: int) returns (body: Bytes)
    requires Fit(recall, budget).Some?
    ensures Fit(recall, budget).value == Block(body) && |Block(body)| / 4 <= budget
    ensures body <= TrimSpace(recall)
  {
    var whole := TrimSpace(recall);
    var room := budget * 4 - |HEADER| - |FOOTER| - 4;
    BlockLength(whole);
    if |Block(whole)| / 4 <= budget { return whole; }
    TruncatedIsPrefix(whole, room);
    body := if |whole| > room then Truncated(whole, room) else whole;
    BlockLength(body);
  }

  /** Of a well-formed recall, the inserted block is well-formed. */
  lemma {:induction false} FitIsValid(recall: Bytes, budget: int)
    requires Valid(recall) && Fit(recall, budget).Some?
    ensures Valid(Fit(recall, budget).value)
  {
    TrimKeepsValid(recall);
    var body := TrimSpace(recall);
    var room := budget * 4 - |HEADER| - |FOOTER| - 4;
    TruncatedIsLongest(body, room);
    if |Block(body)| / 4 <= budget || |body| <= room {
      BlockIsValid(body);
    } else {
      BlockIsValid(Truncated(body, room));
    }
  }

  /** Of a well-formed recall that does not fit, the body is the longest well-formed prefix
      that the room allows. */
  lemma {:induction false} FitIsLongest(recall: Bytes, budget: int) returns (cut: nat)
    requires Valid(recall) && Fit(recall, budget).Some? && |Block(TrimSpace(recall))| / 4 > budget
    ensures LongestValid(TrimSpace(recall), cut, budget * 4 - |HEADER| - |FOOTER| - 4)
    ensures Fit(recall, budget).value == Block(TrimSpace(recall)[..cut])
  {
    TrimKeepsValid(recall);
    var body := TrimSpace(recall);
    var room := budget * 4 - |HEADER| - |FOOTER| - 4;
    cut := |Truncated(body, room)|;
    TruncatedIsPrefix(body, room);
    TruncatedIsLongest(body, room);
    assert body[..cut] == Truncated(body, room);
    assert |body| <= room ==> Truncated(body, room) == body;
  }

  predicate LongestValid(s: Bytes, cut: nat, room: int) {
    cut <= |s| && cut <= room && Valid(s[..cut]) && forall k: nat | k <= |s| && k <= room :: Valid(s[..k]) ==> k <= cut
  }

  lemma HeaderIsValid()
    ensures Valid(HEADER)
  {
    AsciiIsValid(MARKER);
    AsciiIsValid(Ascii(" "));
    AsciiIsValid(TRUST);
    DashIsValid();
    ConcatFour(MARKER, Ascii(" "), EM_DASH, TRUST);
  }

  lemma {:induction false} ConcatFour(a: Bytes, b: Bytes, c: Bytes, d: Bytes)
    requires Valid(a) && Valid(b) && Valid(c) && Valid(d)
    ensures Valid(a + b + c + d)
  {
    ValidConcat(a, b);
    ValidConcat(a + b, c);
    ValidConcat(a + b + c, d);
  }

  lemma DashIsValid()
    ensures Valid(EM_DASH)
  {
    assert RuneLength(EM_DASH) == 3 && EM_DASH[3..] == [];
  }

  lemma {:induction false} BlockIsValid(body: Bytes)
    requires Valid(body)
    ensures Valid(Block(body))
  {
    HeaderIsValid();
    AsciiIsValid(FOOTER);
    AsciiIsValid(LINE_END);
    ValidConcat(LINE_END, LINE_END);
    ConcatFour(HEADER, LINE_END + LINE_END, body, LINE_END);
    ValidConcat(HEADER + (LINE_END + LINE_END) + body + LINE_END, FOOTER);
  }

  lemma BlockIsMarked(body: Bytes)
    ensures Contains(Block(body), MARKER)
  {
    hide Ascii;
    var b := Block(body);
    assert b == MARKER + (Ascii(" ") + EM_DASH + TRUST + (LINE_END + LINE_END) + body + LINE_END + FOOTER);
    assert OccursAt(b, 0, MARKER);
  }

  // ---------------------------------------------------------------- the algebra

  /** How many parts carry the marker. */
  function Marks(parts: seq<Option<TextPart>>): nat { |parts| - |Unmarked(parts)| }

  lemma {:induction false} UnmarkedSnoc(parts: seq<Option<TextPart>>, p: Option<TextPart>)
    ensures Unmarked(parts + [p]) == Unmarked(parts) + if Marked(p) then [] else [p]
  {
    assert (parts + [p])[..|parts|] == parts;
  }

  lemma {:induction false} UnmarkedUpdate(parts: seq<Option<TextPart>>, k: nat, p: Option<TextPart>)
    requires k < |parts| && Marked(parts[k]) && Marked(p)
    ensures Unmarked(parts[k := p]) == Unmarked(parts)
    decreases |parts|
  {
    var n := |parts| - 1;
    if k == n {
      assert parts[k := p][..n] == parts[..n];
    } else {
      assert parts[k := p][..n] == parts[..n][k := p];
      UnmarkedUpdate(parts[..n], k, p);
    }
  }

  lemma {:induction false} UnmarkedAll(parts: seq<Option<TextPart>>)
    ensures FirstMarked(parts) == |parts| <==> Unmarked(parts) == parts
    ensures forall p | p in Unmarked(parts) :: !Marked(p)
  {
    if parts != [] {
      var n := |parts| - 1;
      UnmarkedAll(parts[..n]);
      assert parts == parts[..n] + [parts[n]];
      if FirstMarked(parts) < |parts| { assert Marked(parts[FirstMarked(parts)]); }
      if FirstMarked(parts[..n]) < n { assert Marked(parts[FirstMarked(parts[..n])]); }
    }
  }

  lemma {:induction false} FirstMarkedIs(parts: seq<Option<TextPart>>, k: nat)
    requires k < |parts| && Marked(parts[k]) && forall j | 0 <= j < k :: !Marked(parts[j])
    ensures FirstMarked(parts) == k
  {
  }

  lemma {:induction false} WithBlockKeeps(parts: seq<Option<TextPart>>, block: Bytes)
    requires Contains(block, MARKER)
    ensures var now := WithBlock(parts, block);
      && Unmarked(now) == Unmarked(parts)
      && |now| == (if Marks(parts) == 0 then |parts| + 1 else |parts|)
      && FirstMarked(now) == FirstMarked(parts) < |now|
      && now[FirstMarked(now)].value.text == block
  {
    var k := FirstMarked(parts);
    var now := WithBlock(parts, block);
    UnmarkedAll(parts);
    if k < |parts| {
      UnmarkedUpdate(parts, k, now[k]);
      MarksZero(parts);
    } else {
      UnmarkedSnoc(parts, now[k]);
    }
    forall j | 0 <= j < k ensures !Marked(now[j]) { assert now[j] == parts[j]; }
    FirstMarkedIs(now, k);
  }

  lemma {:induction false} MarksZero(parts: seq<Option<TextPart>>)
    ensures Marks(parts) == 0 ==> Unmarked(parts) == parts
  {
    if parts != [] {
      MarksZero(parts[..|parts| - 1]);
      assert parts == parts[..|parts| - 1] + [parts[|parts| - 1]];
    }
  }

  lemma {:induction false} FirstSystemIs(h: History, i: nat)
    requires i < |h| && IsSystem(h[i]) && forall j | 0 <= j < i :: !IsSystem(h[j])
    ensures FirstSystem(h) == i
  {
  }

  lemma {:induction false} FirstSystemStays(h: History, parts: seq<Option<TextPart>>)
    requires FirstSystem(h) < |h|
    ensures FirstSystem(WithParts(h, FirstSystem(h), parts)) == FirstSystem(h)
    ensures SystemParts(WithParts(h, FirstSystem(h), parts)) == parts
  {
    var i := FirstSystem(h);
    var now := WithParts(h, i, parts);
    forall j | 0 <= j < i ensures !IsSystem(now[j]) { assert now[j] == h[j]; }
    FirstSystemIs(now, i);
  }

  lemma {:induction false} InsertedParts(h: History, block: Bytes)
    ensures SystemParts(Insert(h, block)) == WithBlock(SystemParts(h), block)
    ensures FirstSystem(Insert(h, block)) == if FirstSystem(h) < |h| then FirstSystem(h) else 0
  {
    var i := FirstSystem(h);
    if i < |h| { FirstSystemStays(h, WithBlock(SystemParts(h), block)); }
  }

  /** After an insertion the block is there, with one marked part, or as many as there were
      if there were more; the other parts of the message stay, in their order. */
  lemma InsertLeavesOne(h: History, block: Bytes)
    requires Contains(block, MARKER)
    ensures var (before, now) := (SystemParts(h), SystemParts(Insert(h, block)));
      && Marks(now) == (if Marks(before) <= 1 then 1 else Marks(before))
      && Unmarked(now) == Unmarked(before)
      && FirstMarked(now) < |now| && now[FirstMarked(now)].value.text == block
  {
    InsertedParts(h, block);
    WithBlockKeeps(SystemParts(h), block);
  }

  /** An insertion changes the parts of the first system message, or adds such a message in
      front, and nothing else. */
  lemma {:induction false} InsertKeepsRest(h: History, block: Bytes)
    ensures var (i, now) := (FirstSystem(h), Insert(h, block));
      if i == |h| then now[1..] == h
      else
        && |now| == |h| && now[i].value.(parts := h[i].value.parts) == h[i].value
        && now[..i] == h[..i] && now[i + 1..] == h[i + 1..]
  {
  }

  /** The last insertion wins. */
  lemma InsertTwice(h: History, first: Bytes, second: Bytes)
    requires Contains(first, MARKER)
    ensures Insert(Insert(h, first), second) == Insert(h, second)
  {
    hide Contains, Unmarked, WithBlock;
    var (i, parts) := (FirstSystem(h), SystemParts(h));
    InsertedParts(h, first);
    WithBlockTwice(parts, first, second);
    if i < |h| {
      assert WithParts(WithParts(h, i, WithBlock(parts, first)), i, WithBlock(parts, second)) ==
        WithParts(h, i, WithBlock(parts, second));
    } else {
      WithBlockAlone(second);
      assert Insert(h, first)[0 := Some(Message("", "system", [Some(TextPart(second, 0))]))] == Insert(h, second);
    }
  }

  lemma WithBlockAlone(block: Bytes)
    ensures WithBlock([], block) == [Some(TextPart(block, 0))]
  {
  }

  lemma WithBlockTwice(parts: seq<Option<TextPart>>, first: Bytes, second: Bytes)
    requires Contains(first, MARKER)
    ensures WithBlock(WithBlock(parts, first), second) == WithBlock(parts, second)
  {
    WithBlockKeeps(parts, first);
  }

  /** Stripping after an insertion is stripping alone, except that it removes a first system
      message that had no parts at all. */
  lemma {:induction false} StripAfterInsert(h: History, block: Bytes)
    requires Contains(block, MARKER)
    ensures Strip(Insert(h, block)).1
    ensures Strip(Insert(h, block)).0 == Strip(h).0 <==> !(FirstSystem(h) < |h| && SystemParts(h) == [])
  {
    var (i, parts) := (FirstSystem(h), SystemParts(h));
    if i < |h| {
      StripInserted(h, block);
      StripAlone(h);
      CleanedAgain(h, i, WithBlock(parts, block), Unmarked(parts));
    } else {
      StripAdded(h, block);
    }
  }

  lemma {:induction false} StripInserted(h: History, block: Bytes)
    requires Contains(block, MARKER) && FirstSystem(h) < |h|
    ensures var (i, parts) := (FirstSystem(h), SystemParts(h));
      Strip(Insert(h, block)) == (Cleaned(WithParts(h, i, WithBlock(parts, block)), i, Unmarked(parts)), true)
  {
    InsertedParts(h, block);
    WithBlockKeeps(SystemParts(h), block);
    MarksZero(SystemParts(h));
    assert |Unmarked(SystemParts(h))| < |WithBlock(SystemParts(h), block)|;
  }

  lemma {:induction false} StripAlone(h: History)
    requires FirstSystem(h) < |h|
    ensures var (i, parts) := (FirstSystem(h), SystemParts(h));
      Strip(h).0 == if Unmarked(parts) == parts then h else Cleaned(h, i, Unmarked(parts))
  {
  }

  lemma {:induction false} StripAdded(h: History, block: Bytes)
    requires Contains(block, MARKER) && FirstSystem(h) == |h|
    ensures Strip(Insert(h, block)) == (h, true)
  {
    var p := Some(TextPart(block, 0));
    UnmarkedSnoc([], p);
    assert [] + [p] == [p];
    FirstSystemIs(Insert(h, block), 0);
    assert Without(Insert(h, block), 0) == h;
  }

  lemma CleanedAgain(h: History, i: nat, parts: seq<Option<TextPart>>, rest: seq<Option<TextPart>>)
    requires i < |h| && h[i].Some?
    ensures Cleaned(WithParts(h, i, parts), i, rest) == Cleaned(h, i, rest)
    ensures Cleaned(h, i, h[i].value.parts) == h <==> h[i].value.parts != []
  {
    assert Without(WithParts(h, i, parts), i) == Without(h, i);
    assert WithParts(h, i, h[i].value.parts) == h;
    assert |Without(h, i)| < |h|;
  }

  /** A strip reports whether there was a marked part; afterwards the message has none, or
      is gone because it had nothing else. */
  lemma {:induction false} StripRemoves(h: History)
    ensures Strip(h).1 <==> Marks(SystemParts(h)) > 0
    ensures var (i, now) := (FirstSystem(h), Strip(h).0);
      if Strip(h).1 && Unmarked(SystemParts(h)) == [] then now == h[..i] + h[i + 1..]
      else FirstSystem(now) == i && SystemParts(now) == Unmarked(SystemParts(h)) && Marks(SystemParts(now)) == 0
  {
    var i := FirstSystem(h);
    MarksZero(SystemParts(h));
    UnmarkedTwice(SystemParts(h));
    if i < |h| { FirstSystemStays(h, Unmarked(SystemParts(h))); }
  }

  lemma {:induction false} UnmarkedTwice(parts: seq<Option<TextPart>>)
    ensures Unmarked(Unmarked(parts)) == Unmarked(parts)
  {
    var rest := Unmarked(parts);
    UnmarkedAll(parts);
    UnmarkedAll(rest);
    forall j | 0 <= j < |rest| ensures !Marked(rest[j]) { assert rest[j] in rest; }
  }
}
