/** "Current recall, or nothing": when a pass of the injector leaves no block but its own,
    anywhere in the history. */
module MemoryStaleness {
  import opened Llm
  import opened Utf8
  import opened MemoryBlock

  /** The block of this pass, if it inserts one. */
  function PassBlock(cfg: Option<MemoryConfig>, hasClient: bool, recall: Option<Bytes>): Option<Bytes> {
    if cfg.Some? && cfg.value.enabled && hasClient && recall.Some? then Fit(recall.value, cfg.value.injectBudget)
      else None
  }

  /** A pass that leaves the history alone: no configuration, or enabled without a client. */
  predicate Abstains(cfg: Option<MemoryConfig>, hasClient: bool) { cfg.None? || (cfg.value.enabled && !hasClient) }

  /** Every marked part is the current block. */
  predicate OnlyCurrent(parts: seq<Option<TextPart>>, current: Option<Bytes>) {
    forall k | 0 <= k < |parts| && Marked(parts[k]) :: current == Some(parts[k].value.text)
  }

  predicate MessageCurrent(m: Option<Message>, current: Option<Bytes>) {
    m.Some? ==> OnlyCurrent(m.value.parts, current)
  }

  /** No message holds a marked part other than the current block. */
  predicate NothingStale(h: History, current: Option<Bytes>) {
    forall i | 0 <= i < |h| :: MessageCurrent(h[i], current)
  }

  /** The messages that a pass never looks into. */
  predicate RestCurrent(h: History, current: Option<Bytes>) { AllButCurrent(h, FirstSystem(h), current) }

  predicate AllButCurrent(h: History, i: nat, current: Option<Bytes>) {
    forall j | 0 <= j < |h| && j != i :: MessageCurrent(h[j], current)
  }

  /** The marked parts of the first system message that an insertion does not replace. */
  predicate SpareCurrent(parts: seq<Option<TextPart>>, current: Option<Bytes>) {
    forall k | 0 <= k < |parts| && k != FirstMarked(parts) && Marked(parts[k]) :: current == Some(parts[k].value.text)
  }

  lemma PassBlockIsMarked(cfg: Option<MemoryConfig>, hasClient: bool, recall: Option<Bytes>)
    requires PassBlock(cfg, hasClient, recall).Some?
    ensures Contains(PassBlock(cfg, hasClient, recall).value, MARKER)
  {
    var body := FitIsWithinBudget(recall.value, cfg.value.injectBudget);
    BlockIsMarked(body);
  }

  lemma WithBlockCurrent(parts: seq<Option<TextPart>>, block: Bytes)
    requires Contains(block, MARKER)
    ensures OnlyCurrent(WithBlock(parts, block), Some(block)) <==> SpareCurrent(parts, Some(block))
  {
    hide Marked;
    var k, now := FirstMarked(parts), WithBlock(parts, block);
    assert forall j | 0 <= j < |parts| && j != k :: now[j] == parts[j];
    assert k < |now| && now[k].value.text == block;
  }

  lemma {:induction false} UnmarkedCurrent(parts: seq<Option<TextPart>>, current: Option<Bytes>)
    ensures OnlyCurrent(Unmarked(parts), current)
  {
    hide Marked;
    UnmarkedAll(parts);
    forall k | 0 <= k < |Unmarked(parts)| ensures !Marked(Unmarked(parts)[k]) {
      assert Unmarked(parts)[k] in Unmarked(parts);
    }
  }

  /** Only the first system message differs. */
  lemma {:induction false} WithPartsCurrent(h: History, parts: seq<Option<TextPart>>, current: Option<Bytes>)
    requires FirstSystem(h) < |h|
    ensures NothingStale(WithParts(h, FirstSystem(h), parts), current) <==>
      RestCurrent(h, current) && OnlyCurrent(parts, current)
  {
    hide OnlyCurrent;
    var i, now := FirstSystem(h), WithParts(h, FirstSystem(h), parts);
    assert MessageCurrent(now[i], current) == OnlyCurrent(parts, current);
    assert forall j | 0 <= j < |h| && j != i :: now[j] == h[j];
  }

  lemma WithoutCurrent(h: History, i: nat, current: Option<Bytes>)
    requires i < |h|
    ensures NothingStale(Without(h, i), current) <==> AllButCurrent(h, i, current)
  {
    hide MessageCurrent;
    var now := Without(h, i);
    if AllButCurrent(h, i, current) {
      forall j | 0 <= j < |now| ensures MessageCurrent(now[j], current) {
        assert now[j] == h[if j < i then j else j + 1];
      }
    }
    if NothingStale(now, current) {
      forall j | 0 <= j < |h| && j != i ensures MessageCurrent(h[j], current) {
        assert h[j] == now[if j < i then j else j - 1];
      }
    }
  }

  lemma InsertCurrent(h: History, block: Bytes)
    requires Contains(block, MARKER)
    ensures NothingStale(Insert(h, block), Some(block)) <==>
      RestCurrent(h, Some(block)) && SpareCurrent(SystemParts(h), Some(block))
  {
    hide Contains;
    if FirstSystem(h) < |h| {
      WithBlockCurrent(SystemParts(h), block);
      WithPartsCurrent(h, WithBlock(SystemParts(h), block), Some(block));
    } else {
      var now := Insert(h, block);
      assert forall j | 0 <= j < |h| :: now[j + 1] == h[j];
      assert forall j | 0 < j < |now| :: now[j] == h[j - 1];
      assert MessageCurrent(now[0], Some(block));
    }
  }

  lemma StripCurrent(h: History)
    ensures NothingStale(Strip(h).0, None) <==> RestCurrent(h, None)
  {
    hide Unmarked, OnlyCurrent;
    var i := FirstSystem(h);
    if i < |h| {
      var parts := SystemParts(h);
      UnmarkedCurrent(parts, None);
      WithPartsCurrent(h, Unmarked(parts), None);
      WithoutCurrent(h, i, None);
      if Unmarked(parts) == parts { assert WithParts(h, i, parts) == h; }
    }
  }

  /** Nothing stale stays exactly when the pass does not abstain over an old block, no message
      but the first system message holds an old block, and that one holds none beside the
      one an insertion replaces. */
  lemma NeverStale(h: History, cfg: Option<MemoryConfig>, hasClient: bool, recall: Option<Bytes>)
    ensures var current := PassBlock(cfg, hasClient, recall);
      NothingStale(Transformed(h, cfg, hasClient, recall), current) <==>
        if Abstains(cfg, hasClient) then NothingStale(h, None)
        else RestCurrent(h, current) && (current.Some? ==> SpareCurrent(SystemParts(h), current))
  {
    hide NothingStale, RestCurrent, SpareCurrent, Insert, Strip, Fit;
    var current := PassBlock(cfg, hasClient, recall);
    if current.Some? {
      PassBlockIsMarked(cfg, hasClient, recall);
      InsertCurrent(h, current.value);
    } else if !Abstains(cfg, hasClient) {
      StripCurrent(h);
    }
  }

  /** One block, in the first system message, and every pass that does not abstain clears or
      replaces it. */
  lemma OneBlockIsNeverStale(h: History, cfg: Option<MemoryConfig>, hasClient: bool, recall: Option<Bytes>)
    requires !Abstains(cfg, hasClient) && RestCurrent(h, None)
    requires forall j, k :: 0 <= j < k < |SystemParts(h)| ==> !(Marked(SystemParts(h)[j]) && Marked(SystemParts(h)[k]))
    ensures NothingStale(Transformed(h, cfg, hasClient, recall), PassBlock(cfg, hasClient, recall))
  {
    var current, parts := PassBlock(cfg, hasClient, recall), SystemParts(h);
    NeverStale(h, cfg, hasClient, recall);
    forall i | 0 <= i < |h| && i != FirstSystem(h) ensures MessageCurrent(h[i], current) {
      assert MessageCurrent(h[i], None);
    }
    forall k | 0 <= k < |parts| && k != FirstMarked(parts) ensures !Marked(parts[k]) {
      if FirstMarked(parts) < k { assert Marked(parts[FirstMarked(parts)]); }
    }
  }

  /** A system message with these parts. */
  function System(parts: seq<Option<TextPart>>): Option<Message> { Some(Message("", "system", parts)) }

  /** Histories that keep an old block: in a second system message, whether memory is on or
      off, and as a second marked part of the first. */
  lemma OldBlockCanStay(stale: Bytes, plain: Bytes, recall: Bytes, budget: int)
    requires Contains(stale, MARKER) && !Contains(plain, MARKER) && Fit(recall, budget).Some? &&
      Fit(recall, budget).value != stale
    ensures var (on, off) := (Some(MemoryConfig(true, budget)), Some(MemoryConfig(false, budget)));
      var (mark, text) := (Some(TextPart(stale, 0)), Some(TextPart(plain, 0)));
      var (second, twice) := ([System([text]), System([mark])], [System([mark, mark])]);
      && !NothingStale(Transformed(second, on, true, Some(recall)), PassBlock(on, true, Some(recall)))
      && !NothingStale(Transformed(second, off, true, Some(recall)), PassBlock(off, true, Some(recall)))
      && !NothingStale(Transformed(twice, on, true, Some(recall)), PassBlock(on, true, Some(recall)))
  {
    hide Fit, Contains;
    var (on, off) := (Some(MemoryConfig(true, budget)), Some(MemoryConfig(false, budget)));
    var (mark, text) := (Some(TextPart(stale, 0)), Some(TextPart(plain, 0)));
    var (second, twice) := ([System([text]), System([mark])], [System([mark, mark])]);
    NeverStale(second, on, true, Some(recall));
    NeverStale(second, off, true, Some(recall));
    NeverStale(twice, on, true, Some(recall));
    FirstSystemIs(second, 0);
    FirstSystemIs(twice, 0);
    assert second[1].value.parts[0] == mark && Marked(mark);
    assert !MessageCurrent(second[1], None) && !MessageCurrent(second[1], Fit(recall, budget));
    FirstMarkedIs([mark, mark], 0);
    assert SystemParts(twice) == [mark, mark] && SystemParts(twice)[1] == mark;
  }
}
