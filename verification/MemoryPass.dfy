/** What one pass of the injector makes of a history, told by roles, texts and positions. */
module MemoryPass {
  import opened Llm
  import opened Utf8
  import opened MemoryBlock
  import opened MemoryStaleness

  // ---------------------------------------------------------------- marked parts

  /** The text holds the marker, wherever. */
  ghost predicate HoldsMarker(text: Bytes) { exists a: Bytes, b: Bytes :: Around(a, b) == text }

  function Around(a: Bytes, b: Bytes): Bytes { a + MARKER + b }

  ghost predicate CarriesBlock(p: Option<TextPart>) { p.Some? && HoldsMarker(p.value.text) }

  lemma {:induction false} ContainsExactly(text: Bytes)
    ensures Contains(text, MARKER) <==> HoldsMarker(text)
  {
    if Contains(text, MARKER) {
      var i: nat :| i <= |text| && OccursAt(text, i, MARKER);
      assert text == Around(text[..i], text[i + |MARKER|..]);
    }
    if a: Bytes, b: Bytes :| Around(a, b) == text {
      assert text[|a|..|a| + |MARKER|] == MARKER;
      assert OccursAt(text, |a|, MARKER);
    }
  }

  lemma {:induction false} MarkedExactly(p: Option<TextPart>)
    ensures Marked(p) <==> CarriesBlock(p)
  {
    hide Contains, HoldsMarker;
    if p.Some? { ContainsExactly(p.value.text); }
  }

  /** `kept` lists, in order, exactly the parts without a block. */
  ghost predicate KeepsUnmarked(parts: seq<Option<TextPart>>, kept: seq<Option<TextPart>>, places: seq<nat>) {
    && |places| == |kept|
    && (forall i | 0 <= i < |places| :: places[i] < |parts| && kept[i] == parts[places[i]])
    && (forall i, j | 0 <= i < j < |places| :: places[i] < places[j])
    && forall k: nat | k < |parts| :: k in places <==> !CarriesBlock(parts[k])
  }

  lemma {:induction false} UnmarkedExactly(parts: seq<Option<TextPart>>) returns (places: seq<nat>)
    ensures KeepsUnmarked(parts, Unmarked(parts), places)
  {
    hide Marked, CarriesBlock;
    if parts == [] {
      places := [];
    } else {
      var n := |parts| - 1;
      places := UnmarkedExactly(parts[..n]);
      MarkedExactly(parts[n]);
      var front := places;
      forall k: nat | k < n ensures k in front <==> !CarriesBlock(parts[k]) { assert parts[k] == parts[..n][k]; }
      assert forall i | 0 <= i < |front| :: front[i] < n && Unmarked(parts[..n])[i] == parts[front[i]];
      assert n !in front;
      if !Marked(parts[n]) { places := places + [n]; }
    }
  }

  /** The same parts without a block, in the same order. */
  ghost predicate SameRest(before: seq<Option<TextPart>>, after: seq<Option<TextPart>>) {
    exists kept: seq<Option<TextPart>>, a: seq<nat>, b: seq<nat> ::
      KeepsUnmarked(before, kept, a) && KeepsUnmarked(after, kept, b)
  }

  lemma {:induction false} SameUnmarkedSameRest(before: seq<Option<TextPart>>, after: seq<Option<TextPart>>)
    requires Unmarked(before) == Unmarked(after)
    ensures SameRest(before, after)
  {
    var a := UnmarkedExactly(before);
    var b := UnmarkedExactly(after);
  }

  // ---------------------------------------------------------------- the first system message

  predicate FirstSystemAt(h: History, i: nat) {
    && i < |h| && h[i].Some? && h[i].value.role == "system"
    && forall j | 0 <= j < i :: h[j].Some? ==> h[j].value.role != "system"
  }

  predicate NoSystem(h: History) { forall j | 0 <= j < |h| :: h[j].Some? ==> h[j].value.role != "system" }

  lemma {:induction false} FirstSystemExactly(h: History)
    ensures FirstSystem(h) < |h| ==> FirstSystemAt(h, FirstSystem(h))
    ensures FirstSystem(h) == |h| ==> NoSystem(h)
    ensures forall i: nat :: FirstSystemAt(h, i) ==> i == FirstSystem(h)
  {
  }

  /** Only the parts of message i differ. */
  predicate OnlyParts(h: History, now: History, i: nat) {
    && i < |h| == |now| && h[i].Some? && now[i].Some?
    && now[i].value.role == h[i].value.role && now[i].value.id == h[i].value.id
    && forall j | 0 <= j < |h| && j != i :: now[j] == h[j]
  }

  // ---------------------------------------------------------------- the pass

  /** A pass with a block: the first system message holds it and keeps its other parts in
      order, and no other message changes; without such a message, one with the block alone
      is put in front. */
  lemma {:induction false} PassInserts(h: History, cfg: Option<MemoryConfig>, hasClient: bool, recall: Option<Bytes>)
    requires PassBlock(cfg, hasClient, recall).Some?
    ensures var (now, block) := (Transformed(h, cfg, hasClient, recall), PassBlock(cfg, hasClient, recall).value);
      && (forall i: nat | FirstSystemAt(h, i) ::
            && OnlyParts(h, now, i) && SameRest(h[i].value.parts, now[i].value.parts)
            && exists k: nat :: PutAt(h[i].value.parts, now[i].value.parts, k, block))
      && (NoSystem(h) ==>
            now[1..] == h && |now| == |h| + 1 && now[0] == Some(Message("", "system", [Some(TextPart(block, 0))])))
  {
    hide Fit, Contains, Unmarked, SameRest, PutAt;
    var (now, block) := (Transformed(h, cfg, hasClient, recall), PassBlock(cfg, hasClient, recall).value);
    FirstSystemExactly(h);
    PassBlockIsMarked(cfg, hasClient, recall);
    assert now == Insert(h, block);
    var i := FirstSystem(h);
    if i < |h| {
      var before := h[i].value.parts;
      WithBlockKeeps(before, block);
      SameUnmarkedSameRest(before, WithBlock(before, block));
      WithBlockPuts(before, block);
      assert PutAt(before, now[i].value.parts, FirstMarked(before), block);
    }
  }

  /** The block is the text of part k: the first that carried one, which keeps its other data,
      or a new one at the end. */
  ghost predicate PutAt(before: seq<Option<TextPart>>, after: seq<Option<TextPart>>, k: nat, block: Bytes) {
    && k < |after| && after[k].Some? && after[k].value.text == block
    && (forall j | 0 <= j < k :: j < |before| && after[j] == before[j] && !CarriesBlock(before[j]))
    && if k < |before| then CarriesBlock(before[k]) && after == before[k := Some(before[k].value.(text := block))]
       else after == before + [Some(TextPart(block, 0))]
  }

  lemma {:induction false} WithBlockPuts(parts: seq<Option<TextPart>>, block: Bytes)
    ensures PutAt(parts, WithBlock(parts, block), FirstMarked(parts), block)
  {
    hide Marked, CarriesBlock;
    forall j | 0 <= j < |parts| ensures Marked(parts[j]) <==> CarriesBlock(parts[j]) { MarkedExactly(parts[j]); }
    var k := FirstMarked(parts);
    if k < |parts| { MarkedIsSome(parts[k]); }
  }

  lemma {:induction false} MarkedIsSome(p: Option<TextPart>)
    requires Marked(p)
    ensures p.Some?
  {
  }

  /** A pass without a block, unless it abstains: the first system message has no block left
      and keeps its other parts in order; it is gone if it had no other; no other message
      changes. */
  lemma {:induction false} PassRemoves(h: History, cfg: Option<MemoryConfig>, hasClient: bool, recall: Option<Bytes>)
    requires PassBlock(cfg, hasClient, recall).None? && !Abstains(cfg, hasClient)
    ensures var now := Transformed(h, cfg, hasClient, recall);
      && (NoSystem(h) ==> now == h)
      && forall i: nat | FirstSystemAt(h, i) ::
           var parts := h[i].value.parts;
           if forall k | 0 <= k < |parts| :: !CarriesBlock(parts[k]) then now == h
           else if forall k | 0 <= k < |parts| :: CarriesBlock(parts[k]) then now == h[..i] + h[i + 1..]
           else
             && OnlyParts(h, now, i)
             && exists places :: KeepsUnmarked(parts, now[i].value.parts, places)
  {
    hide Fit, Contains, Unmarked, KeepsUnmarked, CarriesBlock;
    FirstSystemExactly(h);
    assert Transformed(h, cfg, hasClient, recall) == Strip(h).0;
    var i := FirstSystem(h);
    if i < |h| {
      var parts := h[i].value.parts;
      var places := UnmarkedExactly(parts);
      UnmarkedEnds(parts, places);
    }
  }

  lemma {:induction false} UnmarkedEnds(parts: seq<Option<TextPart>>, places: seq<nat>)
    requires KeepsUnmarked(parts, Unmarked(parts), places)
    ensures Unmarked(parts) == parts <==> forall k | 0 <= k < |parts| :: !CarriesBlock(parts[k])
    ensures Unmarked(parts) == [] <==> forall k | 0 <= k < |parts| :: CarriesBlock(parts[k])
  {
    hide Marked, CarriesBlock;
    UnmarkedAll(parts);
    forall k | 0 <= k < |parts| ensures Marked(parts[k]) <==> CarriesBlock(parts[k]) { MarkedExactly(parts[k]); }
    if Unmarked(parts) == parts {
      forall k | 0 <= k < |parts| ensures !Marked(parts[k]) { assert parts[k] in Unmarked(parts); }
    } else {
      assert FirstMarked(parts) < |parts| && Marked(parts[FirstMarked(parts)]);
    }
    if Unmarked(parts) == [] {
      forall k: nat | k < |parts| ensures CarriesBlock(parts[k]) { assert k !in places; }
    } else {
      assert places[0] in places;
    }
  }

  /** A pass that abstains changes nothing; and a pass asks for the history to be saved exactly
      when memory is switched off and a block was there. */
  lemma {:induction false} PassAbstains(h: History, cfg: Option<MemoryConfig>, hasClient: bool, recall: Option<Bytes>)
    ensures Abstains(cfg, hasClient) ==> Transformed(h, cfg, hasClient, recall) == h
    ensures Strip(h).1 <==> exists i: nat, k: nat :: BlockAt(h, i, k)
  {
    hide CarriesBlock, Unmarked;
    FirstSystemExactly(h);
    var i := FirstSystem(h);
    if i < |h| {
      var parts := h[i].value.parts;
      var places := UnmarkedExactly(parts);
      UnmarkedEnds(parts, places);
      if Strip(h).1 {
        var k: nat :| k < |parts| && CarriesBlock(parts[k]);
        assert BlockAt(h, i, k);
      }
    }
  }

  ghost predicate BlockAt(h: History, i: nat, k: nat) {
    FirstSystemAt(h, i) && k < |h[i].value.parts| && CarriesBlock(h[i].value.parts[k])
  }
}
