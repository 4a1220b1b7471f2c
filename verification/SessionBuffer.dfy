/** The per-session ring of episodes: what is kept, what is evicted, and the summary that a
    single episode is captured as. */
module SessionBuffer {
  import opened Llm
  import opened Utf8

  const MAX_EPISODES: nat := 20
  const MAX_BYTES: nat := 2000

  /** A ring's content and its evictions since the last successful flush. */
  datatype Ring<T> = Ring(episodes: seq<T>, dropped: nat)

  function Last<T>(xs: seq<T>, n: nat): seq<T> { if |xs| <= n then xs else xs[|xs| - n..] }

  /** What leaves the ring when x enters it, oldest first. */
  function Evicted<T>(r: Ring<T>, x: T): seq<T> {
    var more := r.episodes + [x];
    if |more| <= MAX_EPISODES then [] else more[..|more| - MAX_EPISODES]
  }

  function Push<T>(r: Ring<T>, x: T): Ring<T> {
    Ring(Last(r.episodes + [x], MAX_EPISODES), r.dropped + |Evicted(r, x)|)
  }

  function Emptied<T>(r: Ring<T>): Ring<T> { r.(episodes := []) }

  function Restored<T>(r: Ring<T>, claimed: seq<T>): Ring<T> { r.(episodes := claimed + r.episodes) }

  /** Nothing is lost or reordered by entering the ring, apart from the evicted front, and
      the new episode is never the one evicted. */
  lemma PushKeepsOrder<T>(r: Ring<T>, x: T)
    ensures Evicted(r, x) + Push(r, x).episodes == r.episodes + [x]
    ensures |Push(r, x).episodes| == if |r.episodes| < 20 then |r.episodes| + 1 else 20
    ensures Push(r, x).episodes[|Push(r, x).episodes| - 1] == x
    ensures |r.episodes| < 20 ==> Evicted(r, x) == []
    ensures Push(r, x).dropped == r.dropped + |Evicted(r, x)|
  {
  }

  datatype Episode = Episode(text: Bytes, error: Bytes, prompt: Bytes, mode: Bytes, session: Bytes, time: int)

  function Stored(ep: Episode): Episode { ep.(text := Truncated(ep.text, MAX_BYTES)) }

  function TotalBytes(eps: seq<Episode>): nat { if eps == [] then 0 else |eps[0].text| + TotalBytes(eps[1..]) }

  lemma {:induction false} TotalBytesConcat(a: seq<Episode>, b: seq<Episode>)
    ensures TotalBytes(a + b) == TotalBytes(a) + TotalBytes(b)
  {
    if a == [] {
      assert a + b == b;
    } else {
      assert (a + b)[1..] == a[1..] + b;
      TotalBytesConcat(a[1..], b);
    }
  }

  /** What an episode is kept as, if it is kept. */
  function Accepted(ep: Episode): Option<Episode> { if Blank(ep.text) then None else Some(Stored(ep)) }

  function Offered<T>(r: Ring<T>, x: Option<T>): Ring<T> { if x.Some? then Push(r, x.value) else r }

  /** An accepted text keeps something, unless no rune starts in its first 2000 bytes. */
  lemma {:induction false} StoredIsNotEmpty(ep: Episode)
    requires Accepted(ep).Some?
    ensures Stored(ep).text == [] <==> |ep.text| > MAX_BYTES && forall k | 1 <= k <= MAX_BYTES :: Tail(ep.text[k])
    ensures Valid(ep.text) ==> Stored(ep).text != [] && Valid(Stored(ep).text)
    ensures |Stored(ep).text| <= MAX_BYTES
  {
    TruncatedIsPrefix(ep.text, MAX_BYTES);
    if Valid(ep.text) { TruncatedIsLongest(ep.text, MAX_BYTES); }
    if |ep.text| > MAX_BYTES { TruncatedToNothing(ep.text, MAX_BYTES); }
  }

  /** Text with something visible is accepted, white space alone is not; of what is accepted
      only the text can differ, and that is kept whole up to 2000 bytes. */
  lemma {:induction false} AcceptedExactly(ep: Episode)
    ensures Accepted(ep).Some? <==> TrimSpace(ep.text) != []
    ensures Accepted(ep).Some? ==>
      var kept := Accepted(ep).value;
      && kept == ep.(text := kept.text) && kept.text <= ep.text
      && (|ep.text| <= 2000 ==> kept == ep)
  {
    hide TrimSpace, Blank;
    BlankIsTrimmed(ep.text);
    TruncatedIsPrefix(ep.text, MAX_BYTES);
  }

  class Buffer {
    var episodes: seq<Episode>
    var bytes: int
    var dropped: nat

    function View(): Ring<Episode>
      reads this
    {
      Ring(episodes, dropped)
    }

    /** The byte counter is exact. */
    ghost predicate Valid()
      reads this
    {
      bytes == TotalBytes(episodes)
    }

    constructor ()
      ensures Valid() && View() == Ring([], 0)
    {
      episodes, bytes, dropped := [], 0, 0;
    }

    /** Drops the oldest episodes beyond the bound. */
    method Evict()
      requires Valid()
      modifies this
      ensures Valid()
      ensures episodes == Last(old(episodes), MAX_EPISODES)
      ensures dropped == old(dropped) + |old(episodes)| - |episodes|
    {
      ghost var more := episodes;
      ghost var gone := 0;
      while |episodes| > MAX_EPISODES
        invariant Valid()
        invariant 0 <= gone <= |more| && episodes == more[gone..]
        invariant gone == 0 || |more| - gone >= MAX_EPISODES
        invariant dropped == old(dropped) + gone
      {
        var oldest := episodes[0];
        episodes := episodes[1..];
        bytes := bytes - |oldest.text|;
        dropped := dropped + 1;
        gone := gone + 1;
      }
    }

    /** Blank text changes nothing; any other enters truncated, and the bound holds again
        even when a restore had exceeded it. */
    method Append(ep: Episode)
      requires Valid()
      modifies this
      ensures Valid()
      ensures View() == Offered(old(View()), Accepted(ep))
    {
      var blank := Blank(ep.text);
      if blank { return; }
      var text := TruncateToBytes(ep.text, MAX_BYTES);
      Add(ep.(text := text));
    }

    method Add(stored: Episode)
      requires Valid()
      modifies this
      ensures Valid() && View() == Push(old(View()), stored)
    {
      TotalBytesConcat(episodes, [stored]);
      episodes := episodes + [stored];
      bytes := bytes + |stored.text|;
      Evict();
    }

    method Claim() returns (claimed: seq<Episode>)
      requires Valid()
      modifies this
      ensures Valid() && claimed == old(episodes) && View() == Emptied(old(View()))
    {
      claimed := episodes;
      episodes, bytes := [], 0;
    }

    method Restore(claimed: seq<Episode>)
      requires Valid()
      modifies this
      ensures Valid() && View() == Restored(old(View()), claimed)
    {
      var merged := claimed + episodes;
      episodes, bytes := merged, 0;
      for i := 0 to |merged|
        invariant episodes == merged && dropped == old(dropped)
        invariant bytes == TotalBytes(merged[..i])
      {
        assert merged[..i + 1] == merged[..i] + [merged[i]];
        TotalBytesConcat(merged[..i], [merged[i]]);
        bytes := bytes + |merged[i].text|;
      }
      assert merged[..|merged|] == merged;
    }
  }

  // ---------------------------------------------------------------- capture

  const ERROR_PREFIX: Bytes := [0x65, 0x72, 0x72, 0x6F, 0x72, 0x3A, 0x20] // "error: "
  const USER_INFIX: Bytes := [0x20, 0x7C, 0x20, 0x75, 0x73, 0x65, 0x72, 0x3A, 0x20] // " | user: "

  function CaptureSummary(ep: Episode): Bytes {
    if ep.text != [] then Truncated(ep.text, MAX_BYTES)
    else if ep.error == [] then []
    else
      var base := ERROR_PREFIX + ep.error;
      if |base| > MAX_BYTES then Truncated(base, MAX_BYTES)
      else if ep.prompt == [] || MAX_BYTES - |base| - |USER_INFIX| <= 0 then base
      else base + USER_INFIX + Truncated(ep.prompt, MAX_BYTES - |base| - |USER_INFIX|)
  }

  /** The summary is bounded, and led by the text if there is one, otherwise by as much of
      the error as the bound admits, whatever the prompt. */
  lemma CaptureIsBounded(ep: Episode)
    ensures |CaptureSummary(ep)| <= MAX_BYTES
    ensures ep.text != [] ==> CaptureSummary(ep) <= ep.text
    ensures ep.text == [] && ep.error != [] ==>
      var (r, base) := (CaptureSummary(ep), ERROR_PREFIX + ep.error);
      r != [] && if |base| <= MAX_BYTES then base <= r else r <= base
    ensures ep.text != [] && |ep.text| <= MAX_BYTES ==> CaptureSummary(ep) == ep.text
    ensures ep.text == [] && ep.error == [] ==> CaptureSummary(ep) == []
    ensures ep.text == [] && ep.error != [] && ep.prompt == [] && |ERROR_PREFIX + ep.error| <= MAX_BYTES ==>
      CaptureSummary(ep) == ERROR_PREFIX + ep.error
    ensures var all := ERROR_PREFIX + ep.error + USER_INFIX + ep.prompt;
      ep.text == [] && ep.error != [] && ep.prompt != [] && |all| <= MAX_BYTES ==> CaptureSummary(ep) == all
  {
    var base := ERROR_PREFIX + ep.error;
    var room := MAX_BYTES - |base| - |USER_INFIX|;
    TruncatedIsPrefix(ep.text, MAX_BYTES);
    TruncatedIsPrefix(base, MAX_BYTES);
    TruncatedIsPrefix(ep.prompt, room);
    if |base| > MAX_BYTES {
      TruncatedToNothing(base, MAX_BYTES);
      assert RuneStart(base[1]);
    }
  }

  lemma {:induction false} MarksAreValid()
    ensures Valid(ERROR_PREFIX) && Valid(USER_INFIX)
  {
    hide Valid;
    AsciiIsValid(ERROR_PREFIX);
    AsciiIsValid(USER_INFIX);
  }

  lemma {:induction false} AsciiIsValid(s: Bytes)
    requires forall k | 0 <= k < |s| :: s[k] < 0x80
    ensures Valid(s)
    decreases |s|
  {
    if s != [] { AsciiIsValid(s[1..]); }
  }

  /** The summary of a well-formed episode is well-formed. */
  lemma CaptureIsValid(ep: Episode)
    requires Valid(ep.text) && Valid(ep.error) && Valid(ep.prompt)
    ensures Valid(CaptureSummary(ep))
  {
    MarksAreValid();
    var base := ERROR_PREFIX + ep.error;
    var room := MAX_BYTES - |base| - |USER_INFIX|;
    TruncatedIsLongest(ep.text, MAX_BYTES);
    ValidConcat(ERROR_PREFIX, ep.error);
    TruncatedIsLongest(base, MAX_BYTES);
    TruncatedIsLongest(ep.prompt, room);
    ValidConcat(base, USER_INFIX);
    ValidConcat(base + USER_INFIX, Truncated(ep.prompt, room));
  }
}
