/** The memory hook's locked sections, as methods on the table of per-session buffers, and
    the flood bounds of direct learning. The protocol over their interleavings is
    FlushProtocol. */
module PlurHook {
  import opened Llm
  import opened Utf8
  import opened SessionBuffer
  import FlushProtocol

  type Entry = FlushProtocol.Entry<Episode>

  class Hook {
    var buffers: map<string, Buffer>
    var learnCounts: map<string, int>
    var learnHashes: map<string, set<string>>

    /** Every buffer is sound and belongs to one session. */
    ghost predicate Valid()
      reads this, buffers.Values
    {
      && (forall s | s in buffers :: buffers[s].Valid())
      && (forall s, t | s in buffers && t in buffers && s != t :: buffers[s] != buffers[t])
    }

    ghost function EntryOf(session: string): Entry
      reads this, buffers.Values
    {
      if session in buffers then Some(buffers[session].View()) else None
    }

    /** Only the session's entry changed. */
    twostate predicate OnlyChanged(session: string)
      reads this, buffers.Values
    {
      && learnCounts == old(learnCounts) && learnHashes == old(learnHashes)
      && forall t | t != session :: EntryOf(t) == old(EntryOf(t))
    }

    constructor ()
      ensures Valid() && forall s :: EntryOf(s) == None
      ensures learnCounts == map[] && learnHashes == map[]
    {
      buffers, learnCounts, learnHashes := map[], map[], map[];
    }

    method BufferAppend(session: string, ep: Episode)
      requires Valid()
      modifies this, buffers.Values
      ensures Valid() && OnlyChanged(session)
      ensures EntryOf(session) == FlushProtocol.Appended(old(EntryOf(session)), Accepted(ep))
    {
      var buf := GetOrCreate(session);
      label got:
      buf.Append(ep);
      forall t | t in buffers && t != session
        ensures buffers[t].Valid() && buffers[t].View() == old@got(buffers[t].View())
      {
        assert buffers[t] != buf;
      }
    }

    method GetOrCreate(session: string) returns (buf: Buffer)
      requires Valid()
      modifies this`buffers
      ensures Valid() && OnlyChanged(session)
      ensures session in buffers && buffers[session] == buf && fresh(buffers.Values - old(buffers.Values))
      ensures buf.View() == FlushProtocol.RingOf(old(EntryOf(session)))
    {
      if session in buffers { return buffers[session]; }
      buf := new Buffer();
      buffers := buffers[session := buf];
    }

    /** Disabled: the buffer is dropped. Otherwise its episodes, if it has any. */
    method ClaimEpisodes(session: string, enabled: bool) returns (claimed: seq<Episode>, ok: bool)
      requires Valid()
      modifies this, buffers.Values
      ensures Valid() && OnlyChanged(session)
      ensures EntryOf(session) == if enabled then FlushProtocol.AfterClaim(old(EntryOf(session))) else None
      ensures claimed == if enabled then FlushProtocol.RingOf(old(EntryOf(session))).episodes else []
      ensures ok <==> claimed != []
      ensures buffers.Values <= old(buffers.Values)
    {
      if !enabled {
        Drop(session);
        return [], false;
      }
      if session !in buffers { return [], false; }
      claimed := buffers[session].Claim();
      if |claimed| == 0 {
        Drop(session);
        return [], false;
      }
      return claimed, true;
    }

    method Drop(session: string)
      requires Valid()
      modifies this`buffers
      ensures Valid() && OnlyChanged(session) && EntryOf(session) == None
      ensures buffers == old(buffers) - {session}
    {
      buffers := buffers - {session};
    }

    method RestoreOnFailure(session: string, claimed: seq<Episode>)
      requires Valid()
      modifies this, buffers.Values
      ensures Valid() && OnlyChanged(session)
      ensures EntryOf(session) == FlushProtocol.AfterRestore(old(EntryOf(session)), claimed)
    {
      var buf := GetOrCreate(session);
      buf.Restore(claimed);
    }

    method FinalizeOnSuccess(session: string)
      requires Valid()
      modifies this, buffers.Values
      ensures Valid() && OnlyChanged(session)
      ensures EntryOf(session) == FlushProtocol.AfterSuccess(old(EntryOf(session)))
    {
      if session in buffers {
        if |buffers[session].episodes| == 0 {
          Drop(session);
        } else {
          buffers[session].dropped := 0;
        }
      }
    }

    /** A flush that nothing interrupts. A failed write leaves the entry as it was; a
        successful one, a missing client or a disabled memory leaves none. */
    method FlushSession(session: string, enabled: bool, hasClient: bool, writeSucceeds: bool)
      returns (written: seq<Episode>)
      requires Valid()
      modifies this, buffers.Values
      ensures Valid() && OnlyChanged(session)
      ensures written == if enabled && hasClient && writeSucceeds
        then FlushProtocol.RingOf(old(EntryOf(session))).episodes else []
      ensures EntryOf(session) ==
        if enabled && hasClient && !writeSucceeds && FlushProtocol.RingOf(old(EntryOf(session))).episodes != []
        then old(EntryOf(session)) else None
    {
      var claimed, ok := ClaimEpisodes(session, enabled);
      if !ok { return []; }
      if !hasClient {
        Drop(session);
        return [];
      }
      if !writeSucceeds {
        RestoreOnFailure(session, claimed);
        assert claimed + [] == claimed;
        return [];
      }
      FinalizeOnSuccess(session);
      return claimed;
    }

    ghost function SlotsOf(session: string): Slots
      reads this
    {
      Slots(
        if session in learnHashes then learnHashes[session] else {},
        if session in learnCounts then learnCounts[session] else 0)
    }

    method ClaimLearnSlot(session: string, hash: string, maxLearns: int) returns (granted: bool)
      modifies this`learnCounts, this`learnHashes
      ensures (SlotsOf(session), granted) == ClaimSlot(old(SlotsOf(session)), hash, maxLearns)
      ensures forall t | t != session :: SlotsOf(t) == old(SlotsOf(t))
    {
      if session !in learnHashes {
        learnHashes := learnHashes[session := {}];
      }
      if hash in learnHashes[session] { return false; }
      var count := if session in learnCounts then learnCounts[session] else 0;
      if count >= maxLearns { return false; }
      learnHashes := learnHashes[session := learnHashes[session] + {hash}];
      learnCounts := learnCounts[session := count + 1];
      return true;
    }
  }

  // ---------------------------------------------------------------- flood bounds

  /** What a session has learned. */
  datatype Slots = Slots(hashes: set<string>, count: int)

  function ClaimSlot(s: Slots, hash: string, maxLearns: int): (Slots, bool) {
    if hash in s.hashes || s.count >= maxLearns then (s, false)
    else (Slots(s.hashes + {hash}, s.count + 1), true)
  }

  /** A session's requests in order: its slots, and the hashes that were granted. */
  function Claims(requests: seq<string>, maxLearns: int): (Slots, seq<string>) {
    if requests == [] then (Slots({}, 0), [])
    else
      var (s, granted) := Claims(requests[..|requests| - 1], maxLearns);
      var hash := requests[|requests| - 1];
      var (s', ok) := ClaimSlot(s, hash, maxLearns);
      (s', if ok then granted + [hash] else granted)
  }

  /** The distinct requests, in the order of their first occurrence. */
  function Distinct(xs: seq<string>): seq<string> {
    if xs == [] then []
    else
      var front, x := Distinct(xs[..|xs| - 1]), xs[|xs| - 1];
      if x in front then front else front + [x]
  }

  function First(xs: seq<string>, n: int): seq<string> { if |xs| <= n then xs else if n <= 0 then [] else xs[..n] }

  lemma FirstSnoc(xs: seq<string>, x: string, n: int)
    ensures First(xs + [x], n) == if |First(xs, n)| < n then First(xs, n) + [x] else First(xs, n)
  {
  }

  /** Exactly the first `maxLearns` distinct requests are granted, each once. */
  lemma {:induction false} GrantsAreFirstDistinct(requests: seq<string>, maxLearns: int)
    ensures Claims(requests, maxLearns).1 == First(Distinct(requests), maxLearns)
    ensures var s := Claims(requests, maxLearns).0;
      s.count == |Claims(requests, maxLearns).1| && forall h :: h in s.hashes <==> h in Claims(requests, maxLearns).1
  {
    if requests != [] {
      var front, hash := requests[..|requests| - 1], requests[|requests| - 1];
      GrantsAreFirstDistinct(front, maxLearns);
      FirstSnoc(Distinct(front), hash, maxLearns);
      var granted := First(Distinct(front), maxLearns);
      assert |granted| < maxLearns ==> granted == Distinct(front);
      assert hash in granted ==> hash in Distinct(front);
    }
  }
}
