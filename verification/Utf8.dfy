/** Byte strings: UTF-8 as in section 3 of RFC 3629, truncation between runes, and the white
    space that the source's string library trims. */
module Utf8 {
  newtype byte = x: int | 0 <= x < 0x100
  type Bytes = seq<byte>

  /** The bytes of a text of ASCII characters. */
  function Ascii(s: string): (r: Bytes)
    ensures |r| == |s| && forall k | 0 <= k < |r| :: r[k] < 0x80
  {
    seq(|s|, i requires 0 <= i < |s| => (s[i] as int % 0x80) as byte)
  }

  predicate Tail(b: byte) { 0x80 <= b < 0xC0 }
  predicate RuneStart(b: byte) { !Tail(b) }

  predicate TailsAfter(s: Bytes, n: nat) { |s| >= n && forall k | 1 <= k < n :: Tail(s[k]) }

  /** The length of the well-formed sequence that s starts with, or 0. */
  function RuneLength(s: Bytes): nat {
    if |s| == 0 then 0
    else if s[0] < 0x80 then 1
    else if 0xC2 <= s[0] <= 0xDF && TailsAfter(s, 2) then 2
    else if 0xE0 <= s[0] <= 0xEF && TailsAfter(s, 3) && (s[0] == 0xE0 ==> 0xA0 <= s[1]) &&
      (s[0] == 0xED ==> s[1] <= 0x9F) then 3
    else if 0xF0 <= s[0] <= 0xF4 && TailsAfter(s, 4) && (s[0] == 0xF0 ==> 0x90 <= s[1]) &&
      (s[0] == 0xF4 ==> s[1] <= 0x8F) then 4
    else 0
  }

  predicate Valid(s: Bytes) {
    s == [] || (RuneLength(s) > 0 && Valid(s[RuneLength(s)..]))
  }

  /** Cutting s at k splits no sequence. */
  predicate Boundary(s: Bytes, k: nat)
    requires k <= |s|
  {
    k == |s| || RuneStart(s[k])
  }

  lemma RuneLocal(s: Bytes, t: Bytes)
    requires RuneLength(s) > 0 && RuneLength(s) <= |t| && t[..RuneLength(s)] == s[..RuneLength(s)]
    ensures RuneLength(t) == RuneLength(s)
  {
    assert forall k | 0 <= k < RuneLength(s) :: t[k] == t[..RuneLength(s)][k] == s[k];
  }

  /** A valid string splits into two valid strings exactly at its boundaries. */
  lemma {:induction false} ValidSplit(s: Bytes, k: nat)
    requires Valid(s) && k <= |s|
    ensures Boundary(s, k) <==> Valid(s[..k])
    ensures Boundary(s, k) ==> Valid(s[k..])
    decreases |s|
  {
    var n := RuneLength(s);
    if k == 0 {
      assert s[0..] == s;
    } else if k < n {
      assert Tail(s[k]);
      var t := s[..k];
      if RuneLength(t) > 0 { RuneLocal(t, s); }
    } else {
      RuneLocal(s, s[..k]);
      ValidSplit(s[n..], k - n);
      assert s[..k][n..] == s[n..][..k - n];
      assert s[n..][k - n..] == s[k..];
    }
  }

  lemma {:induction false} ValidConcat(s: Bytes, t: Bytes)
    requires Valid(s) && Valid(t)
    ensures Valid(s + t)
    decreases |s|
  {
    if s == [] {
      assert s + t == t;
    } else {
      var n := RuneLength(s);
      assert (s + t)[..n] == s[..n];
      RuneLocal(s, s + t);
      ValidConcat(s[n..], t);
      assert (s + t)[n..] == s[n..] + t;
    }
  }

  /** No four bytes of a valid string are all tails. */
  lemma {:induction false} BoundaryNear(s: Bytes, k: nat) returns (j: nat)
    requires Valid(s) && k + 3 < |s|
    ensures k <= j <= k + 3 && Boundary(s, j)
    decreases |s|
  {
    var n := RuneLength(s);
    if k == 0 {
      j := 0;
    } else if k < n {
      j := n;
      assert n < |s| && s[n..] != [] && RuneLength(s[n..]) > 0;
    } else {
      j := BoundaryNear(s[n..], k - n);
      j := j + n;
    }
  }

  /** The last index at or before k where a rune starts, or 0. */
  function CutAt(s: Bytes, k: nat): (cut: nat)
    requires k < |s|
    ensures cut <= k
    ensures cut == 0 || RuneStart(s[cut])
    ensures forall j | cut < j <= k :: Tail(s[j])
  {
    if k == 0 || RuneStart(s[k]) then k else CutAt(s, k - 1)
  }

  function Truncated(s: Bytes, max: int): Bytes {
    if max <= 0 then [] else if |s| <= max then s else s[..CutAt(s, max)]
  }

  method TruncateToBytes(s: Bytes, max: int) returns (t: Bytes)
    ensures t == Truncated(s, max)
  {
    if max <= 0 { return []; }
    if |s| <= max { return s; }
    var cut := max;
    while cut > 0 && !RuneStart(s[cut])
      invariant 0 <= cut <= max
      invariant CutAt(s, cut) == CutAt(s, max)
    {
      cut := cut - 1;
    }
    return s[..cut];
  }

  /** A prefix within the limit, and the string itself when that fits. */
  lemma TruncatedIsPrefix(s: Bytes, max: int)
    ensures Truncated(s, max) <= s && (max >= 0 ==> |Truncated(s, max)| <= max)
    ensures 0 < max ==> (Truncated(s, max) == s <==> |s| <= max)
  {
  }

  /** Of a valid string, truncation keeps the longest valid prefix within the limit, and
      loses at most three bytes of the limit. */
  lemma {:induction false} TruncatedIsLongest(s: Bytes, max: int)
    requires Valid(s)
    ensures var t := Truncated(s, max);
      && Valid(t) && Valid(s[|t|..])
      && (forall k: nat | k <= |s| && k <= max :: Valid(s[..k]) ==> k <= |t|)
      && (0 < max < |s| ==> |t| > max - 4)
  {
    var t := Truncated(s, max);
    if max <= 0 {
      assert s[0..] == s;
    } else if |s| <= max {
      assert s[|s|..] == [] && s[..|s|] == s;
    } else {
      assert s[..|t|] == t;
      if |t| == 0 { assert s[0..] == s; } else { ValidSplit(s, |t|); }
      forall k: nat | k <= max && Valid(s[..k]) ensures k <= |t| { ValidSplit(s, k); }
      if max >= 4 { var j := BoundaryNear(s, max - 3); }
    }
  }

  /** Truncation leaves nothing of a longer string exactly when no rune starts within reach;
      a valid string keeps something once the limit holds its first rune. */
  lemma {:induction false} TruncatedToNothing(s: Bytes, max: nat)
    requires 0 < max < |s|
    ensures Truncated(s, max) == [] <==> forall k | 1 <= k <= max :: Tail(s[k])
    ensures Valid(s) && max >= 4 ==> Truncated(s, max) != []
  {
    if Valid(s) { TruncatedIsLongest(s, max); }
  }

  // ---------------------------------------------------------------- white space

  /** The length of the white space character that s starts with, or 0. */
  function SpaceLength(s: Bytes): (n: nat)
    ensures n <= |s|
  {
    if |s| >= 1 && IsSpaceByte(s[0]) then 1
    else if |s| >= 2 && s[0] == 0xC2 && (s[1] == 0x85 || s[1] == 0xA0) then 2
    else if |s| >= 3 && IsWideSpace(s[0], s[1], s[2]) then 3
    else 0
  }

  predicate IsSpaceByte(b: byte) { 0x09 <= b <= 0x0D || b == 0x20 }

  predicate IsWideSpace(a: byte, b: byte, c: byte) {
    || (a == 0xE1 && b == 0x9A && c == 0x80)
    || (a == 0xE2 && b == 0x80 && (0x80 <= c <= 0x8A || c == 0xA8 || c == 0xA9 || c == 0xAF))
    || (a == 0xE2 && b == 0x81 && c == 0x9F)
    || (a == 0xE3 && b == 0x80 && c == 0x80)
  }

  /** The length of the white space character that s ends with, or 0. */
  function LastSpaceLength(s: Bytes): (n: nat)
    ensures n <= |s|
  {
    var n := |s|;
    if n >= 1 && IsSpaceByte(s[n - 1]) then 1
    else if n >= 2 && s[n - 2] == 0xC2 && (s[n - 1] == 0x85 || s[n - 1] == 0xA0) then 2
    else if n >= 3 && IsWideSpace(s[n - 3], s[n - 2], s[n - 1]) then 3
    else 0
  }

  function TrimLeft(s: Bytes): (t: Bytes)
    ensures SpaceLength(t) == 0 && |t| <= |s|
    decreases |s|
  {
    if SpaceLength(s) == 0 then s else TrimLeft(s[SpaceLength(s)..])
  }

  function TrimRight(s: Bytes): (t: Bytes)
    ensures |t| <= |s|
    decreases |s|
  {
    if LastSpaceLength(s) == 0 then s else TrimRight(s[..|s| - LastSpaceLength(s)])
  }

  function TrimSpace(s: Bytes): Bytes { TrimRight(TrimLeft(s)) }

  /** Whether s is white space alone. */
  predicate Blank(s: Bytes) { TrimLeft(s) == [] }

  lemma {:induction false} SpaceOfFront(s: Bytes, k: nat)
    requires k <= |s| && SpaceLength(s) == 0
    ensures SpaceLength(s[..k]) == 0
  {
  }

  lemma {:induction false} LastSpaceIsSpace(s: Bytes)
    requires LastSpaceLength(s) > 0
    ensures SpaceLength(s[|s| - LastSpaceLength(s)..]) == LastSpaceLength(s)
  {
  }

  lemma {:induction false} TrimRightLeaves(s: Bytes)
    requires s != [] && SpaceLength(s) == 0
    ensures TrimRight(s) != []
    decreases |s|
  {
    hide SpaceLength, LastSpaceLength;
    var n := LastSpaceLength(s);
    if n > 0 {
      LastSpaceIsSpace(s);
      assert s[0..] == s;
      SpaceOfFront(s, |s| - n);
      TrimRightLeaves(s[..|s| - n]);
    }
  }

  /** Blank is the test of the source: nothing is left when both ends are trimmed. */
  lemma {:induction false} BlankIsTrimmed(s: Bytes)
    ensures Blank(s) <==> TrimSpace(s) == []
  {
    if !Blank(s) { TrimRightLeaves(TrimLeft(s)); }
  }

  lemma {:induction false} TrimLeftKeepsValid(s: Bytes)
    requires Valid(s)
    ensures Valid(TrimLeft(s))
    decreases |s|
  {
    if SpaceLength(s) > 0 {
      assert RuneLength(s) == SpaceLength(s);
      TrimLeftKeepsValid(s[SpaceLength(s)..]);
    }
  }

  lemma {:induction false} TrimRightKeepsValid(s: Bytes)
    requires Valid(s)
    ensures Valid(TrimRight(s))
    decreases |s|
  {
    var n := LastSpaceLength(s);
    if n > 0 {
      var last := s[|s| - n..];
      assert last[0] == s[|s| - n];
      ValidSplit(s, |s| - n);
      TrimRightKeepsValid(s[..|s| - n]);
    }
  }

  lemma {:induction false} TrimKeepsValid(s: Bytes)
    requires Valid(s)
    ensures Valid(TrimSpace(s))
  {
    TrimLeftKeepsValid(s);
    TrimRightKeepsValid(TrimLeft(s));
  }

  predicate Visible(b: byte) { 0x21 <= b < 0x7F }

  lemma {:induction false} SpaceIsInvisible(s: Bytes)
    ensures forall k | 0 <= k < SpaceLength(s) :: !Visible(s[k])
  {
  }

  lemma {:induction false} VisibleIsNotBlank(s: Bytes, i: nat)
    requires i < |s| && Visible(s[i])
    ensures !Blank(s)
    decreases |s|
  {
    var n := SpaceLength(s);
    SpaceIsInvisible(s);
    if n > 0 {
      assert s[n..][i - n] == s[i];
      VisibleIsNotBlank(s[n..], i - n);
    }
  }
}
