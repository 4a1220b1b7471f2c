/** The byte strings of Utf8 by the code points they encode: section 3 of RFC 3629. */
module Utf8Codes {
  import opened Utf8

  /** Every code point but the surrogates. */
  predicate Scalar(cp: nat) { cp < 0xD800 || 0xE000 <= cp < 0x110000 }

  function TailOf(cp: nat): byte { (0x80 + cp % 0x40) as byte }

  function Encode(cp: nat): Bytes
    requires Scalar(cp)
  {
    if cp < 0x80 then [cp as byte]
    else if cp < 0x800 then [(0xC0 + cp / 0x40) as byte, TailOf(cp)]
    else if cp < 0x10000 then [(0xE0 + cp / 0x1000) as byte, TailOf(cp / 0x40), TailOf(cp)]
    else [(0xF0 + cp / 0x40000) as byte, TailOf(cp / 0x1000), TailOf(cp / 0x40), TailOf(cp)]
  }

  predicate AllScalar(cps: seq<nat>) { forall cp | cp in cps :: Scalar(cp) }

  function EncodeAll(cps: seq<nat>): Bytes
    requires AllScalar(cps)
  {
    if cps == [] then [] else Encode(cps[0]) + EncodeAll(cps[1..])
  }

  lemma {:induction false} EncodedLength(cp: nat, rest: Bytes)
    requires Scalar(cp)
    ensures RuneLength(Encode(cp) + rest) == |Encode(cp)|
  {
    var (s, code) := (Encode(cp) + rest, Encode(cp));
    assert forall k | 0 <= k < |code| :: s[k] == code[k];
  }

  function Six(b: byte): nat
    requires Tail(b)
  {
    b as int - 0x80
  }

  /** The code point that s starts with. */
  function Decode(s: Bytes): nat
    requires RuneLength(s) > 0
  {
    var n := RuneLength(s);
    if n == 1 then s[0] as int
    else if n == 2 then (s[0] as int - 0xC0) * 0x40 + Six(s[1])
    else if n == 3 then (s[0] as int - 0xE0) * 0x1000 + Six(s[1]) * 0x40 + Six(s[2])
    else (s[0] as int - 0xF0) * 0x40000 + Six(s[1]) * 0x1000 + Six(s[2]) * 0x40 + Six(s[3])
  }

  lemma {:induction false} Digits(x: nat, c: nat)
    requires c < 0x40
    ensures (0x40 * x + c) / 0x40 == x && (0x40 * x + c) % 0x40 == c
  {
  }

  lemma {:induction false} Quotients(cp: nat)
    ensures cp / 0x1000 == cp / 0x40 / 0x40 && cp / 0x40000 == cp / 0x40 / 0x40 / 0x40
  {
  }

  lemma {:induction false} TwoDecoded(s: Bytes)
    requires RuneLength(s) == 2
    ensures Scalar(Decode(s)) && Encode(Decode(s)) == s[..2]
  {
    Digits(s[0] as int - 0xC0, Six(s[1]));
  }

  lemma {:induction false} ThreeDecoded(s: Bytes)
    requires RuneLength(s) == 3
    ensures Scalar(Decode(s)) && Encode(Decode(s)) == s[..3]
  {
    var (a, b, c) := (s[0] as int - 0xE0, Six(s[1]), Six(s[2]));
    var cp := Decode(s);
    assert cp == 0x40 * (0x40 * a + b) + c;
    Digits(0x40 * a + b, c);
    Digits(a, b);
    Quotients(cp);
    ThreeEncoded(cp, a, b, c);
    assert s[..3] == [s[0], s[1], s[2]];
  }

  lemma {:induction false} ThreeEncoded(cp: nat, a: nat, b: nat, c: nat)
    requires a < 0x10 && b < 0x40 && c < 0x40 && cp == 0x1000 * a + 0x40 * b + c
    requires cp / 0x40 == 0x40 * a + b && cp % 0x40 == c && cp / 0x1000 == a && (cp / 0x40) % 0x40 == b
    requires (a == 0 ==> b >= 0x20) && (a == 0xD ==> b <= 0x1F)
    ensures Scalar(cp) && Encode(cp) == [(0xE0 + a) as byte, (0x80 + b) as byte, (0x80 + c) as byte]
  {
  }

  lemma {:induction false} FourDecoded(s: Bytes)
    requires RuneLength(s) == 4
    ensures Scalar(Decode(s)) && Encode(Decode(s)) == s[..4]
  {
    var (a, b, c, d) := (s[0] as int - 0xF0, Six(s[1]), Six(s[2]), Six(s[3]));
    var cp := Decode(s);
    assert cp == 0x40 * (0x40 * (0x40 * a + b) + c) + d;
    Digits(0x40 * (0x40 * a + b) + c, d);
    Digits(0x40 * a + b, c);
    Digits(a, b);
    Quotients(cp);
    FourEncoded(cp, a, b, c, d);
    assert s[..4] == [s[0], s[1], s[2], s[3]];
  }

  lemma {:induction false} FourEncoded(cp: nat, a: nat, b: nat, c: nat, d: nat)
    requires a < 5 && b < 0x40 && c < 0x40 && d < 0x40 && cp == 0x40000 * a + 0x1000 * b + 0x40 * c + d
    requires cp / 0x40000 == a && (cp / 0x1000) % 0x40 == b && (cp / 0x40) % 0x40 == c && cp % 0x40 == d
    requires (a == 0 ==> b >= 0x10) && (a == 4 ==> b <= 0xF)
    ensures Scalar(cp)
    ensures Encode(cp) == [(0xF0 + a) as byte, (0x80 + b) as byte, (0x80 + c) as byte, (0x80 + d) as byte]
  {
  }

  /** What a string starts with is the encoding of a code point. */
  lemma {:induction false} DecodedIsScalar(s: Bytes)
    requires RuneLength(s) > 0
    ensures Scalar(Decode(s)) && Encode(Decode(s)) == s[..RuneLength(s)]
  {
    hide Decode, Encode;
    if RuneLength(s) == 2 { TwoDecoded(s); }
    else if RuneLength(s) == 3 { ThreeDecoded(s); }
    else if RuneLength(s) == 4 { FourDecoded(s); }
    else { OneDecoded(s); }
  }

  lemma {:induction false} OneDecoded(s: Bytes)
    requires RuneLength(s) == 1
    ensures Scalar(Decode(s)) && Encode(Decode(s)) == s[..1]
  {
  }

  /** A string is valid exactly when it encodes some code points, one after another. */
  lemma {:induction false} ValidExactly(s: Bytes)
    ensures Valid(s) <==> exists cps :: Encodes(cps, s)
    decreases |s|
  {
    if Valid(s) {
      var cps := DecodeAll(s);
    }
    if cps :| Encodes(cps, s) { EncodedIsValid(cps); }
  }

  predicate Encodes(cps: seq<nat>, s: Bytes) { AllScalar(cps) && EncodeAll(cps) == s }

  lemma {:induction false} DecodeAll(s: Bytes) returns (cps: seq<nat>)
    requires Valid(s)
    ensures Encodes(cps, s)
    decreases |s|
  {
    if s == [] {
      cps := [];
    } else {
      var n := RuneLength(s);
      var rest := DecodeAll(s[n..]);
      DecodedIsScalar(s);
      cps := [Decode(s)] + rest;
      assert s == s[..n] + s[n..] && cps[1..] == rest;
    }
  }

  lemma {:induction false} EncodedIsValid(cps: seq<nat>)
    requires AllScalar(cps)
    ensures Valid(EncodeAll(cps))
  {
    if cps != [] {
      var (code, rest) := (Encode(cps[0]), EncodeAll(cps[1..]));
      EncodedLength(cps[0], rest);
      EncodedIsValid(cps[1..]);
      assert (code + rest)[|code|..] == rest;
    }
  }

  /** The white space of the source's string library. */
  predicate White(cp: nat) {
    || 0x09 <= cp <= 0x0D || cp == 0x20 || cp == 0x85 || cp == 0xA0 || cp == 0x1680
    || 0x2000 <= cp <= 0x200A || cp == 0x2028 || cp == 0x2029 || cp == 0x202F || cp == 0x205F || cp == 0x3000
  }

  /** A text starts with white space exactly when its first code point is one. */
  lemma {:induction false} SpaceExactly(cp: nat, rest: Bytes)
    requires Scalar(cp)
    ensures SpaceLength(Encode(cp) + rest) == if White(cp) then |Encode(cp)| else 0
  {
    var (s, code) := (Encode(cp) + rest, Encode(cp));
    assert forall k | 0 <= k < |code| :: s[k] == code[k];
  }

  /** So trimming on the left drops exactly the white space in front. */
  lemma {:induction false} TrimLeftExactly(cps: seq<nat>, n: nat)
    requires AllScalar(cps) && n <= |cps| && (forall i | 0 <= i < n :: White(cps[i]))
    requires n < |cps| ==> !White(cps[n])
    ensures AllScalar(cps[n..]) && TrimLeft(EncodeAll(cps)) == EncodeAll(cps[n..])
    decreases n
  {
    if cps == [] {
      assert cps[n..] == cps;
    } else {
      var (code, rest) := (Encode(cps[0]), EncodeAll(cps[1..]));
      SpaceExactly(cps[0], rest);
      if n == 0 {
        assert cps[0..] == cps;
      } else {
        TrimLeftExactly(cps[1..], n - 1);
        assert cps[1..][n - 1..] == cps[n..] && (code + rest)[|code|..] == rest;
      }
    }
  }
}
