/** The consent check, and what it means for the plan that runs after it. */
module Consent {
  import opened Llm
  import opened Batching
  import opened PlanMachine
  import opened PlanInvariant
  import opened PlanTheorems

  /** Looking a call up: a declaration, an error, or a panic. */
  datatype Resolution = Declared(requiresConsent: bool) | Unresolved | Panics

  /** The security manager, when there is one. */
  datatype Manager = Manager(bypassActive: bool)

  predicate Sensitive(r: Resolution) { r.Declared? && r.requiresConsent }

  method IdentifyConsentItems(calls: seq<FunctionCall>, resolve: FunctionCall -> Resolution)
    returns (consent: seq<nat>, declined: set<nat>)
    ensures forall i: nat :: i in consent <==> i < |calls| && Sensitive(resolve(calls[i]))
    ensures forall j, k :: 0 <= j < k < |consent| ==> consent[j] < consent[k]
    ensures forall i: nat :: i in declined <==> i < |calls| && resolve(calls[i]).Panics?
  {
    consent, declined := [], {};
    for i := 0 to |calls|
      invariant forall k: nat :: k in consent <==> k < i && Sensitive(resolve(calls[k]))
      invariant forall j, k :: 0 <= j < k < |consent| ==> consent[j] < consent[k]
      invariant forall k: nat :: k in declined <==> k < i && resolve(calls[k]).Panics?
    {
      match resolve(calls[i]) {
        case Panics => declined := declined + {i};
        case Unresolved =>
        case Declared(requires_) =>
          if requires_ {
            assert forall j | 0 <= j < |consent| :: consent[j] in consent;
            consent := consent + [i];
          }
      }
    }
  }

  method RequestBatchConsent(calls: seq<FunctionCall>, resolve: FunctionCall -> Resolution, manager: Option<Manager>)
    returns (declined: set<nat>)
    ensures forall i: nat :: i in declined <==> i < |calls| && MustDecline(resolve(calls[i]), manager)
    ensures var asks := manager.Some? && !manager.value.bypassActive;
      forall i: nat | i < |calls| ::
        i in declined <==> resolve(calls[i]) == Panics || (resolve(calls[i]) == Declared(true) && asks)
  {
    var consent: seq<nat>;
    consent, declined := IdentifyConsentItems(calls, resolve);
    if |consent| == 0 {
      assert forall i: nat | i < |calls| && Sensitive(resolve(calls[i])) :: i in consent;
      return;
    }
    if manager.Some? && !manager.value.bypassActive {
      ghost var panicked := declined;
      for k := 0 to |consent|
        invariant forall i: nat :: i in declined <==> i in panicked || i in consent[..k]
      {
        assert consent[..k + 1] == consent[..k] + [consent[k]];
        declined := declined + {consent[k]};
      }
      assert consent[..|consent|] == consent;
    }
  }

  predicate MustDecline(r: Resolution, manager: Option<Manager>) {
    r.Panics? || (Sensitive(r) && manager.Some? && !manager.value.bypassActive)
  }

  /** Consent safety: with a manager and no bypass, a call whose tool requires consent, or
      whose check panicked, is never handed to the runtime in any interleaving, and its slot
      holds the refusal in every state. */
  lemma {:induction false} ConsentSafety(p: Plan, bs: seq<Batch>, labels: seq<Step>,
          resolve: FunctionCall -> Resolution, bypass: Manager, i: nat)
    requires Setup(p, bs) && Exec(p, bs, labels).Some?
    requires forall k: nat :: k in p.declined <==> k < |p.calls| && MustDecline(resolve(p.calls[k]), Some(bypass))
    requires !bypass.bypassActive && i < |p.calls|
    requires Sensitive(resolve(p.calls[i])) || resolve(p.calls[i]).Panics?
    ensures var s := Exec(p, bs, labels).value;
      i !in s.started && i !in s.ran && i < |s.results| && s.results[i] == DECLINED
  {
    ReachableInv(p, bs, labels);
  }
}
