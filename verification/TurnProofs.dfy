/** What a turn guarantees: how often it calls the gateway, what it saves, and that the
    history it leaves pairs every tool call with its answers. */
module TurnProofs {
  import opened Llm
  import opened LoopDetection
  import opened TurnSpec
  import opened PlanTheorems

  // ---------------------------------------------------------------- bounds

  function One(b: bool): nat { if b then 1 else 0 }

  /** The gateway calls a turn may still make. */
  function Allowance(cfg: Config, t: Turn): nat
    requires t.retryCount <= Budget(cfg)
  {
    Budget(cfg) - t.retryCount + One(t.phase in {Guard, Refining, Inference})
  }

  lemma PhaseSpends(cfg: Config, t: Turn, env: Env)
    requires ReadyTurn(cfg, t) && t.phase != Complete && ReadyTurn(cfg, ExecutePhase(cfg, t, env).0)
    ensures var t' := ExecutePhase(cfg, t, env).0;
      t'.world.gatewayCalls + Allowance(cfg, t') <= t.world.gatewayCalls + Allowance(cfg, t)
  {
    match t.phase
    case Inference => InferSpends(cfg, t, env);
    case Executing => ExecuteSpends(cfg, t, env);
    case Recovering => RecoverSpends(cfg, t, env);
    case _ =>
  }

  lemma RecoverSpends(cfg: Config, t: Turn, env: Env)
    requires t.retryCount <= Budget(cfg)
    ensures Recovers(cfg, t, RecoverStep(cfg, t, env))
    ensures RecoverStep(cfg, t, env).turn.world.gatewayCalls == t.world.gatewayCalls
  {
    hide Classify, ShouldRetry, Error.IsTransient, Recovers;
    RecoverCases(cfg, t, env);
  }

  lemma InferSpends(cfg: Config, t: Turn, env: Env)
    ensures var o := InferStep(cfg, t, env);
      && o.turn.world.gatewayCalls == t.world.gatewayCalls + 1
      && o.turn.retryCount == t.retryCount
      && (o.err.None? ==> o.next.Some? && o.next.value in {Executing, Persisting, Complete})
  {
    hide DetectStep, PhaseError, IsResponseEmpty, HasToolCalls;
    if InferenceError(env).None? {
      var called := t.(world := t.world.(gatewayCalls := t.world.gatewayCalls + 1));
      DetectSpends(cfg, called.(response := env.reply, hasToolCalls := HasToolCalls(env.reply.value)), env);
    }
  }

  lemma DetectSpends(cfg: Config, t: Turn, env: Env)
    ensures var o := DetectStep(cfg, t, env);
      && o.turn.world.gatewayCalls == t.world.gatewayCalls
      && o.turn.retryCount == t.retryCount
      && (o.err.None? ==> o.next.Some? && o.next.value in {Executing, Persisting, Complete})
  {
    var (detector, flagged) := Detect(t.world.detector, if t.response.Some? then t.response.value else WARNING);
    LoopBreakSpends(t.(world := t.world.(detector := detector)), env);
  }

  lemma LoopBreakSpends(t: Turn, env: Env)
    ensures var o := LoopBreak(t, env);
      && o.turn.world.gatewayCalls == t.world.gatewayCalls
      && o.turn.retryCount == t.retryCount
      && (o.err.None? ==> o.next == Some(Complete))
  {
  }

  lemma ExecuteSpends(cfg: Config, t: Turn, env: Env)
    requires t.response.Some?
    ensures var o := ExecuteStep(cfg, t, env);
      && o.turn.world.gatewayCalls == t.world.gatewayCalls
      && o.turn.retryCount == t.retryCount
      && (o.err.None? ==> o.next == Some(Persisting))
  {
  }

  /** The phase loop terminates for every behaviour of the outside, within a number of
      phases that the limits fix, and calls the gateway at most once per retry and once
      more. */
  lemma {:induction false} TurnBounds(cfg: Config, t: Turn, oracle: nat -> Env, k: nat)
    requires ReadyTurn(cfg, t) && Sane(oracle)
    ensures PhaseLoop(cfg, t, oracle, k).phases <= Energy(cfg, t)
    ensures PhaseLoop(cfg, t, oracle, k).turn.world.gatewayCalls <= t.world.gatewayCalls + Allowance(cfg, t)
    decreases Energy(cfg, t)
  {
    if t.phase != Complete {
      PhaseDecreases(cfg, t, oracle(k));
      PhaseSpends(cfg, t, oracle(k));
      var (t', err) := ExecutePhase(cfg, t, oracle(k));
      if !(err.Some? && t'.phase == Complete) { TurnBounds(cfg, t', oracle, k + 1); }
    }
  }

  /** A fresh turn: at most 8 phases for each retry, and 7 more. */
  lemma {:induction false} FreshTurnBounds(cfg: Config, index: int, world: World, oracle: nat -> Env, k: nat)
    requires Sane(oracle)
    ensures var end := PhaseLoop(cfg, FreshTurn(index, world), oracle, k);
      && end.phases <= 8 * Budget(cfg) + 7
      && end.turn.world.gatewayCalls <= world.gatewayCalls + 1 + Budget(cfg)
  {
    TurnBounds(cfg, FreshTurn(index, world), oracle, k);
  }

  function Multiply(n: nat, b: nat): nat { if n == 0 then 0 else b + Multiply(n - 1, b) }

  lemma {:induction false} MultiplyIs(n: nat, b: nat)
    ensures Multiply(n, b) == n * b
  {
    if n > 0 { MultiplyIs(n - 1, b); }
  }

  lemma {:induction false} RunSpends(cfg: Config, index: int, world: World, oracle: nat -> Env, k: nat)
    requires Sane(oracle) && index <= Over(cfg)
    ensures RunLoop(cfg, index, world, oracle, k).turns <= Over(cfg) + 1 - index
    ensures RunLoop(cfg, index, world, oracle, k).world.gatewayCalls
      <= world.gatewayCalls + Multiply(Over(cfg) - index, 1 + Budget(cfg))
    decreases Over(cfg) - index
  {
    var end := PhaseLoop(cfg, FreshTurn(index, world), oracle, k);
    if index > cfg.maxToolTurns {
      GuardStops(cfg, FreshTurn(index, world), oracle, k);
    } else {
      FreshTurnBounds(cfg, index, world, oracle, k);
      if !(end.err.Some? || ShouldStopRunning(end.turn)) {
        RunSpends(cfg, index + 1, end.turn.world, oracle, end.next);
      }
    }
  }

  /** The whole run: at most M + 2 turns, and (M + 1)(1 + max(MaxRetries, 3)) gateway calls,
      loop breaks and overflow retries included; one turn and no call when M < 0. */
  lemma {:induction false} RunBounds(cfg: Config, world: World, oracle: nat -> Env)
    requires Sane(oracle)
    ensures var end := RunLoop(cfg, 0, world, oracle, 0);
      && end.turns <= Over(cfg) + 1
      && end.world.gatewayCalls <= world.gatewayCalls + Over(cfg) * (1 + Budget(cfg))
  {
    RunSpends(cfg, 0, world, oracle, 0);
    MultiplyIs(Over(cfg), 1 + Budget(cfg));
  }

  // ---------------------------------------------------------------- persistence

  function Listed(c: Option<Content>): seq<Content> { if c.Some? then [c.value] else [] }

  /** What a turn still has to save, in order. */
  function Pending(t: Turn): seq<Content> { Listed(t.response) + Listed(t.toolResponse) }

  /** Whatever appends fail, saving moves messages from pending to the history in order:
      none is lost, repeated or reordered. */
  lemma PersistConserves(t: Turn, env: Env)
    ensures var o := PersistStep(t, env);
      && o.turn.world.history + Pending(o.turn) == t.world.history + Pending(t)
      && (o.err.None? <==> Pending(o.turn) == [])
  {
    var h, o := t.world.history, PersistStep(t, env);
    if t.response.Some? && env.firstAppendErr.None? {
      assert h + Pending(t) == h + [t.response.value] + Listed(t.toolResponse);
    }
  }

  /** Persisting, then the emergency save if that failed: the two passes together append a
      prefix of what was pending, each message at most once, and all of it exactly when the
      first pass succeeded or the second was entered and met no error. */
  lemma PersistThenSave(t: Turn, first: Env, second: Env)
    ensures var o := PersistStep(t, first);
      var end := if o.err.Some? then EmergencySave(o.turn, second) else o.turn;
      && end.world.history + Pending(end) == t.world.history + Pending(t)
      && (end.world.history == t.world.history + Pending(t) <==>
            || o.err.None?
            || ((HasParts(o.turn.response) || HasParts(o.turn.toolResponse)) && PersistStep(o.turn, second).err.None?))
  {
    var o := PersistStep(t, first);
    PersistConserves(t, first);
    PersistConserves(o.turn, second);
    var end := if o.err.Some? then EmergencySave(o.turn, second) else o.turn;
    assert |end.world.history| + |Pending(end)| == |t.world.history + Pending(t)|;
    if Pending(end) == [] { assert end.world.history + [] == end.world.history; }
  }

  /** The loop break is not idempotent in this way: it clears nothing until both appends
      are done. Followed by the emergency save it leaves the response in the history twice
      exactly when the feedback could not be appended and the save could append. */
  lemma LoopBreakThenSave(t: Turn, first: Env, second: Env)
    requires HasParts(t.response) && t.toolResponse.None? && Feedback(t).Some?
    ensures var o := LoopBreak(t, first);
      var end := if o.err.Some? then EmergencySave(o.turn, second) else o.turn;
      var r := t.response.value;
      && (end.world.history == t.world.history + [r, r] <==>
            || (first.firstAppendErr.None? && first.secondAppendErr.Some? && second.firstAppendErr.None?)
            || (o.err.None? && Feedback(t).value == r))
      && (first.firstAppendErr.Some? ==>
        end.world.history == t.world.history + (if second.firstAppendErr.None? then [r] else []))
  {
    var h, r := t.world.history, t.response.value;
    var o := LoopBreak(t, first);
    var end := if o.err.Some? then EmergencySave(o.turn, second) else o.turn;
    assert h + [r] + [r] == h + [r, r];
    assert |h + [r, r]| == |h| + 2;
    if o.err.None? {
      assert end.world.history == h + [r] + [Feedback(t).value] == h + [r, Feedback(t).value];
      assert end.world.history[|h| + 1] == Feedback(t).value && (h + [r, r])[|h| + 1] == r;
    }
  }

  // ---------------------------------------------------------------- pairing

  /** Every message with calls is followed by a message that answers exactly those calls. */
  ghost predicate AllAnswered(history: seq<Content>) {
    forall i | 0 <= i < |history| && Calls(history[i]) != [] ::
      i + 1 < |history| && Answers(history[i + 1], history[i])
  }

  /** What a turn may append. */
  ghost predicate PairedChunk(chunk: seq<Content>) {
    || (|chunk| == 1 && Calls(chunk[0]) == [])
    || (|chunk| == 2 && Calls(chunk[0]) != [] && Answers(chunk[1], chunk[0]) && Calls(chunk[1]) == [])
    || (|chunk| == 2 && Calls(chunk[0]) == [] && chunk[1] == WARNING)
  }

  /** The executor is the Dispatcher. */
  ghost predicate DispatcherEnv(env: Env) {
    forall c, i, m :: DispatcherReply(c, i, m, env.exec(c, i, m).0, env.exec(c, i, m).1)
  }

  ghost predicate Dispatched(oracle: nat -> Env) { Sane(oracle) && forall k :: DispatcherEnv(oracle(k)) }

  ghost predicate Clean(h: seq<Content>, t: Turn) { t.world.history == h && t.toolResponse.None? }

  ghost predicate Paired(r: Content, m: Option<Content>) {
    if Calls(r) == [] then m.None? else m.Some? && Answers(m.value, r) && Calls(m.value) == []
  }

  ghost predicate PairInv(h: seq<Content>, t: Turn) {
    match t.phase
    case Executing => Clean(h, t) && t.hasToolCalls && t.response.Some? && Calls(t.response.value) != []
    case Persisting => t.world.history == h && t.response.Some? && Paired(t.response.value, t.toolResponse)
    case Recovering =>
      t.lastError.Some? && (HopelessError(t.lastError.value) || (Clean(h, t) && EmptyHasNoCalls(t)))
    case Complete => exists chunk :: PairedChunk(chunk) && t.world.history == h + chunk
    case _ => Clean(h, t)
  }

  ghost predicate EmptyHasNoCalls(t: Turn) {
    t.lastError.Some? && t.lastError.value.Is(EmptyResponse) ==> t.response.Some? && Calls(t.response.value) == []
  }

  lemma {:induction false} TruncateKeeps(parts: seq<Part>, message: string)
    ensures AnswersOf(TruncateParts(parts, message)) == AnswersOf(parts)
    ensures CallsOf(TruncateParts(parts, message)) == CallsOf(parts)
  {
    if parts != [] {
      TruncateKeeps(parts[1..], message);
      assert TruncateParts(parts, message)[1..] == TruncateParts(parts[1..], message);
    }
  }

  lemma {:induction false} SyntheticAnswers(calls: seq<FunctionCall>)
    ensures AnswersOf(SyntheticParts(calls)) == Asked(calls) && CallsOf(SyntheticParts(calls)) == []
  {
    if calls != [] {
      SyntheticAnswers(calls[1..]);
      assert SyntheticParts(calls)[1..] == SyntheticParts(calls[1..]);
      assert Asked(calls) == [(calls[0].id, calls[0].name)] + Asked(calls[1..]);
    }
  }

  lemma EmptyNoCalls(c: Content)
    requires IsResponseEmpty(c)
    ensures Calls(c) == []
  {
    HasToolCallsIff(c);
  }

  lemma ExecutePairs(cfg: Config, h: seq<Content>, t: Turn, env: Env)
    requires t.phase == Executing && PairInv(h, t) && SaneEnv(env) && DispatcherEnv(env)
    ensures PairInv(h, Land(t, ExecuteStep(cfg, t, env)))
  {
    var r := t.response.value;
    var err := env.exec(r, t.index, cfg.maxToolTurns).1;
    DispatcherAnswers(cfg, t, env);
    if err.Some? {
      var t' := Land(t, ExecuteStep(cfg, t, env));
      assert t'.phase == Recovering && t'.lastError == Some(PhaseError("tool execution failed", err.value));
    }
  }

  /** What executing leaves: an error past hope, or the answers to the response's calls. */
  lemma DispatcherAnswers(cfg: Config, t: Turn, env: Env)
    requires t.response.Some? && t.hasToolCalls && t.toolResponse.None? && Calls(t.response.value) != [] &&
      DispatcherEnv(env)
    ensures var o := ExecuteStep(cfg, t, env);
      var err := env.exec(t.response.value, t.index, cfg.maxToolTurns).1;
      && o.turn.world.history == t.world.history && o.turn.response == t.response
      && (if err.Some? then o.err == Some(PhaseError("tool execution failed", err.value)) && HopelessError(o.err.value)
          else o.err.None? && o.next == Some(Persisting))
      && (err.None? || t.index < cfg.maxToolTurns ==> Paired(t.response.value, o.turn.toolResponse))
  {
    var r := t.response.value;
    var (reply, err) := env.exec(r, t.index, cfg.maxToolTurns);
    assert DispatcherReply(r, t.index, cfg.maxToolTurns, reply, err);
    if err.Some? { DispatcherErrorHopeless(err.value); }
    if reply.Some? { TruncatedStillPaired(r, reply.value, env.oversized); }
  }

  /** What executing stores: the reply, with every payload replaced if it is oversized, whatever
      error comes with it; and the response is handed over once. */
  lemma ExecuteStores(cfg: Config, t: Turn, env: Env)
    requires t.hasToolCalls && t.response.Some?
    ensures var (o, reply) := (ExecuteStep(cfg, t, env), env.exec(t.response.value, t.index, cfg.maxToolTurns).0);
      && o.turn.world.executed == t.world.executed + [t.response.value] && o.turn.response == t.response
      && (reply.None? ==> o.turn.toolResponse == t.toolResponse)
      && (reply.Some? && env.oversized.None? ==> o.turn.toolResponse == reply)
      && (reply.Some? && env.oversized.Some? ==> AllReplaced(reply.value, o.turn.toolResponse, env.oversized.value))
  {
    hide PhaseError, Truncate;
    var reply := env.exec(t.response.value, t.index, cfg.maxToolTurns).0;
    if reply.Some? && env.oversized.Some? { TruncateExactly(reply.value, env.oversized.value); }
  }

  predicate AllReplaced(c: Content, cut: Option<Content>, message: string) {
    && cut.Some? && |cut.value.parts| == |c.parts|
    && forall i | 0 <= i < |c.parts| ::
         && c.parts[i].response.Some? == cut.value.parts[i].response.Some?
         && (c.parts[i].response.Some? ==> cut.value.parts[i].response.value.payload == message)
  }

  lemma TruncatedStillPaired(r: Content, reply: Content, oversized: Option<string>)
    requires Calls(r) != [] && Answers(reply, r) && Calls(reply) == []
    ensures Paired(r, Some(if oversized.Some? then Truncate(reply, oversized.value) else reply))
  {
    if oversized.Some? { TruncateKeeps(reply.parts, oversized.value); }
  }

  lemma DispatcherErrorHopeless(e: Error)
    requires ContextError(e) || e == Base(MaxTurnsReached)
    ensures HopelessError(PhaseError("tool execution failed", e))
  {
    assert forall s: Sentinel :: e.Is(s) == (s == e.sentinel);
    Hopeless("tool execution failed", e);
  }

  /** Wrapped by a phase, an error that is neither transient, empty nor an overflow is past
      hope. */
  lemma {:induction false} Hopeless(message: string, e: Error)
    requires !e.IsTransient() && !e.Is(EmptyResponse) && !e.Is(ContextLimitExceeded) && !e.Is(BudgetExceeded)
    ensures HopelessError(PhaseError(message, e))
  {
    PhaseErrorTransparent(message, e);
    var w := PhaseError(message, e);
    assert w.category == Base(Terminal);
    assert !w.category.Is(ContextLimitExceeded) && !w.category.Is(BudgetExceeded);
  }

  lemma PersistPairs(h: seq<Content>, t: Turn, env: Env)
    requires t.phase == Persisting && PairInv(h, t) && SaneEnv(env)
    ensures PairInv(h, Land(t, PersistStep(t, env)))
  {
    hide Calls, Answers, PhaseError, HopelessError, StoreError;
    var o := PersistStep(t, env);
    if o.err.Some? {
      PersistFailsHopeless(t, env);
    } else {
      PersistConserves(t, env);
      assert PairedChunk(Pending(t)) && o.turn.world.history == h + Pending(t);
    }
  }

  lemma PersistFailsHopeless(t: Turn, env: Env)
    requires SaneEnv(env) && PersistStep(t, env).err.Some?
    ensures HopelessError(PersistStep(t, env).err.value)
  {
    if env.firstAppendErr.Some? { Hopeless("history error", env.firstAppendErr.value); }
    if env.secondAppendErr.Some? { Hopeless("failed to persist tool results", env.secondAppendErr.value); }
  }

  lemma LoopBreakPairs(h: seq<Content>, t: Turn, env: Env)
    requires t.phase == Inference && Clean(h, t) && t.response.Some? && SaneEnv(env)
    requires t.hasToolCalls == HasToolCalls(t.response.value)
    ensures PairInv(h, Land(t, LoopBreak(t, env)))
  {
    hide AnswersOf, CallsOf, Asked;
    var r := t.response.value;
    HasToolCallsIff(r);
    var o := LoopBreak(t, env);
    if o.err.None? {
      SyntheticAnswers(Calls(r));
      var chunk := [r, Feedback(t).value];
      assert PairedChunk(chunk) && o.turn.world.history == h + chunk;
    }
  }

  /** With both appends fine, a loop break saves the response and a message that gives each of
      its calls the warning for an answer; or, without calls, the warning itself. */
  lemma LoopBreakTells(t: Turn, env: Env)
    requires t.response.Some? && t.hasToolCalls == HasToolCalls(t.response.value)
    requires env.firstAppendErr.None? && env.secondAppendErr.None?
    ensures var (r, o) := (t.response.value, LoopBreak(t, env));
      && o.err.None? && |o.turn.world.history| == |t.world.history| + 2
      && o.turn.world.history[..|t.world.history| + 1] == t.world.history + [r]
      && var m := o.turn.world.history[|t.world.history| + 1];
         if Calls(r) == [] then m == Content("", User, [TextPart(LOOP_WARNING)])
         else
           && m.role == Tool && |m.parts| == |Calls(r)|
           && forall i | 0 <= i < |m.parts| ::
                m.parts[i] == ResponsePart(FunctionResponse(Calls(r)[i].id, Calls(r)[i].name, LOOP_WARNING))
  {
    hide Calls;
    HasToolCallsIff(t.response.value);
  }

  /** Only an empty reply gives the error of an empty response. */
  lemma EmptyMarkMeansEmpty(env: Env)
    requires SaneEnv(env) && InferenceError(env).Some?
    ensures InferenceError(env).value.Is(EmptyResponse) ==> env.reply.Some? && Calls(env.reply.value) == []
  {
    hide Calls, ContextError;
    assert NIL_CONTENT.Is(EmptyResponse) == NIL_CONTENT.category.Is(EmptyResponse) == false;
    if env.reply.Some? && IsResponseEmpty(env.reply.value) { EmptyNoCalls(env.reply.value); }
  }

  lemma FailedInferPairs(cfg: Config, h: seq<Content>, t: Turn, env: Env)
    requires t.phase == Inference && Clean(h, t) && SaneEnv(env) && InferenceError(env).Some?
    ensures PairInv(h, Land(t, InferStep(cfg, t, env)))
  {
    hide DetectStep, Calls, PhaseError, InferenceError, SaneEnv, HasToolCalls, HopelessError;
    PhaseErrorTransparent("inference failed", InferenceError(env).value);
    EmptyMarkMeansEmpty(env);
  }

  lemma InferPairs(cfg: Config, h: seq<Content>, t: Turn, env: Env)
    requires t.phase == Inference && PairInv(h, t) && SaneEnv(env)
    ensures PairInv(h, Land(t, InferStep(cfg, t, env)))
  {
    hide Detect, LoopBreak, Calls, PhaseError;
    if InferenceError(env).Some? {
      FailedInferPairs(cfg, h, t, env);
    } else {
      var r := env.reply.value;
      HasToolCallsIff(r);
      var called := t.(world := t.world.(gatewayCalls := t.world.gatewayCalls + 1));
      var updated := called.(response := env.reply, hasToolCalls := HasToolCalls(r));
      if cfg.hasBus {
        var (detector, flagged) := Detect(updated.world.detector, r);
        var seen := updated.(world := updated.world.(detector := detector));
        if flagged { LoopBreakPairs(h, seen, env); }
      }
    }
  }

  lemma RecoverPairs(cfg: Config, h: seq<Content>, t: Turn, env: Env)
    requires ReadyTurn(cfg, t) && t.phase == Recovering && PairInv(h, t) && SaneEnv(env)
    ensures var o := RecoverStep(cfg, t, env); o.err.Some? || PairInv(h, Land(t, o))
  {
    if HopelessError(t.lastError.value) { FatalEnds(cfg, t, env); }
  }

  lemma EarlyPairs(cfg: Config, h: seq<Content>, t: Turn, env: Env)
    requires (t.phase == Guard || t.phase == Refining) && PairInv(h, t) && SaneEnv(env) && ReadyTurn(cfg, t)
    ensures PairInv(h, Land(t, StepOutcome(cfg, t, env)))
  {
    if env.prepareErr.Some? { PhaseErrorTransparent("context preparation failed", env.prepareErr.value); }
    var limit := Base(MaxTurnsReached);
    var e := Agent(Base(Terminal), "turn exceeds limit", Some(limit));
    assert e.Is(EmptyResponse) == (e.category.Is(EmptyResponse) || limit.Is(EmptyResponse)) == false;
  }

  lemma PhasePairs(cfg: Config, h: seq<Content>, t: Turn, env: Env)
    requires ReadyTurn(cfg, t) && t.phase != Complete && PairInv(h, t) && SaneEnv(env) && DispatcherEnv(env)
    ensures (StepOutcome(cfg, t, env).err.Some? && t.phase == Recovering) ||
      PairInv(h, Land(t, StepOutcome(cfg, t, env)))
  {
    match t.phase
    case Inference => InferPairs(cfg, h, t, env);
    case Executing => ExecutePairs(cfg, h, t, env);
    case Persisting => PersistPairs(h, t, env);
    case Recovering => RecoverPairs(cfg, h, t, env);
    case _ => EarlyPairs(cfg, h, t, env);
  }

  lemma {:induction false} LoopPairs(cfg: Config, h: seq<Content>, t: Turn, oracle: nat -> Env, k: nat)
    requires ReadyTurn(cfg, t) && Dispatched(oracle) && PairInv(h, t)
    ensures var end := PhaseLoop(cfg, t, oracle, k);
      end.err.None? ==> exists chunk :: PairedChunk(chunk) && end.turn.world.history == h + chunk
    decreases Energy(cfg, t)
  {
    if t.phase != Complete {
      PhaseDecreases(cfg, t, oracle(k));
      PhasePairs(cfg, h, t, oracle(k));
      var (t', err) := ExecutePhase(cfg, t, oracle(k));
      if !(err.Some? && t'.phase == Complete) { LoopPairs(cfg, h, t', oracle, k + 1); }
    }
  }

  /** Under the Dispatcher, a turn that ends without error appends one response without
      calls, a response and the message that answers exactly its calls, or a repeated
      response and the warning; retries, truncation and loop breaks included. */
  lemma TurnIsPaired(cfg: Config, index: int, world: World, oracle: nat -> Env, k: nat) returns (chunk: seq<Content>)
    requires Dispatched(oracle) && PhaseLoop(cfg, FreshTurn(index, world), oracle, k).err.None?
    ensures PairedChunk(chunk)
    ensures PhaseLoop(cfg, FreshTurn(index, world), oracle, k).turn.world.history == world.history + chunk
  {
    LoopPairs(cfg, world.history, FreshTurn(index, world), oracle, k);
    chunk :| PairedChunk(chunk) &&
      PhaseLoop(cfg, FreshTurn(index, world), oracle, k).turn.world.history == world.history + chunk;
  }

  lemma WarningHasNoCalls()
    ensures Calls(WARNING) == []
  {
    var parts := WARNING.parts;
    assert parts[1..] == [];
    assert CallsOf(parts) == CallOf(parts[0]) + CallsOf(parts[1..]);
  }

  lemma AnsweredConcat(h: seq<Content>, chunk: seq<Content>)
    requires AllAnswered(h)
    ensures AllAnswered(h + chunk) <==> AllAnswered(chunk)
  {
    hide Answers, Calls;
    var all := h + chunk;
    assert forall i | 0 <= i < |h| :: all[i] == h[i];
    assert forall i | 0 <= i < |chunk| :: all[|h| + i] == chunk[i];
    if AllAnswered(chunk) {
      forall i | 0 <= i < |all| && Calls(all[i]) != []
        ensures i + 1 < |all| && Answers(all[i + 1], all[i])
      {
        if i >= |h| { assert all[i] == chunk[i - |h|]; }
      }
    }
    if AllAnswered(all) {
      forall i | 0 <= i < |chunk| && Calls(chunk[i]) != []
        ensures i + 1 < |chunk| && Answers(chunk[i + 1], chunk[i])
      {
        assert all[|h| + i] == chunk[i];
      }
    }
  }

  lemma PairedIsAnswered(chunk: seq<Content>)
    requires PairedChunk(chunk)
    ensures AllAnswered(chunk)
  {
    hide Answers, Calls;
    WarningHasNoCalls();
  }

  lemma ChunkKeepsAnswered(h: seq<Content>, chunk: seq<Content>)
    requires AllAnswered(h) && PairedChunk(chunk)
    ensures AllAnswered(h + chunk)
  {
    PairedIsAnswered(chunk);
    AnsweredConcat(h, chunk);
  }

  /** A whole run that ends without error appends something, and keeps every tool call
      answered. */
  lemma {:induction false} RunKeepsAnswered(cfg: Config, index: int, world: World, oracle: nat -> Env, k: nat)
    returns (more: seq<Content>)
    requires Dispatched(oracle) && index <= Over(cfg) && AllAnswered(world.history)
    requires RunLoop(cfg, index, world, oracle, k).err.None?
    ensures RunLoop(cfg, index, world, oracle, k).world.history == world.history + more && more != []
    ensures AllAnswered(world.history + more)
    decreases Over(cfg) - index
  {
    hide AllAnswered, PairedChunk, PhaseLoop, DispatcherEnv;
    var end := PhaseLoop(cfg, FreshTurn(index, world), oracle, k);
    more := TurnIsPaired(cfg, index, world, oracle, k);
    ChunkKeepsAnswered(world.history, more);
    if !ShouldStopRunning(end.turn) {
      if index > cfg.maxToolTurns { GuardStops(cfg, FreshTurn(index, world), oracle, k); }
      var rest := RunKeepsAnswered(cfg, index + 1, end.turn.world, oracle, end.next);
      assert (world.history + more) + rest == world.history + (more + rest);
      more := more + rest;
    }
  }

  /** Cancelled while its tools run, a turn ends with an error, but the emergency save still
      leaves the response and the message that answers all its calls. */
  lemma CancelledToolsAreSaved(cfg: Config, t: Turn, oracle: nat -> Env, k: nat)
    requires ReadyTurn(cfg, t) && Dispatched(oracle) && t.phase == Executing && t.hasToolCalls
    requires t.toolResponse.None? && Calls(t.response.value) != [] && t.index < cfg.maxToolTurns
    requires oracle(k).exec(t.response.value, t.index, cfg.maxToolTurns).1.Some?
    requires oracle(k + 2).firstAppendErr.None? && oracle(k + 2).secondAppendErr.None?
    ensures var end := PhaseLoop(cfg, t, oracle, k);
      && end.err.Some?
      && |end.turn.world.history| == |t.world.history| + 2
      && end.turn.world.history[..|t.world.history| + 1] == t.world.history + [t.response.value]
      && Answers(end.turn.world.history[|t.world.history| + 1], t.response.value)
  {
    hide Calls, Answers, PhaseError, EmergencySave, HopelessError;
    var t' := ExecutePhase(cfg, t, oracle(k)).0;
    assert DispatcherEnv(oracle(k)) && SaneEnv(oracle(k)) && SaneEnv(oracle(k + 1));
    DispatcherAnswers(cfg, t, oracle(k));
    PhaseDecreases(cfg, t, oracle(k));
    FatalEnds(cfg, t', oracle(k + 1));
    PhaseDecreases(cfg, t', oracle(k + 1));
    SavesBoth(t'.(phase := Complete), oracle(k + 2));
  }

  lemma SavesBoth(t: Turn, env: Env)
    requires t.response.Some? && t.toolResponse.Some? && Calls(t.response.value) != []
    requires env.firstAppendErr.None? && env.secondAppendErr.None?
    ensures EmergencySave(t, env).world.history == t.world.history + [t.response.value] + [t.toolResponse.value]
  {
  }
}
