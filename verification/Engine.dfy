/** The engine as objects: a turn whose fields the phases update, a history that grows, and
    the loops that drive them, each proved to compute the functions of TurnSpec. */
module Engine {
  import opened Llm
  import opened LoopDetection
  import opened TurnSpec

  class History {
    var entries: seq<Content>

    constructor (entries: seq<Content>)
      ensures this.entries == entries
    {
      this.entries := entries;
    }

    /** Appends, or fails and appends nothing. */
    method AddContent(c: Content, failure: Option<Error>) returns (err: Option<Error>)
      modifies this
      ensures err == failure
      ensures entries == if failure.None? then old(entries) + [c] else old(entries)
    {
      if failure.None? { entries := entries + [c]; }
      err := failure;
    }
  }

  /** What the run did to the outside. */
  class Ledger {
    ghost var gatewayCalls: nat
    ghost var executed: seq<Content>

    constructor ()
      ensures gatewayCalls == 0 && executed == []
    {
      gatewayCalls, executed := 0, [];
    }
  }

  method ContainsToolCall(c: Content) returns (found: bool)
    ensures found == HasToolCalls(c)
  {
    for i := 0 to |c.parts|
      invariant forall k | 0 <= k < i :: c.parts[k].call.None?
    {
      if c.parts[i].call.Some? { return true; }
    }
    return false;
  }

  method ResponseIsEmpty(c: Content) returns (empty: bool)
    ensures empty == IsResponseEmpty(c)
  {
    for i := 0 to |c.parts|
      invariant forall k | 0 <= k < i :: c.parts[k].IsEmpty()
    {
      if !c.parts[i].IsEmpty() { return false; }
    }
    return true;
  }

  lemma SyntheticSnoc(calls: seq<FunctionCall>, c: FunctionCall)
    ensures SyntheticParts(calls + [c]) ==
      SyntheticParts(calls) + [ResponsePart(FunctionResponse(c.id, c.name, LOOP_WARNING))]
  {
  }

  method CollectSyntheticParts(c: Content) returns (synthetic: seq<Part>)
    ensures synthetic == SyntheticParts(Calls(c))
  {
    synthetic := [];
    for i := 0 to |c.parts|
      invariant synthetic == SyntheticParts(CallsOf(c.parts[..i]))
    {
      assert c.parts[..i + 1] == c.parts[..i] + [c.parts[i]];
      CallsOfConcat(c.parts[..i], [c.parts[i]]);
      assert [c.parts[i]][1..] == [];
      match c.parts[i].call {
        case None =>
        case Some(call) =>
          SyntheticSnoc(CallsOf(c.parts[..i]), call);
          synthetic := synthetic + [ResponsePart(FunctionResponse(call.id, call.name, LOOP_WARNING))];
      }
    }
    assert c.parts[..|c.parts|] == c.parts;
  }

  method TruncateOversizedResponse(c: Content, message: string) returns (cut: Content)
    ensures cut == Truncate(c, message)
  {
    var parts := c.parts;
    for i := 0 to |parts|
      invariant |parts| == |c.parts|
      invariant forall k | 0 <= k < |parts| :: parts[k] == if k < i then TruncatePart(c.parts[k], message)
        else c.parts[k]
    {
      if parts[i].response.Some? {
        parts := parts[i := parts[i].(response := Some(parts[i].response.value.(payload := message)))];
      }
    }
    assert parts == TruncateParts(c.parts, message);
    cut := c.(parts := parts);
  }

  class TurnRecord {
    const index: int
    const history: History
    const detector: LoopDetector
    const ledger: Ledger
    var phase: Phase
    var hasToolCalls: bool
    var response: Option<Content>
    var toolResponse: Option<Content>
    var lastError: Option<Error>
    var retryCount: nat
    var recoveryFromOverflow: bool

    ghost function World(): World
      reads history, detector, ledger
    {
      TurnSpec.World(history.entries, detector.View(), detector.seenRateLimit, ledger.gatewayCalls, ledger.executed)
    }

    ghost function View(): Turn
      reads this, history, detector, ledger
    {
      Turn(index, phase, hasToolCalls, response, toolResponse, lastError, retryCount, recoveryFromOverflow, World())
    }

    constructor (index: int, history: History, detector: LoopDetector, ledger: Ledger)
      ensures this.history == history && this.detector == detector && this.ledger == ledger
      ensures View() == FreshTurn(index, World())
    {
      this.index, this.history, this.detector, this.ledger := index, history, detector, ledger;
      phase, hasToolCalls, response, toolResponse := Guard, false, None, None;
      lastError, retryCount, recoveryFromOverflow := None, 0, false;
    }

    method ProcessGuard(cfg: Config, env: Env) returns (next: Option<Phase>, err: Option<Error>)
      ensures Outcome(View(), next, err) == GuardStep(cfg, View(), env)
    {
      if env.ctxErr.Some? { return None, env.ctxErr; }
      if index > cfg.maxToolTurns {
        return None, Some(Agent(Base(Terminal), "turn exceeds limit", Some(Base(MaxTurnsReached))));
      }
      if env.publishErr.Some? { return None, env.publishErr; }
      return Some(Refining), None;
    }

    method ProcessRefining(env: Env) returns (next: Option<Phase>, err: Option<Error>)
      ensures Outcome(View(), next, err) == RefineStep(View(), env)
    {
      if env.prepareErr.Some? { return None, Some(PhaseError("context preparation failed", env.prepareErr.value)); }
      return Some(Inference), None;
    }

    method InvokeModel(env: Env) returns (err: Option<Error>)
      modifies this, ledger
      ensures err == InferenceError(env)
      ensures var called := old(View()).(world := old(World()).(gatewayCalls := old(World()).gatewayCalls + 1));
        View() == if env.reply.Some? then called.(response := env.reply, hasToolCalls := HasToolCalls(env.reply.value))
          else called
    {
      ledger.gatewayCalls := ledger.gatewayCalls + 1;
      err := if env.replyErr.None? && env.reply.None? then Some(NIL_CONTENT) else env.replyErr;
      if env.reply.Some? {
        response := env.reply;
        hasToolCalls := ContainsToolCall(env.reply.value);
      }
      if err.None? {
        var empty := ResponseIsEmpty(env.reply.value);
        if empty { err := Some(EMPTY_CONTENT); }
      }
    }

    method ProcessInference(cfg: Config, env: Env) returns (next: Option<Phase>, err: Option<Error>)
      modifies this, history, detector, ledger
      ensures Outcome(View(), next, err) == InferStep(cfg, old(View()), env)
    {
      hide DetectStep, PhaseError, IsResponseEmpty, HasToolCalls;
      err := InvokeModel(env);
      if err.Some? { return None, Some(PhaseError("inference failed", err.value)); }
      next, err := DetectLoops(cfg, env);
    }

    /** The loop detector's middleware. */
    method DetectLoops(cfg: Config, env: Env) returns (next: Option<Phase>, err: Option<Error>)
      modifies this, history, detector
      ensures Outcome(View(), next, err) == DetectStep(cfg, old(View()), env)
    {
      if cfg.hasBus && response.Some? {
        var flagged := detector.DetectLoop(response.value);
        if flagged {
          next, err := HandleLoopBreak(env);
          return;
        }
      }
      return Some(if hasToolCalls then Executing else Persisting), None;
    }

    method HandleLoopBreak(env: Env) returns (next: Option<Phase>, err: Option<Error>)
      requires response.Some?
      modifies this, history
      ensures Outcome(View(), next, err) == LoopBreak(old(View()), env)
    {
      err := history.AddContent(response.value, env.firstAppendErr);
      if err.Some? { return None, err; }
      err := InjectSyntheticLoopFeedback(env);
      if err.Some? { return None, err; }
      response, toolResponse, hasToolCalls := None, None, true;
      return Some(Complete), None;
    }

    method InjectSyntheticLoopFeedback(env: Env) returns (err: Option<Error>)
      modifies history
      ensures err == if Feedback(View()).Some? then env.secondAppendErr else None
      ensures View() == if Feedback(old(View())).Some? && err.None?
        then Append(old(View()), Feedback(old(View())).value) else old(View())
    {
      if hasToolCalls && response.Some? {
        var synthetic := CollectSyntheticParts(response.value);
        if |synthetic| > 0 {
          err := history.AddContent(Content("", Tool, synthetic), env.secondAppendErr);
        } else {
          err := None;
        }
      } else {
        err := history.AddContent(WARNING, env.secondAppendErr);
      }
    }

    method ProcessExecution(cfg: Config, env: Env) returns (next: Option<Phase>, err: Option<Error>)
      requires hasToolCalls ==> response.Some?
      modifies this, ledger
      ensures Outcome(View(), next, err) == ExecuteStep(cfg, old(View()), env)
    {
      if !hasToolCalls { return Some(Persisting), None; }
      var reply, execErr := env.exec(response.value, index, cfg.maxToolTurns).0,
        env.exec(response.value, index, cfg.maxToolTurns).1;
      ledger.executed := ledger.executed + [response.value];
      if reply.Some? {
        toolResponse := reply;
        if env.oversized.Some? {
          var cut := TruncateOversizedResponse(reply.value, env.oversized.value);
          toolResponse := Some(cut);
        }
      }
      if execErr.Some? { return None, Some(PhaseError("tool execution failed", execErr.value)); }
      return Some(Persisting), None;
    }

    method ProcessPersistence(env: Env) returns (next: Option<Phase>, err: Option<Error>)
      modifies this, history
      ensures Outcome(View(), next, err) == PersistStep(old(View()), env)
    {
      if response.Some? {
        err := history.AddContent(response.value, env.firstAppendErr);
        if err.Some? { return None, Some(PhaseError("history error", err.value)); }
        response := None;
      }
      if toolResponse.Some? {
        err := history.AddContent(toolResponse.value, env.secondAppendErr);
        if err.Some? { return None, Some(PhaseError("failed to persist tool results", err.value)); }
        toolResponse := None;
      }
      return Some(Complete), None;
    }

    method Retry(env: Env) returns (next: Option<Phase>, err: Option<Error>)
      modifies this
      ensures Outcome(View(), next, err) == AttemptRetry(old(View()), env)
    {
      retryCount := retryCount + 1;
      if env.publishErr.Some? { return None, env.publishErr; }
      if env.ctxErr.Some? { return None, env.ctxErr; }
      return Some(Refining), None;
    }

    method ProcessRecovery(cfg: Config, env: Env) returns (next: Option<Phase>, err: Option<Error>)
      modifies this, detector
      ensures Outcome(View(), next, err) == RecoverStep(cfg, old(View()), env)
    {
      if lastError.None? { return Some(Complete), None; }
      var e := lastError.value;
      var category := Classify(e);
      if e.Is(EmptyResponse) {
        if retryCount < MAX_EMPTY_RETRIES {
          next, err := Retry(env);
          return;
        }
        return Some(Persisting), None;
      }
      match category {
        case RateLimited => detector.seenRateLimit := true;
        case AuthFailure => return Some(Complete), Some(e);
        case ContextOverflow =>
          if retryCount == 0 {
            retryCount, recoveryFromOverflow := 1, true;
            return Some(Refining), None;
          }
        case _ =>
      }
      if !ShouldRetry(cfg, e, retryCount) {
        return Some(Complete), Some(if e.IsTransient() then Wrap("max retries reached", e) else e);
      }
      next, err := Retry(env);
    }

    method Process(cfg: Config, env: Env) returns (next: Option<Phase>, err: Option<Error>)
      requires ReadyTurn(cfg, View()) && phase != Complete
      modifies this, history, detector, ledger
      ensures Outcome(View(), next, err) == StepOutcome(cfg, old(View()), env)
    {
      match phase {
        case Guard => next, err := ProcessGuard(cfg, env);
        case Refining => next, err := ProcessRefining(env);
        case Inference => next, err := ProcessInference(cfg, env);
        case Executing => next, err := ProcessExecution(cfg, env);
        case Persisting => next, err := ProcessPersistence(env);
        case Recovering => next, err := ProcessRecovery(cfg, env);
      }
    }

    method RunPhase(cfg: Config, env: Env) returns (err: Option<Error>)
      requires ReadyTurn(cfg, View()) && phase != Complete
      modifies this, history, detector, ledger
      ensures (View(), err) == ExecutePhase(cfg, old(View()), env)
    {
      var current := phase;
      var next: Option<Phase>;
      next, err := Process(cfg, env);
      if err.Some? { lastError := err; }
      phase := NextPhase(current, next, err);
    }

    method SaveInEmergency(env: Env)
      modifies this, history
      ensures View() == EmergencySave(old(View()), env)
    {
      if HasParts(response) || HasParts(toolResponse) {
        var _, _ := ProcessPersistence(env);
      }
    }

    /** runPhaseLoop; `k` is the next environment. */
    method RunPhaseLoop(cfg: Config, oracle: nat -> Env, k: nat) returns (err: Option<Error>, next: nat)
      requires ReadyTurn(cfg, View()) && Sane(oracle)
      modifies this, history, detector, ledger
      ensures var end := PhaseLoop(cfg, old(View()), oracle, k);
        View() == end.turn && err == end.err && next == end.next
    {
      next := k;
      ghost var end := PhaseLoop(cfg, View(), oracle, k);
      while phase != Complete
        invariant ReadyTurn(cfg, View())
        invariant var rest := PhaseLoop(cfg, View(), oracle, next);
          rest.turn == end.turn && rest.err == end.err && rest.next == end.next
        decreases Energy(cfg, View())
      {
        PhaseDecreases(cfg, View(), oracle(next));
        err := RunPhase(cfg, oracle(next));
        if err.Some? && phase == Complete {
          SaveInEmergency(oracle(next + 1));
          next := next + 2;
          return;
        }
        next := next + 1;
      }
      err := None;
    }
  }

  /** Run: a fresh turn for each index, one detector for the run. */
  method Run(cfg: Config, history: History, oracle: nat -> Env) returns (err: Option<Error>, ghost world: World)
    requires Sane(oracle)
    modifies history
    ensures var end := RunLoop(cfg, 0, TurnSpec.World(old(history.entries), FRESH, false, 0, []), oracle, 0);
      err == end.err && world == end.world && history.entries == end.world.history
  {
    hide PhaseLoop;
    var detector := new LoopDetector();
    var ledger := new Ledger();
    var turn := new TurnRecord(0, history, detector, ledger);
    var k := 0;
    var index := 0;
    ghost var end := RunLoop(cfg, 0, turn.World(), oracle, 0);
    while true
      invariant fresh(turn) && fresh(detector) && fresh(ledger)
      invariant turn.history == history && turn.detector == detector && turn.ledger == ledger
      invariant index <= Over(cfg) && turn.View() == FreshTurn(index, turn.World())
      invariant var rest := RunLoop(cfg, index, turn.World(), oracle, k);
        rest.world == end.world && rest.err == end.err
      decreases Over(cfg) - index
    {
      ghost var before := turn.World();
      ghost var start := k;
      err, k := turn.RunPhaseLoop(cfg, oracle, k);
      world := turn.World();
      if err.Some? { return; }
      if !turn.hasToolCalls { return; }
      if index > cfg.maxToolTurns { GuardStops(cfg, FreshTurn(index, before), oracle, start); }
      index := index + 1;
      turn := new TurnRecord(index, history, detector, ledger);
    }
  }
}
